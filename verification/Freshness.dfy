/** Downstream results are fresh: the run a stage shows was made from what CollectStageData
    would return now, unless some earlier stage still has work to do. */
module Freshness {
  import opened Wrappers
  import opened Pipeline

  ghost predicate DoneBelow(jobs: Jobs, j: nat) {
    forall i | i in jobs && i < j :: jobs[i].status.Done?
  }

  /** The part of the stage data that comes from stages before j. */
  ghost function Below(data: StageData, j: nat): StageData {
    map i | i in data && i < j :: data[i]
  }

  ghost predicate FreshAt(jobs: Jobs, j: nat, data: StageData) {
    DoneBelow(jobs, j) ==> Below(data, j) == Below(Collect(jobs), j)
  }

  /** The job shows a result: it is done, or parked for review of one, and has a run. */
  ghost predicate Shows(job: Job) {
    (job.status.Done? || (job.status.Waiting? && job.park.Review?)) && |job.runs| > 0
  }

  ghost predicate Fresh(jobs: Jobs) {
    forall j | j in jobs && Shows(jobs[j]) :: FreshAt(jobs, j, jobs[j].shown)
  }

  /** The companion for a job in flight: what it collected at its start is still current
      as long as nobody took the job's status away. */
  ghost predicate FlightFresh(jobs: Jobs, k: nat, data: StageData) {
    k in jobs && jobs[k].status.Running? ==> FreshAt(jobs, k, data)
  }

  ghost predicate SameBelow(a: Jobs, b: Jobs, j: nat) {
    forall i | i < j && (i in a || i in b) :: i in a && i in b && a[i] == b[i]
  }

  /** Freshness at j carries over when the stages before j are untouched or not all done. */
  lemma FreshAtCarries(a: Jobs, b: Jobs, j: nat, data: StageData)
    requires FreshAt(a, j, data)
    requires DoneBelow(b, j) ==> SameBelow(a, b, j)
    ensures FreshAt(b, j, data)
  {
    if DoneBelow(b, j) {
      forall i | i in a && i < j ensures a[i].status.Done? {
        assert i in b && a[i] == b[i];
      }
      assert Below(Collect(a), j) == Below(Collect(b), j);
    }
  }

  /** The user steps the promise is made for: approving a job that shows a result, or has
      none to show, or is behind a stage that still has work to do; patching a run only while
      its job waits. Every other user step is unrestricted. */
  ghost predicate VettedUser(jobs: Jobs, u: UserStep) {
    && (u.PutStatus? && u.target.Done? && u.stage in jobs && jobs[u.stage].status.Waiting?
        ==> jobs[u.stage].park.Review? || jobs[u.stage].runs == [] || !DoneBelow(jobs, u.stage))
    && (u.PatchRun? && u.stage in jobs ==> jobs[u.stage].status.Waiting?)
  }

  lemma PutBelow(n: nat, first: nat, a: Jobs, i: nat, target: Status, j: nat)
    requires Shape(n, first, a) && j in PutJobStatus(n, a, i, target)
      && !PutJobStatus(n, a, i, target)[j].status.Pending?
    requires forall k | k in PutJobStatus(n, a, i, target) :: first <= k < n
    ensures DoneBelow(PutJobStatus(n, a, i, target), j) ==> SameBelow(a, PutJobStatus(n, a, i, target), j)
  {
    var b := PutJobStatus(n, a, i, target);
    if i in a && i < j && ValidTransition(a[i].status, target) {
      if target.Done? {
        assert i + 1 in b && !b[i + 1].status.Done?;
      } else {
        assert !b[i].status.Done?;
      }
    }
  }

  lemma WakeBelow(a: Jobs, j: nat)
    ensures DoneBelow(WakeWaiting(a), j) ==> SameBelow(a, WakeWaiting(a), j)
  {
    var b := WakeWaiting(a);
    if DoneBelow(b, j) {
      forall i | i < j && (i in a || i in b) ensures i in a && i in b && a[i] == b[i] {
        assert b[i].status.Done?;
      }
    }
  }

  lemma EditBelow(n: nat, first: nat, a: Jobs, i: nat, field: string, content: string, j: nat)
    requires Shape(n, first, a) && j in EditStage(n, a, i, field, content)
      && !EditStage(n, a, i, field, content)[j].status.Pending?
    ensures SameBelow(a, EditStage(n, a, i, field, content), j)
  {
    if j in a { assert j < n; }
  }

  lemma PatchBelow(a: Jobs, i: nat, r: nat, field: string, content: string, j: nat)
    requires i in a ==> a[i].status.Waiting?
    ensures DoneBelow(EditRun(a, i, r, field, content), j) ==> SameBelow(a, EditRun(a, i, r, field, content), j)
  {
    var b := EditRun(a, i, r, field, content);
    if i in a && i < j { assert i in b && !b[i].status.Done?; }
  }

  /** Whatever a user does, a later job that is not re-queued by it sees the earlier stages
      unchanged, or sees one of them with work to do. */
  lemma UserBelow(n: nat, first: nat, a: Jobs, u: UserStep, j: nat)
    requires Shape(n, first, a) && VettedUser(a, u)
    requires j in ApplyUser(n, a, u) && !ApplyUser(n, a, u)[j].status.Pending?
    ensures DoneBelow(ApplyUser(n, a, u), j) ==> SameBelow(a, ApplyUser(n, a, u), j)
  {
    UserKeepsShape(n, first, a, u);
    hide PutJobStatus, EditStage, EditRun, WakeWaiting;
    match u
    case PutStatus(i, target) => PutBelow(n, first, a, i, target, j);
    case EditOutput(i, field, content) => EditBelow(n, first, a, i, field, content, j);
    case PatchRun(i, r, field, content) => PatchBelow(a, i, r, field, content, j);
    case PatchContext(_) => WakeBelow(a, j);
  }

  /** The only job a user step can make show a run is an approved one. */
  lemma UserShows(n: nat, a: Jobs, u: UserStep, j: nat)
    requires j in ApplyUser(n, a, u) && Shows(ApplyUser(n, a, u)[j])
    requires j in a || !u.PutStatus? || !u.target.Done?
    ensures j in a && a[j].shown == ApplyUser(n, a, u)[j].shown && a[j].runs != []
    ensures Shows(a[j]) || (u == PutStatus(j, Done) && a[j].status.Waiting?)
  {
  }

  /** A new successor is pending and shows nothing. */
  lemma NewJobIsPending(n: nat, a: Jobs, u: UserStep, j: nat)
    requires j in ApplyUser(n, a, u) && j !in a
    ensures ApplyUser(n, a, u)[j].status.Pending?
  {
  }

  lemma ApprovalKeepsEarlier(n: nat, a: Jobs, j: nat)
    requires !DoneBelow(a, j)
    ensures !DoneBelow(PutJobStatus(n, a, j, Done), j)
  {
    var x :| x in a && x < j && !a[x].status.Done?;
    assert x in PutJobStatus(n, a, j, Done) && !PutJobStatus(n, a, j, Done)[x].status.Done?;
  }

  lemma UserKeepsFresh(n: nat, first: nat, a: Jobs, u: UserStep)
    requires Shape(n, first, a) && Fresh(a) && VettedUser(a, u)
    ensures Fresh(ApplyUser(n, a, u))
  {
    var b := ApplyUser(n, a, u);
    forall j | j in b && Shows(b[j]) && DoneBelow(b, j) ensures FreshAt(b, j, b[j].shown) {
      if j !in a { NewJobIsPending(n, a, u, j); }
      UserShows(n, a, u, j);
      if !Shows(a[j]) && !DoneBelow(a, j) { ApprovalKeepsEarlier(n, a, j); }
      UserBelow(n, first, a, u, j);
      FreshAtCarries(a, b, j, a[j].shown);
    }
  }

  lemma UserNeverStarts(n: nat, a: Jobs, u: UserStep, k: nat)
    requires k in ApplyUser(n, a, u) && ApplyUser(n, a, u)[k].status.Running?
    ensures k in a && a[k].status.Running?
  {
  }

  /** A user step either takes an in-flight job out of running or leaves its snapshot current. */
  lemma UserKeepsFlightFresh(n: nat, first: nat, a: Jobs, u: UserStep, k: nat, data: StageData)
    requires Shape(n, first, a) && FlightFresh(a, k, data) && VettedUser(a, u)
    ensures FlightFresh(ApplyUser(n, a, u), k, data)
  {
    hide ApplyUser;
    var b := ApplyUser(n, a, u);
    if k in b && b[k].status.Running? && DoneBelow(b, k) {
      UserNeverStarts(n, a, u, k);
      UserBelow(n, first, a, u, k);
      FreshAtCarries(a, b, k, data);
    }
  }

  lemma StartIsFresh(a: Jobs, k: nat)
    requires k in a && Fresh(a)
    ensures Fresh(StartJob(a, k))
    ensures FlightFresh(StartJob(a, k), k, Collect(StartJob(a, k)))
  {
    var b := StartJob(a, k);
    forall j | j in b && Shows(b[j]) && DoneBelow(b, j) ensures FreshAt(b, j, b[j].shown) {
      FreshAtCarries(a, b, j, a[j].shown);
    }
  }

  lemma FinishKeepsEarlier(n: nat, doc: Doc, k: nat, flight: Flight, outcome: Outcome)
    requires k in doc.jobs
    ensures SameBelow(doc.jobs, Finish(n, doc, k, flight, outcome).jobs, k)
  {
  }

  /** After a finished execution, that stage or its successor is not done. */
  lemma FinishLeavesWork(n: nat, doc: Doc, k: nat, flight: Flight, outcome: Outcome)
    requires k in doc.jobs && !outcome.Stopped?
    ensures k in Finish(n, doc, k, flight, outcome).jobs
    ensures Finish(n, doc, k, flight, outcome).jobs[k].status.Done? && k + 1 < n ==>
      k + 1 in Finish(n, doc, k, flight, outcome).jobs && Finish(n, doc, k, flight, outcome).jobs[k + 1].status.Pending?
  {
  }

  /** The worker's counterpart of UserBelow, for every stage but the one that ran. */
  lemma FinishBelow(n: nat, doc: Doc, k: nat, flight: Flight, outcome: Outcome, j: nat)
    requires Shape(n, doc.first, doc.jobs) && k in doc.jobs && !outcome.Stopped?
    requires j in Finish(n, doc, k, flight, outcome).jobs
    requires !Finish(n, doc, k, flight, outcome).jobs[j].status.Pending?
    ensures DoneBelow(Finish(n, doc, k, flight, outcome).jobs, j) ==>
      j <= k && SameBelow(doc.jobs, Finish(n, doc, k, flight, outcome).jobs, j)
  {
    FinishKeepsShape(n, doc, k, flight, outcome);
    FinishLeavesWork(n, doc, k, flight, outcome);
    FinishKeepsEarlier(n, doc, k, flight, outcome);
    hide Finish;
  }

  lemma FinishShows(n: nat, doc: Doc, k: nat, flight: Flight, outcome: Outcome, j: nat)
    requires j in Finish(n, doc, k, flight, outcome).jobs && Shows(Finish(n, doc, k, flight, outcome).jobs[j])
    requires j != k && k in doc.jobs
    ensures j in doc.jobs && doc.jobs[j] == Finish(n, doc, k, flight, outcome).jobs[j]
  {
  }

  /** Storing a result keeps freshness exactly when the job's snapshot is still current or an
      earlier stage has work to do. */
  lemma CommitKeepsFreshIff(n: nat, doc: Doc, k: nat, flight: Flight, outcome: Outcome)
    requires Shape(n, doc.first, doc.jobs) && k in doc.jobs && Fresh(doc.jobs) && Stores(outcome)
    ensures Fresh(Finish(n, doc, k, flight, outcome).jobs) <==> FreshAt(doc.jobs, k, flight.data)
  {
    CommittedJob(n, doc, k, flight, outcome);
    EndingKeepsFreshIff(n, doc, k, flight, outcome);
  }

  /** The ending stores a run. */
  predicate Stores(outcome: Outcome) { (outcome.Completed? && outcome.run.Some?) || outcome.ParkedForReview? }

  /** A completion that stores no run keeps freshness exactly when an earlier stage has work to
      do, the job has no run to show, or its last run was given what the earlier stages hold
      now. What the execution itself was given does not matter. */
  lemma SkipKeepsFreshIff(n: nat, doc: Doc, k: nat, flight: Flight)
    requires Shape(n, doc.first, doc.jobs) && k in doc.jobs && Fresh(doc.jobs)
    ensures Fresh(Finish(n, doc, k, flight, Completed(None)).jobs)
      <==> !DoneBelow(doc.jobs, k) || doc.jobs[k].runs == []
           || Below(doc.jobs[k].shown, k) == Below(Collect(doc.jobs), k)
  {
    SkippedJob(n, doc, k, flight);
    EndingKeepsFreshIff(n, doc, k, flight, Completed(None));
  }

  lemma SkippedJob(n: nat, doc: Doc, k: nat, flight: Flight)
    requires k in doc.jobs
    ensures var b := Finish(n, doc, k, flight, Completed(None)).jobs;
      k in b && (Shows(b[k]) <==> doc.jobs[k].runs != []) && b[k].shown == doc.jobs[k].shown
  {
  }

  /** After any ending but a drop, only the job's own run is at stake. */
  lemma EndingKeepsFreshIff(n: nat, doc: Doc, k: nat, flight: Flight, outcome: Outcome)
    requires Shape(n, doc.first, doc.jobs) && k in doc.jobs && Fresh(doc.jobs) && !outcome.Stopped?
    ensures var b := Finish(n, doc, k, flight, outcome).jobs;
      k in b && (Fresh(b) <==> (Shows(b[k]) ==> FreshAt(doc.jobs, k, b[k].shown)))
  {
    var a, b := doc.jobs, Finish(n, doc, k, flight, outcome).jobs;
    FinishKeepsEarlier(n, doc, k, flight, outcome);
    FinishLeavesWork(n, doc, k, flight, outcome);
    if Shows(b[k]) ==> FreshAt(a, k, b[k].shown) {
      forall j | j in b && Shows(b[j]) && DoneBelow(b, j) ensures FreshAt(b, j, b[j].shown) {
        FinishBelow(n, doc, k, flight, outcome, j);
        if j != k { FinishShows(n, doc, k, flight, outcome, j); }
        hide Finish;
        FreshAtCarries(a, b, j, b[j].shown);
      }
    } else if Fresh(b) {
      SameBelowBack(a, b, k);
      hide Finish;
      FreshAtCarries(b, a, k, b[k].shown);
    }
  }

  lemma SameBelowBack(a: Jobs, b: Jobs, k: nat)
    requires SameBelow(a, b, k)
    ensures SameBelow(b, a, k)
  {
  }

  lemma CommittedJob(n: nat, doc: Doc, k: nat, flight: Flight, outcome: Outcome)
    requires k in doc.jobs && Stores(outcome)
    ensures var b := Finish(n, doc, k, flight, outcome).jobs;
      k in b && Shows(b[k]) && b[k].shown == flight.data
  {
  }

  /** Any ending keeps freshness if a completion finds the job still running, and one without
      a run finds no earlier run, or one that was given the same. A generated result is stored
      under exactly the first test; for the others these are assumptions. */
  lemma FinishKeepsFresh(n: nat, doc: Doc, k: nat, flight: Flight, outcome: Outcome)
    requires Shape(n, doc.first, doc.jobs) && k in doc.jobs && Fresh(doc.jobs)
    requires FlightFresh(doc.jobs, k, flight.data)
    requires OutcomePossible(doc.jobs[k], flight.path, outcome) && VettedEnding(doc.jobs[k], k, flight.data, outcome)
    ensures Fresh(Finish(n, doc, k, flight, outcome).jobs)
  {
    if outcome.Stopped? {
    } else if Stores(outcome) {
      CommitKeepsFreshIff(n, doc, k, flight, outcome);
    } else if outcome.Completed? {
      SkipKeepsFreshIff(n, doc, k, flight);
    } else {
      ShowsNothing(n, doc, k, flight, outcome);
      EndingKeepsFreshIff(n, doc, k, flight, outcome);
    }
  }

  ghost predicate VettedEnding(job: Job, k: nat, data: StageData, outcome: Outcome) {
    outcome.Completed? ==>
      && job.status.Running?
      && (outcome.run.None? ==> job.runs == [] || Below(job.shown, k) == Below(data, k))
  }

  lemma ShowsNothing(n: nat, doc: Doc, k: nat, flight: Flight, outcome: Outcome)
    requires k in doc.jobs && (outcome.Failed? || outcome.ParkedForContext?)
    ensures var b := Finish(n, doc, k, flight, outcome).jobs; k in b && !Shows(b[k])
  {
  }

  /** `b` is `a` after a patch of job i, read through its last run. */
  ghost predicate Patched(a: Jobs, b: Jobs, i: nat) {
    && i in a && b.Keys == a.Keys && (forall j | j in a && j != i :: b[j] == a[j])
    && b[i] == a[i].(runs := b[i].runs) && |b[i].runs| == |a[i].runs| > 0
  }

  lemma PatchedRows(jobs: Jobs, i: nat, r: nat, field: string, content: string)
    requires i in jobs && r < |jobs[i].runs| && field in jobs[i].runs[r].outputs
    ensures var b := EditRun(jobs, i, r, field, content);
      && Patched(jobs, b, i)
      && LastRun(b[i]).outputs
         == if r + 1 == |jobs[i].runs| then LastRun(jobs[i]).outputs[field := content] else LastRun(jobs[i]).outputs
  {
  }

  lemma UnreadPatch(a: Jobs, b: Jobs, i: nat)
    requires Patched(a, b, i) && LastRun(b[i]).outputs == LastRun(a[i]).outputs && Fresh(a)
    ensures Fresh(b)
  {
    assert forall j :: DoneBelow(b, j) <==> DoneBelow(a, j);
    assert Collect(b) == Collect(a);
  }

  lemma ReadPatch(a: Jobs, b: Jobs, i: nat, j: nat, field: string)
    requires Patched(a, b, i) && j in a && Shows(a[j]) && DoneBelow(a, j) && FreshAt(a, j, a[j].shown)
    requires field in LastRun(a[i]).outputs && field in LastRun(b[i]).outputs
    requires LastRun(a[i]).outputs[field] != LastRun(b[i]).outputs[field]
    ensures DoneBelow(b, j) && (FreshAt(b, j, b[j].shown) <==> j <= i)
  {
    if j <= i {
      FreshAtCarries(a, b, j, a[j].shown);
    } else {
      assert a[i].status.Done? && b[i].status.Done?;
      assert Below(Collect(a), j)[i] == LastRun(a[i]).outputs && Below(Collect(b), j)[i] == LastRun(b[i]).outputs;
    }
  }

  lemma PatchedShows(a: Jobs, b: Jobs, i: nat, j: nat)
    requires Patched(a, b, i)
    ensures j in b && Shows(b[j]) <==> j in a && Shows(a[j])
    ensures DoneBelow(b, j) <==> DoneBelow(a, j)
  {
  }

  /** Patching a run keeps freshness exactly when it changes nothing that is read, or no
      settled job behind it has only done jobs before it. */
  lemma PatchKeepsFreshIff(jobs: Jobs, i: nat, r: nat, field: string, content: string)
    requires Fresh(jobs) && i in jobs && r < |jobs[i].runs| && field in jobs[i].runs[r].outputs
    ensures Fresh(EditRun(jobs, i, r, field, content)) <==>
      || r + 1 < |jobs[i].runs| || jobs[i].runs[r].outputs[field] == content
      || forall j | j in jobs && i < j && Shows(jobs[j]) :: !DoneBelow(jobs, j)
  {
    var b := EditRun(jobs, i, r, field, content);
    PatchedRows(jobs, i, r, field, content);
    hide EditRun, Patched, Shows, DoneBelow, FreshAt;
    if r + 1 < |jobs[i].runs| || jobs[i].runs[r].outputs[field] == content {
      assert LastRun(b[i]).outputs == LastRun(jobs[i]).outputs;
      UnreadPatch(jobs, b, i);
    } else {
      forall j: nat
        ensures j in jobs && Shows(jobs[j]) && DoneBelow(jobs, j) ==> (FreshAt(b, j, b[j].shown) <==> j <= i)
        ensures j in b && Shows(b[j]) && !DoneBelow(jobs, j) ==> FreshAt(b, j, b[j].shown)
        ensures j in b && Shows(b[j]) <==> j in jobs && Shows(jobs[j])
      {
        PatchedShows(jobs, b, i, j);
        if j in jobs && Shows(jobs[j]) && DoneBelow(jobs, j) {
          ReadPatch(jobs, b, i, j, field);
        } else if j in b && !DoneBelow(b, j) {
          VacuouslyFresh(b, j, b[j].shown);
        }
      }
    }
  }

  lemma VacuouslyFresh(jobs: Jobs, j: nat, data: StageData)
    requires !DoneBelow(jobs, j)
    ensures FreshAt(jobs, j, data)
  {
  }

  /** Approving job i re-queues its successor, so no later job's freshness is at stake. */
  lemma ApproveBelow(n: nat, first: nat, a: Jobs, i: nat, j: nat)
    requires Shape(n, first, a) && i in a && a[i].status.Waiting?
    requires j in PutJobStatus(n, a, i, Done) && Shows(PutJobStatus(n, a, i, Done)[j])
    ensures j in a && a[j].shown == PutJobStatus(n, a, i, Done)[j].shown
    ensures j != i ==> Shows(a[j])
    ensures DoneBelow(PutJobStatus(n, a, i, Done), j) ==> j <= i && SameBelow(a, PutJobStatus(n, a, i, Done), j)
  {
    var b := PutJobStatus(n, a, i, Done);
    if i < j {
      assert i + 1 in b && !b[i + 1].status.Done?;
    }
  }

  lemma ApprovedJob(n: nat, a: Jobs, i: nat)
    requires i in a && a[i].status.Waiting?
    ensures i in PutJobStatus(n, a, i, Done) && PutJobStatus(n, a, i, Done)[i] == a[i].(status := Done)
    ensures SameBelow(PutJobStatus(n, a, i, Done), a, i)
  {
  }

  /** Approving keeps freshness exactly when an earlier stage is not done, the job has no run,
      or its last run was given what the earlier stages hold now. A job parked for context can
      fail all three. */
  lemma ApproveKeepsFreshIff(n: nat, first: nat, a: Jobs, i: nat)
    requires Shape(n, first, a) && Fresh(a) && i in a && a[i].status.Waiting?
    ensures Fresh(PutJobStatus(n, a, i, Done))
      <==> !DoneBelow(a, i) || a[i].runs == [] || Below(a[i].shown, i) == Below(Collect(a), i)
  {
    hide PutJobStatus;
    var b := PutJobStatus(n, a, i, Done);
    ApprovedJob(n, a, i);
    if a[i].runs == [] || FreshAt(a, i, a[i].shown) {
      forall j | j in b && Shows(b[j]) && DoneBelow(b, j) ensures FreshAt(b, j, b[j].shown) {
        ApproveBelow(n, first, a, i, j);
        FreshAtCarries(a, b, j, a[j].shown);
      }
    } else if Fresh(b) {
      assert Shows(b[i]) && FreshAt(b, i, b[i].shown);
      FreshAtCarries(b, a, i, a[i].shown);
    }
  }
}
