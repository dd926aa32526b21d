/** Why a waiting job waits, over every run: one parked because an earlier stage failed for
    good still has unfinished work before it. So approving can go wrong only for a job that
    was parked for missing context. */
module ParkReasons {
  import opened Pipeline
  import opened Freshness
  import opened WorkerLoop

  ghost predicate BlockedBehindWork(jobs: Jobs) {
    forall j | j in jobs && jobs[j].status.Waiting? && jobs[j].park.Blocked? :: !DoneBelow(jobs, j)
  }

  lemma PutStatuses(n: nat, first: nat, a: Jobs, i: nat, target: Status, x: nat)
    requires Shape(n, first, a) && x in PutJobStatus(n, a, i, target)
    ensures var b := PutJobStatus(n, a, i, target);
      && (b[x].status.Waiting? ==> x in a && b[x] == a[x])
      && (x != i && b[x].status.Done? ==> x in a && a[x].status.Done?)
      && (i in b && b[i].status.Done? && !a[i].status.Done? && i + 1 < n ==> i + 1 in b && b[i + 1].status.Pending?)
      && (x in a ==> x < n)
  {
  }

  lemma PutKeepsBlocked(n: nat, first: nat, a: Jobs, i: nat, target: Status)
    requires Shape(n, first, a) && BlockedBehindWork(a)
    ensures BlockedBehindWork(PutJobStatus(n, a, i, target))
  {
    var b := PutJobStatus(n, a, i, target);
    UserKeepsShape(n, first, a, PutStatus(i, target));
    forall j | j in b && b[j].status.Waiting? && b[j].park.Blocked? ensures !DoneBelow(b, j) {
      PutStatuses(n, first, a, i, target, j);
      var x :| x in a && x < j && !a[x].status.Done?;
      PutStatuses(n, first, a, i, target, x);
      hide PutJobStatus, Shape;
      if x == i && b[i].status.Done? {
        assert i + 1 in b && !b[i + 1].status.Done? && i + 1 != j;
      }
    }
  }

  lemma OthersKeepBlocked(n: nat, a: Jobs, u: UserStep)
    requires BlockedBehindWork(a) && !u.PutStatus?
    ensures BlockedBehindWork(ApplyUser(n, a, u))
  {
    var b := ApplyUser(n, a, u);
    forall j | j in b && b[j].status.Waiting? && b[j].park.Blocked? ensures !DoneBelow(b, j) {
      assert j in a && a[j].status.Waiting? && a[j].park.Blocked?;
      var x :| x in a && x < j && !a[x].status.Done?;
      assert x in b && !b[x].status.Done?;
    }
  }

  lemma FinishKeepsBlocked(n: nat, doc: Doc, k: nat, flight: Flight, outcome: Outcome)
    requires Shape(n, doc.first, doc.jobs) && BlockedBehindWork(doc.jobs) && k in doc.jobs
    ensures BlockedBehindWork(Finish(n, doc, k, flight, outcome).jobs)
  {
    var a, b := doc.jobs, Finish(n, doc, k, flight, outcome).jobs;
    forall j | j in b && b[j].status.Waiting? && b[j].park.Blocked? ensures !DoneBelow(b, j) {
      FinishBlocks(n, doc, k, flight, outcome, j);
    }
  }

  /** A job blocked after an ending was blocked before it, with work left, or is blocked by it. */
  lemma FinishBlocks(n: nat, doc: Doc, k: nat, flight: Flight, outcome: Outcome, j: nat)
    requires Shape(n, doc.first, doc.jobs) && BlockedBehindWork(doc.jobs) && k in doc.jobs
    requires var b := Finish(n, doc, k, flight, outcome).jobs;
      j in b && b[j].status.Waiting? && b[j].park.Blocked?
    ensures !DoneBelow(Finish(n, doc, k, flight, outcome).jobs, j)
  {
    var a, b := doc.jobs, Finish(n, doc, k, flight, outcome).jobs;
    FinishStatuses(n, doc, k, flight, outcome, j);
    hide Finish;
    if !(a[j].status.Waiting? && a[j].park.Blocked?) {
      assert !b[k].status.Done?;
    } else {
      var x :| x in a && x < j && !a[x].status.Done?;
      FinishStatuses(n, doc, k, flight, outcome, x);
      if x == k && b[k].status.Done? {
        assert k + 1 in b && k + 1 < j && !b[k + 1].status.Done?;
      }
    }
  }

  lemma FinishStatuses(n: nat, doc: Doc, k: nat, flight: Flight, outcome: Outcome, x: nat)
    requires Shape(n, doc.first, doc.jobs) && k in doc.jobs && x in Finish(n, doc, k, flight, outcome).jobs
    ensures var a, b := doc.jobs, Finish(n, doc, k, flight, outcome).jobs;
      && k in b
      && (b[k].status.Done? && !a[k].status.Done? && k + 1 < n ==> k + 1 in b && b[k + 1].status.Pending?)
      && (x != k && x in a && b[x].status.Done? ==> a[x].status.Done?)
      && (b[x].status.Waiting? && b[x].park.Blocked? ==>
            x in a && x < n && ((a[x].status.Waiting? && a[x].park.Blocked?) || (k < x && !b[k].status.Done?)))
  {
  }

  lemma QuietKeepsBlocked(a: Jobs, b: Jobs)
    requires BlockedBehindWork(a) && a.Keys == b.Keys
    requires forall x | x in a :: b[x].status.Done? ==> a[x].status.Done?
    requires forall x | x in a && b[x].status.Waiting? :: b[x] == a[x]
    ensures BlockedBehindWork(b)
  {
    forall j | j in b && b[j].status.Waiting? && b[j].park.Blocked? ensures !DoneBelow(b, j) {
      var x :| x in a && x < j && !a[x].status.Done?;
      assert x in b;
    }
  }

  ghost predicate AllBlockedBehindWork(s: State) { forall d | d in s.docs :: BlockedBehindWork(s.docs[d].jobs) }

  lemma UserKeepsAll(cfg: Config, s: State, d: DocId, u: UserStep)
    requires Flow(cfg, s) && AllBlockedBehindWork(s) && d in s.docs
    ensures AllBlockedBehindWork(UserIn(|cfg|, s, d, u))
  {
    assert DocFlow(|cfg|, s.docs[d], BatchOf(s).stage, d in BatchOf(s).todo, d in BatchOf(s).flights);
    hide BlockedBehindWork, PutJobStatus, EditStage, EditRun, WakeWaiting, Flow;
    match u
    case PutStatus(i, target) => PutKeepsBlocked(|cfg|, s.docs[d].first, s.docs[d].jobs, i, target);
    case _ => OthersKeepBlocked(|cfg|, s.docs[d].jobs, u);
  }

  lemma FinishKeepsAll(cfg: Config, s: State, d: DocId, outcome: Outcome)
    requires Flow(cfg, s) && AllBlockedBehindWork(s) && Enabled(cfg, s, FinishJob(d, outcome))
    ensures AllBlockedBehindWork(FinishIn(cfg, s, d, outcome))
  {
    assert DocFlow(|cfg|, s.docs[d], s.batch.value.stage, d in s.batch.value.todo, true);
    hide BlockedBehindWork, Finish, Flow, OutcomePossible;
    FinishKeepsBlocked(|cfg|, s.docs[d], s.batch.value.stage, s.batch.value.flights[d], outcome);
  }

  lemma StartKeepsAll(s: State, d: DocId, path: Path)
    requires AllBlockedBehindWork(s) && d in s.docs && s.batch.Some? && d in s.batch.value.todo
    ensures AllBlockedBehindWork(StartIn(s, d, path))
  {
    QuietKeepsBlocked(s.docs[d].jobs, StartJob(s.docs[d].jobs, s.batch.value.stage));
    hide BlockedBehindWork, StartJob, Collect;
  }

  lemma RestartKeepsAll(docs: map<DocId, Doc>)
    requires forall d | d in docs :: BlockedBehindWork(docs[d].jobs)
    ensures forall d | d in docs :: BlockedBehindWork(ResetRunning(docs[d].jobs))
  {
    forall d | d in docs ensures BlockedBehindWork(ResetRunning(docs[d].jobs)) {
      QuietKeepsBlocked(docs[d].jobs, ResetRunning(docs[d].jobs));
    }
  }

  lemma StepKeepsAll(cfg: Config, s: State, step: Step)
    requires Flow(cfg, s) && AllBlockedBehindWork(s) && Enabled(cfg, s, step)
    ensures AllBlockedBehindWork(Apply(cfg, s, step))
  {
    hide Flow, StartIn, FinishIn, ResetRunning, ApplyUser, OutcomePossible;
    match step
    case User(d, u) => UserKeepsAll(cfg, s, d, u);
    case FinishJob(d, outcome) => FinishKeepsAll(cfg, s, d, outcome);
    case Start(d, path) => StartKeepsAll(s, d, path);
    case Restart => RestartKeepsAll(s.docs);
    case _ =>
  }

  lemma {:induction false} RunKeepsAll(cfg: Config, s: State, steps: seq<Step>)
    requires Flow(cfg, s) && AllBlockedBehindWork(s) && Valid(cfg, s, steps)
    ensures AllBlockedBehindWork(RunSteps(cfg, s, steps))
    decreases |steps|
  {
    hide Flow, AllBlockedBehindWork, Enabled, Apply;
    if steps != [] {
      StepKeepsAll(cfg, s, steps[0]);
      StepKeepsFlow(cfg, s, steps[0]);
      RunKeepsAll(cfg, Apply(cfg, s, steps[0]), steps[1..]);
    }
  }

  /** In every reachable state, approving a waiting job that was not parked for context, or
      has no run yet, is one of the steps freshness is promised for, and if the document's
      results are fresh they stay so. */
  lemma OnlyContextParksGoStale(cfg: Config, steps: seq<Step>, d: DocId, i: nat)
    requires Valid(cfg, INITIAL, steps) && d in RunSteps(cfg, INITIAL, steps).docs
    requires var jobs := RunSteps(cfg, INITIAL, steps).docs[d].jobs;
      i in jobs && jobs[i].status.Waiting? && (!jobs[i].park.Context? || jobs[i].runs == [])
    ensures var jobs := RunSteps(cfg, INITIAL, steps).docs[d].jobs;
      && VettedUser(jobs, PutStatus(i, Done))
      && (Fresh(jobs) ==> Fresh(PutJobStatus(|cfg|, jobs, i, Done)))
  {
    RunKeepsFlow(cfg, INITIAL, steps);
    RunKeepsAll(cfg, INITIAL, steps);
    var s := RunSteps(cfg, INITIAL, steps);
    assert DocFlow(|cfg|, s.docs[d], BatchOf(s).stage, d in BatchOf(s).todo, d in BatchOf(s).flights);
    hide RunSteps, Valid, Flow, PutJobStatus;
    var jobs := s.docs[d].jobs;
    if Fresh(jobs) { ApproveKeepsFreshIff(|cfg|, s.docs[d].first, jobs, i); }
  }
}
