/** The jobs table and the failure log of one document as mutable rows, with the repository
    statements and the worker and handler code that calls them. Each method states row by row
    what it does, and that it is a step of module Pipeline. */
module JobRows {
  import opened Wrappers
  import opened Pipeline
  import opened Freshness
  import opened WorkerLoop

  datatype PatchError = NoSuchRun | UnknownField | NotWritten

  /** Nothing but row i differs, and the row behind it is queued: as it was but pending, or new
      and without runs. The last stage has none. */
  ghost predicate NextQueued(n: nat, was: Jobs, now: Jobs, i: nat) {
    && (forall j | j != i && j != i + 1 :: (j in now <==> j in was) && (j in was ==> now[j] == was[j]))
    && (i + 1 < n ==> i + 1 in now && now[i + 1].status.Pending?)
    && (i + 1 < n && i + 1 in was ==> now[i + 1] == was[i + 1].(status := Pending))
    && (i + 1 < n && i + 1 !in was ==> now[i + 1].runs == [])
    && (i + 1 >= n ==> (i + 1 in now <==> i + 1 in was) && (i + 1 in was ==> now[i + 1] == was[i + 1]))
  }

  /** Nothing but row i differs. */
  ghost predicate OnlyRow(was: Jobs, now: Jobs, i: nat) {
    now.Keys == was.Keys && forall j | j in was && j != i :: now[j] == was[j]
  }

  class DocumentRows {
    const n: nat
    const first: nat
    var jobs: Jobs
    var failures: map<nat, nat>
    var context: bool

    function View(): Doc
      reads this
    {
      Doc(first, jobs, failures, context)
    }

    /** createFirstJob: the stage chosen by FirstApplicableStage gets a pending job. */
    constructor (n: nat, first: nat, context: bool)
      requires first < n
      ensures this.n == n && View() == Doc(first, map[first := NewJob()], map[], context) && Shape(n, first, jobs)
      ensures jobs.Keys == {first} && jobs[first].status.Pending? && jobs[first].runs == []
    {
      this.n, this.first, this.context := n, first, context;
      jobs, failures := map[first := NewJob()], map[];
    }

    // --- JobRepo -------------------------------------------------------------------------

    method UpdateStatus(i: nat, status: Status)
      modifies this`jobs
      ensures OnlyRow(old(jobs), jobs, i)
      ensures i in jobs ==> jobs[i] == old(jobs)[i].(status := status)
      ensures jobs == SetStatus(old(jobs), i, status)
    {
      if i in jobs {
        jobs := jobs[i := jobs[i].(status := status)];
      }
    }

    method UpdateRuns(i: nat, runs: seq<Run>)
      modifies this`jobs
      ensures OnlyRow(old(jobs), jobs, i)
      ensures i in jobs ==> jobs[i] == old(jobs)[i].(runs := runs)
      ensures jobs == SetRuns(old(jobs), i, runs)
    {
      if i in jobs {
        jobs := jobs[i := jobs[i].(runs := runs)];
      }
    }

    /** INSERT, or on a conflict of (document, stage) an UPDATE of status and runs. */
    method Upsert(i: nat, job: Job)
      modifies this`jobs
      ensures i !in old(jobs) ==> jobs == old(jobs)[i := job]
      ensures i in old(jobs) ==> OnlyRow(old(jobs), jobs, i)
      ensures i in old(jobs) ==> jobs[i] == old(jobs)[i].(status := job.status, runs := job.runs)
    {
      if i in jobs {
        jobs := jobs[i := jobs[i].(status := job.status, runs := job.runs)];
      } else {
        jobs := jobs[i := job];
      }
    }

    method GetByStage(i: nat) returns (job: Option<Job>)
      ensures job == if i in jobs then Some(jobs[i]) else None
    {
      if i in jobs { job := Some(jobs[i]); } else { job := None; }
    }

    /** One UPDATE whose IN list names the stages behind i. */
    method CascadeReplayRows(i: nat)
      modifies this`jobs
      ensures jobs == CascadeReplay(n, old(jobs), i)
      ensures jobs.Keys == old(jobs).Keys
      ensures forall j | j in jobs ::
        jobs[j] == if i < j < n then old(jobs)[j].(status := Pending) else old(jobs)[j]
    {
      var stage := i + 1;
      while stage < n
        invariant i < stage
        invariant jobs.Keys == old(jobs).Keys
        invariant forall j | j in jobs ::
          jobs[j] == if i < j < n && j < stage then old(jobs)[j].(status := Pending) else old(jobs)[j]
      {
        UpdateStatus(stage, Pending);
        stage := stage + 1;
      }
    }

    method CascadeBlockRows(i: nat)
      modifies this`jobs
      ensures jobs == CascadeBlock(n, old(jobs), i)
      ensures jobs.Keys == old(jobs).Keys
      ensures forall j | j in jobs :: jobs[j] == if i < j < n && old(jobs)[j].status.Pending?
        then old(jobs)[j].(status := Waiting, park := Blocked) else old(jobs)[j]
    {
      var stage := i + 1;
      while stage < n
        invariant i < stage
        invariant jobs.Keys == old(jobs).Keys
        invariant forall j | j in jobs ::
          jobs[j] == if i < j < n && j < stage && old(jobs)[j].status.Pending?
                     then old(jobs)[j].(status := Waiting, park := Blocked) else old(jobs)[j]
      {
        if stage in jobs && jobs[stage].status.Pending? {
          jobs := ParkAs(jobs, stage, Blocked);
        }
        stage := stage + 1;
      }
    }

    /** At the start of the process. */
    method ResetRunningRows()
      modifies this`jobs
      ensures jobs == ResetRunning(old(jobs)) && jobs.Keys == old(jobs).Keys
      ensures forall j | j in jobs ::
        jobs[j] == if old(jobs)[j].status.Running? then old(jobs)[j].(status := Pending) else old(jobs)[j]
    {
      jobs := map j | j in jobs :: if jobs[j].status.Running? then jobs[j].(status := Pending) else jobs[j];
    }

    method AppendFailure(i: nat) returns (count: nat)
      modifies this`failures
      ensures failures == old(failures)[i := count] && count == FailureCount(old(View()), i) + 1
    {
      count := (if i in failures then failures[i] else 0) + 1;
      failures := failures[i := count];
    }

    // --- Worker --------------------------------------------------------------------------

    /** A failed lookup counts as not stopped. */
    method WasStopped(k: nat, found: bool) returns (stopped: bool)
      requires k in jobs
      ensures stopped <==> found && !jobs[k].status.Running?
    {
      if !found { return false; }
      var job := GetByStage(k);
      stopped := !job.value.status.Running?;
    }

    method AdvancePipeline(i: nat)
      modifies this`jobs
      ensures jobs == Advance(n, old(jobs), i)
      ensures NextQueued(n, old(jobs), jobs, i)
      ensures (i in jobs <==> i in old(jobs)) && (i in jobs ==> jobs[i] == old(jobs)[i])
    {
      if i + 1 >= n { return; }
      var existing := GetByStage(i + 1);
      if existing.Some? {
        UpdateStatus(i + 1, Pending);
      } else {
        Upsert(i + 1, NewJob());
      }
    }

    method StartExecution(k: nat) returns (data: StageData)
      modifies this`jobs
      ensures OnlyRow(old(jobs), jobs, k)
      ensures k in jobs ==> jobs[k] == old(jobs)[k].(status := Running)
      ensures k in jobs && Fresh(old(jobs)) ==> Fresh(jobs) && FlightFresh(jobs, k, data)
      ensures forall i :: i in data <==>
        && i in jobs && i != k && (jobs[i].status.Done? || jobs[i].status.Waiting?)
        && |jobs[i].runs| > 0 && jobs[i].runs[|jobs[i].runs| - 1].outputs != map[]
      ensures forall i | i in data :: data[i] == jobs[i].runs[|jobs[i].runs| - 1].outputs
    {
      ghost var was := jobs;
      UpdateStatus(k, Running);
      data := Collect(jobs);
      assert jobs == StartJob(was, k);
      if k in was && Fresh(was) { StartIsFresh(was, k); }
    }

    /** The end of runLLMText, runOCR and runTranscribe: `pass` tells whether the confidence
        suffices and no question is open. */
    method FinishGenerated(k: nat, flight: Flight, run: Run, pass: bool) returns (outcome: Outcome)
      requires k in jobs && flight.path.Generates?
      modifies this
      ensures View() == Finish(n, old(View()), k, flight, outcome)
      ensures OutcomePossible(old(jobs)[k], flight.path, outcome)
      ensures outcome == if !old(jobs)[k].status.Running? then Stopped
                         else if pass then Completed(Some(run)) else ParkedForReview(run)
      ensures failures == old(failures) && context == old(context)
      ensures !old(jobs)[k].status.Running? ==> jobs == old(jobs)
      ensures old(jobs)[k].status.Running? ==>
        && k in jobs && jobs[k].runs == flight.runs + [run] && jobs[k].shown == flight.data
        && jobs[k].status == if pass then Done else Waiting
      ensures old(jobs)[k].status.Running? && pass ==> NextQueued(n, old(jobs), jobs, k)
      ensures old(jobs)[k].status.Running? && !pass ==> OnlyRow(old(jobs), jobs, k)
    {
      var stopped := WasStopped(k, true);
      if stopped { return Stopped; }
      UpdateRuns(k, flight.runs + [run]);
      jobs := SetShown(jobs, k, flight.data);
      if !pass {
        jobs := ParkAs(jobs, k, Review);
        return ParkedForReview(run);
      }
      UpdateStatus(k, Done);
      AdvancePipeline(k);
      outcome := Completed(Some(run));
    }

    /** The end of runEmbed and of the skip branches: no test of the status. */
    method FinishUnchecked(k: nat, flight: Flight, run: Option<Run>)
      modifies this
      ensures View() == Finish(n, old(View()), k, flight, Completed(run))
      ensures failures == old(failures) && context == old(context) && NextQueued(n, old(jobs), jobs, k)
      ensures k in old(jobs) ==> k in jobs && jobs[k].status.Done? && jobs[k].park == old(jobs)[k].park
      ensures k in old(jobs) && run.Some? ==> jobs[k].runs == flight.runs + [run.value] && jobs[k].shown == flight.data
      ensures k in old(jobs) && run.None? ==> jobs[k].runs == old(jobs)[k].runs && jobs[k].shown == old(jobs)[k].shown
    {
      if run.Some? {
        UpdateRuns(k, flight.runs + [run.value]);
        jobs := SetShown(jobs, k, flight.data);
      }
      UpdateStatus(k, Done);
      AdvancePipeline(k);
    }

    method HandleJobError(k: nat, flight: Flight, errorRun: Option<Run>)
      modifies this
      ensures View() == Finish(n, old(View()), k, flight, Failed(errorRun))
      ensures context == old(context) && jobs.Keys == old(jobs).Keys
      ensures var count := (if k in old(failures) then old(failures)[k] else 0) + 1;
        && failures == old(failures)[k := count]
        && (count < 3 ==> OnlyRow(old(jobs), jobs, k))
        && (count < 3 && k in jobs ==> jobs[k] == old(jobs)[k].(status := Pending))
        && (count >= 3 && k in jobs ==> jobs[k].status.Error?)
        && (count >= 3 && k in jobs ==>
              jobs[k].runs == if errorRun.Some? then flight.runs + [errorRun.value] else old(jobs)[k].runs)
        && (count >= 3 ==> forall j | j in jobs && j != k ::
              jobs[j] == if k < j < n && old(jobs)[j].status.Pending?
                         then old(jobs)[j].(status := Waiting, park := Blocked) else old(jobs)[j])
    {
      var count := AppendFailure(k);
      if count < MAX_FAILURES {
        UpdateStatus(k, Pending);
      } else {
        if errorRun.Some? {
          UpdateRuns(k, flight.runs + [errorRun.value]);
          jobs := SetShown(jobs, k, flight.data);
        }
        UpdateStatus(k, Error);
        CascadeBlockRows(k);
      }
    }

    // --- Handlers ------------------------------------------------------------------------

    method PutStatusOf(i: nat, target: Status) returns (ok: bool)
      requires i in jobs
      modifies this`jobs
      ensures jobs == PutJobStatus(n, old(jobs), i, target)
      ensures var from := old(jobs)[i].status;
        ok <==> (from.Running? && target.Error?) || (from.Waiting? && (target.Pending? || target.Done?))
                || (from.Error? && target.Pending?) || (from.Done? && target.Pending?)
      ensures !ok ==> jobs == old(jobs)
      ensures ok ==> i in jobs && jobs[i] == old(jobs)[i].(status := target)
      ensures ok && target.Done? ==> NextQueued(n, old(jobs), jobs, i)
      ensures ok && old(jobs)[i].status.Done? ==> jobs.Keys == old(jobs).Keys && forall j | j in jobs && j != i ::
        jobs[j] == if i < j < n then old(jobs)[j].(status := Pending) else old(jobs)[j]
      ensures ok && !target.Done? && !old(jobs)[i].status.Done? ==> OnlyRow(old(jobs), jobs, i)
    {
      var job := jobs[i];
      if !ValidTransition(job.status, target) { return false; }
      UpdateStatus(i, target);
      if target.Done? {
        AdvancePipeline(i);
      }
      if target.Pending? && job.status.Done? {
        CascadeReplayRows(i);
      }
      ok := true;
    }

    /** Returns the stages it re-queued, in order, or why it did nothing; `saved` tells whether
        the artifact is found and its file written. */
    method UpdateStageArtifactAt(i: nat, field: string, content: string, saved: bool)
      returns (r: Result<seq<nat>, EditError>)
      modifies this`jobs
      ensures jobs == if saved then EditStage(n, old(jobs), i, field, content) else old(jobs)
      ensures r.Success? <==> saved && FindDoneStageRun(old(jobs), i, field).Success?
      ensures var there := i in old(jobs);
        var done := there && old(jobs)[i].status.Done?;
        var runs := if done then old(jobs)[i].runs else [];
        var last := if runs == [] then map[] else runs[|runs| - 1].outputs;
        && (r.Success? <==> saved && done && field in last)
        && (r.Failure? ==> r.error == if !there then NoJob else if !done then StageNotDone
                                      else if field !in last then NoArtifact else NotSaved)
      ensures r.Failure? ==> jobs == old(jobs)
      ensures r.Success? ==> jobs.Keys == old(jobs).Keys && forall j | j in jobs && j != i ::
        jobs[j] == if i < j < n then old(jobs)[j].(status := Pending) else old(jobs)[j]
      ensures r.Success? ==>
        var was, now := old(jobs)[i], jobs[i];
        && now == was.(runs := now.runs) && |now.runs| == |was.runs| > 0
        && now.runs[..|was.runs| - 1] == was.runs[..|was.runs| - 1]
        && now.runs[|was.runs| - 1].outputs == was.runs[|was.runs| - 1].outputs[field := content]
      ensures r.Success? ==> |r.value| == (if i < n then n - i - 1 else 0)
      ensures r.Success? ==> forall j | 0 <= j < |r.value| :: r.value[j] == i + 1 + j
    {
      var found := FindDoneStageRun(jobs, i, field);
      if found.Failure? { return Failure(found.error); }
      if !saved { return Failure(NotSaved); }
      jobs := WriteOutput(jobs, i, |jobs[i].runs| - 1, field, content);
      CascadeReplayRows(i);
      var downstream: seq<nat> := [];
      var stage := i + 1;
      while stage < n
        invariant i < stage
        invariant (stage <= n || downstream == []) && |downstream| == stage - i - 1
        invariant forall j | 0 <= j < |downstream| :: downstream[j] == i + 1 + j
      {
        downstream := downstream + [stage];
        stage := stage + 1;
      }
      r := Success(downstream);
    }

    /** patchRun: edits are written one by one until a field is unknown to the run or a file
        cannot be written (the first `saves` can); what was written by then stays written.
        Nothing is re-queued. */
    method PatchRunOf(i: nat, r: nat, edits: seq<(string, string)>, saves: nat)
      returns (error: Option<PatchError>, ghost written: nat)
      requires i in jobs
      modifies this`jobs
      ensures written <= |edits| && jobs == PatchAll(old(jobs), i, r, edits[..written])
      ensures OnlyRow(old(jobs), jobs, i)
      ensures r >= |old(jobs)[i].runs| ==> error == Some(NoSuchRun)
      ensures r < |old(jobs)[i].runs| ==>
        if written == |edits| then error == None
        else if edits[written].0 !in old(jobs)[i].runs[r].outputs then error == Some(UnknownField)
        else error == Some(NotWritten) && written == saves
      ensures r >= |old(jobs)[i].runs| ==> jobs == old(jobs)
      ensures r < |old(jobs)[i].runs| ==> PatchedBy(old(jobs)[i], jobs[i], r, edits[..written])
      ensures written <= saves
    {
      hide PatchedBy, PatchAll;
      written := 0;
      ghost var jobs0 := jobs;
      NothingPatched(jobs, i, r, edits);
      if r >= |jobs[i].runs| {
        error := Some(NoSuchRun);
        return;
      }
      for k := 0 to |edits|
        invariant written == k <= saves && OnlyRow(jobs0, jobs, i)
        invariant jobs == PatchAll(jobs0, i, r, edits[..k]) && PatchedBy(jobs0[i], jobs[i], r, edits[..k])
      {
        PatchKeepsFields(jobs0[i], jobs[i], r, edits[..k]);
        var (field, content) := edits[k];
        if field !in jobs[i].runs[r].outputs {
          error := Some(UnknownField);
          return;
        }
        if k == saves {
          error := Some(NotWritten);
          return;
        }
        PatchStep(jobs0, jobs, i, r, edits, k);
        jobs := WriteOutput(jobs, i, r, field, content);
        written := k + 1;
      }
      assert edits[..|edits|] == edits;
      error := None;
    }

    /** patchDocument with a change of context: every waiting job is nudged. */
    method WakeWaitingRows(provided: bool)
      modifies this`jobs, this`context
      ensures View() == ActOn(n, old(View()), PatchContext(provided))
      ensures context == provided && jobs.Keys == old(jobs).Keys
      ensures forall j | j in jobs ::
        jobs[j] == if old(jobs)[j].status.Waiting? then old(jobs)[j].(status := Pending) else old(jobs)[j]
    {
      context := provided;
      var rows := jobs.Keys;
      while rows != {}
        invariant rows <= old(jobs).Keys && jobs.Keys == old(jobs).Keys && context == provided
        invariant forall j | j in jobs ::
          jobs[j] == if j !in rows && old(jobs)[j].status.Waiting? then old(jobs)[j].(status := Pending)
            else old(jobs)[j]
        decreases |rows|
      {
        var j :| j in rows;
        if jobs[j].status.Waiting? {
          UpdateStatus(j, Pending);
        }
        rows := rows - {j};
      }
      assert jobs == WakeWaiting(old(jobs));
    }
  }

  /** The edit at k is the last one of its field. */
  ghost predicate LastEdit(edits: seq<(string, string)>, k: int) {
    0 <= k < |edits| && forall m | k < m < |edits| :: edits[m].0 != edits[k].0
  }

  /** The texts after the edits: the same fields, each edited one with the content of its last
      edit, and every other one as it was. */
  ghost predicate AfterEdits(was: Texts, now: Texts, edits: seq<(string, string)>) {
    && now.Keys == was.Keys
    && (forall k | 0 <= k < |edits| :: edits[k].0 in was)
    && (forall k | LastEdit(edits, k) :: edits[k].0 in now && now[edits[k].0] == edits[k].1)
    && (forall f | f in was && !Edited(edits, f) :: f in now && now[f] == was[f])
  }

  /** The job after the edits: only run r differs. */
  ghost predicate PatchedBy(was: Job, now: Job, r: nat, edits: seq<(string, string)>) {
    && r < |was.runs| == |now.runs| && now == was.(runs := now.runs)
    && (forall k | 0 <= k < |was.runs| && k != r :: now.runs[k] == was.runs[k])
    && AfterEdits(was.runs[r].outputs, now.runs[r].outputs, edits)
  }

  ghost predicate Edited(edits: seq<(string, string)>, field: string) {
    exists k :: 0 <= k < |edits| && edits[k].0 == field
  }

  lemma NothingPatched(jobs: Jobs, i: nat, r: nat, edits: seq<(string, string)>)
    requires i in jobs
    ensures PatchAll(jobs, i, r, edits[..0]) == jobs
    ensures r < |jobs[i].runs| ==> PatchedBy(jobs[i], jobs[i], r, edits[..0])
  {
  }

  lemma PatchKeepsFields(was: Job, now: Job, r: nat, edits: seq<(string, string)>)
    requires PatchedBy(was, now, r, edits)
    ensures r < |was.runs| == |now.runs| && now.runs[r].outputs.Keys == was.runs[r].outputs.Keys
  {
  }

  lemma PatchStep(jobs0: Jobs, jobs: Jobs, i: nat, r: nat, edits: seq<(string, string)>, k: nat)
    requires i in jobs0 && i in jobs && k < |edits| && PatchedBy(jobs0[i], jobs[i], r, edits[..k])
    requires jobs == PatchAll(jobs0, i, r, edits[..k]) && edits[k].0 in jobs[i].runs[r].outputs
    ensures var next := WriteOutput(jobs, i, r, edits[k].0, edits[k].1);
      && next == PatchAll(jobs0, i, r, edits[..k + 1])
      && OnlyRow(jobs, next, i) && PatchedBy(jobs0[i], next[i], r, edits[..k + 1])
  {
    var done, more := edits[..k], edits[..k + 1];
    assert more[..k] == done && more[k] == edits[k];
    var job := jobs[i];
    EditOne(jobs0[i].runs[r].outputs, job.runs[r].outputs, edits, k);
    hide AfterEdits;
  }

  lemma EditOne(was: Texts, now: Texts, edits: seq<(string, string)>, k: nat)
    requires k < |edits| && AfterEdits(was, now, edits[..k]) && edits[k].0 in now
    ensures AfterEdits(was, now[edits[k].0 := edits[k].1], edits[..k + 1])
  {
    hide Edited, LastEdit;
    var done, more, next := edits[..k], edits[..k + 1], now[edits[k].0 := edits[k].1];
    assert forall j | 0 <= j < k :: more[j] == done[j];
    forall m | LastEdit(more, m) ensures 0 <= m <= k && more[m].0 in next && next[more[m].0] == more[m].1 {
      LastEditBefore(edits, k, m);
      if m < k { assert done[m].0 in now && now[done[m].0] == done[m].1; }
    }
    forall f | f in was && !Edited(more, f) ensures f in next && next[f] == was[f] {
      EditedBefore(edits, k, f);
    }
    assert forall j | 0 <= j < |more| :: more[j].0 in was;
  }

  lemma LastEditBefore(edits: seq<(string, string)>, k: nat, m: int)
    requires k < |edits| && LastEdit(edits[..k + 1], m)
    ensures 0 <= m <= k && (m < k ==> LastEdit(edits[..k], m) && edits[m].0 != edits[k].0)
  {
    var done, more := edits[..k], edits[..k + 1];
    if m < k {
      assert more[k].0 != more[m].0;
      forall x | m < x < k ensures done[x].0 != done[m].0 { assert more[x].0 != more[m].0; }
    }
  }

  lemma EditedBefore(edits: seq<(string, string)>, k: nat, f: string)
    requires k < |edits| && !Edited(edits[..k + 1], f)
    ensures !Edited(edits[..k], f) && f != edits[k].0
  {
    var done, more := edits[..k], edits[..k + 1];
    assert more[k].0 != f;
    forall m | 0 <= m < k ensures done[m].0 != f { assert more[m].0 != f; }
  }

  /** A patch of several fields is as many steps of the machine. */
  function PatchAll(jobs: Jobs, i: nat, r: nat, edits: seq<(string, string)>): Jobs {
    if edits == [] then jobs
    else EditRun(PatchAll(jobs, i, r, edits[..|edits| - 1]), i, r, edits[|edits| - 1].0, edits[|edits| - 1].1)
  }

  /** The first stage that does not skip the file type, or the first of all. */
  method FirstApplicableStage(skips: seq<bool>) returns (first: nat)
    requires skips != []
    ensures first < |skips|
    ensures !skips[first] ==> forall i | 0 <= i < first :: skips[i]
    ensures skips[first] ==> first == 0 && forall i | 0 <= i < |skips| :: skips[i]
  {
    for i := 0 to |skips|
      invariant forall j | 0 <= j < i :: skips[j]
    {
      if !skips[i] { return i; }
    }
    first := 0;
  }

  /** The stage runOnce processes next: it begins a batch, or nothing is pending anywhere. */
  method PickStage(cfg: Config, docs: map<DocId, Doc>) returns (picked: Option<nat>)
    ensures picked.Some? ==> Enabled(cfg, State(docs, None), BeginBatch(picked.value))
    ensures picked.Some? ==>
      && picked.value < |cfg| && !cfg[picked.value].kind.Unknown?
      && exists d :: d in docs && picked.value in docs[d].jobs && docs[d].jobs[picked.value].status.Pending?
    ensures forall k, d | 0 <= k < (if picked.Some? then picked.value else |cfg|) && d in docs && k in docs[d].jobs ::
      cfg[k].kind.Unknown? || !docs[d].jobs[k].status.Pending?
    ensures picked.None? ==> forall k | 0 <= k < |cfg| && Supported(cfg[k]) :: !AnyPending(State(docs, None), k)
  {
    for k := 0 to |cfg|
      invariant forall j | 0 <= j < k && Supported(cfg[j]) :: !AnyPending(State(docs, None), j)
    {
      if Supported(cfg[k]) {
        var pending := set d | d in docs && PendingAt(docs[d], k);
        if pending != {} {
          var d :| d in pending;
          assert PendingAt(docs[d], k);
          return Some(k);
        }
        assert forall d | d in docs :: d !in pending;
      }
    }
    picked := None;
  }
}
