/** The job pipeline of one document: its rows, and every step that worker, user or
    restart can take on them. A stage is named by its position in the configured order. */
module Pipeline {
  import opened Wrappers

  datatype Status = Pending | Running | Waiting | Error | Done

  /** Output field name to text, as one stage produced it. */
  type Texts = map<string, string>

  /** What CollectStageData returns for one document: stage position to that stage's texts. */
  type StageData = map<nat, Texts>

  /** One run. The texts stand for the files behind its output fields; module RunFiles
      shows that the files behave like this map. */
  datatype Run = Run(outputs: Texts)

  /** Why a job is waiting: for review of a result, for document context, or because an
      earlier stage failed for good. */
  datatype Park = Review | Context | Blocked

  /** `shown` and `park` are history: the stage data given to the execution that stored the
      last run, and the reason for the last move to waiting. No step below branches on them. */
  datatype Job = Job(status: Status, runs: seq<Run>, shown: StageData, park: Park)

  type Jobs = map<nat, Job>

  /** `failures[i]` counts the failed events of stage i over the document's whole life;
      `context` tells whether the user gave it any context. */
  datatype Doc = Doc(first: nat, jobs: Jobs, failures: map<nat, nat>, context: bool)

  /** What an execution does, settled by document and stage when it starts: generate a result,
      and ask wasStopped before storing it; commit without asking (embedding, the skip branches,
      a seeded transcript); or park at once because the document has no context. */
  datatype Path = Generates | Commits | Parks

  /** One goroutine: the runs its job had when it was listed, the stage data collected when it
      started, and its path. */
  datatype Flight = Flight(runs: seq<Run>, data: StageData, path: Path)

  const MAX_FAILURES: nat := 3

  predicate Queued(job: Job) { job.status.Pending? || job.status.Running? }

  // --- Reading -------------------------------------------------------------------------

  predicate Visible(job: Job) {
    (job.status.Done? || job.status.Waiting?) && |job.runs| > 0 && LastRun(job).outputs != map[]
  }

  function LastRun(job: Job): Run
    requires |job.runs| > 0
  {
    job.runs[|job.runs| - 1]
  }

  function Collect(jobs: Jobs): StageData {
    map i | i in jobs && Visible(jobs[i]) :: LastRun(jobs[i]).outputs
  }

  function FailureCount(doc: Doc, i: nat): nat {
    if i in doc.failures then doc.failures[i] else 0
  }

  // --- Single statements on the jobs table -----------------------------------------------

  function NewJob(): Job { Job(Pending, [], map[], Blocked) }

  /** An UPDATE of a row that is not there changes nothing. */
  function SetStatus(jobs: Jobs, i: nat, status: Status): Jobs {
    if i in jobs then jobs[i := jobs[i].(status := status)] else jobs
  }

  function SetRuns(jobs: Jobs, i: nat, runs: seq<Run>): Jobs {
    if i in jobs then jobs[i := jobs[i].(runs := runs)] else jobs
  }

  /** The next stage's job becomes pending, created if there is none. */
  function Advance(n: nat, jobs: Jobs, i: nat): Jobs {
    if i + 1 >= n then jobs
    else if i + 1 in jobs then SetStatus(jobs, i + 1, Pending)
    else jobs[i + 1 := NewJob()]
  }

  /** Every later job becomes pending, whatever it was, running ones included. */
  function CascadeReplay(n: nat, jobs: Jobs, i: nat): Jobs {
    map j | j in jobs :: if i < j < n then jobs[j].(status := Pending) else jobs[j]
  }

  /** Every later pending job is parked. */
  function CascadeBlock(n: nat, jobs: Jobs, i: nat): Jobs {
    map j | j in jobs :: if i < j < n && jobs[j].status.Pending?
                         then jobs[j].(status := Waiting, park := Blocked) else jobs[j]
  }

  function ResetRunning(jobs: Jobs): Jobs {
    map j | j in jobs :: if jobs[j].status.Running? then jobs[j].(status := Pending) else jobs[j]
  }

  function WakeWaiting(jobs: Jobs): Jobs {
    map j | j in jobs :: if jobs[j].status.Waiting? then jobs[j].(status := Pending) else jobs[j]
  }

  // --- Worker steps ----------------------------------------------------------------------

  /** How an execution ends. A skip may complete without a run. */
  datatype Outcome =
    | Completed(run: Option<Run>)
    | ParkedForReview(result: Run)
    | ParkedForContext
    | Failed(errorRun: Option<Run>)
    | Stopped

  function StartJob(jobs: Jobs, k: nat): Jobs { SetStatus(jobs, k, Running) }

  function AppendRun(runs: seq<Run>, run: Option<Run>): seq<Run> {
    match run case None => runs case Some(r) => runs + [r]
  }

  /** UpdateRuns is called only when there is a run to add. */
  function StoreRun(jobs: Jobs, k: nat, flight: Flight, run: Option<Run>): Jobs {
    if run.None? then jobs else SetShown(SetRuns(jobs, k, AppendRun(flight.runs, run)), k, flight.data)
  }

  function SetShown(jobs: Jobs, k: nat, data: StageData): Jobs {
    if k in jobs then jobs[k := jobs[k].(shown := data)] else jobs
  }

  function ParkAs(jobs: Jobs, k: nat, park: Park): Jobs {
    if k in jobs then jobs[k := jobs[k].(status := Waiting, park := park)] else jobs
  }

  function Fail(n: nat, doc: Doc, k: nat, flight: Flight, errorRun: Option<Run>): Doc {
    var failures := FailureCount(doc, k) + 1;
    var counted := doc.(failures := doc.failures[k := failures]);
    if failures < MAX_FAILURES then counted.(jobs := SetStatus(doc.jobs, k, Pending))
    else
      var failed := SetStatus(StoreRun(doc.jobs, k, flight, errorRun), k, Error);
      counted.(jobs := CascadeBlock(n, failed, k))
  }

  function Finish(n: nat, doc: Doc, k: nat, flight: Flight, outcome: Outcome): Doc {
    match outcome
    case Completed(run) =>
      doc.(jobs := Advance(n, SetStatus(StoreRun(doc.jobs, k, flight, run), k, Done), k))
    case ParkedForReview(run) =>
      doc.(jobs := ParkAs(StoreRun(doc.jobs, k, flight, Some(run)), k, Review))
    case ParkedForContext => doc.(jobs := ParkAs(doc.jobs, k, Context))
    case Failed(errorRun) => Fail(n, doc, k, flight, errorRun)
    case Stopped => doc
  }

  /** The endings a path offers. A generated result is stored, with a run, only if the job is
      still running, and dropped exactly when it is not; a park comes before anything can fail. */
  predicate OutcomePossible(job: Job, path: Path, outcome: Outcome) {
    match outcome
    case Completed(run) => path.Commits? || (path.Generates? && run.Some? && job.status.Running?)
    case ParkedForReview(_) => path.Generates? && job.status.Running?
    case ParkedForContext => path.Parks?
    case Failed(_) => !path.Parks?
    case Stopped => path.Generates? && !job.status.Running?
  }

  // --- User steps ------------------------------------------------------------------------

  datatype UserStep =
    | PutStatus(stage: nat, target: Status)
    | EditOutput(stage: nat, field: string, content: string)
    | PatchRun(stage: nat, run: nat, field: string, content: string)
    | PatchContext(provided: bool)

  predicate ValidTransition(from: Status, to: Status) {
    match from
    case Running => to.Error?
    case Waiting => to.Pending? || to.Done?
    case Error => to.Pending?
    case Done => to.Pending?
    case Pending => false
  }

  function PutJobStatus(n: nat, jobs: Jobs, i: nat, target: Status): Jobs {
    if i !in jobs || !ValidTransition(jobs[i].status, target) then jobs
    else
      var updated := SetStatus(jobs, i, target);
      if target.Done? then Advance(n, updated, i)
      else if target.Pending? && jobs[i].status.Done? then CascadeReplay(n, updated, i)
      else updated
  }

  datatype EditError = NoJob | StageNotDone | NoArtifact | NotSaved

  function FindDoneStageRun(jobs: Jobs, i: nat, field: string): (r: Result<Run, EditError>)
    ensures r.Success? <==> i in jobs && jobs[i].status.Done? && |jobs[i].runs| > 0 && field in LastRun(jobs[i]).outputs
    ensures r.Success? ==> r.value == LastRun(jobs[i])
  {
    if i !in jobs then Failure(NoJob)
    else if !jobs[i].status.Done? then Failure(StageNotDone)
    else if |jobs[i].runs| == 0 then Failure(NoArtifact)
    else if field !in LastRun(jobs[i]).outputs then Failure(NoArtifact)
    else Success(LastRun(jobs[i]))
  }

  function WriteOutput(jobs: Jobs, i: nat, r: nat, field: string, content: string): Jobs
    requires i in jobs && r < |jobs[i].runs|
  {
    var run := jobs[i].runs[r];
    jobs[i := jobs[i].(runs := jobs[i].runs[r := Run(run.outputs[field := content])])]
  }

  /** UpdateStageArtifactAt: the stage keeps its status, everything behind it is re-queued. */
  function EditStage(n: nat, jobs: Jobs, i: nat, field: string, content: string): Jobs {
    if FindDoneStageRun(jobs, i, field).Failure? then jobs
    else CascadeReplay(n, WriteOutput(jobs, i, |jobs[i].runs| - 1, field, content), i)
  }

  /** patchRun: overwrites an output of any run, of a job in any status, and re-queues nothing. */
  function EditRun(jobs: Jobs, i: nat, r: nat, field: string, content: string): Jobs {
    if i in jobs && r < |jobs[i].runs| && field in jobs[i].runs[r].outputs
    then WriteOutput(jobs, i, r, field, content) else jobs
  }

  function ApplyUser(n: nat, jobs: Jobs, u: UserStep): Jobs {
    match u
    case PutStatus(i, target) => PutJobStatus(n, jobs, i, target)
    case EditOutput(i, field, content) => EditStage(n, jobs, i, field, content)
    case PatchRun(i, r, field, content) => EditRun(jobs, i, r, field, content)
    case PatchContext(_) => WakeWaiting(jobs)
  }

  function ActOn(n: nat, doc: Doc, u: UserStep): Doc {
    doc.(jobs := ApplyUser(n, doc.jobs, u), context := if u.PatchContext? then u.provided else doc.context)
  }

  // --- Shape -----------------------------------------------------------------------------

  /** The jobs are a contiguous block of stages that starts at `first`, and a done job that
      is not at the last stage has a successor. */
  ghost predicate Shape(n: nat, first: nat, jobs: Jobs) {
    && first in jobs
    && (forall i | i in jobs :: first <= i < n)
    && (forall i, j | j in jobs && first <= i < j :: i in jobs)
    && (forall i | i in jobs && jobs[i].status.Done? && i + 1 < n :: i + 1 in jobs)
  }

  /** Steps that add no row keep the shape unless they make a job done. */
  lemma SameRowsKeepShape(n: nat, first: nat, a: Jobs, b: Jobs)
    requires Shape(n, first, a) && a.Keys == b.Keys
    requires forall i | i in b && b[i].status.Done? :: a[i].status.Done? || i + 1 >= n || i + 1 in b
    ensures Shape(n, first, b)
  {
  }

  /** Making job i done and then advancing keeps the shape. */
  lemma AdvanceKeepsShape(n: nat, first: nat, a: Jobs, b: Jobs, i: nat)
    requires Shape(n, first, a) && i in a && a.Keys == b.Keys
    requires forall j | j in b && b[j].status.Done? && j != i :: a[j].status.Done?
    ensures Shape(n, first, Advance(n, b, i))
    ensures a.Keys <= Advance(n, b, i).Keys
  {
    var c := Advance(n, b, i);
    forall j, k | k in c && first <= j < k ensures j in c {
      assert j in a || k == i + 1;
      assert j in a || j == i || j < i;
    }
    if i + 1 < n && i + 1 !in b {
      assert i + 1 in c && c.Keys == b.Keys + {i + 1};
    }
  }

  lemma UserKeepsShape(n: nat, first: nat, jobs: Jobs, u: UserStep)
    requires Shape(n, first, jobs)
    ensures Shape(n, first, ApplyUser(n, jobs, u))
    ensures jobs.Keys <= ApplyUser(n, jobs, u).Keys
  {
    var b := ApplyUser(n, jobs, u);
    if u.PutStatus? {
      if u.stage in jobs && ValidTransition(jobs[u.stage].status, u.target) {
        if u.target.Done? {
          AdvanceKeepsShape(n, first, jobs, SetStatus(jobs, u.stage, Done), u.stage);
        } else {
          SameRowsKeepShape(n, first, jobs, b);
        }
      }
    } else {
      SameRowsKeepShape(n, first, jobs, b);
    }
  }

  lemma FinishKeepsShape(n: nat, doc: Doc, k: nat, flight: Flight, outcome: Outcome)
    requires Shape(n, doc.first, doc.jobs) && k in doc.jobs
    ensures Shape(n, doc.first, Finish(n, doc, k, flight, outcome).jobs)
    ensures doc.jobs.Keys <= Finish(n, doc, k, flight, outcome).jobs.Keys
    ensures Finish(n, doc, k, flight, outcome).first == doc.first
  {
    if outcome.Completed? {
      AdvanceKeepsShape(n, doc.first, doc.jobs, SetStatus(StoreRun(doc.jobs, k, flight, outcome.run), k, Done), k);
    } else {
      SameRowsKeepShape(n, doc.first, doc.jobs, Finish(n, doc, k, flight, outcome).jobs);
    }
  }

  /** A document whose jobs are all done has reached the last stage. */
  lemma AllDoneReachesTheEnd(n: nat, first: nat, jobs: Jobs)
    requires Shape(n, first, jobs)
    requires forall i | i in jobs :: jobs[i].status.Done?
    ensures forall i | first <= i < n :: i in jobs
  {
    var i := first;
    while i + 1 < n
      invariant i in jobs
      invariant forall j | first <= j <= i :: j in jobs
    {
      i := i + 1;
    }
  }

  // --- Run lists ---------------------------------------------------------------------------

  /** The worker only adds runs at the end, provided the list it read is still the stored one. */
  lemma FinishAppendsRuns(n: nat, doc: Doc, k: nat, flight: Flight, outcome: Outcome, i: nat)
    requires k in doc.jobs && doc.jobs[k].runs == flight.runs && i in doc.jobs
    ensures i in Finish(n, doc, k, flight, outcome).jobs
    ensures doc.jobs[i].runs <= Finish(n, doc, k, flight, outcome).jobs[i].runs
    ensures i != k ==> Finish(n, doc, k, flight, outcome).jobs[i].runs == doc.jobs[i].runs
  {
  }

  /** `shown` changes with the run list and only with it, to what the execution was given. */
  lemma ShownIsOfLastRun(n: nat, doc: Doc, k: nat, flight: Flight, outcome: Outcome, i: nat)
    requires k in doc.jobs && doc.jobs[k].runs == flight.runs && i in doc.jobs
    ensures i in Finish(n, doc, k, flight, outcome).jobs
    ensures var b := Finish(n, doc, k, flight, outcome).jobs[i];
      b.shown == if b.runs == doc.jobs[i].runs then doc.jobs[i].shown else flight.data
  {
    if i != k { OthersKeepRuns(n, doc, k, flight, outcome, i); } else { OwnRuns(n, doc, k, flight, outcome); }
  }

  lemma OthersKeepRuns(n: nat, doc: Doc, k: nat, flight: Flight, outcome: Outcome, i: nat)
    requires i in doc.jobs && i != k
    ensures i in Finish(n, doc, k, flight, outcome).jobs
    ensures var b := Finish(n, doc, k, flight, outcome).jobs[i];
      b.runs == doc.jobs[i].runs && b.shown == doc.jobs[i].shown
  {
  }

  /** The run an ending adds, if any. */
  function AddedRun(doc: Doc, k: nat, outcome: Outcome): Option<Run> {
    match outcome
    case Completed(run) => run
    case ParkedForReview(run) => Some(run)
    case Failed(errorRun) => if FailureCount(doc, k) + 1 < MAX_FAILURES then None else errorRun
    case _ => None
  }

  lemma OwnRuns(n: nat, doc: Doc, k: nat, flight: Flight, outcome: Outcome)
    requires k in doc.jobs && doc.jobs[k].runs == flight.runs
    ensures k in Finish(n, doc, k, flight, outcome).jobs
    ensures var b, added := Finish(n, doc, k, flight, outcome).jobs[k], AddedRun(doc, k, outcome);
      && b.runs == AppendRun(flight.runs, added)
      && b.shown == if added.None? then doc.jobs[k].shown else flight.data
  {
  }

  /** Users never add, drop or reorder runs, nor change what the last one was made from; an
      edit changes one field of one run. */
  lemma UserKeepsRunLists(n: nat, jobs: Jobs, u: UserStep, i: nat, r: nat)
    requires i in jobs && r < |jobs[i].runs|
    ensures i in ApplyUser(n, jobs, u) && |ApplyUser(n, jobs, u)[i].runs| == |jobs[i].runs|
    ensures ApplyUser(n, jobs, u)[i].shown == jobs[i].shown
    ensures ApplyUser(n, jobs, u)[i].runs[r] == jobs[i].runs[r] ||
      ((u.EditOutput? || u.PatchRun?) && u.stage == i
       && (if u.PatchRun? then u.run == r else r == |jobs[i].runs| - 1)
       && u.field in jobs[i].runs[r].outputs
       && ApplyUser(n, jobs, u)[i].runs[r].outputs == jobs[i].runs[r].outputs[u.field := u.content])
  {
  }

  // --- Failures ------------------------------------------------------------------------------

  /** A failure counts once. Below the limit it only re-queues its job; at the limit the job
      keeps its error, no later job stays queued, and no other row changes. */
  lemma FailureRetriesOrBlocks(n: nat, doc: Doc, k: nat, flight: Flight, errorRun: Option<Run>)
    requires Shape(n, doc.first, doc.jobs) && k in doc.jobs
    ensures var b := Finish(n, doc, k, flight, Failed(errorRun));
      && (forall i :: FailureCount(b, i) == FailureCount(doc, i) + if i == k then 1 else 0)
      && b.jobs.Keys == doc.jobs.Keys
      && (FailureCount(b, k) < MAX_FAILURES ==> b.jobs == doc.jobs[k := doc.jobs[k].(status := Pending)])
      && (FailureCount(b, k) >= MAX_FAILURES ==>
            && b.jobs[k].status.Error?
            && (errorRun.Some? ==> b.jobs[k].runs == flight.runs + [errorRun.value])
            && (forall j | j in b.jobs && k < j :: !b.jobs[j].status.Pending? && b.jobs[j].runs == doc.jobs[j].runs)
            && (forall j | j in b.jobs && j != k && b.jobs[j] != doc.jobs[j] ::
                  k < j && doc.jobs[j].status.Pending? && b.jobs[j].status.Waiting?))
  {
    if FailureCount(doc, k) + 1 >= MAX_FAILURES {
      var stored := SetStatus(StoreRun(doc.jobs, k, flight, errorRun), k, Error);
      assert stored.Keys == doc.jobs.Keys && forall j | j in stored && j != k :: stored[j] == doc.jobs[j];
      assert stored[k].status.Error? && (errorRun.Some? ==> stored[k].runs == flight.runs + [errorRun.value]);
      hide StoreRun, SetStatus;
    }
  }
}
