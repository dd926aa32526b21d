/** The edit promise of update_document: the edited stage keeps the user's text through every
    re-run the edit triggers. */
module EditSurvival {
  import opened Wrappers
  import opened Pipeline
  import opened WorkerLoop

  /** currentStageOutputAt, on the texts. */
  function CurrentStageOutput(jobs: Jobs, i: nat, field: string): (r: Result<string, EditError>)
    ensures r.Success? <==> FindDoneStageRun(jobs, i, field).Success?
  {
    match FindDoneStageRun(jobs, i, field)
    case Failure(e) => Failure(e)
    case Success(run) => Success(run.outputs[field])
  }

  ghost predicate QuietBefore(jobs: Jobs, i: nat) {
    forall j | j in jobs && j < i :: !Queued(jobs[j])
  }

  /** A job of the document gets no further at this stage: the worker does not know the stage,
      or parks the job there for context. */
  predicate Closed(cfg: Config, context: bool, x: nat) {
    x < |cfg| && (!Supported(cfg[x]) || MustPark(cfg[x], context))
  }

  /** Executions can lead from a job queued at j to the end of stage i - 1. */
  predicate Road(cfg: Config, context: bool, j: nat, i: nat) {
    forall x | j <= x < i :: !Closed(cfg, context, x)
  }

  /** No earlier queued job has a road to stage i; in particular if none is queued. */
  ghost predicate NoRoad(cfg: Config, doc: Doc, i: nat) {
    forall j | j in doc.jobs && j < i && Queued(doc.jobs[j]) :: !Road(cfg, doc.context, j, i)
  }

  /** The execution, at k, can end so that a job with a road to stage i is queued: it commits,
      or generates for a job still running; or the job was stopped but a failure re-queues it. */
  predicate Reaches(cfg: Config, doc: Doc, k: nat, path: Path, i: nat)
    requires k in doc.jobs
  {
    match path
    case Parks => false
    case Commits => Road(cfg, doc.context, k + 1, i)
    case Generates =>
      if doc.jobs[k].status.Running? then Road(cfg, doc.context, k + 1, i)
      else FailureCount(doc, k) + 1 < MAX_FAILURES && Road(cfg, doc.context, k, i)
  }

  /** A goroutine at an earlier stage threatens stage i. */
  ghost predicate Threatened(cfg: Config, s: State, d: DocId, i: nat) {
    && s.batch.Some? && d in s.batch.value.flights && s.batch.value.stage < i
    && d in s.docs && s.batch.value.stage in s.docs[d].jobs
    && Reaches(cfg, s.docs[d], s.batch.value.stage, s.batch.value.flights[d].path, i)
  }

  /** The edited job as the worker leaves it alone: done with the text, out of reach, and
      neither listed nor held itself. */
  ghost predicate EditStands(cfg: Config, s: State, d: DocId, i: nat, field: string, content: string) {
    && d in s.docs && CurrentStageOutput(s.docs[d].jobs, i, field) == Success(content)
    && NoRoad(cfg, s.docs[d], i) && !Threatened(cfg, s, d, i)
    && (s.batch.Some? && (d in s.batch.value.todo || d in s.batch.value.flights) ==> s.batch.value.stage != i)
  }

  predicate MachineStep(step: Step) { !step.User? && !step.Ingest? }

  // --- One ending ------------------------------------------------------------------------

  lemma LaterEnding(cfg: Config, n: nat, doc: Doc, k: nat, flight: Flight, outcome: Outcome, i: nat)
    requires i in doc.jobs && i < k && k in doc.jobs && NoRoad(cfg, doc, i)
    ensures var b := Finish(n, doc, k, flight, outcome);
      i in b.jobs && b.jobs[i] == doc.jobs[i] && NoRoad(cfg, b, i)
  {
    hide Road;
  }

  lemma RoadShrinks(cfg: Config, context: bool, k: nat, i: nat)
    ensures !Road(cfg, context, k + 1, i) ==> !Road(cfg, context, k, i) && k + 1 < i
  {
  }

  lemma EarlierCompletion(cfg: Config, n: nat, doc: Doc, k: nat, flight: Flight, run: Option<Run>, i: nat)
    requires i in doc.jobs && k < i && k in doc.jobs && NoRoad(cfg, doc, i)
    requires !Road(cfg, doc.context, k + 1, i)
    ensures var b := Finish(n, doc, k, flight, Completed(run));
      i in b.jobs && b.jobs[i] == doc.jobs[i] && NoRoad(cfg, b, i)
  {
    RoadShrinks(cfg, doc.context, k, i);
    hide Road;
  }

  lemma EarlierFailure(cfg: Config, n: nat, doc: Doc, k: nat, flight: Flight, errorRun: Option<Run>, i: nat)
    requires i in doc.jobs && doc.jobs[i].status.Done? && k < i && k in doc.jobs && NoRoad(cfg, doc, i)
    requires FailureCount(doc, k) + 1 < MAX_FAILURES ==> !Road(cfg, doc.context, k, i)
    ensures var b := Finish(n, doc, k, flight, Failed(errorRun));
      i in b.jobs && b.jobs[i] == doc.jobs[i] && NoRoad(cfg, b, i)
  {
    hide Road;
  }

  lemma EarlierPark(cfg: Config, n: nat, doc: Doc, k: nat, flight: Flight, outcome: Outcome, i: nat)
    requires i in doc.jobs && k < i && k in doc.jobs && NoRoad(cfg, doc, i)
    requires outcome.ParkedForReview? || outcome.ParkedForContext? || outcome.Stopped?
    ensures var b := Finish(n, doc, k, flight, outcome);
      i in b.jobs && b.jobs[i] == doc.jobs[i] && NoRoad(cfg, b, i)
  {
    hide Road;
  }

  lemma EarlierEnding(cfg: Config, n: nat, doc: Doc, k: nat, flight: Flight, outcome: Outcome, i: nat)
    requires i in doc.jobs && doc.jobs[i].status.Done? && k < i && k in doc.jobs && NoRoad(cfg, doc, i)
    requires !Reaches(cfg, doc, k, flight.path, i) && OutcomePossible(doc.jobs[k], flight.path, outcome)
    ensures var b := Finish(n, doc, k, flight, outcome);
      i in b.jobs && b.jobs[i] == doc.jobs[i] && NoRoad(cfg, b, i)
  {
    hide Finish, NoRoad, Road;
    match outcome
    case Completed(run) => EarlierCompletion(cfg, n, doc, k, flight, run, i);
    case Failed(errorRun) =>
      RoadShrinks(cfg, doc.context, k, i);
      EarlierFailure(cfg, n, doc, k, flight, errorRun, i);
    case _ => EarlierPark(cfg, n, doc, k, flight, outcome, i);
  }

  // --- One step --------------------------------------------------------------------------

  lemma FinishKeepsEdit(cfg: Config, s: State, e: DocId, outcome: Outcome, d: DocId, i: nat, field: string,
                        content: string)
    requires Flow(cfg, s) && Enabled(cfg, s, FinishJob(e, outcome)) && EditStands(cfg, s, d, i, field, content)
    ensures EditStands(cfg, FinishIn(cfg, s, e, outcome), d, i, field, content)
  {
    hide Finish, OutcomePossible, NoRoad, Reaches, Flow;
    if e == d {
      var b := s.batch.value;
      if i < b.stage {
        LaterEnding(cfg, |cfg|, s.docs[d], b.stage, b.flights[d], outcome, i);
      } else {
        EarlierEnding(cfg, |cfg|, s.docs[d], b.stage, b.flights[d], outcome, i);
      }
    }
  }

  lemma StartedOutOfReach(cfg: Config, doc: Doc, k: nat, path: Path, i: nat)
    requires PendingAt(doc, k) && k < |cfg| && PathPossible(cfg[k], doc.context, path) && NoRoad(cfg, doc, i)
    ensures var t := doc.(jobs := StartJob(doc.jobs, k));
      NoRoad(cfg, t, i) && (k < i ==> !Reaches(cfg, t, k, path, i))
  {
    var t := doc.(jobs := StartJob(doc.jobs, k));
    assert k < i ==> !Road(cfg, doc.context, k, i);
    if k < i && !path.Parks? {
      assert !Closed(cfg, doc.context, k);
      var x :| k <= x < i && Closed(cfg, doc.context, x);
      assert k + 1 <= x;
    }
  }

  lemma StartKeepsEdit(cfg: Config, s: State, e: DocId, path: Path, d: DocId, i: nat, field: string, content: string)
    requires Flow(cfg, s) && Enabled(cfg, s, Start(e, path)) && EditStands(cfg, s, d, i, field, content)
    ensures EditStands(cfg, StartIn(s, e, path), d, i, field, content)
  {
    ListedIsPending(cfg, s, e);
    hide Flow, NoRoad, Reaches, Collect, PathPossible, CurrentStageOutput;
    if e == d {
      StartedOutOfReach(cfg, s.docs[d], s.batch.value.stage, path, i);
      StartKeepsOutput(s.docs[d].jobs, s.batch.value.stage, i, field);
    }
  }

  lemma StartKeepsOutput(jobs: Jobs, k: nat, i: nat, field: string)
    requires k != i
    ensures CurrentStageOutput(StartJob(jobs, k), i, field) == CurrentStageOutput(jobs, i, field)
  {
  }

  lemma RestartKeepsEdit(cfg: Config, s: State, d: DocId, i: nat, field: string, content: string)
    requires EditStands(cfg, s, d, i, field, content)
    ensures EditStands(cfg, Apply(cfg, s, Restart), d, i, field, content)
  {
    hide Road;
  }

  lemma StepKeepsEdit(cfg: Config, s: State, step: Step, d: DocId, i: nat, field: string, content: string)
    requires Flow(cfg, s) && Enabled(cfg, s, step) && MachineStep(step) && EditStands(cfg, s, d, i, field, content)
    ensures EditStands(cfg, Apply(cfg, s, step), d, i, field, content)
  {
    match step
    case FinishJob(e, outcome) => FinishKeepsEdit(cfg, s, e, outcome, d, i, field, content);
    case Start(e, path) => StartKeepsEdit(cfg, s, e, path, d, i, field, content);
    case Restart => RestartKeepsEdit(cfg, s, d, i, field, content);
    case _ =>
      hide Flow, NoRoad, Reaches;
  }

  lemma {:induction false} RunKeepsEdit(cfg: Config, s: State, steps: seq<Step>, d: DocId, i: nat, field: string,
                                        content: string)
    requires Flow(cfg, s) && Valid(cfg, s, steps) && EditStands(cfg, s, d, i, field, content)
    requires forall k | 0 <= k < |steps| :: MachineStep(steps[k])
    ensures EditStands(cfg, RunSteps(cfg, s, steps), d, i, field, content)
    decreases |steps|
  {
    hide Flow, EditStands, Enabled, Apply;
    if steps != [] {
      StepKeepsFlow(cfg, s, steps[0]);
      StepKeepsEdit(cfg, s, steps[0], d, i, field, content);
      RunKeepsEdit(cfg, Apply(cfg, s, steps[0]), steps[1..], d, i, field, content);
    }
  }

  // --- The edit --------------------------------------------------------------------------

  lemma EditTakes(cfg: Config, doc: Doc, i: nat, field: string, content: string)
    requires FindDoneStageRun(doc.jobs, i, field).Success?
    ensures var b := ActOn(|cfg|, doc, EditOutput(i, field, content));
      && CurrentStageOutput(b.jobs, i, field) == Success(content)
      && (forall j | j in b.jobs && i < j < |cfg| :: b.jobs[j].status.Pending?)
      && (forall j | j < i :: (j in b.jobs <==> j in doc.jobs) && (j in doc.jobs ==> b.jobs[j] == doc.jobs[j]))
      && b.context == doc.context && b.failures == doc.failures && i in b.jobs
  {
  }

  lemma SameReach(cfg: Config, a: Doc, b: Doc, k: nat, path: Path, i: nat)
    requires k in a.jobs && k in b.jobs && a.jobs[k] == b.jobs[k] && a.context == b.context && a.failures == b.failures
    ensures Reaches(cfg, a, k, path, i) == Reaches(cfg, b, k, path, i)
  {
  }

  lemma SameRoads(cfg: Config, a: Doc, b: Doc, i: nat)
    requires a.context == b.context
    requires forall j | j < i :: (j in b.jobs <==> j in a.jobs) && (j in a.jobs ==> b.jobs[j] == a.jobs[j])
    ensures NoRoad(cfg, a, i) == NoRoad(cfg, b, i)
  {
    hide Road;
  }

  lemma DoneIsNotHeld(cfg: Config, s: State, d: DocId, i: nat)
    requires Flow(cfg, s) && d in s.docs && i in s.docs[d].jobs && s.docs[d].jobs[i].status.Done?
    ensures s.batch.Some? && (d in s.batch.value.todo || d in s.batch.value.flights) ==> s.batch.value.stage != i
  {
    hide Shape;
    assert DocFlow(|cfg|, s.docs[d], BatchOf(s).stage, d in BatchOf(s).todo, d in BatchOf(s).flights);
  }

  /** The edit changes neither the roads nor the threats to its stage. */
  lemma EditKeepsReach(cfg: Config, s: State, d: DocId, i: nat, field: string, content: string)
    requires Flow(cfg, s) && d in s.docs && FindDoneStageRun(s.docs[d].jobs, i, field).Success?
    ensures var t := Apply(cfg, s, User(d, EditOutput(i, field, content)));
      && d in t.docs && i in t.docs[d].jobs
      && (NoRoad(cfg, t.docs[d], i) <==> NoRoad(cfg, s.docs[d], i))
      && (Threatened(cfg, t, d, i) <==> Threatened(cfg, s, d, i))
  {
    var t := Apply(cfg, s, User(d, EditOutput(i, field, content)));
    EditTakes(cfg, s.docs[d], i, field, content);
    hide Flow, ActOn, NoRoad, Reaches, FindDoneStageRun, CurrentStageOutput;
    SameRoads(cfg, s.docs[d], t.docs[d], i);
    if s.batch.Some? && d in s.batch.value.flights && s.batch.value.stage < i && s.batch.value.stage in s.docs[d].jobs {
      SameReach(cfg, s.docs[d], t.docs[d], s.batch.value.stage, s.batch.value.flights[d].path, i);
    }
  }

  /** An accepted edit re-queues every later job, and if no earlier queued job has a road to
      its stage and no goroutine threatens it, no sequence of worker steps and restarts changes
      what currentStageOutputAt returns for it. */
  lemma EditSurvives(cfg: Config, s: State, d: DocId, i: nat, field: string, content: string, t: State,
                     steps: seq<Step>)
    requires Flow(cfg, s) && d in s.docs
    requires FindDoneStageRun(s.docs[d].jobs, i, field).Success?
    requires NoRoad(cfg, s.docs[d], i) && !Threatened(cfg, s, d, i)
    requires t == Apply(cfg, s, User(d, EditOutput(i, field, content)))
    requires Valid(cfg, t, steps) && forall k | 0 <= k < |steps| :: MachineStep(steps[k])
    ensures forall j | j in t.docs[d].jobs && i < j < |cfg| :: t.docs[d].jobs[j].status.Pending?
    ensures d in RunSteps(cfg, t, steps).docs
    ensures CurrentStageOutput(RunSteps(cfg, t, steps).docs[d].jobs, i, field) == Success(content)
  {
    DoneIsNotHeld(cfg, s, d, i);
    EditTakes(cfg, s.docs[d], i, field, content);
    EditKeepsReach(cfg, s, d, i, field, content);
    StepKeepsFlow(cfg, s, User(d, EditOutput(i, field, content)));
    hide Flow, ActOn, CurrentStageOutput, NoRoad, RunSteps, Valid, Threatened, FindDoneStageRun;
    RunKeepsEdit(cfg, t, steps, d, i, field, content);
  }

  /** The plain case: nothing queued before the edited stage, and no goroutine there. */
  lemma QuietIsOutOfReach(cfg: Config, s: State, d: DocId, i: nat)
    requires d in s.docs && QuietBefore(s.docs[d].jobs, i)
    requires s.batch.Some? && d in s.batch.value.flights ==> i <= s.batch.value.stage
    ensures NoRoad(cfg, s.docs[d], i) && !Threatened(cfg, s, d, i)
  {
  }
}
