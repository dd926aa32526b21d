/** All documents under one worker process: batches of one stage, goroutines, user steps,
    restarts. Pipeline shape, single flight and the stop rule over every run. */
module WorkerLoop {
  import opened Wrappers
  import opened Pipeline
  import opened Freshness

  type DocId = string

  datatype Kind = Ocr | Transcribe | LlmText | Embed | Unknown

  /** `needsContext` is the stage's start_if on provided context. */
  datatype Stage = Stage(kind: Kind, maxConcurrent: nat, needsContext: bool)

  /** One of the four stage types runOnce processes. */
  predicate Supported(stage: Stage) { !stage.kind.Unknown? }

  /** checkStartIf fails: only LLM stages ask it, and before anything else. */
  predicate MustPark(stage: Stage, context: bool) { stage.kind.LlmText? && stage.needsContext && !context }

  /** Embedding never asks wasStopped; a job parks exactly when it must. */
  predicate PathPossible(stage: Stage, context: bool, path: Path) {
    match path
    case Generates => Supported(stage) && !stage.kind.Embed? && !MustPark(stage, context)
    case Commits => Supported(stage) && !MustPark(stage, context)
    case Parks => MustPark(stage, context)
  }

  type Config = seq<Stage>

  /** One pass of runOnce: jobs listed but not started, and jobs held by a goroutine. */
  datatype Batch = Batch(stage: nat, todo: map<DocId, seq<Run>>, flights: map<DocId, Flight>)

  datatype State = State(docs: map<DocId, Doc>, batch: Option<Batch>)

  function BatchOf(s: State): Batch {
    if s.batch.Some? then s.batch.value else Batch(0, map[], map[])
  }

  datatype Step =
    | Ingest(doc: DocId, first: nat, context: bool)
    | User(doc: DocId, action: UserStep)
    | BeginBatch(stage: nat)
    | Start(doc: DocId, path: Path)
    | FinishJob(doc: DocId, outcome: Outcome)
    | EndBatch
    | Restart

  predicate PendingAt(doc: Doc, k: nat) { k in doc.jobs && doc.jobs[k].status.Pending? }

  predicate AnyPending(s: State, k: nat) { exists d | d in s.docs :: PendingAt(s.docs[d], k) }

  predicate Enabled(cfg: Config, s: State, step: Step) {
    match step
    case Ingest(d, first, _) => d !in s.docs && first < |cfg|
    case User(d, _) => d in s.docs
    case BeginBatch(k) =>
      && s.batch.None? && k < |cfg| && Supported(cfg[k]) && AnyPending(s, k)
      && forall j | 0 <= j < k && Supported(cfg[j]) :: !AnyPending(s, j)
    case Start(d, path) =>
      && s.batch.Some? && d in s.batch.value.todo && d in s.docs && s.batch.value.stage < |cfg|
      && PathPossible(cfg[s.batch.value.stage], s.docs[d].context, path)
      && |s.batch.value.flights| < cfg[s.batch.value.stage].maxConcurrent
    case FinishJob(d, outcome) =>
      && s.batch.Some? && d in s.batch.value.flights && d in s.docs
      && s.batch.value.stage in s.docs[d].jobs && s.batch.value.stage < |cfg|
      && OutcomePossible(s.docs[d].jobs[s.batch.value.stage], s.batch.value.flights[d].path, outcome)
      && (outcome.ParkedForReview? ==> cfg[s.batch.value.stage].kind.LlmText?)
    case EndBatch => s.batch.Some? && s.batch.value.todo == map[] && s.batch.value.flights == map[]
    case Restart => true
  }

  function SetJobs(s: State, d: DocId, jobs: Jobs): State
    requires d in s.docs
  {
    s.(docs := s.docs[d := s.docs[d].(jobs := jobs)])
  }

  function UserIn(n: nat, s: State, d: DocId, u: UserStep): State
    requires d in s.docs
  {
    s.(docs := s.docs[d := ActOn(n, s.docs[d], u)])
  }

  function StartIn(s: State, d: DocId, path: Path): State
    requires d in s.docs && s.batch.Some? && d in s.batch.value.todo
  {
    var b := s.batch.value;
    var jobs := StartJob(s.docs[d].jobs, b.stage);
    SetJobs(s, d, jobs).(batch :=
      Some(b.(todo := b.todo - {d}, flights := b.flights[d := Flight(b.todo[d], Collect(jobs), path)])))
  }

  function FinishIn(cfg: Config, s: State, d: DocId, outcome: Outcome): State
    requires d in s.docs && s.batch.Some? && d in s.batch.value.flights
  {
    var b := s.batch.value;
    s.(docs := s.docs[d := Finish(|cfg|, s.docs[d], b.stage, b.flights[d], outcome)],
       batch := Some(b.(flights := b.flights - {d})))
  }

  function Apply(cfg: Config, s: State, step: Step): State
    requires Enabled(cfg, s, step)
  {
    match step
    case Ingest(d, first, context) =>
      s.(docs := s.docs[d := Doc(first, map[first := NewJob()], map[], context)])
    case User(d, u) => UserIn(|cfg|, s, d, u)
    case BeginBatch(k) =>
      s.(batch := Some(Batch(k, map d | d in s.docs && PendingAt(s.docs[d], k) :: s.docs[d].jobs[k].runs, map[])))
    case Start(d, path) => StartIn(s, d, path)
    case FinishJob(d, outcome) => FinishIn(cfg, s, d, outcome)
    case EndBatch => s.(batch := None)
    case Restart => State(map d | d in s.docs :: s.docs[d].(jobs := ResetRunning(s.docs[d].jobs)), None)
  }

  // --- Single flight, over every run -----------------------------------------------------------

  /** A job held by a goroutine is running, was stopped, or was re-queued. */
  ghost predicate Held(doc: Doc, k: nat) {
    k in doc.jobs && (doc.jobs[k].status.Running? || doc.jobs[k].status.Error? || doc.jobs[k].status.Pending?)
  }

  ghost predicate RunningOnlyAt(doc: Doc, k: nat) {
    forall i | i in doc.jobs && doc.jobs[i].status.Running? :: i == k
  }

  ghost predicate NothingRuns(doc: Doc) {
    forall i | i in doc.jobs :: !doc.jobs[i].status.Running?
  }

  /** One document as the current batch sees it: listed, held by a goroutine, or neither. */
  ghost predicate DocFlow(n: nat, doc: Doc, k: nat, listed: bool, held: bool) {
    && Shape(n, doc.first, doc.jobs)
    && (listed ==> !held && PendingAt(doc, k))
    && (held ==> Held(doc, k) && RunningOnlyAt(doc, k))
    && (!held ==> NothingRuns(doc))
  }

  ghost predicate Flow(cfg: Config, s: State) {
    match s.batch
    case None => forall d | d in s.docs :: DocFlow(|cfg|, s.docs[d], 0, false, false)
    case Some(b) =>
      && b.stage < |cfg| && Supported(cfg[b.stage]) && b.todo.Keys <= s.docs.Keys && b.flights.Keys <= s.docs.Keys
      && |b.flights| <= cfg[b.stage].maxConcurrent
      && forall d | d in s.docs :: DocFlow(|cfg|, s.docs[d], b.stage, d in b.todo, d in b.flights)
  }

  /** A user step cannot start a job, stop a pending one, or finish a running or failed one,
      except by re-queueing it. */
  lemma UserStatus(n: nat, jobs: Jobs, u: UserStep, i: nat)
    requires i in jobs
    ensures i in ApplyUser(n, jobs, u)
    ensures ApplyUser(n, jobs, u)[i].status.Running? ==> jobs[i].status.Running?
    ensures jobs[i].status.Pending? ==> ApplyUser(n, jobs, u)[i].status.Pending?
    ensures jobs[i].status.Running? || jobs[i].status.Error? ==>
      var status := ApplyUser(n, jobs, u)[i].status; status.Running? || status.Error? || status.Pending?
  {
  }

  lemma UserKeepsFlow(n: nat, doc: Doc, k: nat, listed: bool, held: bool, u: UserStep)
    requires DocFlow(n, doc, k, listed, held)
    ensures DocFlow(n, ActOn(n, doc, u), k, listed, held)
  {
    hide ApplyUser;
    var b := ApplyUser(n, doc.jobs, u);
    UserKeepsShape(n, doc.first, doc.jobs, u);
    if k in doc.jobs { UserStatus(n, doc.jobs, u, k); }
    forall i | i in b && b[i].status.Running? ensures i in doc.jobs && doc.jobs[i].status.Running? {
      UserNeverStarts(n, doc.jobs, u, i);
    }
  }

  lemma StartKeepsFlow(n: nat, doc: Doc, k: nat, held: bool)
    requires DocFlow(n, doc, k, true, held)
    ensures !held
    ensures DocFlow(n, doc.(jobs := StartJob(doc.jobs, k)), k, false, true)
  {
    SameRowsKeepShape(n, doc.first, doc.jobs, StartJob(doc.jobs, k));
  }

  lemma FinishStartsNothing(n: nat, doc: Doc, k: nat, flight: Flight, outcome: Outcome, i: nat)
    requires k in doc.jobs && OutcomePossible(doc.jobs[k], flight.path, outcome)
    requires i in Finish(n, doc, k, flight, outcome).jobs && Finish(n, doc, k, flight, outcome).jobs[i].status.Running?
    ensures i != k && i in doc.jobs && doc.jobs[i].status.Running?
  {
  }

  lemma FinishKeepsFlow(n: nat, doc: Doc, k: nat, listed: bool, flight: Flight, outcome: Outcome)
    requires DocFlow(n, doc, k, listed, true) && k in doc.jobs && OutcomePossible(doc.jobs[k], flight.path, outcome)
    ensures !listed && DocFlow(n, Finish(n, doc, k, flight, outcome), k, false, false)
  {
    FinishKeepsShape(n, doc, k, flight, outcome);
    forall i | i in Finish(n, doc, k, flight, outcome).jobs
      && Finish(n, doc, k, flight, outcome).jobs[i].status.Running?
      ensures i != k && i in doc.jobs && doc.jobs[i].status.Running?
    {
      FinishStartsNothing(n, doc, k, flight, outcome, i);
    }
    hide Finish;
  }

  lemma RestartKeepsFlow(n: nat, doc: Doc, k: nat, listed: bool, held: bool)
    requires DocFlow(n, doc, k, listed, held)
    ensures DocFlow(n, doc.(jobs := ResetRunning(doc.jobs)), 0, false, false)
  {
    SameRowsKeepShape(n, doc.first, doc.jobs, ResetRunning(doc.jobs));
  }

  lemma IngestIsFlow(n: nat, first: nat, context: bool, k: nat)
    requires first < n
    ensures DocFlow(n, Doc(first, map[first := NewJob()], map[], context), k, false, false)
  {
  }

  lemma ListKeepsFlow(n: nat, doc: Doc, k: nat)
    requires DocFlow(n, doc, 0, false, false)
    ensures DocFlow(n, doc, k, PendingAt(doc, k), false)
  {
  }

  lemma IdleKeepsFlow(n: nat, doc: Doc, k: nat)
    requires DocFlow(n, doc, k, false, false)
    ensures DocFlow(n, doc, 0, false, false)
  {
  }

  lemma StartStepKeepsFlow(cfg: Config, s: State, d: DocId, path: Path)
    requires Flow(cfg, s) && Enabled(cfg, s, Start(d, path))
    ensures Flow(cfg, StartIn(s, d, path))
  {
    hide StartJob, DocFlow, Collect, PendingAt, Finish, ApplyUser;
    var b, b' := s.batch.value, StartIn(s, d, path).batch.value;
    StartKeepsFlow(|cfg|, s.docs[d], b.stage, d in b.flights);
    assert b'.flights.Keys == b.flights.Keys + {d};
  }

  lemma FinishStepKeepsFlow(cfg: Config, s: State, d: DocId, outcome: Outcome)
    requires Flow(cfg, s) && Enabled(cfg, s, FinishJob(d, outcome))
    ensures Flow(cfg, FinishIn(cfg, s, d, outcome))
  {
    hide Finish, DocFlow, OutcomePossible;
    var b, b' := s.batch.value, FinishIn(cfg, s, d, outcome).batch.value;
    FinishKeepsFlow(|cfg|, s.docs[d], b.stage, d in b.todo, b.flights[d], outcome);
    assert b'.flights.Keys == b.flights.Keys - {d};
  }

  lemma UserStepKeepsFlow(cfg: Config, s: State, d: DocId, u: UserStep)
    requires Flow(cfg, s) && d in s.docs
    ensures Flow(cfg, UserIn(|cfg|, s, d, u))
  {
    hide ApplyUser, DocFlow;
    var b := BatchOf(s);
    UserKeepsFlow(|cfg|, s.docs[d], b.stage, d in b.todo, d in b.flights, u);
  }

  lemma StepKeepsFlow(cfg: Config, s: State, step: Step)
    requires Flow(cfg, s) && Enabled(cfg, s, step)
    ensures Flow(cfg, Apply(cfg, s, step))
  {
    hide ApplyUser, StartIn, FinishIn, ResetRunning, DocFlow, OutcomePossible;
    var b := BatchOf(s);
    match step
    case Ingest(d, first, context) => IngestIsFlow(|cfg|, first, context, b.stage);
    case User(d, u) => UserStepKeepsFlow(cfg, s, d, u);
    case BeginBatch(k) => forall d | d in s.docs { ListKeepsFlow(|cfg|, s.docs[d], k); }
    case Start(d, path) => StartStepKeepsFlow(cfg, s, d, path);
    case FinishJob(d, outcome) => FinishStepKeepsFlow(cfg, s, d, outcome);
    case EndBatch => forall d | d in s.docs { IdleKeepsFlow(|cfg|, s.docs[d], b.stage); }
    case Restart => forall d | d in s.docs { RestartKeepsFlow(|cfg|, s.docs[d], b.stage, d in b.todo, d in b.flights); }
  }

  // --- Runs --------------------------------------------------------------------------------------

  const INITIAL: State := State(map[], None)

  predicate Valid(cfg: Config, s: State, steps: seq<Step>)
    decreases |steps|
  {
    steps == [] || (Enabled(cfg, s, steps[0]) && Valid(cfg, Apply(cfg, s, steps[0]), steps[1..]))
  }

  function RunSteps(cfg: Config, s: State, steps: seq<Step>): State
    requires Valid(cfg, s, steps)
    decreases |steps|
  {
    if steps == [] then s else RunSteps(cfg, Apply(cfg, s, steps[0]), steps[1..])
  }

  lemma {:induction false} RunKeepsFlow(cfg: Config, s: State, steps: seq<Step>)
    requires Flow(cfg, s) && Valid(cfg, s, steps)
    ensures Flow(cfg, RunSteps(cfg, s, steps))
    decreases |steps|
  {
    hide Flow, Enabled, Apply;
    if steps != [] {
      StepKeepsFlow(cfg, s, steps[0]);
      RunKeepsFlow(cfg, Apply(cfg, s, steps[0]), steps[1..]);
    }
  }

  ghost function RunningDocs(s: State): set<DocId> {
    set d | d in s.docs && !NothingRuns(s.docs[d])
  }

  /** Whatever worker, users and restarts do: running jobs belong to the one stage of the
      current batch, each is held by a goroutine, there are at most max_concurrent of them,
      and a goroutine never starts on a job that another one holds. */
  lemma SingleFlight(cfg: Config, steps: seq<Step>)
    requires Valid(cfg, INITIAL, steps)
    ensures var s := RunSteps(cfg, INITIAL, steps);
      && (forall d, i | d in s.docs && i in s.docs[d].jobs && s.docs[d].jobs[i].status.Running? ::
            s.batch.Some? && i == s.batch.value.stage && d in s.batch.value.flights)
      && (s.batch.Some? ==> s.batch.value.stage < |cfg| && |RunningDocs(s)| <= cfg[s.batch.value.stage].maxConcurrent)
      && (s.batch.None? ==> RunningDocs(s) == {})
      && (forall d, path | Enabled(cfg, s, Start(d, path)) :: d !in s.batch.value.flights)
  {
    RunKeepsFlow(cfg, INITIAL, steps);
    var s := RunSteps(cfg, INITIAL, steps);
    if s.batch.Some? {
      assert RunningDocs(s) <= s.batch.value.flights.Keys;
      SubsetSize(RunningDocs(s), s.batch.value.flights.Keys);
      forall d, path | Enabled(cfg, s, Start(d, path)) ensures d !in s.batch.value.flights {
        assert DocFlow(|cfg|, s.docs[d], s.batch.value.stage, true, d in s.batch.value.flights);
      }
    }
  }

  lemma SubsetSize<T>(a: set<T>, b: set<T>)
    requires a <= b
    ensures |a| <= |b|
  {
    if a != {} {
      var x :| x in a;
      SubsetSize(a - {x}, b - {x});
    }
  }

  /** Pipeline shape in every reachable state. */
  lemma ReachableShape(cfg: Config, steps: seq<Step>, d: DocId)
    requires Valid(cfg, INITIAL, steps) && d in RunSteps(cfg, INITIAL, steps).docs
    ensures var doc := RunSteps(cfg, INITIAL, steps).docs[d];
      && Shape(|cfg|, doc.first, doc.jobs)
      && ((forall i | i in doc.jobs :: doc.jobs[i].status.Done?) ==> forall i | doc.first <= i < |cfg| :: i in doc.jobs)
  {
    RunKeepsFlow(cfg, INITIAL, steps);
    var doc := RunSteps(cfg, INITIAL, steps).docs[d];
    assert Shape(|cfg|, doc.first, doc.jobs);
    if forall i | i in doc.jobs :: doc.jobs[i].status.Done? {
      AllDoneReachesTheEnd(|cfg|, doc.first, doc.jobs);
    }
  }

  // --- The stop rule -------------------------------------------------------------------------------

  /** The goroutine for d goes on: it is neither finished nor lost in a restart. */
  predicate KeepsFlight(step: Step, d: DocId) {
    !step.Restart? && !(step.FinishJob? && step.doc == d)
  }

  ghost predicate StoppedInFlight(s: State, d: DocId) {
    && s.batch.Some? && d in s.docs && d in s.batch.value.flights
    && s.batch.value.stage in s.docs[d].jobs && !s.docs[d].jobs[s.batch.value.stage].status.Running?
  }

  lemma HeldIsThere(cfg: Config, s: State, d: DocId)
    requires Flow(cfg, s) && s.batch.Some? && d in s.batch.value.flights
    ensures d in s.docs && s.batch.value.stage in s.docs[d].jobs && s.batch.value.stage < |cfg|
  {
    assert DocFlow(|cfg|, s.docs[d], s.batch.value.stage, d in s.batch.value.todo, true);
  }

  lemma ListedIsPending(cfg: Config, s: State, d: DocId)
    requires Flow(cfg, s) && d in s.docs && s.batch.Some? && d in s.batch.value.todo
    ensures PendingAt(s.docs[d], s.batch.value.stage) && d !in s.batch.value.flights
  {
    assert DocFlow(|cfg|, s.docs[d], s.batch.value.stage, true, d in s.batch.value.flights);
  }

  lemma UserKeepsStopped(n: nat, s: State, e: DocId, u: UserStep, d: DocId)
    requires StoppedInFlight(s, d) && e in s.docs
    ensures StoppedInFlight(UserIn(n, s, e, u), d)
  {
    hide ApplyUser;
    UserStatus(n, s.docs[d].jobs, u, s.batch.value.stage);
  }

  lemma StepKeepsStopped(cfg: Config, s: State, step: Step, d: DocId)
    requires Flow(cfg, s) && Enabled(cfg, s, step) && StoppedInFlight(s, d) && KeepsFlight(step, d)
    ensures StoppedInFlight(Apply(cfg, s, step), d)
    ensures Apply(cfg, s, step).batch.value.flights[d] == s.batch.value.flights[d]
  {
    hide Flow, ApplyUser, Finish, OutcomePossible, Collect;
    if step.User? {
      UserKeepsStopped(|cfg|, s, step.doc, step.action, d);
    } else if step.Start? {
      ListedIsPending(cfg, s, step.doc);
    }
  }

  /** Once a held job left running, no later step of users or worker makes it running again
      while its goroutine lives: not a retry, not an approval or replay upstream. So a
      goroutine that asks wasStopped can only drop its result or fail. */
  lemma {:induction false} StoppedResultIsDropped(cfg: Config, s: State, steps: seq<Step>, d: DocId, outcome: Outcome)
    requires Flow(cfg, s) && Valid(cfg, s, steps) && StoppedInFlight(s, d) && s.batch.value.flights[d].path.Generates?
    requires forall i | 0 <= i < |steps| :: KeepsFlight(steps[i], d)
    ensures StoppedInFlight(RunSteps(cfg, s, steps), d)
    ensures Enabled(cfg, RunSteps(cfg, s, steps), FinishJob(d, outcome)) ==> outcome.Stopped? || outcome.Failed?
    decreases |steps|
  {
    hide Flow, Apply;
    if steps != [] {
      hide Enabled, StoppedInFlight;
      StepKeepsStopped(cfg, s, steps[0], d);
      StepKeepsFlow(cfg, s, steps[0]);
      StoppedResultIsDropped(cfg, Apply(cfg, s, steps[0]), steps[1..], d, outcome);
    }
  }
}
