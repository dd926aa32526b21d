/** The converse of the edit promise: if an earlier queued job has a road to the edited stage,
    or a goroutine threatens it, some run of the worker takes the edit away. Every ending used
    is one its stage offers the document: a generated result that is stored with its run, a
    committed embedding, a park where context is missing, or a failure with retries left. */
module EditLoss {
  import opened Wrappers
  import opened Pipeline
  import opened WorkerLoop
  import opened BoundedWork
  import opened EditSurvival

  ghost predicate Working(cfg: Config) { forall k | 0 <= k < |cfg| :: cfg[k].maxConcurrent >= 1 }

  ghost predicate MachineRun(cfg: Config, s: State, steps: seq<Step>) {
    Valid(cfg, s, steps) && forall k | 0 <= k < |steps| :: MachineStep(steps[k])
  }

  lemma {:induction false} RunsJoin(cfg: Config, s: State, a: seq<Step>, b: seq<Step>)
    requires MachineRun(cfg, s, a) && MachineRun(cfg, RunSteps(cfg, s, a), b)
    ensures MachineRun(cfg, s, a + b)
    ensures RunSteps(cfg, s, a + b) == RunSteps(cfg, RunSteps(cfg, s, a), b)
    decreases |a|
  {
    hide Enabled, Apply;
    if a == [] {
      assert a + b == b;
    } else {
      assert (a + b)[1..] == a[1..] + b;
      RunsJoin(cfg, Apply(cfg, s, a[0]), a[1..], b);
    }
  }

  // --- One job run on its own ------------------------------------------------------------

  /** The path and ending used for a stage: a park where the job must, else success. */
  function WorkPath(stage: Stage, context: bool): Path {
    if MustPark(stage, context) then Parks else if stage.kind.Embed? then Commits else Generates
  }

  function WorkOf(path: Path): Outcome {
    if path.Parks? then ParkedForContext else Completed(Some(Run(map["text" := ""])))
  }

  function PathOf(cfg: Config, doc: Doc, k: nat): Path
    requires k < |cfg|
  {
    WorkPath(cfg[k], doc.context)
  }

  function Alone(d: DocId, k: nat, path: Path): seq<Step> {
    [BeginBatch(k), Start(d, path), FinishJob(d, WorkOf(path)), Restart]
  }

  function StartedDoc(doc: Doc, k: nat): Doc { doc.(jobs := StartJob(doc.jobs, k)) }

  function WorkFlight(doc: Doc, k: nat, path: Path): Flight
    requires k in doc.jobs
  {
    Flight(doc.jobs[k].runs, Collect(StartedDoc(doc, k).jobs), path)
  }

  function Worked(n: nat, doc: Doc, k: nat, path: Path): Doc
    requires k in doc.jobs
  {
    Finish(n, StartedDoc(doc, k), k, WorkFlight(doc, k, path), WorkOf(path))
  }

  lemma NothingToReset(doc: Doc)
    requires NothingRuns(doc)
    ensures doc.(jobs := ResetRunning(doc.jobs)) == doc
  {
    assert ResetRunning(doc.jobs) == doc.jobs;
  }

  lemma FourSteps(cfg: Config, s: State, a: Step, b: Step, c: Step, e: Step)
    requires Enabled(cfg, s, a) && Enabled(cfg, Apply(cfg, s, a), b)
    requires Enabled(cfg, Apply(cfg, Apply(cfg, s, a), b), c)
    requires Enabled(cfg, Apply(cfg, Apply(cfg, Apply(cfg, s, a), b), c), e)
    requires MachineStep(a) && MachineStep(b) && MachineStep(c) && MachineStep(e)
    ensures MachineRun(cfg, s, [a, b, c, e])
    ensures RunSteps(cfg, s, [a, b, c, e]) == Apply(cfg, Apply(cfg, Apply(cfg, Apply(cfg, s, a), b), c), e)
  {
    hide Apply, Enabled;
    var s1 := Apply(cfg, s, a);
    var s2 := Apply(cfg, s1, b);
    var s3 := Apply(cfg, s2, c);
    var s4 := Apply(cfg, s3, e);
    assert [a, b, c, e][1..] == [b, c, e] && [b, c, e][1..] == [c, e] && [c, e][1..] == [e] && [e][1..] == [];
    assert Valid(cfg, s4, []) && RunSteps(cfg, s4, []) == s4;
    assert Valid(cfg, s3, [e]) && RunSteps(cfg, s3, [e]) == s4;
    assert Valid(cfg, s2, [c, e]) && RunSteps(cfg, s2, [c, e]) == s4;
    assert Valid(cfg, s1, [b, c, e]) && RunSteps(cfg, s1, [b, c, e]) == s4;
  }

  lemma BeginAlone(cfg: Config, s: State, d: DocId, k: nat)
    requires s.batch.None? && Working(cfg) && Enabled(cfg, s, BeginBatch(k))
    requires d in s.docs && PendingAt(s.docs[d], k)
    ensures var s1 := Apply(cfg, s, BeginBatch(k));
      && s1.docs == s.docs && s1.batch.Some? && s1.batch.value.stage == k && s1.batch.value.flights == map[]
      && d in s1.batch.value.todo && s1.batch.value.todo[d] == s.docs[d].jobs[k].runs
      && Enabled(cfg, s1, Start(d, PathOf(cfg, s.docs[d], k)))
  {
  }

  lemma StartAlone(cfg: Config, s: State, d: DocId, k: nat, path: Path)
    requires k < |cfg| && Enabled(cfg, s, Start(d, path)) && k in s.docs[d].jobs
    requires s.batch.value.stage == k && s.batch.value.flights == map[]
    requires s.batch.value.todo[d] == s.docs[d].jobs[k].runs
    ensures var s2 := Apply(cfg, s, Start(d, path));
      && s2.docs == s.docs[d := StartedDoc(s.docs[d], k)] && s2.batch.Some? && s2.batch.value.stage == k
      && s2.batch.value.flights == map[d := WorkFlight(s.docs[d], k, path)]
      && Enabled(cfg, s2, FinishJob(d, WorkOf(path)))
  {
    hide Collect;
  }

  lemma FinishAlone(cfg: Config, s: State, d: DocId, flight: Flight, outcome: Outcome)
    requires Enabled(cfg, s, FinishJob(d, outcome)) && s.batch.value.flights == map[d := flight]
    ensures var s3 := Apply(cfg, s, FinishJob(d, outcome));
      && s3.docs == s.docs[d := Finish(|cfg|, s.docs[d], s.batch.value.stage, flight, outcome)]
      && s3.batch.Some? && s3.batch.value.flights == map[]
  {
    hide Finish, OutcomePossible;
  }

  lemma TwoAlone(cfg: Config, s: State, d: DocId, k: nat, path: Path)
    requires Flow(cfg, s) && s.batch.None? && Working(cfg) && k < |cfg| && Enabled(cfg, s, BeginBatch(k))
    requires d in s.docs && PendingAt(s.docs[d], k) && path == PathOf(cfg, s.docs[d], k)
    ensures var s1 := Apply(cfg, s, BeginBatch(k));
      Enabled(cfg, s1, Start(d, path)) &&
      var s2 := Apply(cfg, s1, Start(d, path));
      && Enabled(cfg, s2, FinishJob(d, WorkOf(path))) && Flow(cfg, s2) && s2.batch.Some? && s2.batch.value.stage == k
      && s2.docs == s.docs[d := StartedDoc(s.docs[d], k)]
      && s2.batch.value.flights == map[d := WorkFlight(s.docs[d], k, path)]
  {
    hide Flow, Enabled, Apply, Working, AnyPending, WorkOf, PathOf, StartedDoc, WorkFlight;
    BeginAlone(cfg, s, d, k);
    StepKeepsFlow(cfg, s, BeginBatch(k));
    var s1 := Apply(cfg, s, BeginBatch(k));
    StartAlone(cfg, s1, d, k, path);
    StepKeepsFlow(cfg, s1, Start(d, path));
  }

  lemma ThirdAlone(cfg: Config, s: State, t: State, d: DocId, k: nat, path: Path)
    requires k < |cfg| && d in s.docs && k in s.docs[d].jobs
    requires Flow(cfg, t) && t.batch.Some? && Enabled(cfg, t, FinishJob(d, WorkOf(path))) && t.batch.value.stage == k
    requires t.docs == s.docs[d := StartedDoc(s.docs[d], k)]
    requires t.batch.value.flights == map[d := WorkFlight(s.docs[d], k, path)]
    ensures var u := Apply(cfg, t, FinishJob(d, WorkOf(path)));
      && Flow(cfg, u) && u.batch.Some? && u.batch.value.flights == map[]
      && u.docs == s.docs[d := Worked(|cfg|, s.docs[d], k, path)]
  {
    hide Flow, Enabled, Apply, WorkOf, StartedDoc, WorkFlight, Finish;
    FinishAlone(cfg, t, d, t.batch.value.flights[d], WorkOf(path));
    StepKeepsFlow(cfg, t, FinishJob(d, WorkOf(path)));
  }

  /** From an idle worker, a pending job of the earliest pending stage can be run to its end
      with no other change. */
  lemma RunAlone(cfg: Config, s: State, d: DocId, k: nat, path: Path)
    requires Flow(cfg, s) && s.batch.None? && Working(cfg) && k < |cfg| && Enabled(cfg, s, BeginBatch(k))
    requires d in s.docs && PendingAt(s.docs[d], k) && path == PathOf(cfg, s.docs[d], k)
    ensures MachineRun(cfg, s, Alone(d, k, path))
    ensures var t := RunSteps(cfg, s, Alone(d, k, path));
      Flow(cfg, t) && t == State(s.docs[d := Worked(|cfg|, s.docs[d], k, path)], None)
  {
    hide Worked, Flow, Enabled, Apply, Working, MachineRun, RunSteps, WorkOf, PathOf, StartedDoc, WorkFlight;
    TwoAlone(cfg, s, d, k, path);
    var start, finish := Start(d, path), FinishJob(d, WorkOf(path));
    var s2 := Apply(cfg, Apply(cfg, s, BeginBatch(k)), start);
    ThirdAlone(cfg, s, s2, d, k, path);
    var s3 := Apply(cfg, s2, finish);
    RestartIsEnabled(cfg, s3);
    RestartsQuietly(cfg, s3);
    StepKeepsFlow(cfg, s3, Restart);
    FourSteps(cfg, s, BeginBatch(k), start, finish, Restart);
  }

  lemma RestartIsEnabled(cfg: Config, s: State)
    ensures Enabled(cfg, s, Restart)
  {
  }

  lemma RestartsQuietly(cfg: Config, s: State)
    requires Flow(cfg, s) && s.batch.Some? && s.batch.value.flights == map[]
    ensures Apply(cfg, s, Restart) == State(s.docs, None)
  {
    forall d | d in s.docs ensures s.docs[d].(jobs := ResetRunning(s.docs[d].jobs)) == s.docs[d] {
      assert DocFlow(|cfg|, s.docs[d], s.batch.value.stage, d in s.batch.value.todo, false);
      NothingToReset(s.docs[d]);
    }
    assert Apply(cfg, s, Restart).docs == s.docs;
  }

  // --- Losing the edit -------------------------------------------------------------------

  ghost function TotalPotential(cfg: Config, s: State): nat { Sum(s.docs.Keys, Potentials(cfg, s)) }

  ghost function Potentials(cfg: Config, s: State): map<DocId, nat> {
    map d | d in s.docs :: Potential(|cfg|, s.docs[d])
  }

  lemma WorkLowersPotential(cfg: Config, s: State, d: DocId, k: nat, path: Path)
    requires k < |cfg| && d in s.docs && PendingAt(s.docs[d], k)
    ensures TotalPotential(cfg, State(s.docs[d := Worked(|cfg|, s.docs[d], k, path)], None)) < TotalPotential(cfg, s)
  {
    var doc, t := s.docs[d], State(s.docs[d := Worked(|cfg|, s.docs[d], k, path)], None);
    StartKeepsPotential(|cfg|, doc, k);
    FinishLowersPotential(|cfg|, StartedDoc(doc, k), k, WorkFlight(doc, k, path), WorkOf(path));
    hide Potential, Worked;
    assert t.docs.Keys == s.docs.Keys;
    SumDrops(s.docs.Keys, Potentials(cfg, s), Potentials(cfg, t), d, 1);
  }

  /** Success queues the next stage; what else was queued stays so, and a park takes only the
      job it parks. */
  lemma WorkQueues(n: nat, doc: Doc, k: nat, path: Path, j: nat, i: nat)
    requires Shape(n, doc.first, doc.jobs) && PendingAt(doc, k) && PendingAt(doc, j)
    requires k <= j < i && i in doc.jobs && k < n && (k == j ==> !path.Parks?)
    ensures var b := Worked(n, doc, k, path);
      i in b.jobs && b.context == doc.context && PendingAt(b, if k == j then j + 1 else j)
  {
    hide Collect;
  }

  /** The earliest pending stage the worker supports, up to j. */
  lemma EarliestPending(cfg: Config, s: State, d: DocId, j: nat) returns (e: DocId, k: nat)
    requires s.batch.None? && d in s.docs && PendingAt(s.docs[d], j) && j < |cfg| && Supported(cfg[j])
    ensures k <= j && e in s.docs && PendingAt(s.docs[e], k) && Enabled(cfg, s, BeginBatch(k))
    decreases j
  {
    if x: nat :| x < j && Supported(cfg[x]) && AnyPending(s, x) {
      var f :| f in s.docs && PendingAt(s.docs[f], x);
      e, k := EarliestPending(cfg, s, f, x);
    } else {
      e, k := d, j;
      assert AnyPending(s, j);
    }
  }

  lemma FlowShape(cfg: Config, s: State, d: DocId)
    requires Flow(cfg, s) && d in s.docs
    ensures Shape(|cfg|, s.docs[d].first, s.docs[d].jobs)
  {
    hide Shape;
    assert DocFlow(|cfg|, s.docs[d], BatchOf(s).stage, d in BatchOf(s).todo, d in BatchOf(s).flights);
  }

  /** The worker is idle, job i is there, and job j is pending with a road to it. */
  ghost predicate Waits(cfg: Config, s: State, d: DocId, j: nat, i: nat) {
    && Flow(cfg, s) && s.batch.None? && d in s.docs && j <= i && i in s.docs[d].jobs && PendingAt(s.docs[d], j)
    && Road(cfg, s.docs[d].context, j, i)
  }

  lemma StillWaits(cfg: Config, s: State, d: DocId, j: nat, i: nat, e: DocId, k: nat, path: Path) returns (next: nat)
    requires Waits(cfg, s, d, j, i) && k <= j < i && i < |cfg| && e in s.docs && PendingAt(s.docs[e], k)
    requires path == PathOf(cfg, s.docs[e], k)
    requires Flow(cfg, State(s.docs[e := Worked(|cfg|, s.docs[e], k, path)], None))
    ensures Waits(cfg, State(s.docs[e := Worked(|cfg|, s.docs[e], k, path)], None), d, next, i)
  {
    assert !Closed(cfg, s.docs[d].context, j);
    hide Flow, Shape, Worked, PendingAt;
    next := j;
    if e == d {
      FlowShape(cfg, s, d);
      WorkQueues(|cfg|, s.docs[d], k, path, j, i);
      next := if k == j then j + 1 else j;
    }
  }

  /** One ending, of this document or of another that comes first. */
  lemma WorkOne(cfg: Config, s: State, d: DocId, j: nat, i: nat, e: DocId, k: nat, path: Path) returns (next: nat)
    requires Waits(cfg, s, d, j, i) && s.batch.None? && k <= j < i && i < |cfg| && Working(cfg)
    requires e in s.docs && PendingAt(s.docs[e], k) && Enabled(cfg, s, BeginBatch(k))
    requires path == PathOf(cfg, s.docs[e], k)
    ensures MachineRun(cfg, s, Alone(e, k, path))
    ensures Waits(cfg, RunSteps(cfg, s, Alone(e, k, path)), d, next, i)
    ensures TotalPotential(cfg, RunSteps(cfg, s, Alone(e, k, path))) < TotalPotential(cfg, s)
  {
    WaitsFlow(cfg, s, d, j, i);
    hide Waits, Flow, Enabled, Working, MachineRun, RunSteps, Worked, TotalPotential, Alone, PendingAt, PathOf;
    RunAlone(cfg, s, e, k, path);
    WorkLowersPotential(cfg, s, e, k, path);
    next := StillWaits(cfg, s, d, j, i, e, k, path);
  }

  lemma WaitsFlow(cfg: Config, s: State, d: DocId, j: nat, i: nat)
    requires Waits(cfg, s, d, j, i)
    ensures Flow(cfg, s)
  {
  }

  lemma RoadIsSupported(cfg: Config, context: bool, j: nat, i: nat)
    requires Road(cfg, context, j, i) && j < i <= |cfg|
    ensures Supported(cfg[j])
  {
    assert !Closed(cfg, context, j);
  }

  /** A job is pending at j with a road to stage i: the idle worker has a run after which job i
      is not done. */
  lemma {:induction false} Lose(cfg: Config, s: State, d: DocId, j: nat, i: nat) returns (steps: seq<Step>)
    requires Waits(cfg, s, d, j, i) && Working(cfg)
    ensures MachineRun(cfg, s, steps)
    ensures var t := RunSteps(cfg, s, steps); d in t.docs && i in t.docs[d].jobs && !t.docs[d].jobs[i].status.Done?
    decreases TotalPotential(cfg, s)
  {
    if j == i {
      steps := [];
    } else {
      FlowShape(cfg, s, d);
      RoadIsSupported(cfg, s.docs[d].context, j, i);
      var e, k := EarliestPending(cfg, s, d, j);
      hide Waits, Working, MachineRun, RunSteps, Enabled, TotalPotential, Flow, Alone, Road;
      var path := PathOf(cfg, s.docs[e], k);
      var next := WorkOne(cfg, s, d, j, i, e, k, path);
      var first := Alone(e, k, path);
      var rest := Lose(cfg, RunSteps(cfg, s, first), d, next, i);
      RunsJoin(cfg, s, first, rest);
      steps := first + rest;
    }
  }

  lemma OneStep(cfg: Config, s: State, step: Step)
    requires Enabled(cfg, s, step) && MachineStep(step)
    ensures MachineRun(cfg, s, [step]) && RunSteps(cfg, s, [step]) == Apply(cfg, s, step)
  {
    hide Apply, Enabled;
    assert [step][1..] == [];
    assert Valid(cfg, Apply(cfg, s, step), []);
    assert RunSteps(cfg, Apply(cfg, s, step), []) == Apply(cfg, s, step);
  }

  /** A restart empties the batch and puts running jobs back in the queue. */
  lemma RestartWaits(cfg: Config, s: State, d: DocId, j: nat, i: nat)
    requires Flow(cfg, s) && d in s.docs && j <= i && i in s.docs[d].jobs
    requires j in s.docs[d].jobs && Queued(s.docs[d].jobs[j]) && Road(cfg, s.docs[d].context, j, i)
    ensures Enabled(cfg, s, Restart) && Waits(cfg, Apply(cfg, s, Restart), d, j, i)
  {
    hide Flow, ResetRunning, Road;
    RestartIsEnabled(cfg, s);
    StepKeepsFlow(cfg, s, Restart);
    ResetRows(s.docs[d].jobs, j);
    ResetRows(s.docs[d].jobs, i);
  }

  lemma ResetRows(jobs: Jobs, j: nat)
    requires j in jobs
    ensures j in ResetRunning(jobs)
    ensures Queued(jobs[j]) ==> ResetRunning(jobs)[j].status.Pending?
  {
  }

  lemma LoseQueued(cfg: Config, s: State, d: DocId, j: nat, i: nat) returns (steps: seq<Step>)
    requires Flow(cfg, s) && Working(cfg) && d in s.docs && j <= i && i in s.docs[d].jobs
    requires j in s.docs[d].jobs && Queued(s.docs[d].jobs[j]) && Road(cfg, s.docs[d].context, j, i)
    ensures MachineRun(cfg, s, steps)
    ensures var t := RunSteps(cfg, s, steps); d in t.docs && i in t.docs[d].jobs && !t.docs[d].jobs[i].status.Done?
  {
    RestartWaits(cfg, s, d, j, i);
    hide Flow, Working, Waits, Enabled, MachineRun, RunSteps, Road;
    OneStep(cfg, s, Restart);
    var rest := Lose(cfg, Apply(cfg, s, Restart), d, j, i);
    RunsJoin(cfg, s, [Restart], rest);
    steps := [Restart] + rest;
  }

  /** A threatening goroutine commits, or stores its result, or fails if the job was stopped;
      then this stage is queued. */
  function ThreatOf(job: Job, path: Path): Outcome {
    if path.Commits? || job.status.Running? then Completed(Some(Run(map["text" := ""]))) else Failed(None)
  }

  function ThreatAt(job: Job, path: Path, k: nat): nat {
    if path.Commits? || job.status.Running? then k + 1 else k
  }

  lemma ThreatQueues(cfg: Config, doc: Doc, k: nat, flight: Flight, i: nat)
    requires Shape(|cfg|, doc.first, doc.jobs) && k in doc.jobs && k < i && i in doc.jobs
    requires Reaches(cfg, doc, k, flight.path, i)
    ensures OutcomePossible(doc.jobs[k], flight.path, ThreatOf(doc.jobs[k], flight.path))
    ensures var b := Finish(|cfg|, doc, k, flight, ThreatOf(doc.jobs[k], flight.path));
      var j := ThreatAt(doc.jobs[k], flight.path, k);
      i in b.jobs && PendingAt(b, j) && b.context == doc.context && Road(cfg, doc.context, j, i)
  {
    hide Road;
  }

  lemma FinishThreat(cfg: Config, s: State, d: DocId, i: nat)
    requires Flow(cfg, s) && d in s.docs && i in s.docs[d].jobs && Threatened(cfg, s, d, i)
    ensures var b := s.batch.value;
      var finish := FinishJob(d, ThreatOf(s.docs[d].jobs[b.stage], b.flights[d].path));
      var j := ThreatAt(s.docs[d].jobs[b.stage], b.flights[d].path, b.stage);
      Enabled(cfg, s, finish) &&
      var t := Apply(cfg, s, finish);
      && d in t.docs && i in t.docs[d].jobs && j <= i && PendingAt(t.docs[d], j)
      && Road(cfg, t.docs[d].context, j, i)
  {
    hide Flow, Finish, Shape, Reaches, Road, OutcomePossible;
    HeldIsThere(cfg, s, d);
    FlowShape(cfg, s, d);
    ThreatQueues(cfg, s.docs[d], s.batch.value.stage, s.batch.value.flights[d], i);
  }

  lemma LoseThreatened(cfg: Config, s: State, d: DocId, i: nat) returns (steps: seq<Step>)
    requires Flow(cfg, s) && Working(cfg) && d in s.docs && i in s.docs[d].jobs && Threatened(cfg, s, d, i)
    ensures MachineRun(cfg, s, steps)
    ensures var t := RunSteps(cfg, s, steps); d in t.docs && i in t.docs[d].jobs && !t.docs[d].jobs[i].status.Done?
  {
    hide Flow, Working, Enabled, MachineRun, RunSteps, Apply, ThreatOf, ThreatAt, Road, Reaches;
    var job, b := s.docs[d].jobs[s.batch.value.stage], s.batch.value;
    var finish := FinishJob(d, ThreatOf(job, b.flights[d].path));
    FinishThreat(cfg, s, d, i);
    StepKeepsFlow(cfg, s, finish);
    OneStep(cfg, s, finish);
    var rest := LoseQueued(cfg, Apply(cfg, s, finish), d, ThreatAt(job, b.flights[d].path, b.stage), i);
    RunsJoin(cfg, s, [finish], rest);
    steps := [finish] + rest;
  }

  // --- Exactly when an edit survives -----------------------------------------------------

  ghost predicate Survives(cfg: Config, s: State, d: DocId, i: nat, field: string, content: string) {
    forall steps | MachineRun(cfg, s, steps) ::
      d in RunSteps(cfg, s, steps).docs
      && CurrentStageOutput(RunSteps(cfg, s, steps).docs[d].jobs, i, field) == Success(content)
  }

  lemma NotDoneIsLost(cfg: Config, s: State, d: DocId, i: nat, field: string, content: string, steps: seq<Step>)
    requires MachineRun(cfg, s, steps)
    requires var t := RunSteps(cfg, s, steps);
      d in t.docs && i in t.docs[d].jobs && !t.docs[d].jobs[i].status.Done?
    ensures !Survives(cfg, s, d, i, field, content)
  {
    hide RunSteps, MachineRun;
  }

  lemma SurvivesOutOfReach(cfg: Config, s: State, d: DocId, i: nat, field: string, content: string)
    requires Flow(cfg, s) && d in s.docs && FindDoneStageRun(s.docs[d].jobs, i, field).Success?
    requires NoRoad(cfg, s.docs[d], i) && !Threatened(cfg, s, d, i)
    ensures Survives(cfg, Apply(cfg, s, User(d, EditOutput(i, field, content))), d, i, field, content)
  {
    hide Flow, NoRoad, FindDoneStageRun, RunSteps, CurrentStageOutput, ActOn, Threatened;
    var t := Apply(cfg, s, User(d, EditOutput(i, field, content)));
    forall steps | MachineRun(cfg, t, steps)
      ensures d in RunSteps(cfg, t, steps).docs
      ensures CurrentStageOutput(RunSteps(cfg, t, steps).docs[d].jobs, i, field) == Success(content)
    {
      EditSurvives(cfg, s, d, i, field, content, t, steps);
    }
  }

  /** An accepted edit outlives every run of worker steps and restarts exactly when no earlier
      queued job has a road to its stage and no goroutine at an earlier stage threatens it. */
  lemma EditSurvivesIff(cfg: Config, s: State, d: DocId, i: nat, field: string, content: string)
    requires Flow(cfg, s) && Working(cfg)
    requires d in s.docs && FindDoneStageRun(s.docs[d].jobs, i, field).Success?
    ensures Survives(cfg, Apply(cfg, s, User(d, EditOutput(i, field, content))), d, i, field, content)
      <==> NoRoad(cfg, s.docs[d], i) && !Threatened(cfg, s, d, i)
  {
    var edit := User(d, EditOutput(i, field, content));
    var t := Apply(cfg, s, edit);
    StepKeepsFlow(cfg, s, edit);
    EditKeepsReach(cfg, s, d, i, field, content);
    if NoRoad(cfg, s.docs[d], i) && !Threatened(cfg, s, d, i) {
      SurvivesOutOfReach(cfg, s, d, i, field, content);
    } else {
      hide Flow, Working, MachineRun, RunSteps, Survives, ActOn, FindDoneStageRun, Apply, Road, Threatened;
      var steps;
      if Threatened(cfg, t, d, i) {
        steps := LoseThreatened(cfg, t, d, i);
      } else {
        var j :| j in t.docs[d].jobs && j < i && Queued(t.docs[d].jobs[j]) && Road(cfg, t.docs[d].context, j, i);
        steps := LoseQueued(cfg, t, d, j, i);
      }
      NotDoneIsLost(cfg, t, d, i, field, content, steps);
    }
  }
}
