/** Where the promises stop: runs from the empty system, outside the assumptions of the
    theorems, after which a done stage shows a result of superseded input, or an edit is lost.
    All use one document and two stages. */
module FreshnessLimits {
  import opened Wrappers
  import opened Pipeline
  import opened Freshness
  import opened WorkerLoop
  import opened EditSurvival

  // --- Runs of one document --------------------------------------------------------------

  /** Some run leads from s to t; if `machine`, one of worker steps and restarts only. */
  ghost predicate Leads(cfg: Config, s: State, t: State, machine: bool) {
    exists steps :: LeadsBy(cfg, s, t, machine, steps)
  }

  ghost predicate LeadsBy(cfg: Config, s: State, t: State, machine: bool, steps: seq<Step>) {
    Valid(cfg, s, steps) && RunSteps(cfg, s, steps) == t
    && (machine ==> forall k | 0 <= k < |steps| :: MachineStep(steps[k]))
  }

  ghost predicate Reachable(cfg: Config, s: State) { Leads(cfg, INITIAL, s, false) }

  lemma {:induction false} RunSnoc(cfg: Config, s: State, steps: seq<Step>, step: Step)
    requires Valid(cfg, s, steps) && Enabled(cfg, RunSteps(cfg, s, steps), step)
    ensures Valid(cfg, s, steps + [step])
    ensures RunSteps(cfg, s, steps + [step]) == Apply(cfg, RunSteps(cfg, s, steps), step)
    decreases |steps|
  {
    hide Enabled, Apply;
    if steps == [] {
      assert [] + [step] == [step] && [step][1..] == [];
      assert Valid(cfg, Apply(cfg, s, step), []);
    } else {
      assert (steps + [step])[1..] == steps[1..] + [step];
      RunSnoc(cfg, Apply(cfg, s, steps[0]), steps[1..], step);
    }
  }

  lemma Stays(cfg: Config, s: State)
    ensures Leads(cfg, s, s, true) && Leads(cfg, s, s, false)
  {
    assert LeadsBy(cfg, s, s, true, []);
    assert LeadsBy(cfg, s, s, false, []);
  }

  lemma OneMore(cfg: Config, s: State, t: State, machine: bool, step: Step)
    requires Leads(cfg, s, t, machine) && Enabled(cfg, t, step) && (machine ==> MachineStep(step))
    ensures Leads(cfg, s, Apply(cfg, t, step), machine)
  {
    hide Enabled, Apply;
    var steps :| LeadsBy(cfg, s, t, machine, steps);
    RunSnoc(cfg, s, steps, step);
    assert LeadsBy(cfg, s, Apply(cfg, t, step), machine, steps + [step]);
  }

  const ID: DocId := "d"

  function One(doc: Doc, batch: Option<Batch>): State { State(map[ID := doc], batch) }

  function InFlight(doc: Doc, k: nat, flight: Flight): State { One(doc, Some(Batch(k, map[], map[ID := flight]))) }

  /** The stages before k have nothing pending, and k has. */
  ghost predicate Next(cfg: Config, doc: Doc, k: nat) {
    && k < |cfg| && Supported(cfg[k]) && cfg[k].maxConcurrent >= 1 && PendingAt(doc, k)
    && forall j | 0 <= j < k :: !PendingAt(doc, j)
  }

  lemma Begins(cfg: Config, doc: Doc, k: nat)
    requires Next(cfg, doc, k)
    ensures Enabled(cfg, One(doc, None), BeginBatch(k))
    ensures Apply(cfg, One(doc, None), BeginBatch(k)) == One(doc, Some(Batch(k, map[ID := doc.jobs[k].runs], map[])))
  {
    var s := One(doc, None);
    assert s.docs[ID] == doc && AnyPending(s, k);
    var todo := map d | d in s.docs && PendingAt(s.docs[d], k) :: s.docs[d].jobs[k].runs;
    assert todo.Keys == {ID} && todo[ID] == doc.jobs[k].runs;
    assert todo == map[ID := doc.jobs[k].runs];
  }

  lemma StartsOne(cfg: Config, doc: Doc, k: nat, path: Path)
    requires Next(cfg, doc, k) && PathPossible(cfg[k], doc.context, path)
    ensures var s := One(doc, Some(Batch(k, map[ID := doc.jobs[k].runs], map[])));
      && Enabled(cfg, s, WorkerLoop.Start(ID, path))
      && Apply(cfg, s, WorkerLoop.Start(ID, path)) == InFlight(Begin(doc, k), k, FlightOf(Begin(doc, k), k, path))
  {
    hide Collect;
    var s := One(doc, Some(Batch(k, map[ID := doc.jobs[k].runs], map[])));
    var t := StartIn(s, ID, path);
    assert t.docs == map[ID := Begin(doc, k)];
    assert t.batch.value.todo == map[];
  }

  /** A job starts and stays in flight. */
  lemma Launches(cfg: Config, s: State, doc: Doc, k: nat, path: Path, machine: bool)
    requires Leads(cfg, s, One(doc, None), machine) && Next(cfg, doc, k) && PathPossible(cfg[k], doc.context, path)
    ensures k in Begin(doc, k).jobs
    ensures Leads(cfg, s, InFlight(Begin(doc, k), k, FlightOf(Begin(doc, k), k, path)), machine)
  {
    Begins(cfg, doc, k);
    StartsOne(cfg, doc, k, path);
    hide Apply, Leads, Next, Begin, FlightOf, Enabled;
    OneMore(cfg, s, One(doc, None), machine, BeginBatch(k));
    OneMore(cfg, s, One(doc, Some(Batch(k, map[ID := doc.jobs[k].runs], map[]))), machine, WorkerLoop.Start(ID, path));
  }

  lemma CommitStep(cfg: Config, doc: Doc, k: nat, flight: Flight, outcome: Outcome)
    requires k < |cfg| && k in doc.jobs && OutcomePossible(doc.jobs[k], flight.path, outcome)
      && !outcome.ParkedForReview?
    ensures Enabled(cfg, InFlight(doc, k, flight), FinishJob(ID, outcome))
    ensures Apply(cfg, InFlight(doc, k, flight), FinishJob(ID, outcome))
      == One(Finish(|cfg|, doc, k, flight, outcome), Some(Batch(k, map[], map[])))
  {
    hide Finish;
    var t := FinishIn(cfg, InFlight(doc, k, flight), ID, outcome);
    assert t.docs == map[ID := Finish(|cfg|, doc, k, flight, outcome)];
    assert t.batch.value.flights == map[];
  }

  /** A job in flight ends, and the batch with it. */
  lemma Lands(cfg: Config, s: State, doc: Doc, k: nat, flight: Flight, outcome: Outcome, machine: bool)
    requires Leads(cfg, s, InFlight(doc, k, flight), machine) && !outcome.ParkedForReview?
    requires k < |cfg| && k in doc.jobs && OutcomePossible(doc.jobs[k], flight.path, outcome)
    ensures Leads(cfg, s, One(Finish(|cfg|, doc, k, flight, outcome), None), machine)
  {
    CommitStep(cfg, doc, k, flight, outcome);
    hide Leads, Finish;
    var after := Finish(|cfg|, doc, k, flight, outcome);
    var t := One(after, Some(Batch(k, map[], map[])));
    OneMore(cfg, s, InFlight(doc, k, flight), machine, FinishJob(ID, outcome));
    OneMore(cfg, s, t, machine, EndBatch);
  }

  /** A whole execution. */
  lemma Executes(cfg: Config, s: State, doc: Doc, k: nat, path: Path, outcome: Outcome, machine: bool)
    requires Leads(cfg, s, One(doc, None), machine) && Next(cfg, doc, k) && PathPossible(cfg[k], doc.context, path)
    requires k in Begin(doc, k).jobs && OutcomePossible(Begin(doc, k).jobs[k], path, outcome)
      && !outcome.ParkedForReview?
    ensures Leads(cfg, s,
      One(Finish(|cfg|, Begin(doc, k), k, FlightOf(Begin(doc, k), k, path), outcome), None), machine)
  {
    hide Leads, Finish, Begin, PathPossible, OutcomePossible;
    Launches(cfg, s, doc, k, path, machine);
    Lands(cfg, s, Begin(doc, k), k, FlightOf(Begin(doc, k), k, path), outcome, machine);
  }

  lemma ActStep(cfg: Config, doc: Doc, batch: Option<Batch>, u: UserStep)
    requires |cfg| == 2
    ensures Enabled(cfg, One(doc, batch), User(ID, u))
    ensures Apply(cfg, One(doc, batch), User(ID, u)) == One(Act(doc, u), batch)
  {
    hide ApplyUser;
    assert UserIn(2, One(doc, batch), ID, u).docs == map[ID := Act(doc, u)];
  }

  lemma Acts(cfg: Config, s: State, doc: Doc, batch: Option<Batch>, u: UserStep)
    requires |cfg| == 2 && Leads(cfg, s, One(doc, batch), false)
    ensures Leads(cfg, s, One(Act(doc, u), batch), false)
  {
    ActStep(cfg, doc, batch, u);
    hide Leads;
    OneMore(cfg, s, One(doc, batch), false, User(ID, u));
  }

  // --- Documents of two jobs -------------------------------------------------------------

  /** An LLM stage, then one of the given kind that, if it can, asks for context. */
  function TwoStages(kind: Kind): Config { [Stage(LlmText, 1, false), Stage(kind, 1, true)] }

  function Pair(a: Job, b: Job, failures: map<nat, nat>): Doc { Doc(0, map[0 := a, 1 := b], failures, true) }

  function Two(a: Job, b: Job): Doc { Pair(a, b, map[]) }

  function Out(text: string): Run { Run(map["t" := text]) }

  function Ended(runs: seq<Run>, data: StageData): Job { Job(Done, runs, data, Blocked) }

  function As(job: Job, status: Status): Job { job.(status := status) }

  function Begin(doc: Doc, k: nat): Doc { doc.(jobs := StartJob(doc.jobs, k)) }

  function FlightOf(doc: Doc, k: nat, path: Path): Flight
    requires k in doc.jobs
  {
    Flight(doc.jobs[k].runs, Collect(doc.jobs), path)
  }

  function Act(doc: Doc, u: UserStep): Doc { ActOn(2, doc, u) }

  function Given(text: string): StageData { map[0 := map["t" := text]] }

  /** Stage 0 produced "a", stage 1 produced "x" from it. */
  const PROCESSED: Doc := Two(Ended([Out("a")], map[]), Ended([Out("x")], Given("a")))

  lemma FirstCompletes(a: Job, b: Job, f: map<nat, nat>, flight: Flight, text: string)
    ensures Finish(2, Pair(a, b, f), 0, flight, Completed(Some(Out(text))))
      == Pair(Job(Done, flight.runs + [Out(text)], flight.data, a.park), As(b, Pending), f)
  {
  }

  lemma SecondCompletes(a: Job, b: Job, f: map<nat, nat>, flight: Flight, text: string)
    ensures Finish(2, Pair(a, b, f), 1, flight, Completed(Some(Out(text))))
      == Pair(a, Job(Done, flight.runs + [Out(text)], flight.data, b.park), f)
  {
  }

  /** The snapshot stage 1 takes. */
  lemma SecondSees(a: Job, b: Job, f: map<nat, nat>, runs: seq<Run>, text: string)
    requires a.status.Done? && a.runs == runs + [Out(text)] && b.status.Running?
    ensures Collect(Pair(a, b, f).jobs) == Given(text)
  {
    assert LastRun(a) == Out(text) && Out(text).outputs["t"] == text;
  }

  lemma BeginPair(a: Job, b: Job, f: map<nat, nat>)
    ensures Begin(Pair(a, b, f), 0) == Pair(As(a, Running), b, f)
    ensures Begin(Pair(a, b, f), 1) == Pair(a, As(b, Running), f)
  {
  }

  /** A pending first job runs to success. */
  lemma FirstRuns(kind: Kind, s: State, a: Job, b: Job, f: map<nat, nat>, text: string, machine: bool)
    returns (data: StageData)
    requires Leads(TwoStages(kind), s, One(Pair(a, b, f), None), machine) && a.status.Pending?
    ensures var after := Pair(Job(Done, a.runs + [Out(text)], data, a.park), As(b, Pending), f);
      Leads(TwoStages(kind), s, One(after, None), machine)
  {
    var doc := Pair(a, b, f);
    var flight := FlightOf(Begin(doc, 0), 0, Generates);
    BeginPair(a, b, f);
    hide Leads, Finish, Collect;
    Executes(TwoStages(kind), s, doc, 0, Generates, Completed(Some(Out(text))), machine);
    FirstCompletes(As(a, Running), b, f, flight, text);
    data := flight.data;
  }

  /** A pending second job runs to success behind a first one that is not pending. */
  lemma SecondRuns(kind: Kind, path: Path, s: State, a: Job, b: Job, f: map<nat, nat>, text: string, machine: bool)
    returns (data: StageData)
    requires Leads(TwoStages(kind), s, One(Pair(a, b, f), None), machine) && !a.status.Pending? && b.status.Pending?
    requires !kind.Unknown? && PathPossible(Stage(kind, 1, true), true, path)
    ensures var after := Pair(a, Job(Done, b.runs + [Out(text)], data, b.park), f);
      Leads(TwoStages(kind), s, One(after, None), machine)
    ensures data == Collect(Pair(a, As(b, Running), f).jobs)
  {
    var doc := Pair(a, b, f);
    var flight := FlightOf(Begin(doc, 1), 1, path);
    BeginPair(a, b, f);
    hide Leads, Finish, Collect;
    Executes(TwoStages(kind), s, doc, 1, path, Completed(Some(Out(text))), machine);
    SecondCompletes(a, As(b, Running), f, flight, text);
    data := flight.data;
  }

  lemma FirstEverCompletes(flight: Flight)
    requires flight.runs == [] && flight.data == map[]
    ensures Finish(2, Doc(0, map[0 := As(NewJob(), Running)], map[], true), 0, flight, Completed(Some(Out("a"))))
      == Two(Ended([Out("a")], map[]), NewJob())
  {
    var b := Finish(2, Doc(0, map[0 := As(NewJob(), Running)], map[], true), 0, flight, Completed(Some(Out("a"))));
    assert [] + [Out("a")] == [Out("a")];
    assert b.jobs[0] == Ended([Out("a")], map[]) && b.jobs[1] == NewJob();
    assert b.jobs.Keys == {0, 1};
    assert b.jobs == Two(Ended([Out("a")], map[]), NewJob()).jobs;
  }

  lemma FirstOfAll(kind: Kind)
    ensures Reachable(TwoStages(kind), One(Two(Ended([Out("a")], map[]), NewJob()), None))
  {
    var cfg, single := TwoStages(kind), Doc(0, map[0 := NewJob()], map[], true);
    Stays(cfg, INITIAL);
    assert Apply(cfg, INITIAL, Ingest(ID, 0, true)) == One(single, None);
    OneMore(cfg, INITIAL, INITIAL, false, Ingest(ID, 0, true));
    var began := Begin(single, 0);
    assert began == Doc(0, map[0 := As(NewJob(), Running)], map[], true) && Collect(began.jobs) == map[];
    var flight := FlightOf(began, 0, Generates);
    FirstEverCompletes(flight);
    hide Leads, Finish, Collect, Apply;
    Executes(cfg, INITIAL, single, 0, Generates, Completed(Some(Out("a"))), false);
  }

  lemma ProcessedIsReachable(kind: Kind, path: Path)
    requires !kind.Unknown? && PathPossible(Stage(kind, 1, true), true, path)
    ensures Reachable(TwoStages(kind), One(PROCESSED, None))
  {
    FirstOfAll(kind);
    var a := Ended([Out("a")], map[]);
    hide Leads, Collect;
    var data := SecondRuns(kind, path, INITIAL, a, NewJob(), map[], "x", false);
    SecondSees(a, As(NewJob(), Running), map[], [], "a");
    assert [] + [Out("x")] == [Out("x")];
  }

  // --- User steps on two jobs ------------------------------------------------------------

  lemma ReplayFirst(a: Job, b: Job)
    requires a.status.Done?
    ensures Act(Two(a, b), PutStatus(0, Pending)) == Two(As(a, Pending), As(b, Pending))
  {
  }

  lemma ReplaySecond(a: Job, b: Job)
    requires b.status.Done?
    ensures Act(Two(a, b), PutStatus(1, Pending)) == Two(a, As(b, Pending))
  {
  }

  lemma StopFirst(a: Job, b: Job)
    requires a.status.Running?
    ensures Act(Two(a, b), PutStatus(0, Error)) == Two(As(a, Error), b)
  {
  }

  lemma RetryFirst(a: Job, b: Job)
    requires a.status.Error?
    ensures Act(Two(a, b), PutStatus(0, Pending)) == Two(As(a, Pending), b)
  {
  }

  lemma Rewrite(runs: seq<Run>, old_: string, text: string)
    ensures (runs + [Out(old_)])[|runs| := Run(Out(old_).outputs["t" := text])] == runs + [Out(text)]
  {
    assert Out(old_).outputs["t" := text] == Out(text).outputs;
  }

  lemma EditFirst(a: Job, b: Job, runs: seq<Run>, old_: string, text: string)
    requires a.status.Done? && a.runs == runs + [Out(old_)]
    ensures Act(Two(a, b), EditOutput(0, "t", text)) == Two(a.(runs := runs + [Out(text)]), As(b, Pending))
  {
    Rewrite(runs, old_, text);
    assert LastRun(a) == Out(old_) && "t" in Out(old_).outputs;
    var jobs, edited := Two(a, b).jobs, a.(runs := runs + [Out(text)]);
    assert FindDoneStageRun(jobs, 0, "t").Success?;
    assert WriteOutput(jobs, 0, |runs|, "t", text) == map[0 := edited, 1 := b];
    assert CascadeReplay(2, map[0 := edited, 1 := b], 0) == map[0 := edited, 1 := As(b, Pending)];
  }

  lemma EditSecond(a: Job, b: Job, runs: seq<Run>, old_: string, text: string)
    requires b.status.Done? && b.runs == runs + [Out(old_)]
    ensures Act(Two(a, b), EditOutput(1, "t", text)) == Two(a, b.(runs := runs + [Out(text)]))
  {
    Rewrite(runs, old_, text);
    assert LastRun(b) == Out(old_) && "t" in Out(old_).outputs;
  }

  lemma ApproveSecond(a: Job, b: Job)
    requires b.status.Waiting?
    ensures Act(Bare(a, b), PutStatus(1, Done)) == Bare(a, As(b, Done))
  {
  }

  // --- Fresh or not ----------------------------------------------------------------------

  lemma ShowsStale(a: Job, b: Job, runs: seq<Run>, used: string, now: string)
    requires a.status.Done? && a.runs == runs + [Out(now)] && b.status.Done? && b.runs != []
    requires b.shown == Given(used) && used != now
    ensures !Fresh(Two(a, b).jobs)
  {
    var jobs := Two(a, b).jobs;
    assert LastRun(a).outputs["t"] == now;
    assert Below(jobs[1].shown, 1)[0]["t"] != Below(Collect(jobs), 1)[0]["t"];
    assert DoneBelow(jobs, 1) && 1 in jobs && Shows(jobs[1]);
  }

  lemma NothingShownIsFresh(a: Job, b: Job)
    requires !Shows(b)
    ensures Fresh(Two(a, b).jobs)
  {
    var jobs := Two(a, b).jobs;
    forall j | j in jobs && Shows(jobs[j]) ensures FreshAt(jobs, j, jobs[j].shown) {
      assert Below(jobs[j].shown, 0) == Below(Collect(jobs), 0);
    }
  }

  lemma ProcessedIsFresh()
    ensures Fresh(PROCESSED.jobs)
  {
    var jobs := PROCESSED.jobs;
    assert LastRun(jobs[0]) == Out("a") && LastRun(jobs[1]) == Out("x");
    assert Out("a").outputs["t"] == "a" && Out("x").outputs["t"] == "x";
    forall j | j in jobs ensures FreshAt(jobs, j, jobs[j].shown) {
      assert Below(jobs[j].shown, j) == Below(Collect(jobs), j);
    }
  }

  /** A step of a reachable system after which the document is not fresh any more. */
  ghost predicate GoesStale(cfg: Config, s: State, step: Step) {
    && Reachable(cfg, s) && Enabled(cfg, s, step) && ID in s.docs && Fresh(s.docs[ID].jobs)
    && ID in Apply(cfg, s, step).docs && !Fresh(Apply(cfg, s, step).docs[ID].jobs)
  }

  lemma EditedBehindEmbedding() returns (a: Job, b: Job, flight: Flight)
    ensures a.status.Done? && a.runs == [] + [Out("b")] && b.status.Pending?
    ensures flight.path.Commits? && flight.data == Given("a")
    ensures Reachable(TwoStages(Embed), InFlight(Two(a, b), 1, flight))
  {
    var cfg, a0, b0 := TwoStages(Embed), PROCESSED.jobs[0], PROCESSED.jobs[1];
    hide Leads, Collect, Apply;
    ProcessedIsReachable(Embed, Commits);
    Acts(cfg, INITIAL, PROCESSED, None, PutStatus(1, Pending));
    ReplaySecond(a0, b0);
    var b1 := As(b0, Running);
    BeginPair(a0, As(b0, Pending), map[]);
    Launches(cfg, INITIAL, Two(a0, As(b0, Pending)), 1, Commits, false);
    flight := FlightOf(Two(a0, b1), 1, Commits);
    assert a0.runs == [] + [Out("a")];
    SecondSees(a0, b1, map[], [], "a");
    Acts(cfg, INITIAL, Two(a0, b1), Some(Batch(1, map[], map[ID := flight])), EditOutput(0, "t", "b"));
    EditFirst(a0, b1, [], "a", "b");
    a, b := a0.(runs := [] + [Out("b")]), As(b1, Pending);
  }

  /** An embedding in flight does not notice that an edit re-queued it: its commit makes the
      stage done again on the old text. */
  lemma UncheckedCommitIsStale()
    ensures exists s, run ::
      && GoesStale(TwoStages(Embed), s, FinishJob(ID, Completed(Some(run))))
      && 1 in s.docs[ID].jobs && s.docs[ID].jobs[1].status.Pending?
  {
    hide Leads, Finish, Fresh;
    var a, b, flight := EditedBehindEmbedding();
    var s, commit := InFlight(Two(a, b), 1, flight), FinishJob(ID, Completed(Some(Out("y"))));
    NothingShownIsFresh(a, b);
    CommitStep(TwoStages(Embed), Two(a, b), 1, flight, Completed(Some(Out("y"))));
    SecondCompletes(a, b, map[], flight, "y");
    ShowsStale(a, Job(Done, flight.runs + [Out("y")], flight.data, b.park), [], "a", "b");
    hide Apply, Enabled;
    assert GoesStale(TwoStages(Embed), s, commit);
  }

  lemma PatchFirst(a: Job, b: Job)
    requires a.runs == [Out("a")]
    ensures Act(Two(a, b), PatchRun(0, 0, "t", "b")) == Two(a.(runs := [] + [Out("b")]), b)
  {
    Rewrite([], "a", "b");
    assert [] + [Out("a")] == [Out("a")] && "t" in Out("a").outputs;
  }

  /** patchRun on a done job changes its text and re-queues nothing. */
  lemma PatchOfDoneRunIsStale()
    ensures GoesStale(TwoStages(LlmText), One(PROCESSED, None), User(ID, PatchRun(0, 0, "t", "b")))
  {
    var a, b := PROCESSED.jobs[0], PROCESSED.jobs[1];
    hide Leads, Apply, Enabled, Fresh;
    ProcessedIsReachable(LlmText, Generates);
    ProcessedIsFresh();
    ActStep(TwoStages(LlmText), PROCESSED, None, PatchRun(0, 0, "t", "b"));
    PatchFirst(a, b);
    ShowsStale(a.(runs := [] + [Out("b")]), b, [], "a", "b");
  }

  /** An execution that stores no run, such as one skipped for its short input, makes its job
      done again over the run of an earlier text: edit the first stage after both are done, and
      let the second be skipped. */
  lemma SkipShowsOldRun()
    ensures exists s ::
      && GoesStale(TwoStages(LlmText), s, FinishJob(ID, Completed(None)))
      && 1 in s.docs[ID].jobs && s.docs[ID].jobs[1].status.Running?
  {
    var cfg, a0, b0 := TwoStages(LlmText), PROCESSED.jobs[0], PROCESSED.jobs[1];
    hide Leads, Collect, Apply;
    ProcessedIsReachable(LlmText, Generates);
    assert a0.runs == [] + [Out("a")];
    Acts(cfg, INITIAL, PROCESSED, None, EditOutput(0, "t", "b"));
    EditFirst(a0, b0, [], "a", "b");
    var a, b := a0.(runs := [] + [Out("b")]), As(b0, Running);
    BeginPair(a, As(b0, Pending), map[]);
    Launches(cfg, INITIAL, Two(a, As(b0, Pending)), 1, Commits, false);
    var flight := FlightOf(Two(a, b), 1, Commits);
    SkipIsStale(a, b, flight);
  }

  lemma SkipIsStale(a: Job, b: Job, flight: Flight)
    requires a.status.Done? && a.runs == [] + [Out("b")] && flight.path.Commits?
    requires b.status.Running? && b.runs != [] && b.shown == Given("a")
    requires Reachable(TwoStages(LlmText), InFlight(Two(a, b), 1, flight))
    ensures GoesStale(TwoStages(LlmText), InFlight(Two(a, b), 1, flight), FinishJob(ID, Completed(None)))
    ensures ID in InFlight(Two(a, b), 1, flight).docs && InFlight(Two(a, b), 1, flight).docs[ID] == Two(a, b)
  {
    hide Leads, Finish, Fresh;
    NothingShownIsFresh(a, b);
    CommitStep(TwoStages(LlmText), Two(a, b), 1, flight, Completed(None));
    SecondSkipped(a, b, flight);
    ShowsStale(a, As(b, Done), [], "a", "b");
    hide Apply, Enabled;
  }

  lemma SecondSkipped(a: Job, b: Job, flight: Flight)
    ensures Finish(2, Two(a, b), 1, flight, Completed(None)) == Two(a, As(b, Done))
  {
  }

  /** Both stages are replayed; the first gives a new text, then the context is taken away. */
  lemma ReplayedWithoutContext() returns (a: Job, b: Job)
    ensures a.status.Done? && a.runs == [Out("a")] + [Out("b")]
    ensures b.status.Pending? && b.runs != [] && b.shown == Given("a")
    ensures Reachable(TwoStages(LlmText), One(Bare(a, b), None))
  {
    var cfg, a0, b0 := TwoStages(LlmText), PROCESSED.jobs[0], PROCESSED.jobs[1];
    hide Leads, Apply, Collect;
    ProcessedIsReachable(LlmText, Generates);
    Acts(cfg, INITIAL, PROCESSED, None, PutStatus(0, Pending));
    ReplayFirst(a0, b0);
    var data := FirstRuns(LlmText, INITIAL, As(a0, Pending), As(b0, Pending), map[], "b", false);
    a, b := Job(Done, [Out("a")] + [Out("b")], data, Blocked), As(b0, Pending);
    Acts(cfg, INITIAL, Two(a, b), None, PatchContext(false));
    NoContext(a, b);
  }

  /** A job parked because its document has no context still carries its previous result;
      approving it presents that result as done. */
  lemma ApprovalOfContextParkIsStale()
    ensures exists s :: GoesStale(TwoStages(LlmText), s, User(ID, PutStatus(1, Done)))
  {
    var cfg := TwoStages(LlmText);
    hide Leads, Finish, Collect;
    var a, b := ReplayedWithoutContext();
    var doc := Bare(a, b);
    Executes(cfg, INITIAL, doc, 1, Parks, ParkedForContext, false);
    hide Apply, Fresh, Enabled;
    var b' := As(b, Waiting).(park := Context);
    ParkSecond(a, b, FlightOf(Begin(doc, 1), 1, Parks));
    NothingShownIsFresh(a, b');
    ActStep(cfg, Bare(a, b'), None, PutStatus(1, Done));
    ApproveSecond(a, b');
    ShowsStale(a, As(b', Done), [Out("a")], "a", "b");
    assert GoesStale(cfg, One(Bare(a, b'), None), User(ID, PutStatus(1, Done)));
  }

  /** The document after its context was taken away. */
  function Bare(a: Job, b: Job): Doc { Two(a, b).(context := false) }

  lemma NoContext(a: Job, b: Job)
    requires !a.status.Waiting? && !b.status.Waiting?
    ensures Act(Two(a, b), PatchContext(false)) == Bare(a, b)
  {
  }

  lemma ParkSecond(a: Job, b: Job, flight: Flight)
    ensures Finish(2, Begin(Bare(a, b), 1), 1, flight, ParkedForContext) == Bare(a, As(b, Waiting).(park := Context))
  {
  }

  /** A stop does not bind an execution that fails: while retries are left the failure puts
      the stopped job back in the queue. */
  lemma FailureUndoesStop(n: nat, doc: Doc, k: nat, flight: Flight, errorRun: Option<Run>)
    requires k in doc.jobs && doc.jobs[k].status.Error?
    ensures Finish(n, doc, k, flight, Failed(errorRun)).jobs[k].status.Pending?
      <==> FailureCount(doc, k) + 1 < MAX_FAILURES
  {
  }

  lemma FirstFails(a: Job, b: Job, flight: Flight)
    ensures Finish(2, Two(a, b), 0, flight, Failed(None)) == Pair(As(a, Pending), b, map[0 := 1])
  {
  }

  lemma FirstDropped(a: Job, b: Job, flight: Flight)
    ensures Finish(2, Two(a, b), 0, flight, Stopped) == Two(a, b)
  {
  }

  lemma LastOutput(a: Job, b: Job, f: map<nat, nat>, runs: seq<Run>, text: string)
    requires b.status.Done? && b.runs == runs + [Out(text)]
    ensures CurrentStageOutput(Pair(a, b, f).jobs, 1, "t") == Success(text)
  {
    assert LastRun(b) == Out(text) && Out(text).outputs["t"] == text;
  }

  /** The first job is stopped in flight while the second one is done: replay both, stop the
      first, let the second run, retry the first and stop it again. */
  lemma StoppedBehindDone() returns (a: Job, b: Job, flight: Flight)
    ensures a.status.Error? && b.status.Done? && b.runs == [Out("x")] + [Out("theirs")] && flight.path.Generates?
    ensures Reachable(TwoStages(LlmText), InFlight(Two(a, b), 0, flight))
  {
    var cfg, a0, b0 := TwoStages(LlmText), PROCESSED.jobs[0], PROCESSED.jobs[1];
    hide Leads, Finish, Apply, Collect;
    ProcessedIsReachable(LlmText, Generates);
    Acts(cfg, INITIAL, PROCESSED, None, PutStatus(0, Pending));
    ReplayFirst(a0, b0);
    var a1, b1 := As(a0, Pending), As(b0, Pending);
    BeginPair(a1, b1, map[]);
    Launches(cfg, INITIAL, Two(a1, b1), 0, Generates, false);
    var flight1 := FlightOf(Two(As(a1, Running), b1), 0, Generates);
    Acts(cfg, INITIAL, Two(As(a1, Running), b1), Some(Batch(0, map[], map[ID := flight1])), PutStatus(0, Error));
    StopFirst(As(a1, Running), b1);
    var a2 := As(a1, Error);
    Lands(cfg, INITIAL, Two(a2, b1), 0, flight1, Stopped, false);
    FirstDropped(a2, b1, flight1);
    var data := SecondRuns(LlmText, Generates, INITIAL, a2, b1, map[], "theirs", false);
    b := Job(Done, b1.runs + [Out("theirs")], data, b1.park);
    Acts(cfg, INITIAL, Two(a2, b), None, PutStatus(0, Pending));
    RetryFirst(a2, b);
    BeginPair(As(a2, Pending), b, map[]);
    Launches(cfg, INITIAL, Two(As(a2, Pending), b), 0, Generates, false);
    flight := FlightOf(Two(As(a2, Running), b), 0, Generates);
    Acts(cfg, INITIAL, Two(As(a2, Running), b), Some(Batch(0, map[], map[ID := flight])), PutStatus(0, Error));
    StopFirst(As(a2, Running), b);
    a := As(a2, Error);
  }

  /** With an earlier job stopped but its goroutine alive, nothing is pending or running
      before the edited stage, and still worker steps alone lose the edit: the goroutine fails,
      which re-queues the stage, whose re-run re-queues the edited one. */
  lemma StoppedFlightLosesEdit()
    ensures exists s, t, u ::
      && Reachable(TwoStages(LlmText), s) && ID in s.docs && QuietBefore(s.docs[ID].jobs, 1)
      && t == Apply(TwoStages(LlmText), s, User(ID, EditOutput(1, "t", "mine")))
      && ID in t.docs && CurrentStageOutput(t.docs[ID].jobs, 1, "t") == Success("mine")
      && Leads(TwoStages(LlmText), t, u, true)
      && ID in u.docs && CurrentStageOutput(u.docs[ID].jobs, 1, "t") == Success("z")
  {
    var cfg := TwoStages(LlmText);
    hide Leads, Finish, Collect;
    var a, b, flight := StoppedBehindDone();
    var s := InFlight(Two(a, b), 0, flight);
    ActStep(cfg, Two(a, b), Some(Batch(0, map[], map[ID := flight])), EditOutput(1, "t", "mine"));
    EditSecond(a, b, [Out("x")], "theirs", "mine");
    var b' := b.(runs := [Out("x")] + [Out("mine")]);
    var t := InFlight(Two(a, b'), 0, flight);
    LastOutput(a, b', map[], [Out("x")], "mine");
    hide Apply, CurrentStageOutput;
    Stays(cfg, t);
    Lands(cfg, t, Two(a, b'), 0, flight, Failed(None), true);
    FirstFails(a, b', flight);
    var f := map[0 := 1];
    var data0 := FirstRuns(LlmText, t, As(a, Pending), b', f, "b", true);
    var a' := Job(Done, a.runs + [Out("b")], data0, a.park);
    var data1 := SecondRuns(LlmText, Generates, t, a', As(b', Pending), f, "z", true);
    var b'' := Job(Done, b'.runs + [Out("z")], data1, b'.park);
    LastOutput(a', b'', f, b'.runs, "z");
    assert t == Apply(cfg, s, User(ID, EditOutput(1, "t", "mine")));
    assert Leads(cfg, t, One(Pair(a', b'', f), None), true);
  }
}
