/** Freshness over every run of the whole system. */
module FreshRuns {
  import opened Wrappers
  import opened Pipeline
  import opened Freshness
  import opened WorkerLoop

  /** The assumptions of the freshness promise, step by step: vetted user steps; a completion
      finds its job still running, also one that does not ask wasStopped; and one that stores
      no run finds no earlier run, or one that was given the same. */
  ghost predicate Vetted(s: State, step: Step) {
    match step
    case User(d, u) => d in s.docs ==> VettedUser(s.docs[d].jobs, u)
    case FinishJob(d, outcome) =>
      var b := BatchOf(s);
      d in b.flights && d in s.docs && b.stage in s.docs[d].jobs ==>
        VettedEnding(s.docs[d].jobs[b.stage], b.stage, b.flights[d].data, outcome)
    case _ => true
  }

  ghost predicate AllVetted(cfg: Config, s: State, steps: seq<Step>)
    requires Valid(cfg, s, steps)
    decreases |steps|
  {
    steps == [] || (Vetted(s, steps[0]) && AllVetted(cfg, Apply(cfg, s, steps[0]), steps[1..]))
  }

  /** Freshness of one document, with the companions for its job in the current batch: the
      runs the worker read are still the stored ones, and the snapshot is current. */
  ghost predicate DocFresh(doc: Doc, k: nat, listed: Option<seq<Run>>, held: Option<Flight>) {
    && Fresh(doc.jobs)
    && (listed.Some? && k in doc.jobs ==> doc.jobs[k].runs == listed.value)
    && (held.Some? && k in doc.jobs ==> doc.jobs[k].runs == held.value.runs)
    && (held.Some? ==> FlightFresh(doc.jobs, k, held.value.data))
  }

  ghost function Get<T>(m: map<DocId, T>, d: DocId): Option<T> {
    if d in m then Some(m[d]) else None
  }

  ghost predicate FreshState(s: State) {
    forall d | d in s.docs ::
      DocFresh(s.docs[d], BatchOf(s).stage, Get(BatchOf(s).todo, d), Get(BatchOf(s).flights, d))
  }

  lemma UserKeepsRuns(n: nat, jobs: Jobs, u: UserStep, k: nat)
    requires k in jobs && VettedUser(jobs, u) && !jobs[k].status.Done? && !jobs[k].status.Waiting?
    ensures k in ApplyUser(n, jobs, u) && ApplyUser(n, jobs, u)[k].runs == jobs[k].runs
  {
  }

  lemma UserKeepsDocFresh(n: nat, doc: Doc, k: nat, listed: Option<seq<Run>>, held: Option<Flight>, u: UserStep)
    requires DocFlow(n, doc, k, listed.Some?, held.Some?) && DocFresh(doc, k, listed, held)
    requires VettedUser(doc.jobs, u)
    ensures DocFresh(ActOn(n, doc, u), k, listed, held)
  {
    hide ApplyUser;
    UserKeepsFresh(n, doc.first, doc.jobs, u);
    if listed.Some? || held.Some? {
      UserKeepsRuns(n, doc.jobs, u, k);
    }
    if held.Some? {
      UserKeepsFlightFresh(n, doc.first, doc.jobs, u, k, held.value.data);
    }
  }

  lemma FinishKeepsDocFresh(n: nat, doc: Doc, k: nat, listed: bool, flight: Flight, outcome: Outcome)
    requires DocFlow(n, doc, k, listed, true) && DocFresh(doc, k, None, Some(flight))
    requires k in doc.jobs && OutcomePossible(doc.jobs[k], flight.path, outcome)
    requires VettedEnding(doc.jobs[k], k, flight.data, outcome)
    ensures DocFresh(Finish(n, doc, k, flight, outcome), k, None, None)
  {
    FinishKeepsFresh(n, doc, k, flight, outcome);
  }

  lemma RestartKeepsDocFresh(doc: Doc)
    requires Fresh(doc.jobs)
    ensures DocFresh(doc.(jobs := ResetRunning(doc.jobs)), 0, None, None)
  {
    var a, b := doc.jobs, ResetRunning(doc.jobs);
    forall j | j in b && Shows(b[j]) && DoneBelow(b, j) ensures FreshAt(b, j, b[j].shown) {
      forall i | i < j && (i in a || i in b) ensures i in a && i in b && a[i] == b[i] {
        assert b[i].status.Done?;
      }
      FreshAtCarries(a, b, j, a[j].shown);
    }
  }

  lemma StartKeepsDocFresh(n: nat, doc: Doc, k: nat, runs: seq<Run>, held: bool, path: Path)
    requires DocFlow(n, doc, k, true, held) && DocFresh(doc, k, Some(runs), None)
    ensures var jobs := StartJob(doc.jobs, k);
      DocFresh(doc.(jobs := jobs), k, None, Some(Flight(runs, Collect(jobs), path)))
  {
    StartIsFresh(doc.jobs, k);
  }

  lemma StartStepKeepsFresh(cfg: Config, s: State, d: DocId, path: Path)
    requires Flow(cfg, s) && FreshState(s) && Enabled(cfg, s, Start(d, path))
    ensures FreshState(StartIn(s, d, path))
  {
    hide StartJob, Collect, DocFlow, DocFresh;
    var b := s.batch.value;
    FlowAt(cfg, s, d);
    ListedIsNotHeld(|cfg|, s.docs[d], b.stage, d in b.flights);
    StartKeepsDocFresh(|cfg|, s.docs[d], b.stage, b.todo[d], d in b.flights, path);
  }

  lemma FinishStepKeepsFresh(cfg: Config, s: State, d: DocId, outcome: Outcome)
    requires Flow(cfg, s) && FreshState(s) && Enabled(cfg, s, FinishJob(d, outcome)) && Vetted(s, FinishJob(d, outcome))
    ensures FreshState(FinishIn(cfg, s, d, outcome))
  {
    hide Finish, OutcomePossible, DocFlow, DocFresh;
    var b := s.batch.value;
    FlowAt(cfg, s, d);
    HeldIsNotListed(|cfg|, s.docs[d], b.stage, d in b.todo);
    FinishKeepsDocFresh(|cfg|, s.docs[d], b.stage, d in b.todo, b.flights[d], outcome);
  }

  lemma UserStepKeepsFresh(cfg: Config, s: State, d: DocId, u: UserStep)
    requires Flow(cfg, s) && FreshState(s) && d in s.docs && VettedUser(s.docs[d].jobs, u)
    ensures FreshState(UserIn(|cfg|, s, d, u))
  {
    hide ApplyUser, DocFlow, DocFresh, VettedUser;
    var b := BatchOf(s);
    FlowAt(cfg, s, d);
    UserKeepsDocFresh(|cfg|, s.docs[d], b.stage, Get(b.todo, d), Get(b.flights, d), u);
  }

  lemma RestartStepKeepsFresh(s: State)
    requires FreshState(s)
    ensures FreshState(State(map d | d in s.docs :: s.docs[d].(jobs := ResetRunning(s.docs[d].jobs)), None))
  {
    forall d | d in s.docs ensures DocFresh(s.docs[d].(jobs := ResetRunning(s.docs[d].jobs)), 0, None, None) {
      hide ResetRunning;
      RestartKeepsDocFresh(s.docs[d]);
    }
  }

  lemma FlowAt(cfg: Config, s: State, d: DocId)
    requires Flow(cfg, s) && d in s.docs
    ensures DocFlow(|cfg|, s.docs[d], BatchOf(s).stage, d in BatchOf(s).todo, d in BatchOf(s).flights)
  {
    hide DocFlow;
  }

  lemma ListedIsNotHeld(n: nat, doc: Doc, k: nat, held: bool)
    requires DocFlow(n, doc, k, true, held)
    ensures !held
  {
  }

  lemma HeldIsNotListed(n: nat, doc: Doc, k: nat, listed: bool)
    requires DocFlow(n, doc, k, listed, true)
    ensures !listed
  {
  }

  lemma StepKeepsFresh(cfg: Config, s: State, step: Step)
    requires Flow(cfg, s) && FreshState(s) && Enabled(cfg, s, step) && Vetted(s, step)
    ensures FreshState(Apply(cfg, s, step))
  {
    match step
    case User(d, u) => UserStepKeepsFresh(cfg, s, d, u);
    case Start(d, path) => StartStepKeepsFresh(cfg, s, d, path);
    case FinishJob(d, outcome) => FinishStepKeepsFresh(cfg, s, d, outcome);
    case Restart => RestartStepKeepsFresh(s);
    case _ => BookkeepingKeepsFresh(cfg, s, step);
  }

  lemma BookkeepingKeepsFresh(cfg: Config, s: State, step: Step)
    requires Flow(cfg, s) && FreshState(s) && Enabled(cfg, s, step)
    requires step.Ingest? || step.BeginBatch? || step.EndBatch?
    ensures FreshState(Apply(cfg, s, step))
  {
    hide DocFlow, Collect;
  }

  lemma {:induction false} RunKeepsFresh(cfg: Config, s: State, steps: seq<Step>)
    requires Flow(cfg, s) && FreshState(s) && Valid(cfg, s, steps) && AllVetted(cfg, s, steps)
    ensures FreshState(RunSteps(cfg, s, steps))
    decreases |steps|
  {
    hide Flow, FreshState, Enabled, Apply, Vetted;
    if steps != [] {
      StepKeepsFlow(cfg, s, steps[0]);
      StepKeepsFresh(cfg, s, steps[0]);
      RunKeepsFresh(cfg, Apply(cfg, s, steps[0]), steps[1..]);
    }
  }

  /** In every state reached by vetted steps: when all jobs of a document up to stage j are
      done, the latest run of j was made from exactly what CollectStageData returns now for the
      stages before j. */
  lemma DownstreamIsFresh(cfg: Config, steps: seq<Step>, d: DocId, j: nat)
    requires Valid(cfg, INITIAL, steps) && AllVetted(cfg, INITIAL, steps)
    requires d in RunSteps(cfg, INITIAL, steps).docs && j in RunSteps(cfg, INITIAL, steps).docs[d].jobs
    requires forall i | i in RunSteps(cfg, INITIAL, steps).docs[d].jobs && i <= j ::
               RunSteps(cfg, INITIAL, steps).docs[d].jobs[i].status.Done?
    ensures var jobs := RunSteps(cfg, INITIAL, steps).docs[d].jobs;
      jobs[j].runs != [] ==> Below(jobs[j].shown, j) == Below(Collect(jobs), j)
  {
    RunKeepsFresh(cfg, INITIAL, steps);
    hide RunSteps, Valid, AllVetted;
    var jobs := RunSteps(cfg, INITIAL, steps).docs[d].jobs;
    assert Fresh(jobs) && DoneBelow(jobs, j);
    assert jobs[j].runs != [] ==> Shows(jobs[j]);
  }

  lemma FinishStepAppendsRuns(cfg: Config, s: State, e: DocId, outcome: Outcome, d: DocId, i: nat)
    requires Enabled(cfg, s, FinishJob(e, outcome)) && FreshState(s) && d in s.docs && i in s.docs[d].jobs
    ensures d in FinishIn(cfg, s, e, outcome).docs && i in FinishIn(cfg, s, e, outcome).docs[d].jobs
    ensures s.docs[d].jobs[i].runs <= FinishIn(cfg, s, e, outcome).docs[d].jobs[i].runs
  {
    hide Finish, Fresh, FlightFresh, OutcomePossible;
    var b := s.batch.value;
    assert DocFresh(s.docs[e], b.stage, Get(b.todo, e), Some(b.flights[e]));
    if d == e {
      FinishAppendsRuns(|cfg|, s.docs[e], b.stage, b.flights[e], outcome, i);
    }
  }

  /** No step of the worker rewrites a stored run: every list only grows at its end. */
  lemma WorkerOnlyAppendsRuns(cfg: Config, s: State, step: Step, d: DocId, i: nat)
    requires FreshState(s) && Enabled(cfg, s, step) && !step.User?
    requires d in s.docs && i in s.docs[d].jobs
    ensures d in Apply(cfg, s, step).docs && i in Apply(cfg, s, step).docs[d].jobs
    ensures s.docs[d].jobs[i].runs <= Apply(cfg, s, step).docs[d].jobs[i].runs
  {
    hide FreshState, FinishIn, OutcomePossible, Collect;
    if step.FinishJob? {
      FinishStepAppendsRuns(cfg, s, step.doc, step.outcome, d, i);
    }
  }
}
