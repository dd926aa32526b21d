/** Without user steps the worker finishes: a bound on the executions of each document, a
    bound on all its steps, and what is left when it goes idle. */
module BoundedWork {
  import opened Wrappers
  import opened Pipeline
  import opened WorkerLoop

  predicate QueuedAt(doc: Doc, k: nat) { k in doc.jobs && Queued(doc.jobs[k]) }

  /** Stages still to run behind a queued job, plus the failures it may still use up. */
  function Weight(n: nat, doc: Doc, i: nat): nat {
    (if i < n && QueuedAt(doc, i) then n - i else 0)
    + (if FailureCount(doc, i) < MAX_FAILURES then MAX_FAILURES - FailureCount(doc, i) else 0)
  }

  function PotentialUpTo(n: nat, doc: Doc, m: nat): nat {
    if m == 0 then 0 else PotentialUpTo(n, doc, m - 1) + Weight(n, doc, m - 1)
  }

  function Potential(n: nat, doc: Doc): nat { PotentialUpTo(n, doc, n) }

  /** Weight moved from stage k to its successor at a loss is lost in the sum, but for c. */
  lemma {:induction false} PotentialDrops(n: nat, a: Doc, b: Doc, k: nat, m: nat, c: nat)
    requires forall i | 0 <= i < m && i != k && i != k + 1 :: Weight(n, b, i) <= Weight(n, a, i)
    requires k < m ==> Weight(n, b, k) + 1 <= Weight(n, a, k) + c
    requires k + 1 < m ==> Weight(n, b, k) + Weight(n, b, k + 1) + 1 <= Weight(n, a, k) + Weight(n, a, k + 1) + c
    ensures k >= m ==> PotentialUpTo(n, b, m) <= PotentialUpTo(n, a, m)
    ensures k < m ==> PotentialUpTo(n, b, m) + 1 <= PotentialUpTo(n, a, m) + c
  {
    hide Weight;
    if m == 0 {
    } else if m == k + 2 {
      PotentialDrops(n, a, b, k, k, c);
      assert PotentialUpTo(n, a, k + 2) == PotentialUpTo(n, a, k) + Weight(n, a, k) + Weight(n, a, k + 1);
      assert PotentialUpTo(n, b, k + 2) == PotentialUpTo(n, b, k) + Weight(n, b, k) + Weight(n, b, k + 1);
    } else {
      PotentialDrops(n, a, b, k, m - 1, c);
    }
  }

  lemma {:induction false} PotentialSame(n: nat, a: Doc, b: Doc, m: nat)
    requires forall i | 0 <= i < m :: Weight(n, b, i) == Weight(n, a, i)
    ensures PotentialUpTo(n, b, m) == PotentialUpTo(n, a, m)
  {
    if m > 0 { PotentialSame(n, a, b, m - 1); }
  }

  lemma {:induction false} PotentialAtLeast(n: nat, doc: Doc, k: nat, m: nat)
    requires k < m
    ensures Weight(n, doc, k) <= PotentialUpTo(n, doc, m)
  {
    if m - 1 != k { PotentialAtLeast(n, doc, k, m - 1); }
  }

  /** What an ending does to the row and the failure count of any stage. */
  lemma FinishRow(n: nat, doc: Doc, k: nat, flight: Flight, outcome: Outcome, i: nat)
    requires k < n && k in doc.jobs && !outcome.Stopped?
    ensures var b := Finish(n, doc, k, flight, outcome);
      && (outcome.Failed? ==> FailureCount(b, i) == FailureCount(doc, i) + if i == k then 1 else 0)
      && (!outcome.Failed? ==> FailureCount(b, i) == FailureCount(doc, i) && (i == k ==> !QueuedAt(b, k)))
      && (i in b.jobs && QueuedAt(b, i) && i != k && (outcome.Failed? || i != k + 1) ==> QueuedAt(doc, i))
      && (outcome.Failed? && FailureCount(doc, k) + 1 >= MAX_FAILURES ==> !QueuedAt(b, k))
  {
  }

  /** What an ending may put back in the queue if its job is not running any more. */
  function Regain(n: nat, doc: Doc, k: nat): nat
    requires k < n && k in doc.jobs
  {
    if doc.jobs[k].status.Running? then 0 else n - k
  }

  lemma FinishWeights(n: nat, doc: Doc, k: nat, flight: Flight, outcome: Outcome, i: nat)
    requires k < n && k in doc.jobs && !outcome.Stopped?
    ensures var b, r := Finish(n, doc, k, flight, outcome), Regain(n, doc, k);
      && (i != k && i != k + 1 ==> Weight(n, b, i) <= Weight(n, doc, i))
      && Weight(n, b, k) + 1 <= Weight(n, doc, k) + r
      && (k + 1 < n ==> Weight(n, b, k) + Weight(n, b, k + 1) + 1 <= Weight(n, doc, k) + Weight(n, doc, k + 1) + r)
  {
    FinishRow(n, doc, k, flight, outcome, i);
    FinishRow(n, doc, k, flight, outcome, k);
    FinishRow(n, doc, k, flight, outcome, k + 1);
    hide Finish;
  }

  /** Every finished execution lowers the document's potential, but for what a job that was
      stopped or re-queued in flight may bring back. */
  lemma FinishLowersPotential(n: nat, doc: Doc, k: nat, flight: Flight, outcome: Outcome)
    requires k < n && k in doc.jobs && (outcome.Stopped? ==> !doc.jobs[k].status.Running?)
    ensures Potential(n, Finish(n, doc, k, flight, outcome)) + 1 <= Potential(n, doc) + Regain(n, doc, k)
  {
    if !outcome.Stopped? {
      var b := Finish(n, doc, k, flight, outcome);
      forall i: nat { FinishWeights(n, doc, k, flight, outcome, i); }
      hide Finish;
      PotentialDrops(n, doc, b, k, n, Regain(n, doc, k));
    }
  }

  lemma StartKeepsPotential(n: nat, doc: Doc, k: nat)
    requires PendingAt(doc, k)
    ensures Potential(n, doc.(jobs := StartJob(doc.jobs, k))) == Potential(n, doc)
  {
    PotentialSame(n, doc, doc.(jobs := StartJob(doc.jobs, k)), n);
  }

  lemma RestartKeepsPotential(n: nat, doc: Doc)
    ensures Potential(n, doc.(jobs := ResetRunning(doc.jobs))) == Potential(n, doc)
  {
    PotentialSame(n, doc, doc.(jobs := ResetRunning(doc.jobs)), n);
  }

  // --- Executions of one document ------------------------------------------------------------

  /** What the document's held job may bring back: nothing while it is running. */
  function Slack(cfg: Config, s: State, d: DocId): nat
    requires d in s.docs
  {
    var b := BatchOf(s);
    if d in b.flights && b.stage < |cfg| && b.stage in s.docs[d].jobs then Regain(|cfg|, s.docs[d], b.stage) else 0
  }

  predicate WorkerStep(step: Step) {
    step.BeginBatch? || step.Start? || step.FinishJob? || step.EndBatch?
  }

  function Executions(steps: seq<Step>, d: DocId): nat {
    if steps == [] then 0
    else (if steps[0].FinishJob? && steps[0].doc == d then 1 else 0) + Executions(steps[1..], d)
  }

  lemma StartStepPotential(cfg: Config, s: State, e: DocId, path: Path, d: DocId)
    requires Flow(cfg, s) && Enabled(cfg, s, Start(e, path)) && d in s.docs
    ensures var t := StartIn(s, e, path);
      d in t.docs && Potential(|cfg|, t.docs[d]) + Slack(cfg, t, d) <= Potential(|cfg|, s.docs[d]) + Slack(cfg, s, d)
  {
    ListedIsPending(cfg, s, e);
    hide Flow, Potential, Collect;
    StartKeepsPotential(|cfg|, s.docs[e], s.batch.value.stage);
  }

  lemma FinishStepPotential(cfg: Config, s: State, e: DocId, outcome: Outcome, d: DocId)
    requires Flow(cfg, s) && Enabled(cfg, s, FinishJob(e, outcome)) && d in s.docs
    ensures var t := FinishIn(cfg, s, e, outcome);
      d in t.docs && Potential(|cfg|, t.docs[d]) + Slack(cfg, t, d) + (if e == d then 1 else 0)
        <= Potential(|cfg|, s.docs[d]) + Slack(cfg, s, d)
  {
    hide Potential, Finish, Flow;
    FinishLowersPotential(|cfg|, s.docs[e], s.batch.value.stage, s.batch.value.flights[e], outcome);
  }

  lemma StepLowersPotential(cfg: Config, s: State, step: Step, d: DocId)
    requires Flow(cfg, s) && Enabled(cfg, s, step) && (WorkerStep(step) || step.Restart?) && d in s.docs
    ensures var t := Apply(cfg, s, step);
      d in t.docs
      && Potential(|cfg|, t.docs[d]) + Slack(cfg, t, d) + (if step.FinishJob? && step.doc == d then 1 else 0)
         <= Potential(|cfg|, s.docs[d]) + Slack(cfg, s, d)
  {
    hide Potential, StartIn, FinishIn, ResetRunning, Flow, OutcomePossible;
    match step
    case Start(e, path) => StartStepPotential(cfg, s, e, path, d);
    case FinishJob(e, outcome) => FinishStepPotential(cfg, s, e, outcome, d);
    case Restart => RestartKeepsPotential(|cfg|, s.docs[d]);
    case _ =>
  }

  /** From any state, also one where the user has just stopped or re-queued jobs in flight:
      however worker steps and restarts interleave, a document's jobs are executed to an end
      at most Potential times, plus what its held job may bring back. Retries are bounded. */
  lemma {:induction false} ExecutionsBounded(cfg: Config, s: State, steps: seq<Step>, d: DocId)
    requires Flow(cfg, s) && Valid(cfg, s, steps) && d in s.docs
    requires forall i | 0 <= i < |steps| :: WorkerStep(steps[i]) || steps[i].Restart?
    ensures Executions(steps, d) <= Potential(|cfg|, s.docs[d]) + Slack(cfg, s, d)
    decreases |steps|
  {
    hide Flow, Enabled, Apply, Potential, Slack;
    if steps != [] {
      StepLowersPotential(cfg, s, steps[0], d);
      StepKeepsFlow(cfg, s, steps[0]);
      ExecutionsBounded(cfg, Apply(cfg, s, steps[0]), steps[1..], d);
    }
  }

  /** A fresh upload is executed at most 4n - first times. */
  lemma FreshDocumentPotential(n: nat, first: nat, context: bool)
    requires first < n
    ensures Potential(n, Doc(first, map[first := NewJob()], map[], context)) == 4 * n - first
  {
    FreshPotentialUpTo(n, first, context, n);
  }

  lemma {:induction false} FreshPotentialUpTo(n: nat, first: nat, context: bool, m: nat)
    requires first < n && m <= n
    ensures PotentialUpTo(n, Doc(first, map[first := NewJob()], map[], context), m)
      == 3 * m + if first < m then n - first else 0
  {
    if m > 0 { FreshPotentialUpTo(n, first, context, m - 1); }
  }

  // --- All the worker's steps ------------------------------------------------------------------

  ghost function Sum(keys: set<DocId>, f: map<DocId, nat>): nat
    requires keys <= f.Keys
  {
    if keys == {} then 0 else var d :| d in keys; f[d] + Sum(keys - {d}, f)
  }

  lemma {:induction false} SumTakes(keys: set<DocId>, f: map<DocId, nat>, d: DocId)
    requires keys <= f.Keys && d in keys
    ensures Sum(keys, f) == f[d] + Sum(keys - {d}, f)
    decreases keys
  {
    var e :| e in keys && Sum(keys, f) == f[e] + Sum(keys - {e}, f);
    if e != d {
      SumTakes(keys - {e}, f, d);
      SumTakes(keys - {d}, f, e);
      assert keys - {e} - {d} == keys - {d} - {e};
    }
  }

  lemma {:induction false} SumGrows(keys: set<DocId>, f: map<DocId, nat>, g: map<DocId, nat>)
    requires keys <= f.Keys && keys <= g.Keys
    requires forall d | d in keys :: g[d] <= f[d]
    ensures Sum(keys, g) <= Sum(keys, f)
    decreases keys
  {
    if keys != {} {
      var d :| d in keys;
      SumTakes(keys, f, d);
      SumTakes(keys, g, d);
      SumGrows(keys - {d}, f, g);
    }
  }

  lemma SumDrops(keys: set<DocId>, f: map<DocId, nat>, g: map<DocId, nat>, d: DocId, c: nat)
    requires keys <= f.Keys && keys <= g.Keys && d in keys
    requires forall e | e in keys :: g[e] <= f[e]
    requires g[d] + c <= f[d]
    ensures Sum(keys, g) + c <= Sum(keys, f)
  {
    SumTakes(keys, f, d);
    SumTakes(keys, g, d);
    SumGrows(keys - {d}, f, g);
  }

  /** Eight per unit of potential, less what the current batch has already done for it. */
  ghost function Credit(potential: nat, listed: bool, held: bool): int {
    8 * potential - (if listed then 2 else 0) - (if held then 4 else 0)
  }

  lemma QueuedHasPotential(n: nat, doc: Doc, k: nat)
    requires k < n && QueuedAt(doc, k)
    ensures 1 <= Potential(n, doc)
  {
    PotentialAtLeast(n, doc, k, n);
  }

  ghost function CreditOf(cfg: Config, s: State, d: DocId): int
    requires d in s.docs
  {
    Credit(Potential(|cfg|, s.docs[d]) + Slack(cfg, s, d), d in BatchOf(s).todo, d in BatchOf(s).flights)
  }

  ghost function Credits(cfg: Config, s: State): map<DocId, nat>
    requires forall d | d in s.docs :: 0 <= CreditOf(cfg, s, d)
  {
    map d | d in s.docs :: CreditOf(cfg, s, d)
  }

  lemma CreditsAreNat(cfg: Config, s: State)
    requires Flow(cfg, s)
    ensures forall d | d in s.docs :: 0 <= CreditOf(cfg, s, d)
  {
    forall d | d in s.docs ensures 0 <= CreditOf(cfg, s, d) {
      if s.batch.Some? && (d in s.batch.value.todo || d in s.batch.value.flights) {
        var k := s.batch.value.stage;
        if d in s.batch.value.todo { ListedIsPending(cfg, s, d); } else { HeldIsThere(cfg, s, d); }
        hide Potential, DocFlow, Flow;
        if QueuedAt(s.docs[d], k) { QueuedHasPotential(|cfg|, s.docs[d], k); }
      }
    }
  }

  ghost function Measure(cfg: Config, s: State): nat
    requires Flow(cfg, s)
  {
    CreditsAreNat(cfg, s);
    Sum(s.docs.Keys, Credits(cfg, s)) + if s.batch.Some? then 1 else 0
  }

  /** The document whose credit a worker step spends; EndBatch spends only the batch. */
  lemma StepSpends(cfg: Config, s: State, step: Step, d: DocId)
    requires Flow(cfg, s) && Enabled(cfg, s, step) && WorkerStep(step) && d in s.docs
    ensures d in Apply(cfg, s, step).docs
    ensures CreditOf(cfg, Apply(cfg, s, step), d) +
      (if (step.Start? || step.FinishJob?) && step.doc == d then 2
       else if step.BeginBatch? && PendingAt(s.docs[d], step.stage) then 2 else 0)
      <= CreditOf(cfg, s, d)
  {
    StepLowersPotential(cfg, s, step, d);
    if step.Start? { ListedIsPending(cfg, s, step.doc); }
    hide Potential, Slack, Finish, StartJob, Flow, OutcomePossible, Collect;
  }

  lemma MeasureDrops(cfg: Config, s: State, t: State, d: DocId, c: nat)
    requires Flow(cfg, s) && Flow(cfg, t)
    requires t.docs.Keys == s.docs.Keys && d in s.docs
    requires forall e | e in s.docs :: CreditOf(cfg, t, e) <= CreditOf(cfg, s, e)
    requires CreditOf(cfg, t, d) + c <= CreditOf(cfg, s, d)
    ensures Measure(cfg, t) - (if t.batch.Some? then 1 else 0) + c <= Measure(cfg, s) - (if s.batch.Some? then 1 else 0)
  {
    hide CreditOf, Flow;
    CreditsAreNat(cfg, s);
    CreditsAreNat(cfg, t);
    SumDrops(s.docs.Keys, Credits(cfg, s), Credits(cfg, t), d, c);
  }

  lemma EmptyMeasure(cfg: Config, s: State)
    requires Flow(cfg, s) && s.docs == map[]
    ensures Measure(cfg, s) == if s.batch.Some? then 1 else 0
  {
    hide Flow;
  }

  lemma StepKeepsDocs(cfg: Config, s: State, step: Step)
    requires Enabled(cfg, s, step) && WorkerStep(step)
    ensures Apply(cfg, s, step).docs.Keys == s.docs.Keys
    ensures Apply(cfg, s, step).batch.Some? <==> !step.EndBatch?
  {
    hide Finish, StartJob, Collect, OutcomePossible;
  }

  lemma StepLowersMeasure(cfg: Config, s: State, step: Step)
    requires Flow(cfg, s) && Enabled(cfg, s, step) && WorkerStep(step)
    ensures Flow(cfg, Apply(cfg, s, step))
    ensures Measure(cfg, Apply(cfg, s, step)) < Measure(cfg, s)
  {
    hide Flow, CreditOf, Apply, Measure, OutcomePossible;
    var t := Apply(cfg, s, step);
    StepKeepsFlow(cfg, s, step);
    StepKeepsDocs(cfg, s, step);
    forall d | d in s.docs { StepSpends(cfg, s, step, d); }
    match step
    case BeginBatch(k) =>
      var d :| d in s.docs && PendingAt(s.docs[d], k);
      MeasureDrops(cfg, s, t, d, 2);
    case Start(d, _) => MeasureDrops(cfg, s, t, d, 2);
    case FinishJob(d, _) => MeasureDrops(cfg, s, t, d, 2);
    case EndBatch =>
      if d :| d in s.docs { MeasureDrops(cfg, s, t, d, 0); } else {
        EmptyMeasure(cfg, s);
        EmptyMeasure(cfg, t);
      }
  }

  /** Left alone in any state, the worker takes a bounded number of steps of any kind. */
  lemma {:induction false} WorkerTerminates(cfg: Config, s: State, steps: seq<Step>)
    requires Flow(cfg, s) && Valid(cfg, s, steps)
    requires forall i | 0 <= i < |steps| :: WorkerStep(steps[i])
    ensures |steps| <= Measure(cfg, s)
    decreases |steps|
  {
    hide Flow, Enabled, Apply, Measure;
    if steps != [] {
      StepLowersMeasure(cfg, s, steps[0]);
      WorkerTerminates(cfg, Apply(cfg, s, steps[0]), steps[1..]);
    }
  }

  ghost predicate Idle(cfg: Config, s: State) {
    forall step | WorkerStep(step) :: !Enabled(cfg, s, step)
  }

  /** A batch in progress always allows a step. */
  lemma BatchIsNotStuck(cfg: Config, s: State)
    requires Flow(cfg, s) && s.batch.Some? && forall k | 0 <= k < |cfg| :: cfg[k].maxConcurrent >= 1
    ensures !Idle(cfg, s)
  {
    hide DocFlow;
    var b := s.batch.value;
    if d :| d in b.flights {
      HeldIsThere(cfg, s, d);
      assert Enabled(cfg, s, FinishJob(d, if b.flights[d].path.Parks? then ParkedForContext else Failed(None)));
    } else if d :| d in b.todo {
      assert b.flights == map[];
      var path := if MustPark(cfg[b.stage], s.docs[d].context) then Parks else Commits;
      assert Enabled(cfg, s, Start(d, path));
    } else {
      assert Enabled(cfg, s, EndBatch);
    }
  }

  /** When nothing is left to do, no goroutine is alive and no job is pending at a stage the
      worker supports; and only then. In between it is never stuck. */
  lemma IdleMeansDrained(cfg: Config, s: State)
    requires Flow(cfg, s) && forall k | 0 <= k < |cfg| :: cfg[k].maxConcurrent >= 1
    ensures Idle(cfg, s) <==>
      s.batch.None? && forall k | 0 <= k < |cfg| && Supported(cfg[k]) :: !AnyPending(s, k)
  {
    if s.batch.Some? {
      BatchIsNotStuck(cfg, s);
    } else if exists k :: 0 <= k < |cfg| && Supported(cfg[k]) && AnyPending(s, k) {
      hide Flow;
      var k :| 0 <= k < |cfg| && Supported(cfg[k]) && AnyPending(s, k);
      FirstPending(cfg, s, k);
    }
  }

  lemma FirstPending(cfg: Config, s: State, k: nat)
    requires s.batch.None? && k < |cfg| && Supported(cfg[k]) && AnyPending(s, k)
    ensures exists j: nat :: Enabled(cfg, s, BeginBatch(j))
  {
    if j: nat :| j < k && Supported(cfg[j]) && AnyPending(s, j) {
      FirstPending(cfg, s, j);
    } else {
      assert Enabled(cfg, s, BeginBatch(k));
    }
  }
}
