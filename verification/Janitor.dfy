/** The sweep of superseded artifacts, while the workers keep writing: it walks the job table
    for the artifacts in use, then walks the artifact table and deletes what is neither in use
    nor recent. Anything else may happen between any two of its calls. */
module Janitor {
  import opened Wrappers
  import opened Keyset
  import opened RunFiles

  /** `stamp` is the created_at text the walk is ordered by, `created` the time it denotes. */
  datatype Art = Art(row: Artifact, stamp: string, created: nat)

  /** A run's id and the artifacts of its inputs and outputs. */
  datatype LatestRun = LatestRun(id: Id, refs: set<Id>)

  datatype JobRow = JobRow(stamp: string, latest: Option<LatestRun>)

  /** A run being written: its artifacts so far, and when the first was begun. */
  datatype Writing = Writing(refs: set<Id>, since: nat)

  datatype World = World(now: nat, jobs: map<Id, JobRow>, writing: map<(Id, Id), Writing>,
                         arts: map<Id, Art>, files: Files, issued: set<Id>)

  function RowsOf(w: World): Rows { map id | id in w.arts :: w.arts[id].row }

  function TextOf(w: World, id: Id): Option<string> { ReadText(w.files, RowsOf(w), id) }

  predicate IsOfRun(a: Artifact, job: Id, run: Id) { !a.Upload? && a.job == job && a.run == run }

  // --- What happens around the janitor ---------------------------------------------------

  datatype EnvStep =
    | Pass(time: nat)
    | NewJob(job: Id, stamp: string)
    | Persist(job: Id, run: Id, name: string, id: Id, stamp: string, text: string)
    | Attach(job: Id, run: Id)
    | Upload(id: Id, stamp: string, filename: string, text: string)
    | Edit(id: Id, text: string)

  /** A run is written and reaches its job within `delay`; ids are fresh. */
  predicate Possible(w: World, delay: nat, e: EnvStep) {
    match e
    case Pass(_) => true
    case NewJob(job, _) => job !in w.jobs && Plain(job)
    case Persist(job, run, _, id, _, _) =>
      && job in w.jobs && Plain(id) && id !in w.issued && id != run
      && if (job, run) in w.writing then w.writing[(job, run)].since + delay >= w.now
         else Plain(run) && run !in w.issued
    case Attach(job, run) => job in w.jobs && (job, run) in w.writing && w.writing[(job, run)].since + delay >= w.now
    case Upload(id, _, _, _) => Plain(id) && id !in w.issued
    case Edit(id, _) => id in w.arts
  }

  function AddArt(w: World, id: Id, a: Art, text: string): World {
    w.(arts := w.arts[id := a], files := w.files[Location(id, a.row) := text], issued := w.issued + {id})
  }

  function PlayOne(w: World, delay: nat, e: EnvStep): World {
    if !Possible(w, delay, e) then w
    else match e
      case Pass(time) => w.(now := w.now + time)
      case NewJob(job, stamp) => w.(jobs := w.jobs[job := JobRow(stamp, None)])
      case Persist(job, run, name, id, stamp, text) =>
        var d := if (job, run) in w.writing then w.writing[(job, run)] else Writing({}, w.now);
        AddArt(w, id, Art(OfRun(job, run, name), stamp, w.now), text)
          .(writing := w.writing[(job, run) := d.(refs := d.refs + {id})], issued := w.issued + {id, run})
      case Attach(job, run) =>
        w.(jobs := w.jobs[job := w.jobs[job].(latest := Some(LatestRun(run, w.writing[(job, run)].refs)))],
           writing := w.writing - {(job, run)})
      case Upload(id, stamp, filename, text) => AddArt(w, id, Art(Artifact.Upload(filename), stamp, w.now), text)
      case Edit(id, text) => w.(files := w.files[Location(id, w.arts[id].row) := text])
  }

  function Play(w: World, delay: nat, steps: seq<EnvStep>): World
    decreases |steps|
  {
    if steps == [] then w else Play(PlayOne(w, delay, steps[0]), delay, steps[1..])
  }

  // --- The invariant of the tables -------------------------------------------------------

  /** A run whose artifacts are in use: a job's latest run, or one still being written. */
  ghost predicate Claims(w: World, delay: nat, job: Id, run: Id, refs: set<Id>) {
    || (job in w.jobs && w.jobs[job].latest == Some(LatestRun(run, refs)))
    || ((job, run) in w.writing && w.writing[(job, run)].refs == refs && w.writing[(job, run)].since + delay >= w.now)
  }

  /** The run's artifacts are exactly its rows, and all can be read. */
  ghost predicate Backed(w: World, job: Id, run: Id, refs: set<Id>) {
    && (forall id :: id in refs <==> id in w.arts && IsOfRun(w.arts[id].row, job, run))
    && (forall id | id in refs :: Location(id, w.arts[id].row) in w.files)
  }

  ghost predicate KnownArts(w: World) {
    forall id | id in w.arts ::
      && id in w.issued && PlainRow(id, w.arts[id].row) && w.arts[id].created <= w.now
      && (!w.arts[id].row.Upload? ==> w.arts[id].row.run in w.issued)
  }

  ghost predicate KnownWriting(w: World) {
    forall job, run | (job, run) in w.writing ::
      && run in w.issued && Plain(run) && job in w.jobs && w.writing[(job, run)].since <= w.now
      && (forall id | id in w.writing[(job, run)].refs ::
            id in w.issued && (id in w.arts ==> w.arts[id].created >= w.writing[(job, run)].since))
  }

  ghost predicate KnownJobs(w: World) {
    forall job | job in w.jobs :: Plain(job) &&
      (w.jobs[job].latest.Some? ==>
         w.jobs[job].latest.value.id in w.issued && (job, w.jobs[job].latest.value.id) !in w.writing)
  }

  ghost predicate Known(w: World) { KnownArts(w) && KnownWriting(w) && KnownJobs(w) }

  /** Nothing in use is missing. */
  ghost predicate Intact(w: World, delay: nat) {
    Known(w) && forall job, run, refs | Claims(w, delay, job, run, refs) :: Backed(w, job, run, refs)
  }

  lemma EmptyIsIntact(delay: nat)
    ensures Intact(World(0, map[], map[], map[], map[], {}), delay)
  {
    var w := World(0, map[], map[], map[], map[], {});
    assert forall job, run, refs :: !Claims(w, delay, job, run, refs);
  }

  function JobKey(w: World, job: Id): Key
    requires job in w.jobs
  {
    Key(w.jobs[job].stamp, job)
  }

  function ArtKey(w: World, id: Id): Key
    requires id in w.arts
  {
    Key(w.arts[id].stamp, id)
  }

  function JobKeys(w: World): set<Key> { set job | job in w.jobs :: JobKey(w, job) }

  function ArtKeys(w: World): set<Key> { set id | id in w.arts :: ArtKey(w, id) }

  datatype Cursor = Start | At(key: Key) | End

  /** The walk has yet to reach this key. */
  predicate Ahead(c: Cursor, k: Key) { c.Start? || (c.At? && Before(true, c.key, k)) }

  /** Every artifact in use by a job the walk has passed is in the live set, unless it is so
      recent that its run was attached after the walk began at `start`. */
  ghost predicate Covered(w: World, delay: nat, live: set<Id>, start: nat, c: Cursor) {
    start <= w.now &&
    forall job | job in w.jobs && w.jobs[job].latest.Some? && !Ahead(c, JobKey(w, job)) ::
      forall id | id in w.jobs[job].latest.value.refs ::
        id in live || (id in w.arts && w.arts[id].created + delay >= start)
  }

  /** Rows never change and only the janitor deletes them. */
  ghost predicate Grows(w: World, v: World) {
    && w.now <= v.now
    && (forall id | id in w.arts :: id in v.arts && v.arts[id] == w.arts[id])
    && w.issued <= v.issued
    && (forall id | id in v.arts && id !in w.arts :: v.arts[id].created >= w.now && id !in w.issued)
    && (forall job | job in w.jobs :: job in v.jobs && v.jobs[job].stamp == w.jobs[job].stamp)
  }

  lemma PlayOneGrows(w: World, delay: nat, e: EnvStep)
    requires Known(w)
    ensures Known(PlayOne(w, delay, e)) && Grows(w, PlayOne(w, delay, e))
  {
    PlayOneKnows(w, delay, e);
  }

  lemma PlayOneKnows(w: World, delay: nat, e: EnvStep)
    requires Known(w)
    ensures Known(PlayOne(w, delay, e))
  {
    hide Location;
    var v := PlayOne(w, delay, e);
    assert KnownArts(v);
    assert KnownWriting(v);
    assert KnownJobs(v);
  }

  lemma ClaimsAgree(w: World, v: World, delay: nat, job: Id, run: Id, refs: set<Id>)
    requires Claims(v, delay, job, run, refs)
    requires w.now <= v.now
    requires job in v.jobs && v.jobs[job].latest == Some(LatestRun(run, refs)) ==>
      job in w.jobs && w.jobs[job] == v.jobs[job]
    requires (job, run) in v.writing ==> (job, run) in w.writing && w.writing[(job, run)] == v.writing[(job, run)]
    ensures Claims(w, delay, job, run, refs)
  {
  }

  lemma BackedStays(w: World, v: World, job: Id, run: Id, refs: set<Id>)
    requires Backed(w, job, run, refs)
    requires forall id ::
      id in v.arts && IsOfRun(v.arts[id].row, job, run) <==> id in w.arts && IsOfRun(w.arts[id].row, job, run)
    requires forall id | id in refs :: id in v.arts && v.arts[id].row == w.arts[id].row
    requires forall path | path in w.files :: path in v.files
    ensures Backed(v, job, run, refs)
  {
    hide Location;
  }

  lemma PersistKeepsIntact(w: World, delay: nat, e: EnvStep)
    requires e.Persist? && Intact(w, delay) && Possible(w, delay, e)
    ensures Intact(PlayOne(w, delay, e), delay)
  {
    hide Location;
    var v := PlayOne(w, delay, e);
    PlayOneKnows(w, delay, e);
    forall job, run, refs | Claims(v, delay, job, run, refs) ensures Backed(v, job, run, refs) {
      if (job, run) == (e.job, e.run) {
        if (job, run) in w.writing { assert Claims(w, delay, job, run, w.writing[(job, run)].refs); }
      } else {
        ClaimsAgree(w, v, delay, job, run, refs);
        BackedStays(w, v, job, run, refs);
      }
    }
  }

  lemma OtherStepsKeepIntact(w: World, delay: nat, e: EnvStep)
    requires !e.Persist? && Intact(w, delay) && Possible(w, delay, e)
    ensures Intact(PlayOne(w, delay, e), delay)
  {
    hide Location;
    var v := PlayOne(w, delay, e);
    PlayOneKnows(w, delay, e);
    forall job, run, refs | Claims(v, delay, job, run, refs) ensures Backed(v, job, run, refs) {
      if e.Attach? && job == e.job && v.jobs[job].latest == Some(LatestRun(run, refs)) {
        assert Claims(w, delay, job, run, refs);
      } else {
        ClaimsAgree(w, v, delay, job, run, refs);
      }
      BackedStays(w, v, job, run, refs);
    }
  }

  lemma PlayOneCovers(w: World, delay: nat, e: EnvStep, live: set<Id>, start: nat, c: Cursor)
    requires Intact(w, delay) && Covered(w, delay, live, start, c)
    ensures Covered(PlayOne(w, delay, e), delay, live, start, c)
  {
    hide Location, Ahead;
    var v := PlayOne(w, delay, e);
    PlayOneGrows(w, delay, e);
    if e.Attach? && Possible(w, delay, e) {
      assert Claims(w, delay, e.job, e.run, w.writing[(e.job, e.run)].refs);
    }
  }

  /** Whatever happens around the janitor keeps everything in use readable and the collected
      live set sufficient. */
  lemma {:induction false} PlayKeeps(w: World, delay: nat, steps: seq<EnvStep>, live: set<Id>, start: nat, c: Cursor)
    requires Intact(w, delay) && Covered(w, delay, live, start, c)
    ensures var v := Play(w, delay, steps); Intact(v, delay) && Covered(v, delay, live, start, c)
    decreases |steps|
  {
    hide Known, Claims, Covered, Possible;
    if steps != [] {
      var v := PlayOne(w, delay, steps[0]);
      if Possible(w, delay, steps[0]) {
        if steps[0].Persist? {
          PersistKeepsIntact(w, delay, steps[0]);
        } else {
          OtherStepsKeepIntact(w, delay, steps[0]);
        }
      }
      PlayOneCovers(w, delay, steps[0], live, start, c);
      PlayKeeps(v, delay, steps[1..], live, start, c);
    }
  }

  lemma {:induction false} PlayGrows(w: World, delay: nat, steps: seq<EnvStep>)
    requires Known(w)
    ensures Known(Play(w, delay, steps)) && Grows(w, Play(w, delay, steps))
    decreases |steps|
  {
    hide Known, PlayOne;
    if steps != [] {
      PlayOneGrows(w, delay, steps[0]);
      PlayGrows(PlayOne(w, delay, steps[0]), delay, steps[1..]);
    }
  }

  // --- Removing one artifact -------------------------------------------------------------

  /** Readers see the same: every job has the same latest run with the same texts. */
  ghost predicate SameView(w: World, v: World) {
    && v.jobs == w.jobs
    && forall job | job in w.jobs && w.jobs[job].latest.Some? ::
         forall id | id in w.jobs[job].latest.value.refs :: TextOf(w, id).Some? && TextOf(v, id) == TextOf(w, id)
  }

  /** What collectors read through any of a job's fields does not change either. */
  lemma {:induction false} SameViewSameTexts(w: World, v: World, job: Id, fields: seq<FieldRef>)
    requires SameView(w, v) && job in w.jobs && w.jobs[job].latest.Some?
    requires forall k | 0 <= k < |fields| :: fields[k].artifact in w.jobs[job].latest.value.refs
    ensures Texts(v.files, RowsOf(v), fields) == Texts(w.files, RowsOf(w), fields)
  {
    hide ReadText;
    if fields != [] {
      SameViewSameTexts(w, v, job, fields[..|fields| - 1]);
      assert TextOf(v, fields[|fields| - 1].artifact) == TextOf(w, fields[|fields| - 1].artifact);
    }
  }

  /** The file lies in the directory of an artifact id. */
  predicate InDir(path: string, id: Id) { Under("artifacts", Under(id, "")) <= path }

  /** removeArtifactFile: the run's file, or in the old layout the whole directory. */
  function Removed(files: Files, id: Id, row: Artifact): Files {
    if row.OfRun? then files - {Location(id, row)} else map path | path in files && !InDir(path, id) :: files[path]
  }

  lemma DirHoldsOwn(id: Id, x: Id, b: Artifact)
    requires Plain(id) && PlainRow(x, b)
    ensures InDir(Location(x, b), id) <==> !b.OfRun? && x == id
  {
    var dir := Under("artifacts", Under(id, ""));
    if InDir(Location(x, b), id) {
      var rest := Location(x, b)[|dir|..];
      assert Location(x, b) == Under("artifacts", Under(id, rest));
      var (top, inner) := Split(x, b);
      UnderIsInjective("artifacts", top, Under(id, rest), inner);
      UnderIsInjective(id, x, rest, b.filename);
    }
  }

  /** Removing one row's file leaves the files of the rows of other runs. */
  lemma RemovalSpares(files: Files, id: Id, a: Artifact, x: Id, b: Artifact)
    requires PlainRow(id, a) && PlainRow(x, b) && a != b && x != id
    ensures var p := Location(x, b); p in files <==> p in Removed(files, id, a)
    ensures var p := Location(x, b); p in files ==> Removed(files, id, a)[p] == files[p]
  {
    if a.OfRun? { SharedLocation(x, b, id, a); } else { DirHoldsOwn(id, x, b); }
  }

  function WithoutFile(w: World, id: Id, row: Artifact): World { w.(files := Removed(w.files, id, row)) }

  function WithoutRow(w: World, id: Id): World { w.(arts := w.arts - {id}) }

  /** What the sweep spares: uploads, recent artifacts, live ones. */
  predicate Kept(a: Art, id: Id, live: set<Id>, cutoff: int) { a.row.Upload? || a.created > cutoff || id in live }

  /** An artifact the sweep does not spare belongs to no run in use. */
  lemma SweptIsUnclaimed(w: World, delay: nat, live: set<Id>, start: nat, cutoff: int, id: Id, job: Id, run: Id,
                         refs: set<Id>)
    requires Intact(w, delay) && Covered(w, delay, live, start, End) && cutoff + delay < start
    requires id in w.arts && !Kept(w.arts[id], id, live, cutoff) && Claims(w, delay, job, run, refs)
    ensures !IsOfRun(w.arts[id].row, job, run)
  {
    hide Location;
    assert Backed(w, job, run, refs);
  }

  lemma FileRemovalIsUnseen(w: World, delay: nat, live: set<Id>, start: nat, cutoff: int, id: Id)
    requires Intact(w, delay) && Covered(w, delay, live, start, End) && cutoff + delay < start
    requires id in w.arts && !Kept(w.arts[id], id, live, cutoff)
    ensures var v := WithoutFile(w, id, w.arts[id].row);
      Intact(v, delay) && Covered(v, delay, live, start, End) && SameView(w, v)
  {
    hide Location, Covered, Kept;
    var v := WithoutFile(w, id, w.arts[id].row);
    forall job, run, refs | Claims(w, delay, job, run, refs)
      ensures Backed(w, job, run, refs)
      ensures forall x | x in refs :: Location(x, w.arts[x].row) in v.files
      ensures forall x | x in refs :: v.files[Location(x, w.arts[x].row)] == w.files[Location(x, w.arts[x].row)]
    {
      SweptIsUnclaimed(w, delay, live, start, cutoff, id, job, run, refs);
      forall x | x in refs
        ensures Location(x, w.arts[x].row) in v.files
        ensures v.files[Location(x, w.arts[x].row)] == w.files[Location(x, w.arts[x].row)]
      {
        RemovalSpares(w.files, id, w.arts[id].row, x, w.arts[x].row);
      }
    }
    assert forall job, run, refs :: Claims(v, delay, job, run, refs) <==> Claims(w, delay, job, run, refs);
    assert forall job | job in w.jobs && w.jobs[job].latest.Some? ::
      Claims(w, delay, job, w.jobs[job].latest.value.id, w.jobs[job].latest.value.refs);
    assert Covered(v, delay, live, start, End) by { CoveredByArts(w, v, delay, live, start); }
  }

  lemma CoveredByArts(w: World, v: World, delay: nat, live: set<Id>, start: nat)
    requires Covered(w, delay, live, start, End) && v.jobs == w.jobs && v.now == w.now && v.arts == w.arts
    ensures Covered(v, delay, live, start, End)
  {
  }

  lemma RowRemovalIsUnseen(w: World, delay: nat, live: set<Id>, start: nat, cutoff: int, id: Id)
    requires Intact(w, delay) && Covered(w, delay, live, start, End) && cutoff + delay < start
    requires id in w.arts && !Kept(w.arts[id], id, live, cutoff)
    ensures var v := WithoutRow(w, id);
      Intact(v, delay) && Covered(v, delay, live, start, End) && SameView(w, v)
  {
    hide Location;
    var v := WithoutRow(w, id);
    forall job, run, refs | Claims(w, delay, job, run, refs) ensures Backed(w, job, run, refs) && id !in refs {
      SweptIsUnclaimed(w, delay, live, start, cutoff, id, job, run, refs);
    }
    assert forall job, run, refs :: Claims(v, delay, job, run, refs) <==> Claims(w, delay, job, run, refs);
    assert forall job | job in w.jobs && w.jobs[job].latest.Some? ::
      Claims(w, delay, job, w.jobs[job].latest.value.id, w.jobs[job].latest.value.refs);
  }

  // --- The walks -------------------------------------------------------------------------

  function TokenOf(c: Cursor): Option<Key> { if c.At? then Some(c.key) else None }

  function AfterPage(page: Page): Cursor { if page.next.Some? then At(page.next.value) else End }

  /** A page hands over every key the walk had yet to reach, or leaves it ahead. */
  lemma PageAdvances(keys: set<Key>, c: Cursor, size: nat)
    requires size > 0 && !c.End?
    ensures var page := PageOf(true, keys, TokenOf(c), size);
      && (forall k | k in page.rows :: k in keys)
      && (forall k | k in keys && Ahead(c, k) :: k in page.rows || Ahead(AfterPage(page), k))
      && (forall i, j | 0 <= i < j < |page.rows| :: page.rows[i] != page.rows[j])
  {
    hide PageOf, Before;
    var page := PageOf(true, keys, TokenOf(c), size);
    PageSplits(true, keys, TokenOf(c), size);
    forall i, j | 0 <= i < j < |page.rows| ensures page.rows[i] != page.rows[j] {
      Total(true, page.rows[i], page.rows[j]);
    }
  }

  function RefsOf(w: World, job: Id): set<Id> {
    if job in w.jobs && w.jobs[job].latest.Some? then w.jobs[job].latest.value.refs else {}
  }

  function LiveOn(w: World, rows: seq<Key>): set<Id> {
    if rows == [] then {} else LiveOn(w, rows[..|rows| - 1]) + RefsOf(w, rows[|rows| - 1].id)
  }

  lemma {:induction false} LiveOnHas(w: World, rows: seq<Key>, id: Id)
    ensures id in LiveOn(w, rows) <==> exists k :: k in rows && id in RefsOf(w, k.id)
  {
    hide RefsOf;
    if rows != [] {
      var front, last := rows[..|rows| - 1], rows[|rows| - 1];
      LiveOnHas(w, front, id);
      assert rows == front + [last];
    }
  }

  ghost predicate Quiet(schedule: seq<seq<EnvStep>>) { forall k | 0 <= k < |schedule| :: schedule[k] == [] }

  ghost predicate InUse(w: World, id: Id) {
    exists job :: job in w.jobs && w.jobs[job].latest.Some? && id in w.jobs[job].latest.value.refs
  }

  ghost predicate WasInUse(seen: seq<World>, id: Id) {
    exists k :: 0 <= k < |seen| && InUse(seen[k], id)
  }

  /** The live set of the jobs passed so far, in a world that stands still. */
  ghost predicate Gathered(w: World, live: set<Id>, c: Cursor) {
    && (forall job | job in w.jobs && !Ahead(c, JobKey(w, job)) :: RefsOf(w, job) <= live)
    && (forall id | id in live :: InUse(w, id))
  }

  lemma LiveOnIsInUse(w: World, rows: seq<Key>, id: Id)
    requires id in LiveOn(w, rows)
    ensures InUse(w, id)
  {
    LiveOnHas(w, rows, id);
    var k :| k in rows && id in RefsOf(w, k.id);
    assert k.id in w.jobs;
  }

  lemma PageGathers(w: World, live: set<Id>, c: Cursor, size: nat)
    requires size > 0 && !c.End? && Gathered(w, live, c)
    ensures var page := PageOf(true, JobKeys(w), TokenOf(c), size);
      Gathered(w, live + LiveOn(w, page.rows), AfterPage(page))
  {
    hide PageOf, Ahead, RefsOf, LiveOn;
    var page := PageOf(true, JobKeys(w), TokenOf(c), size);
    var more := live + LiveOn(w, page.rows);
    PageAdvances(JobKeys(w), c, size);
    forall job | job in w.jobs && !Ahead(AfterPage(page), JobKey(w, job)) ensures RefsOf(w, job) <= more {
      assert JobKey(w, job) in JobKeys(w);
      forall id | id in RefsOf(w, job) ensures id in more { LiveOnHas(w, page.rows, id); }
    }
    forall id | id in more ensures InUse(w, id) {
      if id !in live { LiveOnIsInUse(w, page.rows, id); }
    }
  }

  lemma PageCovers(w: World, delay: nat, live: set<Id>, start: nat, c: Cursor, size: nat)
    requires size > 0 && !c.End? && Covered(w, delay, live, start, c)
    ensures var page := PageOf(true, JobKeys(w), TokenOf(c), size);
      Covered(w, delay, live + LiveOn(w, page.rows), start, AfterPage(page))
  {
    hide PageOf, Ahead, LiveOn;
    var page := PageOf(true, JobKeys(w), TokenOf(c), size);
    PageAdvances(JobKeys(w), c, size);
    forall job, id |
        job in w.jobs && w.jobs[job].latest.Some? && !Ahead(AfterPage(page), JobKey(w, job)) && id in RefsOf(w, job)
      ensures id in live + LiveOn(w, page.rows) || (id in w.arts && w.arts[id].created + delay >= start)
    {
      assert JobKey(w, job) in JobKeys(w);
      LiveOnHas(w, page.rows, id);
    }
  }

  class Database {
    var w: World
    /** What happens before each of the janitor's calls; it is cancelled when this runs out. */
    var schedule: seq<seq<EnvStep>>
    ghost var writes: seq<(World, World)>
    const delay: nat

    constructor (w: World, schedule: seq<seq<EnvStep>>, delay: nat)
      ensures this.w == w && this.schedule == schedule && this.delay == delay && writes == []
    {
      this.w, this.schedule, this.delay := w, schedule, delay;
      writes := [];
    }

    method Await() returns (alive: bool)
      modifies this`w, this`schedule
      ensures alive <==> old(schedule) != []
      ensures alive ==> w == Play(old(w), delay, old(schedule)[0]) && schedule == old(schedule)[1..]
      ensures !alive ==> w == old(w) && schedule == old(schedule)
    {
      if schedule == [] { return false; }
      w := Play(w, delay, schedule[0]);
      schedule := schedule[1..];
      alive := true;
    }

    method RemoveFile(id: Id, row: Artifact)
      modifies this`w, this`writes
      ensures w == WithoutFile(old(w), id, row) && writes == old(writes) + [(old(w), w)]
    {
      ghost var was := w;
      w := w.(files := Removed(w.files, id, row));
      writes := writes + [(was, w)];
    }

    method DeleteRow(id: Id)
      modifies this`w, this`writes
      ensures w == WithoutRow(old(w), id) && writes == old(writes) + [(old(w), w)]
    {
      ghost var was := w;
      w := w.(arts := w.arts - {id});
      writes := writes + [(was, w)];
    }
  }

  method AddLive(w: World, rows: seq<Key>, live: set<Id>) returns (more: set<Id>)
    ensures more == live + LiveOn(w, rows)
  {
    hide RefsOf;
    more := live;
    for i := 0 to |rows|
      invariant more == live + LiveOn(w, rows[..i])
    {
      assert rows[..i + 1][..i] == rows[..i];
      more := more + RefsOf(w, rows[i].id);
    }
    assert rows[..|rows|] == rows;
  }

  lemma GrowsOn(u: World, w: World, v: World)
    requires Grows(u, w) && Grows(w, v)
    ensures Grows(u, v)
  {
  }

  lemma NothingCovered(w: World, delay: nat)
    ensures Covered(w, delay, {}, w.now, Start) && Gathered(w, {}, Start) && Grows(w, w)
  {
  }

  lemma UsesStay(seen: seq<World>, w: World, live: set<Id>, more: set<Id>, rows: seq<Key>)
    requires more == LiveOn(w, rows) && forall id | id in live :: WasInUse(seen, id)
    ensures forall id | id in live + more :: WasInUse(seen + [w], id)
  {
    hide InUse;
    forall id | id in live + more ensures WasInUse(seen + [w], id) {
      if id in live {
        var k :| 0 <= k < |seen| && InUse(seen[k], id);
        assert InUse((seen + [w])[k], id);
      } else {
        LiveOnIsInUse(w, rows, id);
        assert InUse((seen + [w])[|seen|], id);
      }
    }
  }

  method CollectLive(db: Database, pageSize: nat) returns (live: set<Id>, done: bool, ghost seen: seq<World>)
    requires pageSize > 0 && Intact(db.w, db.delay)
    modifies db`w, db`schedule
    ensures Intact(db.w, db.delay) && Grows(old(db.w), db.w)
    ensures done ==> Covered(db.w, db.delay, live, old(db.w).now, End)
    ensures forall id | id in live :: WasInUse(seen, id)
    ensures Quiet(old(db.schedule)) ==> Quiet(db.schedule) && db.w == old(db.w) && (done ==> Gathered(db.w, live, End))
  {
    hide KnownArts, KnownWriting, KnownJobs, Claims, Backed, Covered, Gathered, PageOf, LiveOn, Grows, WasInUse;
    live := {};
    var c := Start;
    ghost var w0, quiet := db.w, Quiet(db.schedule);
    seen := [];
    NothingCovered(w0, db.delay);
    while true
      invariant !c.End? && Intact(db.w, db.delay) && Grows(w0, db.w)
      invariant Covered(db.w, db.delay, live, w0.now, c)
      invariant forall id | id in live :: WasInUse(seen, id)
      invariant quiet ==> Quiet(db.schedule) && db.w == w0 && Gathered(db.w, live, c)
      decreases |db.schedule|
    {
      ghost var before, turn := db.w, if db.schedule == [] then [] else db.schedule[0];
      var alive := db.Await();
      if !alive { return {}, false, seen; }
      PlayKeeps(before, db.delay, turn, live, w0.now, c);
      PlayGrows(before, db.delay, turn);
      GrowsOn(w0, before, db.w);
      var page := PageOf(true, JobKeys(db.w), TokenOf(c), pageSize);
      PageCovers(db.w, db.delay, live, w0.now, c, pageSize);
      if quiet { PageGathers(db.w, live, c, pageSize); }
      UsesStay(seen, db.w, live, LiveOn(db.w, page.rows), page.rows);
      seen := seen + [db.w];
      live := AddLive(db.w, page.rows, live);
      if page.next.None? { return live, true, seen; }
      c := At(page.next.value);
    }
  }

  // --- The sweep -------------------------------------------------------------------------

  ghost predicate Safe(w: World, delay: nat, live: set<Id>, start: nat) {
    Intact(w, delay) && Covered(w, delay, live, start, End)
  }

  /** No write from the given one on could be noticed by a reader. */
  ghost predicate Unseen(writes: seq<(World, World)>, from: nat) {
    forall k | from <= k < |writes| :: SameView(writes[k].0, writes[k].1)
  }

  /** The worlds before and after one artifact was examined. */
  ghost predicate Spares(w: World, v: World, id: Id) {
    && w.now <= v.now && w.issued <= v.issued
    && (forall x | x in w.arts && x != id :: x in v.arts && v.arts[x] == w.arts[x])
    && (forall x | x in v.arts ::
          if x in w.arts then v.arts[x] == w.arts[x] else v.arts[x].created >= w.now && x !in w.issued)
  }

  /** The write took away the run's file, or in the old layout every file below the artifact's
      directory, and nothing else. */
  ghost predicate FileGone(u: World, v: World, id: Id, row: Artifact) {
    && v == u.(files := v.files)
    && (forall path | path in v.files :: path in u.files && v.files[path] == u.files[path])
    && forall path | path in u.files :: path !in v.files <==>
         if row.OfRun? then path == "runs/" + row.job + "/" + row.run + "/" + row.name
         else "artifacts/" + id + "/" <= path
  }

  ghost predicate RowGone(u: World, v: World, id: Id) {
    && v == u.(arts := v.arts) && v.arts.Keys == u.arts.Keys - {id}
    && forall x | x in v.arts :: v.arts[x] == u.arts[x]
  }

  /** The write removes the file or the row of an artifact that is no upload, not recent and
      not live. */
  ghost predicate SweepsOne(u: World, v: World, id: Id, live: set<Id>, cutoff: int) {
    && id in u.arts && !u.arts[id].row.Upload? && u.arts[id].created <= cutoff && id !in live
    && (FileGone(u, v, id, u.arts[id].row) || RowGone(u, v, id))
  }

  ghost predicate SweepsSome(u: World, v: World, live: set<Id>, cutoff: int) {
    exists id :: SweepsOne(u, v, id, live, cutoff)
  }

  ghost predicate OnlySweeps(writes: seq<(World, World)>, from: nat, live: set<Id>, cutoff: int) {
    forall k | from <= k < |writes| :: SweepsSome(writes[k].0, writes[k].1, live, cutoff)
  }

  /** The artifact's file was removed, and then its row. */
  ghost predicate FileThenRow(writes: seq<(World, World)>, from: nat, id: Id, row: Artifact) {
    exists k :: from <= k < |writes| - 1
      && FileGone(writes[k].0, writes[k].1, id, row) && RowGone(writes[k + 1].0, writes[k + 1].1, id)
  }

  /** Every artifact that left between the two worlds did so by these writes. */
  ghost predicate LeftByWrites(w: World, v: World, writes: seq<(World, World)>, from: nat) {
    forall id | id in w.arts && id !in v.arts :: FileThenRow(writes, from, id, w.arts[id].row)
  }

  /** Between the two worlds, exactly the files of the artifacts that left went. */
  ghost predicate Cleaned(w: World, v: World) {
    && (forall id | id in v.arts :: id in w.arts && v.arts[id] == w.arts[id])
    && (forall path | path in v.files :: path in w.files && v.files[path] == w.files[path])
    && forall path | path in w.files :: path !in v.files <==> exists id :: Takes(w, v, id, path)
  }

  ghost predicate Takes(w: World, v: World, id: Id, path: string) {
    id in w.arts && id !in v.arts &&
      if w.arts[id].row.OfRun?
        then path == "runs/" + w.arts[id].row.job + "/" + w.arts[id].row.run + "/" + w.arts[id].row.name
        else "artifacts/" + id + "/" <= path
  }

  lemma NothingLeft(w: World, writes: seq<(World, World)>, live: set<Id>, cutoff: int)
    ensures LeftByWrites(w, w, writes, |writes|) && OnlySweeps(writes, |writes|, live, cutoff) && Cleaned(w, w)
  {
  }

  lemma RemovalIsFileGone(u: World, id: Id, row: Artifact)
    ensures FileGone(u, WithoutFile(u, id, row), id, row)
  {
    hide Location;
    LocationText(id, row);
    assert Under("artifacts", Under(id, "")) == "artifacts/" + id + "/";
  }

  lemma LeftOn(u: World, w: World, v: World, before: seq<(World, World)>, after: seq<(World, World)>, from: nat)
    requires from <= |before| && before <= after && LeftByWrites(u, w, before, from)
    requires LeftByWrites(w, v, after, |before|) && forall id | id in u.arts && id in w.arts :: w.arts[id] == u.arts[id]
    ensures LeftByWrites(u, v, after, from)
  {
    hide FileGone, RowGone;
    forall id | id in u.arts && id !in v.arts ensures FileThenRow(after, from, id, u.arts[id].row) {
      if id !in w.arts {
        var k :| from <= k < |before| - 1 && FileGone(before[k].0, before[k].1, id, u.arts[id].row)
          && RowGone(before[k + 1].0, before[k + 1].1, id);
        assert after[k] == before[k] && after[k + 1] == before[k + 1];
      }
    }
  }

  lemma OnlyOn(before: seq<(World, World)>, after: seq<(World, World)>, from: nat, live: set<Id>, cutoff: int)
    requires from <= |before| && before <= after
    requires OnlySweeps(before, from, live, cutoff) && OnlySweeps(after, |before|, live, cutoff)
    ensures OnlySweeps(after, from, live, cutoff)
  {
    hide SweepsSome;
    forall k | from <= k < |after| ensures SweepsSome(after[k].0, after[k].1, live, cutoff) {
      if k < |before| { assert after[k] == before[k]; }
    }
  }

  lemma CleanedOn(u: World, w: World, v: World)
    requires Cleaned(u, w) && Cleaned(w, v)
    ensures Cleaned(u, v)
  {
    forall path | path in u.files ensures path !in v.files <==> exists id :: Takes(u, v, id, path) {
      if path !in w.files {
        var id :| Takes(u, w, id, path);
        assert Takes(u, v, id, path);
      } else if path !in v.files {
        var id :| Takes(w, v, id, path);
        assert Takes(u, v, id, path);
      } else if id :| Takes(u, v, id, path) {
        assert if id in w.arts then Takes(w, v, id, path) else Takes(u, w, id, path);
      }
    }
  }

  /** What left can no longer be read through its old row. */
  lemma CleanedUnreadable(w: World, v: World)
    requires Cleaned(w, v)
    ensures forall id | id in w.arts && id !in v.arts :: ReadText(v.files, RowsOf(w), id) == None
  {
    hide Location;
    forall id | id in w.arts && id !in v.arts ensures ReadText(v.files, RowsOf(w), id) == None {
      LocationText(id, w.arts[id].row);
      assert Takes(w, v, id, Location(id, w.arts[id].row));
    }
  }

  lemma OneCleaned(w: World, v: World, x: World, id: Id)
    requires id in w.arts && FileGone(w, v, id, w.arts[id].row) && RowGone(v, x, id)
    ensures Cleaned(w, x)
  {
    forall path | path in w.files && path !in x.files ensures Takes(w, x, id, path) {}
  }

  lemma RemovalKnows(w: World, id: Id, row: Artifact)
    requires Known(w)
    ensures Known(WithoutFile(w, id, row)) && Known(WithoutRow(w, id))
  {
  }

  /** removeArtifactFile, after whatever happens before it. */
  method RemoveFileOf(db: Database, id: Id, a: Art, live: set<Id>, cutoff: int, ghost start: nat)
    returns (alive: bool, ghost from: World)
    requires id in db.w.arts && db.w.arts[id] == a && !Kept(a, id, live, cutoff) && Known(db.w)
    requires cutoff + db.delay < start ==> Safe(db.w, db.delay, live, start)
    modifies db
    ensures Known(db.w) && Grows(old(db.w), db.w) && |db.schedule| <= |old(db.schedule)|
    ensures if alive then db.writes == old(db.writes) + [(from, db.w)] else db.writes == old(db.writes)
    ensures alive ==> FileGone(from, db.w, id, a.row) && SweepsOne(from, db.w, id, live, cutoff)
    ensures Quiet(old(db.schedule)) ==> Quiet(db.schedule) && from == old(db.w)
    ensures cutoff + db.delay < start ==> Safe(db.w, db.delay, live, start) && Unseen(db.writes, |old(db.writes)|)
  {
    hide KnownArts, KnownWriting, KnownJobs, Claims, Backed, Covered, SameView, Location;
    ghost var timely, was, turn := cutoff + db.delay < start, db.w, if db.schedule == [] then [] else db.schedule[0];
    alive := db.Await();
    from := db.w;
    if !alive { return; }
    PlayGrows(was, db.delay, turn);
    if timely {
      PlayKeeps(was, db.delay, turn, live, start, End);
      FileRemovalIsUnseen(db.w, db.delay, live, start, cutoff, id);
    }
    RemovalKnows(db.w, id, a.row);
    RemovalIsFileGone(db.w, id, a.row);
    hide FileGone, Removed;
    db.RemoveFile(id, a.row);
  }

  /** And the row's deletion. */
  method DeleteRowOf(db: Database, id: Id, a: Art, live: set<Id>, cutoff: int, ghost start: nat)
    returns (alive: bool, ghost from: World)
    requires id in db.w.arts && db.w.arts[id] == a && !Kept(a, id, live, cutoff) && Known(db.w)
    requires cutoff + db.delay < start ==> Safe(db.w, db.delay, live, start)
    modifies db
    ensures Known(db.w) && Spares(old(db.w), db.w, id) && |db.schedule| <= |old(db.schedule)|
    ensures if alive then db.writes == old(db.writes) + [(from, db.w)] else db.writes == old(db.writes)
    ensures alive ==> RowGone(from, db.w, id) && SweepsOne(from, db.w, id, live, cutoff)
    ensures alive <==> id !in db.w.arts
    ensures Quiet(old(db.schedule)) ==> Quiet(db.schedule) && from == old(db.w)
    ensures cutoff + db.delay < start ==> Safe(db.w, db.delay, live, start) && Unseen(db.writes, |old(db.writes)|)
  {
    hide KnownArts, KnownWriting, KnownJobs, Claims, Backed, Covered, SameView, Location;
    ghost var timely, was, turn := cutoff + db.delay < start, db.w, if db.schedule == [] then [] else db.schedule[0];
    alive := db.Await();
    from := db.w;
    if !alive { return; }
    PlayGrows(was, db.delay, turn);
    if timely {
      PlayKeeps(was, db.delay, turn, live, start, End);
      RowRemovalIsUnseen(db.w, db.delay, live, start, cutoff, id);
    }
    RemovalKnows(db.w, id, a.row);
    db.DeleteRow(id);
  }

  lemma GrowsThenSpares(u: World, w: World, v: World, id: Id)
    requires Grows(u, w) && Spares(w, v, id) && id in u.arts
    ensures Spares(u, v, id)
  {
  }

  lemma StillThere(w: World, v: World, id: Id, writes: seq<(World, World)>)
    requires Spares(w, v, id) && id in v.arts
    ensures forall from :: LeftByWrites(w, v, writes, from)
  {
  }

  lemma OnlyThisLeft(w: World, v: World, id: Id, writes: seq<(World, World)>, from: nat)
    requires Spares(w, v, id) && id in w.arts && from + 2 == |writes|
    requires FileGone(writes[from].0, writes[from].1, id, w.arts[id].row)
    requires RowGone(writes[from + 1].0, writes[from + 1].1, id)
    ensures LeftByWrites(w, v, writes, from)
  {
    hide FileGone, RowGone;
    assert FileThenRow(writes, from, id, w.arts[id].row);
  }

  method SweepOne(db: Database, id: Id, a: Art, live: set<Id>, cutoff: int, ghost start: nat) returns (alive: bool)
    requires id in db.w.arts && db.w.arts[id] == a && Known(db.w)
    requires cutoff + db.delay < start ==> Safe(db.w, db.delay, live, start)
    modifies db
    ensures Known(db.w) && Spares(old(db.w), db.w, id) && |db.schedule| <= |old(db.schedule)|
    ensures a.row.Upload? || a.created > cutoff || id in live ==>
      alive && db.w == old(db.w) && db.writes == old(db.writes)
    ensures alive && !a.row.Upload? && a.created <= cutoff && id !in live ==>
      && id !in db.w.arts && |db.writes| == |old(db.writes)| + 2
      && var file, row := db.writes[|db.writes| - 2], db.writes[|db.writes| - 1];
         FileGone(file.0, file.1, id, a.row) && RowGone(row.0, row.1, id) && db.w == row.1
    ensures old(db.writes) <= db.writes && OnlySweeps(db.writes, |old(db.writes)|, live, cutoff)
    ensures LeftByWrites(old(db.w), db.w, db.writes, |old(db.writes)|)
    ensures Quiet(old(db.schedule)) ==> Quiet(db.schedule) && (alive ==> Cleaned(old(db.w), db.w))
    ensures cutoff + db.delay < start ==> Safe(db.w, db.delay, live, start) && Unseen(db.writes, |old(db.writes)|)
  {
    hide Known, Safe, SameView, FileGone, RowGone, SweepsOne, Cleaned, LeftByWrites;
    ghost var w0, writes0, quiet := db.w, db.writes, Quiet(db.schedule);
    NothingLeft(w0, writes0, live, cutoff);
    if a.row.Upload? { return true; }
    if a.created > cutoff { return true; }
    if id in live { return true; }
    ghost var u, v;
    alive, u := RemoveFileOf(db, id, a, live, cutoff, start);
    if !alive {
      assert Spares(w0, db.w, id);
      StillThere(w0, db.w, id, db.writes);
      return;
    }
    assert SweepsOne(db.writes[|writes0|].0, db.writes[|writes0|].1, id, live, cutoff);
    ghost var w1, writes1 := db.w, db.writes;
    alive, v := DeleteRowOf(db, id, a, live, cutoff, start);
    GrowsThenSpares(w0, w1, db.w, id);
    if alive {
      if quiet { OneCleaned(w0, w1, db.w, id); }
      assert db.writes[|writes0|] == (u, w1) && db.writes[|writes0| + 1] == (v, db.w);
      assert SweepsOne(db.writes[|writes0|].0, db.writes[|writes0|].1, id, live, cutoff);
      assert SweepsOne(db.writes[|writes0| + 1].0, db.writes[|writes0| + 1].1, id, live, cutoff);
      OnlyThisLeft(w0, db.w, id, db.writes, |writes0|);
    } else {
      StillThere(w0, db.w, id, db.writes);
    }
  }

  /** Every artifact the walk has passed is one the sweep spares. */
  ghost predicate Swept(w: World, live: set<Id>, cutoff: int, c: Cursor, todo: set<Id>) {
    forall id | id in w.arts :: Kept(w.arts[id], id, live, cutoff) || Ahead(c, ArtKey(w, id)) || id in todo
  }

  /** Since then nothing the sweep spares has gone or changed, and only recent rows came. */
  ghost predicate Spared(w: World, v: World, live: set<Id>, cutoff: int) {
    && w.now <= v.now && w.issued <= v.issued
    && (forall id | id in w.arts && Kept(w.arts[id], id, live, cutoff) :: id in v.arts)
    && (forall id | id in v.arts ::
          if id in w.arts then v.arts[id] == w.arts[id] else v.arts[id].created > cutoff && id !in w.issued)
  }

  function IdsOf(rows: seq<Key>): (ids: set<Id>)
    ensures forall i | 0 <= i < |rows| :: rows[i].id in ids
  {
    set i | 0 <= i < |rows| :: rows[i].id
  }

  lemma GrowsSweeps(w: World, v: World, live: set<Id>, cutoff: int, c: Cursor)
    requires Grows(w, v) && cutoff < w.now && Swept(w, live, cutoff, c, {})
    ensures Swept(v, live, cutoff, c, {})
  {
  }

  lemma GrowsSpares(u: World, w: World, v: World, live: set<Id>, cutoff: int)
    requires KnownArts(u) && Spared(u, w, live, cutoff) && Grows(w, v) && cutoff < w.now
    ensures Spared(u, v, live, cutoff)
  {
  }

  lemma SparesSpares(u: World, w: World, v: World, id: Id, live: set<Id>, cutoff: int)
    requires KnownArts(u) && Spared(u, w, live, cutoff) && Spares(w, v, id) && cutoff < w.now
    requires id in w.arts && (Kept(w.arts[id], id, live, cutoff) ==> v == w)
    ensures Spared(u, v, live, cutoff)
  {
    hide Kept;
  }

  lemma SparesSweeps(w: World, v: World, id: Id, live: set<Id>, cutoff: int, c: Cursor, todo: set<Id>)
    requires Swept(w, live, cutoff, c, todo + {id}) && Spares(w, v, id) && cutoff < w.now
    requires id in v.arts ==> Kept(v.arts[id], id, live, cutoff)
    ensures Swept(v, live, cutoff, c, todo)
  {
    hide Ahead;
  }

  lemma PageSweeps(w: World, live: set<Id>, cutoff: int, c: Cursor, size: nat)
    requires size > 0 && !c.End? && Swept(w, live, cutoff, c, {})
    ensures var page := PageOf(true, ArtKeys(w), TokenOf(c), size);
      Swept(w, live, cutoff, AfterPage(page), IdsOf(page.rows))
      && (forall i | 0 <= i < |page.rows| :: page.rows[i].id in w.arts)
      && (forall i, j | 0 <= i < j < |page.rows| :: page.rows[i].id != page.rows[j].id)
  {
    hide PageOf, Ahead, Kept;
    var page := PageOf(true, ArtKeys(w), TokenOf(c), size);
    PageAdvances(ArtKeys(w), c, size);
    assert forall i | 0 <= i < |page.rows| :: page.rows[i] in ArtKeys(w);
    forall id | id in w.arts && ArtKey(w, id) in page.rows ensures id in IdsOf(page.rows) {
      var i :| 0 <= i < |page.rows| && page.rows[i] == ArtKey(w, id);
      assert page.rows[i].id == id;
    }
    assert forall id | id in w.arts :: ArtKey(w, id) in ArtKeys(w);
  }

  lemma NothingSwept(w: World, live: set<Id>, cutoff: int)
    ensures Spared(w, w, live, cutoff) && Swept(w, live, cutoff, Start, {})
  {
  }

  lemma KeptMeans(a: Art, id: Id, live: set<Id>, cutoff: int)
    ensures Kept(a, id, live, cutoff) <==> a.row.Upload? || a.created > cutoff || id in live
  {
  }

  lemma SparedRows(w: World, v: World, live: set<Id>, cutoff: int)
    requires Spared(w, v, live, cutoff)
    ensures forall id | id in w.arts && id in v.arts :: v.arts[id] == w.arts[id]
  {
  }

  lemma GrowsLeft(u: World, w: World, v: World, writes: seq<(World, World)>, from: nat)
    requires LeftByWrites(u, w, writes, from) && Grows(w, v)
    ensures LeftByWrites(u, v, writes, from)
  {
    hide FileThenRow;
  }

  method SweepPage(db: Database, rows: seq<Key>, live: set<Id>, cutoff: int, ghost c: Cursor, ghost start: nat)
    returns (alive: bool)
    requires Known(db.w) && cutoff < db.w.now && Swept(db.w, live, cutoff, c, IdsOf(rows))
    requires forall i | 0 <= i < |rows| :: rows[i].id in db.w.arts
    requires forall i, j | 0 <= i < j < |rows| :: rows[i].id != rows[j].id
    requires cutoff + db.delay < start ==> Safe(db.w, db.delay, live, start)
    modifies db
    ensures Known(db.w) && Spared(old(db.w), db.w, live, cutoff) && |db.schedule| <= |old(db.schedule)|
    ensures alive ==> Swept(db.w, live, cutoff, c, {})
    ensures old(db.writes) <= db.writes && OnlySweeps(db.writes, |old(db.writes)|, live, cutoff)
    ensures LeftByWrites(old(db.w), db.w, db.writes, |old(db.writes)|)
    ensures Quiet(old(db.schedule)) ==> Quiet(db.schedule) && (alive ==> Cleaned(old(db.w), db.w))
    ensures cutoff + db.delay < start ==> Safe(db.w, db.delay, live, start) && Unseen(db.writes, |old(db.writes)|)
  {
    hide KnownArts, KnownWriting, KnownJobs, Safe, SameView, Swept, Spared, Kept, OnlySweeps, Cleaned, LeftByWrites;
    ghost var w0, writes0, quiet := db.w, db.writes, Quiet(db.schedule);
    NothingLeft(w0, writes0, live, cutoff);
    var fetched := seq(|rows|, i requires 0 <= i < |rows| && rows[i].id in db.w.arts reads db => db.w.arts[rows[i].id]);
    assert rows[0..] == rows;
    NothingSwept(w0, live, cutoff);
    for i := 0 to |rows|
      invariant Known(db.w) && cutoff < db.w.now && Spared(w0, db.w, live, cutoff)
        && |db.schedule| <= |old(db.schedule)|
      invariant Swept(db.w, live, cutoff, c, IdsOf(rows[i..]))
      invariant forall j | i <= j < |rows| :: rows[j].id in db.w.arts && db.w.arts[rows[j].id] == fetched[j]
      invariant writes0 <= db.writes && OnlySweeps(db.writes, |writes0|, live, cutoff)
      invariant LeftByWrites(w0, db.w, db.writes, |writes0|)
      invariant quiet ==> Quiet(db.schedule) && Cleaned(w0, db.w)
      invariant cutoff + db.delay < start ==> Safe(db.w, db.delay, live, start) && Unseen(db.writes, |old(db.writes)|)
    {
      ghost var w1, writes1 := db.w, db.writes;
      KeptMeans(fetched[i], rows[i].id, live, cutoff);
      alive := SweepOne(db, rows[i].id, fetched[i], live, cutoff, start);
      SparedRows(w0, w1, live, cutoff);
      LeftOn(w0, w1, db.w, writes1, db.writes, |writes0|);
      OnlyOn(writes1, db.writes, |writes0|, live, cutoff);
      if quiet && alive { CleanedOn(w0, w1, db.w); }
      SparesSpares(w0, w1, db.w, rows[i].id, live, cutoff);
      if !alive { return; }
      assert IdsOf(rows[i..]) == IdsOf(rows[i + 1..]) + {rows[i].id} by { IdsSplit(rows, i); }
      SparesSweeps(w1, db.w, rows[i].id, live, cutoff, c, IdsOf(rows[i + 1..]));
    }
    assert IdsOf(rows[|rows|..]) == {};
    alive := true;
  }

  lemma IdsSplit(rows: seq<Key>, i: nat)
    requires i < |rows|
    ensures IdsOf(rows[i..]) == IdsOf(rows[i + 1..]) + {rows[i].id}
  {
    var a, b := rows[i..], rows[i + 1..];
    assert a == [rows[i]] + b;
    forall id | id in IdsOf(a) ensures id in IdsOf(b) + {rows[i].id} {
      var k :| 0 <= k < |a| && a[k].id == id;
      if k > 0 { assert b[k - 1].id == id; }
    }
    forall id | id in IdsOf(b) + {rows[i].id} ensures id in IdsOf(a) {
      if id != rows[i].id {
        var k :| 0 <= k < |b| && b[k].id == id;
        assert a[k + 1].id == id;
      } else { assert a[0].id == id; }
    }
  }

  method SweepRows(db: Database, live: set<Id>, cutoff: int, pageSize: nat, ghost start: nat) returns (done: bool)
    requires pageSize > 0 && Known(db.w) && cutoff < db.w.now
    requires cutoff + db.delay < start ==> Safe(db.w, db.delay, live, start)
    modifies db
    ensures Known(db.w) && Spared(old(db.w), db.w, live, cutoff)
    ensures done ==> Swept(db.w, live, cutoff, End, {})
    ensures old(db.writes) <= db.writes && OnlySweeps(db.writes, |old(db.writes)|, live, cutoff)
    ensures LeftByWrites(old(db.w), db.w, db.writes, |old(db.writes)|)
    ensures Quiet(old(db.schedule)) && done ==> Cleaned(old(db.w), db.w)
    ensures cutoff + db.delay < start ==> Safe(db.w, db.delay, live, start) && Unseen(db.writes, |old(db.writes)|)
  {
    hide KnownArts, KnownWriting, KnownJobs, Intact, Covered, SameView, Swept, Spared, Kept, PageOf, Grows;
    hide OnlySweeps, Cleaned, LeftByWrites;
    var c := Start;
    ghost var w0, timely, writes0, quiet := db.w, cutoff + db.delay < start, db.writes, Quiet(db.schedule);
    NothingLeft(w0, writes0, live, cutoff);
    NothingSwept(w0, live, cutoff);
    while true
      invariant !c.End? && Known(db.w) && cutoff < db.w.now && Spared(w0, db.w, live, cutoff)
      invariant Swept(db.w, live, cutoff, c, {})
      invariant writes0 <= db.writes && OnlySweeps(db.writes, |writes0|, live, cutoff)
      invariant LeftByWrites(w0, db.w, db.writes, |writes0|)
      invariant quiet ==> Quiet(db.schedule) && Cleaned(w0, db.w)
      invariant timely ==> Safe(db.w, db.delay, live, start) && Unseen(db.writes, |old(db.writes)|)
      decreases |db.schedule|
    {
      ghost var w1, writes1, turn := db.w, db.writes, if db.schedule == [] then [] else db.schedule[0];
      var alive := db.Await();
      if !alive { return false; }
      PlayGrows(w1, db.delay, turn);
      GrowsLeft(w0, w1, db.w, writes1, |writes0|);
      GrowsSpares(w0, w1, db.w, live, cutoff);
      GrowsSweeps(w1, db.w, live, cutoff, c);
      if timely { PlayKeeps(w1, db.delay, turn, live, start, End); }
      var page := PageOf(true, ArtKeys(db.w), TokenOf(c), pageSize);
      PageSweeps(db.w, live, cutoff, c, pageSize);
      ghost var w2 := db.w;
      alive := SweepPage(db, page.rows, live, cutoff, AfterPage(page), start);
      SparedOn(w0, w2, db.w, live, cutoff);
      SparedRows(w0, w2, live, cutoff);
      LeftOn(w0, w2, db.w, writes1, db.writes, |writes0|);
      OnlyOn(writes1, db.writes, |writes0|, live, cutoff);
      if quiet && alive { CleanedOn(w0, w2, db.w); }
      if !alive { return false; }
      if page.next.None? { return true; }
      c := At(page.next.value);
    }
  }

  lemma SparedOn(u: World, w: World, v: World, live: set<Id>, cutoff: int)
    requires KnownArts(u) && Spared(u, w, live, cutoff) && Spared(w, v, live, cutoff)
    ensures Spared(u, v, live, cutoff) && w.now <= v.now
  {
    hide Kept;
  }

  // --- The whole sweep -------------------------------------------------------------------

  datatype Report = Report(live: set<Id>, cutoff: int, collected: bool, completed: bool)

  lemma GatheredAll(w: World, live: set<Id>)
    requires Gathered(w, live, End)
    ensures forall id :: id in live <==> InUse(w, id)
  {
    assert forall job | job in w.jobs :: !Ahead(End, JobKey(w, job));
  }

  /** sweepOrphanArtifacts. If collecting the live set and the delay of the writers together
      stay under the grace period, no write is ever visible to a reader and nothing in use goes
      missing. Once the sweep completes, the artifacts left of those that were there when the
      cutoff was taken are exactly the uploads, the recent and the live ones. */
  method Sweep(db: Database, maxAge: nat, pageSize: nat)
    returns (r: Report, ghost atCutoff: World, ghost seen: seq<World>)
    requires maxAge > 0 && pageSize > 0 && Intact(db.w, db.delay)
    modifies db
    ensures atCutoff.now == r.cutoff + maxAge && Grows(old(db.w), atCutoff)
    ensures Known(db.w) && Spared(atCutoff, db.w, r.live, r.cutoff)
    ensures old(db.writes) <= db.writes && OnlySweeps(db.writes, |old(db.writes)|, r.live, r.cutoff)
    ensures LeftByWrites(atCutoff, db.w, db.writes, |old(db.writes)|)
    ensures !r.collected ==> db.w == atCutoff && db.writes == old(db.writes)
    ensures atCutoff.now - old(db.w).now + db.delay < maxAge ==>
      Intact(db.w, db.delay) && Unseen(db.writes, |old(db.writes)|)
    ensures r.completed ==> forall id | id in atCutoff.arts ::
      id in db.w.arts <==> atCutoff.arts[id].row.Upload? || atCutoff.arts[id].created > r.cutoff || id in r.live
    ensures Quiet(old(db.schedule)) ==> atCutoff == old(db.w)
    ensures Quiet(old(db.schedule)) && r.completed ==> Cleaned(atCutoff, db.w)
    ensures Quiet(old(db.schedule)) && r.completed ==> forall id | id in atCutoff.arts && id !in db.w.arts ::
      ReadText(db.w.files, RowsOf(atCutoff), id) == None
    ensures forall id | id in r.live :: WasInUse(seen, id)
    ensures Quiet(old(db.schedule)) && r.collected ==> forall id :: id in r.live <==> InUse(atCutoff, id)
  {
    hide KnownArts, KnownWriting, KnownJobs, Claims, Backed, Covered, SameView, Kept, Grows, InUse;
    hide OnlySweeps, LeftByWrites, Cleaned, ReadText;
    ghost var start := db.w.now;
    var live, done, pages := CollectLive(db, pageSize);
    seen := pages;
    atCutoff := db.w;
    var cutoff := db.w.now - maxAge;
    if !done {
      NothingSwept(db.w, live, cutoff);
      NothingLeft(db.w, db.writes, live, cutoff);
      return Report(live, cutoff, false, false), atCutoff, seen;
    }
    if Gathered(db.w, live, End) { GatheredAll(db.w, live); }
    var completed := SweepRows(db, live, cutoff, pageSize, start);
    r := Report(live, cutoff, true, completed);
    forall id | id in atCutoff.arts { KeptMeans(atCutoff.arts[id], id, live, cutoff); }
    if Cleaned(atCutoff, db.w) { CleanedUnreadable(atCutoff, db.w); }
  }

  /** With a writer slower than the grace period allows, the sweep deletes an artifact that a
      run then attaches: the timing assumption is needed. */
  lemma SlowAttachLosesItsArtifact(w: World, delay: nat, job: Id, run: Id, id: Id, live: set<Id>, cutoff: int)
    requires Known(w) && (job, run) in w.writing && w.writing[(job, run)].refs == {id} && id in w.arts
    requires w.writing[(job, run)].since + delay >= w.now && job in w.jobs
    requires !Kept(w.arts[id], id, live, cutoff)
    ensures var v := PlayOne(WithoutRow(WithoutFile(w, id, w.arts[id].row), id), delay, Attach(job, run));
      !Intact(v, delay) && id in RefsOf(v, job) && TextOf(v, id) == None
  {
    var v := PlayOne(WithoutRow(WithoutFile(w, id, w.arts[id].row), id), delay, Attach(job, run));
    assert Claims(v, delay, job, run, {id});
    assert id in {id};
  }
}
