/** The corpus of a series: one text joined from its documents, embedded under the series, and
    a cached content hash that lets a rebuild skip a corpus it has already embedded. The hash
    is injective, so the cache holds the text itself. `cut` is the chunker at fixed settings. */
module SeriesCorpus {
  import opened Wrappers
  import opened VectorIndex

  datatype Index = Index(points: Points, hashes: map<string, string>)

  /** What may go wrong on the way: reading the cache, deleting, embedding or upserting from
      chunk `reached` on, writing the run, writing the cache. */
  datatype Faults = Faults(kvRead: bool, deleted: bool, reached: nat, committed: bool, kvWritten: bool)

  datatype Outcome = NoText | Skipped | Interrupted | Rebuilt

  function Parts(texts: seq<string>): seq<string> {
    if texts == [] then []
    else if texts[|texts| - 1] == "" then Parts(texts[..|texts| - 1])
    else Parts(texts[..|texts| - 1]) + [texts[|texts| - 1]]
  }

  function JoinParts(parts: seq<string>): string {
    if parts == [] then ""
    else if |parts| == 1 then parts[0] else parts[0] + "\n\n---\n\n" + JoinParts(parts[1..])
  }

  function Corpus(texts: seq<string>): string { JoinParts(Parts(texts)) }

  function Title(series: string): map<string, string> { map["title" := series] }

  /** The positions of the documents that have a text. */
  ghost predicate WithText(texts: seq<string>, found: seq<nat>) {
    && (forall i, j | 0 <= i < j < |found| :: found[i] < found[j])
    && (forall k | 0 <= k < |found| :: found[k] < |texts| && texts[found[k]] != "")
    && (forall i: nat | i < |texts| && texts[i] != "" :: i in found)
  }

  ghost function Chosen(texts: seq<string>, found: seq<nat>): seq<string>
    requires forall k | 0 <= k < |found| :: found[k] < |texts|
  {
    seq(|found|, k requires 0 <= k < |found| => texts[found[k]])
  }

  /** The parts lie in the corpus in order, the k-th from starts[k] on, with a ruler between any
      two and nothing else. */
  ghost predicate LaidOut(corpus: string, parts: seq<string>, starts: seq<nat>) {
    && |starts| == |parts| && (parts == [] ==> corpus == "") && (parts != [] ==> starts[0] == 0)
    && forall k | 0 <= k < |parts| :: TextAt(corpus, parts[k], starts[k], StartAfter(starts, k))
  }

  function StartAfter(starts: seq<nat>, k: nat): Option<nat> {
    if k + 1 < |starts| then Some(starts[k + 1]) else None
  }

  /** The text, and behind it a ruler up to the next one, or the end. */
  ghost predicate TextAt(corpus: string, text: string, start: nat, next: Option<nat>) {
    var end := start + |text|;
    && end <= |corpus| && corpus[start..end] == text
    && match next
       case None => end == |corpus|
       case Some(n) => end <= n <= |corpus| && corpus[end..n] == "\n\n---\n\n"
  }

  lemma {:induction false} PartsFound(texts: seq<string>) returns (found: seq<nat>)
    ensures WithText(texts, found) && Parts(texts) == Chosen(texts, found)
  {
    found := [];
    if texts != [] {
      var rest, last := texts[..|texts| - 1], |texts| - 1;
      var before := PartsFound(rest);
      if texts[last] != "" {
        FoundSnoc(texts, before);
        found := before + [last];
      } else {
        FoundSkip(texts, before);
        found := before;
      }
      assert Chosen(rest, before) == Chosen(texts, before);
      assert texts[last] != "" ==> Chosen(texts, found) == Chosen(texts, before) + [texts[last]];
    }
  }

  lemma FoundSkip(texts: seq<string>, found: seq<nat>)
    requires texts != [] && texts[|texts| - 1] == "" && WithText(texts[..|texts| - 1], found)
    ensures WithText(texts, found)
  {
    assert forall i | 0 <= i < |texts| - 1 :: texts[..|texts| - 1][i] == texts[i];
  }

  lemma FoundSnoc(texts: seq<string>, found: seq<nat>)
    requires texts != [] && texts[|texts| - 1] != "" && WithText(texts[..|texts| - 1], found)
    ensures WithText(texts, found + [|texts| - 1])
  {
    var rest, more := texts[..|texts| - 1], found + [|texts| - 1];
    assert forall i | 0 <= i < |rest| :: rest[i] == texts[i];
    assert more[|found|] in more;
    forall i: nat | i in found ensures i in more {
      var k :| 0 <= k < |found| && found[k] == i;
      assert more[k] == i;
    }
  }

  lemma {:induction false} PartsAreLaidOut(parts: seq<string>) returns (starts: seq<nat>)
    ensures LaidOut(JoinParts(parts), parts, starts)
  {
    if parts == [] {
      return [];
    } else if |parts| == 1 {
      OnePart(parts[0]);
      assert parts == [parts[0]];
      return [0];
    }
    var rest := PartsAreLaidOut(parts[1..]);
    var head := parts[0] + "\n\n---\n\n";
    starts := Moved(rest, |head|);
    PartsBehind(parts, head, JoinParts(parts[1..]), rest, starts);
  }

  lemma OnePart(part: string)
    ensures LaidOut(JoinParts([part]), [part], [0])
  {
    assert part[0..0 + |part|] == part;
  }

  /** The rest's starts, further on by the given length, behind the first one at 0. */
  ghost predicate Behind(rest: seq<nat>, starts: seq<nat>, d: nat) {
    |starts| == |rest| + 1 && starts[0] == 0 && forall k | 0 <= k < |rest| :: starts[k + 1] == rest[k] + d
  }

  function Moved(rest: seq<nat>, d: nat): (starts: seq<nat>)
    ensures Behind(rest, starts, d)
  {
    [0] + seq(|rest|, k requires 0 <= k < |rest| => rest[k] + d)
  }

  lemma PartsBehind(parts: seq<string>, head: string, tail: string, rest: seq<nat>, starts: seq<nat>)
    requires |parts| > 1 && head == parts[0] + "\n\n---\n\n" && LaidOut(tail, parts[1..], rest)
    requires Behind(rest, starts, |head|)
    ensures LaidOut(head + tail, parts, starts)
  {
    var whole := head + tail;
    FirstPart(parts[0], tail);
    assert rest[0] == 0 && starts[0 + 1] == |head| && StartAfter(starts, 0) == Some(|head|);
    hide TextAt, StartAfter;
    forall k: nat | 1 <= k < |starts| ensures TextAt(whole, parts[k], starts[k], StartAfter(starts, k)) {
      assert TextAt(tail, parts[1..][k - 1], rest[k - 1], StartAfter(rest, k - 1));
      NextBehind(rest, starts, |head|, k);
      PartMoves(head, tail, parts[k], rest[k - 1], StartAfter(rest, k - 1));
    }
  }

  lemma NextBehind(rest: seq<nat>, starts: seq<nat>, d: nat, k: nat)
    requires Behind(rest, starts, d) && 1 <= k < |starts|
    ensures starts[k] == rest[k - 1] + d
    ensures var next := StartAfter(rest, k - 1);
      StartAfter(starts, k) == if next.Some? then Some(next.value + d) else None
  {
    assert starts[k - 1 + 1] == rest[k - 1] + d;
  }

  lemma FirstPart(part: string, tail: string)
    ensures TextAt(part + "\n\n---\n\n" + tail, part, 0, Some(|part| + 7))
  {
  }

  lemma PartMoves(head: string, tail: string, part: string, start: nat, next: Option<nat>)
    requires TextAt(tail, part, start, next)
    ensures TextAt(head + tail, part, start + |head|, if next.Some? then Some(next.value + |head|) else None)
  {
    var end := start + |part|;
    SliceBehind(head, tail, start, end);
    if next.Some? { SliceBehind(head, tail, end, next.value); }
  }

  lemma SliceBehind(head: string, tail: string, i: nat, j: nat)
    requires i <= j <= |tail|
    ensures (head + tail)[i + |head|..j + |head|] == tail[i..j]
  {
  }

  /** Every text is in the corpus, in order. */
  lemma CorpusIsLaidOut(texts: seq<string>) returns (found: seq<nat>, starts: seq<nat>)
    ensures WithText(texts, found) && LaidOut(Corpus(texts), Chosen(texts, found), starts)
    ensures found == [] <==> Parts(texts) == []
  {
    found := PartsFound(texts);
    starts := PartsAreLaidOut(Parts(texts));
    hide TextAt, JoinParts, Parts;
    assert Chosen(texts, found) == Parts(texts);
  }

  predicate Skips(s: Index, series: string, corpus: string, f: Faults) {
    f.kvRead && series in s.hashes && s.hashes[series] == corpus
  }

  function OutcomeOf(s: Index, series: string, texts: seq<string>, cut: string -> seq<string>, f: Faults): Outcome {
    var corpus := Corpus(texts);
    if Parts(texts) == [] then NoText
    else if Skips(s, series, corpus, f) then Skipped
    else if f.reached < |cut(corpus)| || !f.committed then Interrupted
    else Rebuilt
  }

  function After(s: Index, series: string, texts: seq<string>, cut: string -> seq<string>, f: Faults): Index {
    var corpus := Corpus(texts);
    var outcome := OutcomeOf(s, series, texts, cut, f);
    if outcome.NoText? || outcome.Skipped? then s
    else
      var start := if f.deleted then Without(s.points, OfSeries(series)) else s.points;
      var k := if f.reached < |cut(corpus)| then f.reached else |cut(corpus)|;
      Index(Placed(start, OfSeries(series), Title(series), cut(corpus), k),
            if outcome.Rebuilt? && f.kvWritten then s.hashes[series := corpus] else s.hashes)
  }

  class SeriesIndex {
    const store: PointStore
    var hashes: map<string, string>

    constructor (store: PointStore)
      ensures this.store == store && hashes == map[]
    {
      this.store := store;
      hashes := map[];
    }

    /** `texts` are the input texts found for the documents of the series, empty if none. */
    method RebuildCorpus(series: string, texts: seq<string>, cut: string -> seq<string>, f: Faults)
      returns (outcome: Outcome, ghost found: seq<nat>, ghost starts: seq<nat>, ghost corpus: string)
      modifies this, store
      ensures WithText(texts, found) && LaidOut(corpus, Chosen(texts, found), starts)
      ensures var hit := f.kvRead && series in old(hashes) && old(hashes)[series] == corpus;
        var chunks := cut(corpus);
        && outcome == (if found == [] then NoText else if hit then Skipped
                       else if f.reached < |chunks| || !f.committed then Interrupted else Rebuilt)
        && (outcome.NoText? || outcome.Skipped? ==> store.points == old(store.points))
        && (outcome.Interrupted? || outcome.Rebuilt? ==>
              PlacedUpTo(old(store.points), store.points, OfSeries(series), map["title" := series], chunks,
                         if f.reached < |chunks| then f.reached else |chunks|, f.deleted))
        && hashes == if outcome.Rebuilt? && f.kvWritten then old(hashes)[series := corpus] else old(hashes)
      ensures outcome == OutcomeOf(Index(old(store.points), old(hashes)), series, texts, cut, f)
      ensures Index(store.points, hashes) == After(Index(old(store.points), old(hashes)), series, texts, cut, f)
    {
      hide WithText, LaidOut, PlacedUpTo, Placed, JoinParts;
      found, starts := CorpusIsLaidOut(texts);
      corpus := Corpus(texts);
      var parts: seq<string> := [];
      for i := 0 to |texts|
        invariant parts == Parts(texts[..i])
      {
        assert texts[..i + 1][..i] == texts[..i];
        if texts[i] == "" { continue; }
        parts := parts + [texts[i]];
      }
      assert texts[..|texts|] == texts;
      outcome := NoText;
      if parts == [] { return; }
      var joined := JoinParts(parts);
      outcome := Skipped;
      if f.kvRead && series in hashes && hashes[series] == joined { return; }
      var ok := store.Rebuild(OfSeries(series), Title(series), cut(joined), f.deleted, f.reached);
      outcome := Interrupted;
      if !ok || !f.committed { return; }
      if f.kvWritten { hashes := hashes[series := joined]; }
      outcome := Rebuilt;
    }
  }

  // --- Soundness of the cache ------------------------------------------------------------

  /** The store holds exactly the cached corpus. */
  ghost predicate Sound(s: Index, series: string, cut: string -> seq<string>) {
    series in s.hashes ==> Holds(s.points, OfSeries(series), Title(series), cut(s.hashes[series]))
  }

  ghost predicate Roomy(s: Index, series: string, texts: seq<string>, cut: string -> seq<string>) {
    var n := |cut(Corpus(texts))|;
    n <= 10000 && NoClash(s.points, OfSeries(series), n)
  }

  /** A rebuild that got only as far as `reached` holds no other corpus either: its last chunk
      links to one that is missing. */
  lemma PartialHolds(points: Points, owner: Owner, base: map<string, string>, chunks: seq<string>, reached: nat,
                     other: seq<string>)
    requires reached < |chunks| <= 10000 && NoClash(points, owner, |chunks|)
    ensures Holds(Placed(Without(points, owner), owner, base, chunks, reached), owner, base, other)
      <==> reached == 0 && other == []
  {
    hide PointAt, Placed, NoClash;
    var after := Placed(Without(points, owner), owner, base, chunks, reached);
    if reached == 0 {
      PlacedNone(Without(points, owner), owner, base, chunks);
      assert other != [] ==> PointAt(owner, 0) !in after || after[PointAt(owner, 0)].owner != owner;
    } else if Holds(after, owner, base, other) {
      PartialReaches(points, owner, base, chunks, reached, other);
      PartialHoldsNothingBeyond(points, owner, base, chunks, reached, other);
    }
  }

  lemma PlacedNone(start: Points, owner: Owner, base: map<string, string>, chunks: seq<string>)
    ensures Placed(start, owner, base, chunks, 0) == start
  {
  }

  lemma PartialReaches(points: Points, owner: Owner, base: map<string, string>, chunks: seq<string>, reached: nat,
                       other: seq<string>)
    requires 0 < reached < |chunks| <= 10000
    requires Holds(Placed(Without(points, owner), owner, base, chunks, reached), owner, base, other)
    ensures reached < |other|
  {
    hide PointAt, Placed;
    var after := Placed(Without(points, owner), owner, base, chunks, reached);
    PlacedOn(Without(points, owner), owner, base, chunks, reached, reached - 1);
    var last := PointAt(owner, reached - 1);
    assert last in Only(after, owner);
    var i :| 0 <= i < |other| && PointAt(owner, i) == last;
    assert after[last] == ChunkPayload(owner, base, other, i);
  }

  lemma PartialHoldsNothingBeyond(points: Points, owner: Owner, base: map<string, string>, chunks: seq<string>,
                                  reached: nat, other: seq<string>)
    requires reached < |chunks| <= 10000 && NoClash(points, owner, |chunks|) && reached < |other|
    ensures !Holds(Placed(Without(points, owner), owner, base, chunks, reached), owner, base, other)
  {
    hide PointAt;
    var start := Without(points, owner);
    var next := PointAt(owner, reached);
    if IsPointOf(owner, reached, next) {
      var i :| 0 <= i < reached && PointAt(owner, i) == next;
      ChunksOfOwnerDiffer(owner, i, reached);
    }
    PlacedOff(start, owner, base, chunks, reached, next);
    assert next in start ==> next in points;
  }

  /** Two lists of chunks are held by one store only if they are the same list. */
  lemma HoldsOne(points: Points, owner: Owner, base: map<string, string>, a: seq<string>, b: seq<string>)
    requires Holds(points, owner, base, a) && Holds(points, owner, base, b)
    ensures a == b
  {
    HoldsNoMore(points, owner, base, a, b);
    HoldsNoMore(points, owner, base, b, a);
    forall i | 0 <= i < |a| ensures a[i] == b[i] {
      assert points[PointAt(owner, i)] == ChunkPayload(owner, base, a, i);
      assert points[PointAt(owner, i)] == ChunkPayload(owner, base, b, i);
    }
  }

  lemma HoldsNoMore(points: Points, owner: Owner, base: map<string, string>, a: seq<string>, b: seq<string>)
    requires Holds(points, owner, base, a) && Holds(points, owner, base, b)
    ensures |b| <= |a|
  {
    if |b| > 0 { HeldByBoth(points, owner, base, a, b, |b| - 1); }
  }

  lemma HeldByBoth(points: Points, owner: Owner, base: map<string, string>, a: seq<string>, b: seq<string>, i: nat)
    requires Holds(points, owner, base, a) && Holds(points, owner, base, b) && i < |b|
    ensures i < |a|
  {
    hide PointAt;
    var p := PointAt(owner, i);
    assert points[p] == ChunkPayload(owner, base, b, i);
    assert p in Only(points, owner);
    var j :| 0 <= j < |a| && PointAt(owner, j) == p;
    assert points[p] == ChunkPayload(owner, base, a, j);
  }

  /** Whether a rebuild whose delete works keeps the cache sound: it does if the cache is
      written or was empty; otherwise only if what it placed is what the cache promises. */
  lemma RebuildKeepsSoundIff(s: Index, series: string, texts: seq<string>, cut: string -> seq<string>, f: Faults)
    requires Sound(s, series, cut) && Roomy(s, series, texts, cut) && f.deleted
    requires var o := OutcomeOf(s, series, texts, cut, f); o.Rebuilt? || o.Interrupted?
    ensures var chunks := cut(Corpus(texts));
      Sound(After(s, series, texts, cut, f), series, cut)
      <==> || (OutcomeOf(s, series, texts, cut, f).Rebuilt? && f.kvWritten)
           || series !in s.hashes
           || if f.reached < |chunks| then f.reached == 0 && cut(s.hashes[series]) == []
              else cut(s.hashes[series]) == chunks
  {
    hide Placed, NoClash, Corpus, Parts;
    var owner, base, chunks := OfSeries(series), Title(series), cut(Corpus(texts));
    var after := After(s, series, texts, cut, f);
    if f.reached < |chunks| {
      if series in s.hashes { PartialHolds(s.points, owner, base, chunks, f.reached, cut(s.hashes[series])); }
    } else {
      RebuildIsExactIff(s.points, owner, base, chunks, true);
      if series in s.hashes && Holds(after.points, owner, base, cut(s.hashes[series])) {
        HoldsOne(after.points, owner, base, chunks, cut(s.hashes[series]));
      }
    }
  }

  // --- Whole runs ------------------------------------------------------------------------

  /** A rebuild of this series, or whatever else happens to the store and the cache. */
  datatype Event = Rebuild(texts: seq<string>, faults: Faults) | Elsewhere(index: Index)

  ghost predicate CanHappen(s: Index, series: string, cut: string -> seq<string>, e: Event) {
    match e
    case Rebuild(texts, f) => Roomy(s, series, texts, cut) && f.deleted
    case Elsewhere(t) =>
      && Only(t.points, OfSeries(series)) == Only(s.points, OfSeries(series))
      && (series in t.hashes <==> series in s.hashes)
      && (series in s.hashes ==> t.hashes[series] == s.hashes[series])
  }

  /** A rebuild that starts deleting also finishes. */
  ghost predicate Finishes(s: Index, series: string, cut: string -> seq<string>, e: Event) {
    e.Rebuild? ==>
      !OutcomeOf(s, series, e.texts, cut, e.faults).Interrupted?
      && (OutcomeOf(s, series, e.texts, cut, e.faults).Rebuilt? ==> e.faults.kvWritten)
  }

  function Next(s: Index, series: string, cut: string -> seq<string>, e: Event): Index {
    match e
    case Rebuild(texts, f) => After(s, series, texts, cut, f)
    case Elsewhere(t) => t
  }

  function RunOf(s: Index, series: string, cut: string -> seq<string>, events: seq<Event>): Index
    decreases |events|
  {
    if events == [] then s else RunOf(Next(s, series, cut, events[0]), series, cut, events[1..])
  }

  ghost predicate AllFinish(s: Index, series: string, cut: string -> seq<string>, events: seq<Event>)
    decreases |events|
  {
    events != [] ==>
      && CanHappen(s, series, cut, events[0]) && Finishes(s, series, cut, events[0])
      && AllFinish(Next(s, series, cut, events[0]), series, cut, events[1..])
  }

  lemma ElsewhereKeepsHolds(p: Points, q: Points, owner: Owner, base: map<string, string>, chunks: seq<string>)
    requires Only(p, owner) == Only(q, owner) && Holds(p, owner, base, chunks)
    ensures Holds(q, owner, base, chunks)
  {
    hide PointAt;
    forall i | 0 <= i < |chunks|
      ensures PointAt(owner, i) in q && q[PointAt(owner, i)] == ChunkPayload(owner, base, chunks, i)
    {
      assert PointAt(owner, i) in Only(p, owner);
      assert Only(q, owner)[PointAt(owner, i)] == Only(p, owner)[PointAt(owner, i)];
    }
  }

  lemma EventKeepsSound(s: Index, series: string, cut: string -> seq<string>, e: Event)
    requires Sound(s, series, cut) && CanHappen(s, series, cut, e) && Finishes(s, series, cut, e)
    ensures Sound(Next(s, series, cut, e), series, cut)
  {
    hide Holds, Placed, NoClash, Corpus, Parts;
    match e
    case Elsewhere(t) =>
      if series in s.hashes {
        ElsewhereKeepsHolds(s.points, t.points, OfSeries(series), Title(series), cut(s.hashes[series]));
      }
    case Rebuild(texts, f) =>
      var o := OutcomeOf(s, series, texts, cut, f);
      if o.Rebuilt? { RebuildKeepsSoundIff(s, series, texts, cut, f); }
  }

  lemma {:induction false} RunKeepsSound(s: Index, series: string, cut: string -> seq<string>, events: seq<Event>)
    requires Sound(s, series, cut) && AllFinish(s, series, cut, events)
    ensures Sound(RunOf(s, series, cut, events), series, cut)
    decreases |events|
  {
    hide Sound, CanHappen, Finishes, Next;
    if events != [] {
      EventKeepsSound(s, series, cut, events[0]);
      RunKeepsSound(Next(s, series, cut, events[0]), series, cut, events[1..]);
    }
  }

  /** As long as every rebuild that starts deleting finishes, a rebuild that reports success,
      by work or by skipping, leaves exactly the current corpus in the store. */
  lemma SuccessMeansCurrent(s: Index, series: string, cut: string -> seq<string>, events: seq<Event>,
                            texts: seq<string>, f: Faults)
    requires series !in s.hashes && AllFinish(s, series, cut, events)
    requires var t := RunOf(s, series, cut, events);
      Roomy(t, series, texts, cut) && f.deleted
      && (OutcomeOf(t, series, texts, cut, f).Rebuilt? || OutcomeOf(t, series, texts, cut, f).Skipped?)
    ensures Holds(After(RunOf(s, series, cut, events), series, texts, cut, f).points, OfSeries(series),
      Title(series), cut(Corpus(texts)))
  {
    hide Holds, Placed, NoClash, Corpus, Parts, AllFinish, RunOf;
    RunKeepsSound(s, series, cut, events);
    var t := RunOf(s, series, cut, events);
    if OutcomeOf(t, series, texts, cut, f).Rebuilt? {
      RebuildIsExactIff(t.points, OfSeries(series), Title(series), cut(Corpus(texts)), true);
    }
  }

  /** Without that assumption the skip is unsafe: rebuild one corpus, be interrupted rebuilding
      another, change the texts back, and the next rebuild skips over a damaged index. */
  lemma RevertAfterInterruptIsStale(s: Index, series: string, cut: string -> seq<string>, a: seq<string>,
                                    b: seq<string>, f: Faults, g: Faults)
    requires series in s.hashes && s.hashes[series] == Corpus(a) && Parts(a) != [] && cut(Corpus(a)) != []
    requires Roomy(s, series, b, cut) && f.deleted && OutcomeOf(s, series, b, cut, f).Interrupted?
      && f.reached < |cut(Corpus(b))|
    requires g.kvRead
    ensures var t := After(s, series, b, cut, f);
      && OutcomeOf(t, series, a, cut, g) == Skipped
      && !Holds(After(t, series, a, cut, g).points, OfSeries(series), Title(series), cut(Corpus(a)))
  {
    hide Holds, Placed, NoClash, Corpus, Parts;
    PartialHolds(s.points, OfSeries(series), Title(series), cut(Corpus(b)), f.reached, cut(Corpus(a)));
  }

  /** The hash does not cover the chunker's settings: after they change, the same corpus is
      skipped although the store holds the chunks of the old settings. */
  lemma NewSettingsAreSkipped(s: Index, series: string, was: string -> seq<string>, cut: string -> seq<string>,
                              texts: seq<string>, f: Faults)
    requires Sound(s, series, was) && series in s.hashes && s.hashes[series] == Corpus(texts)
      && Parts(texts) != [] && f.kvRead
    ensures OutcomeOf(s, series, texts, cut, f) == Skipped
    ensures Holds(After(s, series, texts, cut, f).points, OfSeries(series), Title(series), cut(Corpus(texts)))
      <==> cut(Corpus(texts)) == was(Corpus(texts))
  {
    hide Holds, Corpus, Parts;
    if Holds(s.points, OfSeries(series), Title(series), cut(Corpus(texts))) {
      HoldsOne(s.points, OfSeries(series), Title(series), was(Corpus(texts)), cut(Corpus(texts)));
    }
  }
}
