/** The point store, the rebuild that replaces an owner's chunks in it, and the chain of
    previous/next links a rebuild leaves behind. */
module VectorIndex {
  import opened Wrappers
  import opened PointIds

  /** A document's own chunks, or the corpus of a series. */
  datatype Owner = OfDoc(id: string) | OfSeries(name: string)

  datatype Payload = Payload(owner: Owner, base: map<string, string>, text: string, index: nat,
                             prev: Option<string>, next: Option<string>)

  type Points = map<nat, Payload>

  function Prefix(owner: Owner): string {
    match owner
    case OfDoc(id) => id
    case OfSeries(name) => "series:" + name
  }

  function IdAt(owner: Owner, i: nat): string { ChunkId(Prefix(owner), i) }

  function PointAt(owner: Owner, i: nat): nat { PointId(IdAt(owner, i)) }

  /** The ids, written out; what Format04 prints is stated by FormatDenotes. */
  lemma IdText(owner: Owner, i: nat)
    ensures owner.OfDoc? ==> IdAt(owner, i) == owner.id + "-" + Format04(i)
    ensures owner.OfSeries? ==> IdAt(owner, i) == "series:" + owner.name + "-" + Format04(i)
  {
  }

  function ChunkPayload(owner: Owner, base: map<string, string>, chunks: seq<string>, i: nat): Payload
    requires i < |chunks|
  {
    Payload(owner, base, chunks[i], i,
      if i > 0 then Some(IdAt(owner, i - 1)) else None,
      if i < |chunks| - 1 then Some(IdAt(owner, i + 1)) else None)
  }

  function Without(points: Points, owner: Owner): Points {
    map p | p in points && points[p].owner != owner :: points[p]
  }

  function Only(points: Points, owner: Owner): Points {
    map p | p in points && points[p].owner == owner :: points[p]
  }

  /** The store after the first k chunks were upserted. */
  function Placed(points: Points, owner: Owner, base: map<string, string>, chunks: seq<string>, k: nat): Points
    requires k <= |chunks|
  {
    if k == 0 then points
    else Placed(points, owner, base, chunks, k - 1)[PointAt(owner, k - 1) := ChunkPayload(owner, base, chunks, k - 1)]
  }

  // --- Fetching by chunk id --------------------------------------------------------------

  /** numericToString: of the requested ids that share a number, the last. */
  function Names(ids: seq<string>): map<nat, string> {
    if ids == [] then map[]
    else Names(ids[..|ids| - 1])[PointId(ids[|ids| - 1]) := ids[|ids| - 1]]
  }

  /** The points found for the requested ids, under the names the caller gets. */
  function Fetched(points: Points, ids: seq<string>, names: map<nat, string>): seq<(string, Payload)>
    requires forall id | id in ids :: PointId(id) in names
  {
    if ids == [] then []
    else
      var rest, n := Fetched(points, ids[..|ids| - 1], names), PointId(ids[|ids| - 1]);
      if n in points then rest + [(names[n], points[n])] else rest
  }

  lemma {:induction false} NamesAreRequested(ids: seq<string>)
    ensures forall id | id in ids :: PointId(id) in Names(ids)
    ensures forall n | n in Names(ids) :: Names(ids)[n] in ids && PointId(Names(ids)[n]) == n
  {
    hide PointId;
    if ids != [] {
      var rest := ids[..|ids| - 1];
      NamesAreRequested(rest);
      forall id | id in ids ensures PointId(id) in Names(ids) {
        if id != ids[|ids| - 1] { assert id in rest; }
      }
    }
  }

  ghost predicate LastAt(ids: seq<string>, n: nat, name: string, k: nat) {
    k < |ids| && ids[k] == name && PointId(name) == n && forall j | k < j < |ids| :: PointId(ids[j]) != n
  }

  /** The last of the requested ids that have this number. */
  ghost predicate LastFor(ids: seq<string>, n: nat, name: string) { exists k: nat :: LastAt(ids, n, name, k) }

  lemma {:induction false} NamesAreLast(ids: seq<string>)
    ensures forall n | n in Names(ids) :: LastFor(ids, n, Names(ids)[n])
  {
    hide PointId, LastAt;
    if ids != [] {
      var rest, last := ids[..|ids| - 1], ids[|ids| - 1];
      NamesAreLast(rest);
      LastIsLast(ids);
      forall n | n in Names(ids) && n != PointId(last) ensures LastFor(ids, n, Names(rest)[n]) {
        var k: nat :| LastAt(rest, n, Names(rest)[n], k);
        StaysLast(ids, n, Names(rest)[n], k);
      }
    }
  }

  lemma LastIsLast(ids: seq<string>)
    requires ids != []
    ensures LastAt(ids, PointId(ids[|ids| - 1]), ids[|ids| - 1], |ids| - 1)
  {
  }

  lemma StaysLast(ids: seq<string>, n: nat, name: string, k: nat)
    requires ids != [] && LastAt(ids[..|ids| - 1], n, name, k) && n != PointId(ids[|ids| - 1])
    ensures LastAt(ids, n, name, k)
  {
    hide PointId;
    assert forall j | 0 <= j < |ids| - 1 :: ids[..|ids| - 1][j] == ids[j];
  }

  /** The payload of the requested point, under the last requested id of that number. */
  ghost predicate Answers(points: Points, all: seq<string>, id: string, result: (string, Payload)) {
    PointId(id) in points && result.1 == points[PointId(id)] && LastFor(all, PointId(id), result.0)
  }

  /** One result for each request whose point exists, in the order of the requests; `all` are
      the requests this is a part of. */
  ghost predicate FoundAs(points: Points, ids: seq<string>, all: seq<string>, found: seq<(string, Payload)>,
                          asked: seq<nat>)
  {
    && |asked| == |found|
    && (forall i, j | 0 <= i < j < |asked| :: asked[i] < asked[j])
    && (forall k | 0 <= k < |asked| :: asked[k] < |ids| && Answers(points, all, ids[asked[k]], found[k]))
    && (forall i: nat | i < |ids| && PointId(ids[i]) in points :: i in asked)
  }

  lemma FoundSnoc(points: Points, ids: seq<string>, id: string, all: seq<string>, found: seq<(string, Payload)>,
                  asked: seq<nat>)
    requires FoundAs(points, ids, all, found, asked)
    ensures PointId(id) !in points ==> FoundAs(points, ids + [id], all, found, asked)
    ensures forall result | Answers(points, all, id, result) ::
      FoundAs(points, ids + [id], all, found + [result], asked + [|ids|])
  {
    hide PointId, LastFor;
    var more := ids + [id];
    assert forall i | 0 <= i < |ids| :: more[i] == ids[i];
  }

  lemma {:induction false} FetchedInOrder(points: Points, ids: seq<string>, all: seq<string>, names: map<nat, string>)
    returns (asked: seq<nat>)
    requires ids <= all && forall id | id in all :: PointId(id) in names
    requires forall id | id in all :: LastFor(all, PointId(id), names[PointId(id)])
    ensures forall id | id in ids :: PointId(id) in names
    ensures FoundAs(points, ids, all, Fetched(points, ids, names), asked)
  {
    asked := [];
    if ids != [] {
      hide PointId, LastFor, FoundAs;
      var rest, id := ids[..|ids| - 1], ids[|ids| - 1];
      assert forall x | x in ids :: x in all;
      asked := FetchedInOrder(points, rest, all, names);
      assert rest + [id] == ids && id in ids;
      var found := Fetched(points, rest, names);
      FoundSnoc(points, rest, id, all, found, asked);
      if PointId(id) in points {
        assert Answers(points, all, id, (names[PointId(id)], points[PointId(id)]));
        asked := asked + [|rest|];
      }
    }
  }

  lemma FetchedIsFound(points: Points, ids: seq<string>)
    ensures forall id | id in ids :: PointId(id) in Names(ids)
    ensures exists asked :: FoundAs(points, ids, ids, Fetched(points, ids, Names(ids)), asked)
  {
    hide PointId, LastFor, Names, FoundAs;
    NamesAreRequested(ids);
    NamesAreLast(ids);
    var asked := FetchedInOrder(points, ids, ids, Names(ids));
  }

  lemma NoneLeft(p: Points, q: Points, owner: Owner)
    requires Only(p, owner) == map[] && Without(p, owner) == Without(q, owner)
    ensures p == Without(q, owner)
  {
    forall x | x in p ensures x in Without(p, owner) && p[x] == Without(p, owner)[x] {
      assert x !in Only(p, owner);
    }
  }

  class PointStore {
    var points: Points

    method Upsert(id: string, payload: Payload)
      modifies this
      ensures points == old(points)[PointId(id) := payload]
    {
      var n := IdFromUUID(id);
      points := points[n := payload];
    }

    /** No point of the owner is left, and those of every other owner are what they were. */
    method DeleteByPayload(owner: Owner)
      modifies this
      ensures Only(points, owner) == map[]
      ensures Without(points, owner) == Without(old(points), owner)
      ensures forall p :: p in points <==> p in old(points) && old(points)[p].owner != owner
      ensures forall p | p in points :: points[p] == old(points)[p]
    {
      points := map p | p in points && points[p].owner != owner :: points[p];
    }

    /** A failing call finds nothing. */
    method GetByIDs(ids: seq<string>, answered: bool) returns (found: seq<(string, Payload)>)
      ensures forall id | id in ids :: PointId(id) in Names(ids)
      ensures found == if answered then Fetched(points, ids, Names(ids)) else []
      ensures answered ==> exists asked :: FoundAs(points, ids, ids, found, asked)
    {
      hide PointId, FoundAs;
      FetchedIsFound(points, ids);
      var names: map<nat, string> := map[];
      var numbers: seq<nat> := [];
      for i := 0 to |ids|
        invariant names == Names(ids[..i]) && |numbers| == i
        invariant forall k | 0 <= k < i :: numbers[k] == PointId(ids[k])
      {
        var n := IdFromUUID(ids[i]);
        numbers := numbers + [n];
        names := names[n := ids[i]];
        assert ids[..i + 1][..i] == ids[..i];
      }
      assert ids[..|ids|] == ids;
      NamesAreRequested(ids);
      found := [];
      if !answered { return; }
      for i := 0 to |ids|
        invariant forall id | id in ids[..i] :: PointId(id) in names
        invariant found == Fetched(points, ids[..i], names)
      {
        assert ids[..i + 1][..i] == ids[..i] && ids[i] in ids;
        if numbers[i] in points { found := found + [(names[numbers[i]], points[numbers[i]])]; }
      }
    }

    /** The delete and upsert loop of runEmbed and rebuildSeriesCorpus. A failed delete is
        only logged; `reached` is the chunk at which embedding or upserting fails, if any. */
    method Rebuild(owner: Owner, base: map<string, string>, chunks: seq<string>, deleted: bool, reached: nat)
      returns (ok: bool)
      modifies this
      ensures ok <==> reached >= |chunks|
      ensures points == Placed(if deleted then Without(old(points), owner) else old(points),
                               owner, base, chunks, if ok then |chunks| else reached)
      ensures PlacedUpTo(old(points), points, owner, base, chunks, if ok then |chunks| else reached, deleted)
      ensures ok && |chunks| <= 10000 ==> AllStored(points, owner, base, chunks)
    {
      hide PlacedUpTo, AllStored, PointId, IdAt;
      PlacedIsUpTo(points, owner, base, chunks, if reached < |chunks| then reached else |chunks|, deleted);
      if |chunks| <= 10000 { PlacedAll(if deleted then Without(points, owner) else points, owner, base, chunks); }
      if deleted {
        DeleteByPayload(owner);
        NoneLeft(points, old(points), owner);
      }
      ghost var start := points;
      for i := 0 to |chunks|
        invariant points == Placed(start, owner, base, chunks, i) && i <= reached
      {
        var prev, next := None, None;
        if i > 0 { prev := Some(IdAt(owner, i - 1)); }
        if i < |chunks| - 1 { next := Some(IdAt(owner, i + 1)); }
        if i == reached { return false; }
        Upsert(IdAt(owner, i), Payload(owner, base, chunks[i], i, prev, next));
      }
      ok := true;
    }
  }

  // --- What a completed rebuild leaves ---------------------------------------------------

  ghost predicate IsPointOf(owner: Owner, n: nat, p: nat) { exists i :: 0 <= i < n && PointAt(owner, i) == p }

  lemma {:induction false} PlacedOff(points: Points, owner: Owner, base: map<string, string>, chunks: seq<string>,
                                     k: nat, p: nat)
    requires k <= |chunks| && !IsPointOf(owner, k, p)
    ensures p in Placed(points, owner, base, chunks, k) <==> p in points
    ensures p in points ==> Placed(points, owner, base, chunks, k)[p] == points[p]
  {
    hide PointAt;
    if k > 0 {
      assert IsPointOf(owner, k - 1, p) ==> IsPointOf(owner, k, p);
      PlacedOff(points, owner, base, chunks, k - 1, p);
    }
  }

  lemma PlacedStep(points: Points, owner: Owner, base: map<string, string>, chunks: seq<string>, k: nat)
    requires 0 < k <= |chunks|
    ensures Placed(points, owner, base, chunks, k)
      == Placed(points, owner, base, chunks, k - 1)[PointAt(owner, k - 1) := ChunkPayload(owner, base, chunks, k - 1)]
  {
  }

  /** No later one of the first k chunks has the same point. */
  ghost predicate Unclashed(owner: Owner, i: nat, k: nat) {
    forall j | i < j < k :: PointAt(owner, j) != PointAt(owner, i)
  }

  /** The point of chunk i, field by field. */
  ghost predicate Stored(p: Payload, owner: Owner, base: map<string, string>, chunks: seq<string>, i: nat) {
    && i < |chunks| && p.owner == owner && p.base == base && p.text == chunks[i] && p.index == i
    && (if i == 0 then p.prev == None else p.prev == Some(IdAt(owner, i - 1)))
    && (if i == |chunks| - 1 then p.next == None else p.next == Some(IdAt(owner, i + 1)))
  }

  ghost predicate AllStored(points: Points, owner: Owner, base: map<string, string>, chunks: seq<string>) {
    forall i | 0 <= i < |chunks| ::
      PointAt(owner, i) in points && Stored(points[PointAt(owner, i)], owner, base, chunks, i)
  }

  /** From one store to the other the first k chunks were placed, after the owner's points were
      deleted or not: of chunks that share a point the last is there, and nothing else changed. */
  ghost predicate PlacedUpTo(was: Points, now: Points, owner: Owner, base: map<string, string>, chunks: seq<string>,
                             k: nat, deleted: bool) {
    && (forall i | 0 <= i < k && Unclashed(owner, i, k) ::
          PointAt(owner, i) in now && Stored(now[PointAt(owner, i)], owner, base, chunks, i))
    && (forall p: nat | !IsPointOf(owner, k, p) ::
          && (p in now <==> p in was && !(deleted && was[p].owner == owner))
          && (p in now ==> now[p] == was[p]))
  }

  lemma {:induction false} PlacedLast(points: Points, owner: Owner, base: map<string, string>, chunks: seq<string>,
                                      k: nat, i: nat)
    requires i < k <= |chunks| && Unclashed(owner, i, k)
    ensures PointAt(owner, i) in Placed(points, owner, base, chunks, k)
    ensures Placed(points, owner, base, chunks, k)[PointAt(owner, i)] == ChunkPayload(owner, base, chunks, i)
  {
    hide PointAt, Placed, ChunkPayload;
    PlacedStep(points, owner, base, chunks, k);
    if i < k - 1 {
      PlacedLast(points, owner, base, chunks, k - 1, i);
    }
  }

  lemma PlacedIsUpTo(was: Points, owner: Owner, base: map<string, string>, chunks: seq<string>, k: nat, deleted: bool)
    requires k <= |chunks|
    ensures var start := if deleted then Without(was, owner) else was;
      PlacedUpTo(was, Placed(start, owner, base, chunks, k), owner, base, chunks, k, deleted)
  {
    hide PointAt, Placed, IsPointOf, Unclashed, IdAt;
    var start := if deleted then Without(was, owner) else was;
    forall i | 0 <= i < k && Unclashed(owner, i, k) { PlacedLast(start, owner, base, chunks, k, i); }
    forall p: nat | !IsPointOf(owner, k, p) { PlacedOff(start, owner, base, chunks, k, p); }
  }

  lemma PlacedOn(points: Points, owner: Owner, base: map<string, string>, chunks: seq<string>, k: nat, i: nat)
    requires i < k <= |chunks| && k <= 10000
    ensures PointAt(owner, i) in Placed(points, owner, base, chunks, k)
    ensures Placed(points, owner, base, chunks, k)[PointAt(owner, i)] == ChunkPayload(owner, base, chunks, i)
  {
    hide PointAt, Placed, ChunkPayload;
    FewAreUnclashed(owner, i, k);
    PlacedLast(points, owner, base, chunks, k, i);
  }

  lemma PlacedAll(start: Points, owner: Owner, base: map<string, string>, chunks: seq<string>)
    requires |chunks| <= 10000
    ensures AllStored(Placed(start, owner, base, chunks, |chunks|), owner, base, chunks)
  {
    hide PointAt, Placed, IdAt;
    forall i | 0 <= i < |chunks| { PlacedOn(start, owner, base, chunks, |chunks|, i); }
  }

  lemma FewAreUnclashed(owner: Owner, i: nat, k: nat)
    requires i < k <= 10000
    ensures Unclashed(owner, i, k)
  {
    hide PointAt;
    forall j | i < j < k ensures PointAt(owner, j) != PointAt(owner, i) { ChunksOfOwnerDiffer(owner, i, j); }
  }

  lemma ChunksOfOwnerDiffer(owner: Owner, i: nat, j: nat)
    requires i < 10000 && j < 10000 && i != j
    ensures PointAt(owner, i) != PointAt(owner, j)
  {
    ChunkPointsDiffer(Prefix(owner), i, j);
  }

  /** No point of another owner sits where one of the first n chunks belongs. */
  ghost predicate NoClash(points: Points, owner: Owner, n: nat) {
    forall i | 0 <= i < n && PointAt(owner, i) in points :: points[PointAt(owner, i)].owner == owner
  }

  /** The store holds exactly these chunks of the owner, each at its own point. */
  ghost predicate Holds(points: Points, owner: Owner, base: map<string, string>, chunks: seq<string>) {
    && AllStored(points, owner, base, chunks)
    && (forall p | p in Only(points, owner) :: IsPointOf(owner, |chunks|, p))
  }

  /** Where a completed rebuild leaves the points of the owner and of the others. */
  lemma PlacedAt(points: Points, start: Points, owner: Owner, base: map<string, string>, chunks: seq<string>, p: nat)
    requires |chunks| <= 10000 && NoClash(points, owner, |chunks|)
    requires start == points || start == Without(points, owner)
    ensures var after := Placed(start, owner, base, chunks, |chunks|);
      && (p in after && after[p].owner != owner <==> p in points && points[p].owner != owner)
      && (p in after && after[p].owner != owner ==> after[p] == points[p])
      && (p in after && after[p].owner == owner
          <==> (p in start && start[p].owner == owner) || IsPointOf(owner, |chunks|, p))
  {
    hide PointAt, Placed;
    if IsPointOf(owner, |chunks|, p) {
      var i :| 0 <= i < |chunks| && PointAt(owner, i) == p;
      PlacedOn(start, owner, base, chunks, |chunks|, i);
    } else {
      PlacedOff(start, owner, base, chunks, |chunks|, p);
    }
  }

  lemma {:induction false} PlacedIsOwned(points: Points, owner: Owner, base: map<string, string>,
                                         chunks: seq<string>, k: nat, p: nat)
    requires k <= |chunks| && IsPointOf(owner, k, p)
    ensures p in Placed(points, owner, base, chunks, k) && Placed(points, owner, base, chunks, k)[p].owner == owner
  {
    hide PointAt;
    if p != PointAt(owner, k - 1) {
      var i :| 0 <= i < k && PointAt(owner, i) == p;
      assert IsPointOf(owner, k - 1, p);
      PlacedIsOwned(points, owner, base, chunks, k - 1, p);
    }
  }

  /** However far a rebuild gets, with or without the delete, no other owner is touched. */
  lemma OthersAreUntouched(points: Points, owner: Owner, base: map<string, string>, chunks: seq<string>, k: nat,
                           deleted: bool)
    requires k <= |chunks| && NoClash(points, owner, k)
    ensures var start := if deleted then Without(points, owner) else points;
      Without(Placed(start, owner, base, chunks, k), owner) == Without(points, owner)
  {
    hide PointAt, Placed;
    var start := if deleted then Without(points, owner) else points;
    var after := Placed(start, owner, base, chunks, k);
    forall p: nat
      ensures p in Without(after, owner) <==> p in Without(points, owner)
      ensures p in Without(after, owner) ==> Without(after, owner)[p] == Without(points, owner)[p]
    {
      if IsPointOf(owner, k, p) {
        PlacedIsOwned(start, owner, base, chunks, k, p);
        var i :| 0 <= i < k && PointAt(owner, i) == p;
      } else {
        PlacedOff(start, owner, base, chunks, k, p);
      }
    }
  }

  /** Whatever was there before, a completed rebuild leaves exactly the current chunks and
      touches no other owner, unless the delete failed over points the chunks do not reuse. */
  lemma RebuildIsExactIff(points: Points, owner: Owner, base: map<string, string>, chunks: seq<string>, deleted: bool)
    requires |chunks| <= 10000 && NoClash(points, owner, |chunks|)
    ensures var after := Placed(if deleted then Without(points, owner) else points, owner, base, chunks, |chunks|);
      && Without(after, owner) == Without(points, owner)
      && (Holds(after, owner, base, chunks)
          <==> deleted || forall p | p in Only(points, owner) :: IsPointOf(owner, |chunks|, p))
  {
    hide PointAt, IsPointOf, Placed, NoClash;
    var start := if deleted then Without(points, owner) else points;
    var after := Placed(start, owner, base, chunks, |chunks|);
    forall p: nat
      ensures p in Without(after, owner) <==> p in Without(points, owner)
      ensures p in Without(after, owner) ==> Without(after, owner)[p] == Without(points, owner)[p]
      ensures p in Only(after, owner) <==> p in Only(start, owner) || IsPointOf(owner, |chunks|, p)
    {
      PlacedAt(points, start, owner, base, chunks, p);
    }
    assert Without(after, owner) == Without(points, owner);
    forall i | 0 <= i < |chunks|
      ensures PointAt(owner, i) in after && after[PointAt(owner, i)] == ChunkPayload(owner, base, chunks, i)
    {
      PlacedOn(start, owner, base, chunks, |chunks|, i);
    }
    assert deleted ==> Only(start, owner) == map[];
  }

  /** One point per chunk. */
  lemma {:induction false} HoldsCount(points: Points, owner: Owner, base: map<string, string>, chunks: seq<string>)
    requires Holds(points, owner, base, chunks) && |chunks| <= 10000
    ensures |Only(points, owner).Keys| == |chunks|
  {
    hide PointAt;
    var own := Only(points, owner).Keys;
    var spots := Spots(owner, |chunks|);
    SpotsAre(owner, |chunks|);
    assert own == spots by {
      forall p ensures p in own <==> p in spots {
        if IsPointOf(owner, |chunks|, p) { var i :| 0 <= i < |chunks| && PointAt(owner, i) == p; }
      }
    }
  }

  ghost function Spots(owner: Owner, n: nat): set<nat> {
    if n == 0 then {} else Spots(owner, n - 1) + {PointAt(owner, n - 1)}
  }

  lemma {:induction false} SpotsAre(owner: Owner, n: nat)
    requires n <= 10000
    ensures forall p :: p in Spots(owner, n) <==> IsPointOf(owner, n, p)
    ensures |Spots(owner, n)| == n
  {
    hide PointAt;
    if n > 0 {
      SpotsAre(owner, n - 1);
      if IsPointOf(owner, n - 1, PointAt(owner, n - 1)) {
        var i :| 0 <= i < n - 1 && PointAt(owner, i) == PointAt(owner, n - 1);
        ChunksOfOwnerDiffer(owner, i, n - 1);
      }
      forall p ensures p in Spots(owner, n) <==> IsPointOf(owner, n, p) {
        if IsPointOf(owner, n - 1, p) { var i :| 0 <= i < n - 1 && PointAt(owner, i) == p; }
        if IsPointOf(owner, n, p) {
          var i :| 0 <= i < n && PointAt(owner, i) == p;
          assert i < n - 1 ==> IsPointOf(owner, n - 1, p);
        }
        assert p == PointAt(owner, n - 1) ==> IsPointOf(owner, n, p);
      }
    }
  }

  // --- Following the links ---------------------------------------------------------------

  function Lookup(points: Points, id: Option<string>): Option<Payload> {
    if id.Some? && PointId(id.value) in points then Some(points[PointId(id.value)]) else None
  }

  /** The texts met by following next links, at most `limit` of them. */
  function Trail(points: Points, id: Option<string>, limit: nat): seq<string>
    decreases limit
  {
    var at := Lookup(points, id);
    if limit == 0 || at.None? then [] else [at.value.text] + Trail(points, at.value.next, limit - 1)
  }

  /** From chunk i the next links visit the rest of the chunks once each and then stop. */
  lemma {:induction false} TrailReadsTheRest(points: Points, owner: Owner, base: map<string, string>,
                                             chunks: seq<string>, i: nat, limit: nat)
    requires Holds(points, owner, base, chunks) && i < |chunks| && limit >= |chunks| - i
    ensures Trail(points, Some(IdAt(owner, i)), limit) == chunks[i..]
    decreases |chunks| - i
  {
    hide PointId, IdAt;
    var at := Lookup(points, Some(IdAt(owner, i)));
    assert PointAt(owner, i) == PointId(IdAt(owner, i));
    assert at == Some(ChunkPayload(owner, base, chunks, i));
    if i + 1 < |chunks| {
      TrailReadsTheRest(points, owner, base, chunks, i + 1, limit - 1);
      assert chunks[i..] == [chunks[i]] + chunks[i + 1..];
    } else {
      assert chunks[i..] == [chunks[i]];
    }
  }

  /** Every link leads to a stored chunk whose opposite link leads back. */
  lemma LinksAreInverse(points: Points, owner: Owner, base: map<string, string>, chunks: seq<string>, i: nat)
    requires Holds(points, owner, base, chunks) && i < |chunks|
    ensures var here := points[PointAt(owner, i)];
      && (here.next.Some? <==> i + 1 < |chunks|)
      && (here.prev.Some? <==> i > 0)
      && (here.next.Some? ==> exists there: Payload ::
            Lookup(points, here.next) == Some(there) && there.index == i + 1 && there.prev == Some(IdAt(owner, i)))
      && (here.prev.Some? ==> exists there: Payload ::
            Lookup(points, here.prev) == Some(there) && there.index == i - 1 && there.next == Some(IdAt(owner, i)))
  {
    hide PointId, IdAt;
    if i + 1 < |chunks| {
      assert PointAt(owner, i + 1) == PointId(IdAt(owner, i + 1));
      assert Lookup(points, Some(IdAt(owner, i + 1))) == Some(ChunkPayload(owner, base, chunks, i + 1));
    }
    if i > 0 {
      assert PointAt(owner, i - 1) == PointId(IdAt(owner, i - 1));
      assert Lookup(points, Some(IdAt(owner, i - 1))) == Some(ChunkPayload(owner, base, chunks, i - 1));
    }
  }
}
