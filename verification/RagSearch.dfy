/** Semantic search: filter the hits by score in place, fetch the neighbours of what is left
    and return every hit stitched together with the chunks before and after it. */
module RagSearch {
  import opened Wrappers
  import opened PointIds
  import opened VectorIndex
  import Chunking

  datatype Hit = Hit(score: real, payload: Payload)

  datatype Passage = Passage(text: string, title: string, dateMonth: string, score: real)

  datatype SearchError = EmptyQuery | SearchFailed

  function Above(hits: seq<Hit>, minScore: real): (kept: seq<Hit>)
    ensures |kept| <= |hits|
  {
    if hits == [] then []
    else
      var rest := Above(hits[..|hits| - 1], minScore);
      if hits[|hits| - 1].score >= minScore then rest + [hits[|hits| - 1]] else rest
  }

  function Kept(hits: seq<Hit>, minScore: real): (kept: seq<Hit>)
    ensures |kept| <= |hits|
  {
    if minScore > 0.0 then Above(hits, minScore) else hits
  }

  /** What the filter keeps: every hit at or over the threshold, in order, as often as it came. */
  lemma {:induction false} AboveKeepsExactly(hits: seq<Hit>, minScore: real, h: Hit)
    ensures multiset(Above(hits, minScore))[h] == if h.score >= minScore then multiset(hits)[h] else 0
    ensures forall k | 0 <= k < |Above(hits, minScore)| :: Above(hits, minScore)[k].score >= minScore
  {
    if hits != [] {
      AboveKeepsExactly(hits[..|hits| - 1], minScore, h);
      assert hits == hits[..|hits| - 1] + [hits[|hits| - 1]];
    }
  }

  /** The positions of the hits that stay: all that reach the threshold, if there is one. */
  ghost predicate Picks(hits: seq<Hit>, minScore: real, picked: seq<nat>) {
    && (forall i, j | 0 <= i < j < |picked| :: picked[i] < picked[j])
    && (forall k | 0 <= k < |picked| ::
          picked[k] < |hits| && (minScore <= 0.0 || hits[picked[k]].score >= minScore))
    && (forall i: nat | i < |hits| && (minScore <= 0.0 || hits[i].score >= minScore) :: i in picked)
  }

  /** The kept hits are those at the picked positions. */
  ghost predicate PickedFrom(hits: seq<Hit>, picked: seq<nat>, kept: seq<Hit>) {
    |kept| == |picked| && forall k | 0 <= k < |picked| :: picked[k] < |hits| && kept[k] == hits[picked[k]]
  }

  lemma KeptArePicked(hits: seq<Hit>, minScore: real) returns (picked: seq<nat>)
    ensures Picks(hits, minScore, picked) && PickedFrom(hits, picked, Kept(hits, minScore))
  {
    if minScore > 0.0 {
      picked := AboveArePicked(hits, minScore);
    } else {
      picked := seq(|hits|, k => k);
      forall i: nat | i < |hits| ensures i in picked { assert picked[i] == i; }
    }
  }

  lemma PickSnoc(hits: seq<Hit>, last: Hit, minScore: real, picked: seq<nat>, kept: seq<Hit>)
    requires Picks(hits, minScore, picked) && PickedFrom(hits, picked, kept) && minScore > 0.0
    requires last.score >= minScore
    ensures Picks(hits + [last], minScore, picked + [|hits|])
    ensures PickedFrom(hits + [last], picked + [|hits|], kept + [last])
  {
    var all, more := hits + [last], picked + [|hits|];
    assert forall i | 0 <= i < |hits| :: all[i] == hits[i];
    assert more[|picked|] in more;
    forall i: nat | i in picked ensures i in more {
      var k :| 0 <= k < |picked| && picked[k] == i;
      assert more[k] == i;
    }
  }

  lemma SkipSnoc(hits: seq<Hit>, last: Hit, minScore: real, picked: seq<nat>, kept: seq<Hit>)
    requires Picks(hits, minScore, picked) && PickedFrom(hits, picked, kept) && minScore > 0.0
    requires last.score < minScore
    ensures Picks(hits + [last], minScore, picked) && PickedFrom(hits + [last], picked, kept)
  {
    var all := hits + [last];
    assert forall i | 0 <= i < |hits| :: all[i] == hits[i];
  }

  lemma {:induction false} AboveArePicked(hits: seq<Hit>, minScore: real) returns (picked: seq<nat>)
    requires minScore > 0.0
    ensures Picks(hits, minScore, picked) && PickedFrom(hits, picked, Above(hits, minScore))
  {
    picked := [];
    if hits != [] {
      hide Picks, PickedFrom;
      var rest, last := hits[..|hits| - 1], hits[|hits| - 1];
      picked := AboveArePicked(rest, minScore);
      assert rest + [last] == hits;
      if last.score >= minScore {
        PickSnoc(rest, last, minScore, picked, Above(rest, minScore));
        picked := picked + [|rest|];
      } else {
        SkipSnoc(rest, last, minScore, picked, Above(rest, minScore));
      }
    }
  }

  function StringVal(o: Option<string>): string { if o.Some? then o.value else "" }

  function Get(m: map<string, string>, key: string): string { if key in m then m[key] else "" }

  function IdsOf(p: Payload): seq<string> {
    (if StringVal(p.prev) != "" then [StringVal(p.prev)] else [])
    + (if StringVal(p.next) != "" then [StringVal(p.next)] else [])
  }

  function NeighbourIds(hits: seq<Hit>): seq<string> {
    if hits == [] then [] else NeighbourIds(hits[..|hits| - 1]) + IdsOf(hits[|hits| - 1].payload)
  }

  function TextsOf(found: seq<(string, Payload)>): map<string, string> {
    if found == [] then map[]
    else TextsOf(found[..|found| - 1])[found[|found| - 1].0 := found[|found| - 1].1.text]
  }

  /** strings.Join with a blank line between the parts. */
  function Join(parts: seq<string>): string {
    if parts == [] then ""
    else if |parts| == 1 then parts[0] else parts[0] + "\n\n" + Join(parts[1..])
  }

  function Stitch(texts: map<string, string>, p: Payload): string {
    var before, after := Get(texts, StringVal(p.prev)), Get(texts, StringVal(p.next));
    Join((if before != "" then [before] else []) + [p.text] + (if after != "" then [after] else []))
  }

  function NeighbourTexts(points: Points, ids: seq<string>): map<string, string> {
    NamesAreRequested(ids);
    TextsOf(Fetched(points, ids, Names(ids)))
  }

  function PassageOf(texts: map<string, string>, h: Hit): Passage {
    Passage(Stitch(texts, h.payload), Get(h.payload.base, "title"), Get(h.payload.base, "date_month"), h.score)
  }

  function PassagesOf(texts: map<string, string>, hits: seq<Hit>): seq<Passage> {
    seq(|hits|, k requires 0 <= k < |hits| => PassageOf(texts, hits[k]))
  }

  function Passages(points: Points, hits: seq<Hit>): seq<Passage> {
    PassagesOf(NeighbourTexts(points, NeighbourIds(hits)), hits)
  }

  lemma AboveSnoc(hits: seq<Hit>, minScore: real, i: nat)
    requires i < |hits|
    ensures var own := if hits[i].score >= minScore then [hits[i]] else [];
      Above(hits[..i + 1], minScore) == Above(hits[..i], minScore) + own
  {
    assert hits[..i + 1][..i] == hits[..i];
  }

  lemma AboveNone(minScore: real)
    ensures Above([], minScore) == []
  {
  }

  /** kept = kept[:0] and appends: the filtered hits overwrite the front of the slice. */
  method KeepScores(hits: array<Hit>, minScore: real) returns (kept: nat, ghost picked: seq<nat>)
    modifies hits
    ensures kept <= hits.Length && hits[..kept] == Kept(old(hits[..]), minScore)
    ensures Picks(old(hits[..]), minScore, picked) && PickedFrom(old(hits[..]), picked, hits[..kept])
    ensures forall k | kept <= k < hits.Length :: hits[k] == old(hits[k])
  {
    hide Picks, PickedFrom, Above;
    ghost var was := hits[..];
    picked := KeptArePicked(was, minScore);
    if minScore <= 0.0 {
      kept := hits.Length;
      assert hits[..kept] == was;
      return;
    }
    kept := 0;
    AboveNone(minScore);
    assert was[..0] == [] && hits[..0] == [];
    for i := 0 to hits.Length
      invariant kept <= i && hits[..kept] == Above(was[..i], minScore)
      invariant forall k | kept <= k < hits.Length :: hits[k] == was[k]
    {
      AboveSnoc(was, minScore, i);
      if hits[i].score >= minScore {
        ghost var front := hits[..kept];
        hits[kept] := hits[i];
        kept := kept + 1;
        assert hits[..kept] == front + [was[i]];
      }
    }
    assert was[..hits.Length] == was;
  }

  /** `searched` says whether the embedding and the search calls succeed; `hits` is what the
      search then returns; `answered` whether the neighbours can be fetched. If not, each hit
      is returned by itself. `picked` and `texts` are the positions of the hits that stay and
      the texts fetched for the ids they link to. */
  method RunRagSearch(store: PointStore, query: string, searched: bool, hits: array<Hit>, minScore: real,
                      answered: bool)
    returns (r: Result<seq<Passage>, SearchError>, ghost picked: seq<nat>, ghost kept: seq<Hit>,
             ghost texts: map<string, string>)
    modifies hits
    ensures r == if Chunking.Blank(query) then Failure(EmptyQuery)
      else if !searched then Failure(SearchFailed)
      else if answered then Success(Passages(store.points, Kept(old(hits[..]), minScore)))
      else Success(PassagesOf(map[], Kept(old(hits[..]), minScore)))
    ensures r.Success? ==> Picks(old(hits[..]), minScore, picked) && PickedFrom(old(hits[..]), picked, kept)
    ensures r.Success? ==> |r.value| == |kept| && forall k | 0 <= k < |kept| :: Shows(r.value[k], kept[k], texts)
    ensures r.Success? ==> if answered then LinksFetched(store.points, kept, texts) else texts == map[]
    ensures r.Success? && answered ==> ReadAround(store.points, kept, r.value)
  {
    hide Chunking.Blank, NeighbourIds, NeighbourTexts, Stitch, Get, Picks, PickedFrom, Shows, LinksFetched, ReadAround;
    picked, kept, texts := [], [], map[];
    if Chunking.Blank(query) { return Failure(EmptyQuery), picked, kept, texts; }
    if !searched { return Failure(SearchFailed), picked, kept, texts; }
    var count;
    count, picked := KeepScores(hits, minScore);
    var front := hits[..count];
    kept := front;
    var ids := CollectIds(front);
    var found := FetchTexts(store, ids, answered);
    texts := found;
    var out: seq<Passage> := [];
    for i := 0 to count
      invariant |out| == i && forall k | 0 <= k < i :: out[k] == PassageOf(found, front[k])
    {
      var text := StitchParts(found, front[i].payload);
      var base := front[i].payload.base;
      out := out + [Passage(text, Get(base, "title"), Get(base, "date_month"), front[i].score)];
    }
    assert out == PassagesOf(texts, kept);
    if answered {
      AllReadAround(store.points, kept);
      LinksAreFetched(store.points, kept);
    }
    assert "" !in texts by { if answered { NoEmptyName(store.points, kept, texts); } }
    forall k | 0 <= k < |kept| { PassageShows(texts, kept[k]); }
    r := Success(out);
  }

  method CollectIds(kept: seq<Hit>) returns (ids: seq<string>)
    ensures ids == NeighbourIds(kept)
  {
    ids := [];
    for i := 0 to |kept|
      invariant ids == NeighbourIds(kept[..i])
    {
      assert kept[..i + 1][..i] == kept[..i];
      if StringVal(kept[i].payload.prev) != "" { ids := ids + [StringVal(kept[i].payload.prev)]; }
      if StringVal(kept[i].payload.next) != "" { ids := ids + [StringVal(kept[i].payload.next)]; }
    }
    assert kept[..|kept|] == kept;
  }

  method StitchParts(texts: map<string, string>, p: Payload) returns (text: string)
    ensures text == Stitch(texts, p)
  {
    var parts: seq<string> := [];
    if Get(texts, StringVal(p.prev)) != "" { parts := parts + [Get(texts, StringVal(p.prev))]; }
    parts := parts + [p.text];
    if Get(texts, StringVal(p.next)) != "" { parts := parts + [Get(texts, StringVal(p.next))]; }
    var before, after := Get(texts, StringVal(p.prev)), Get(texts, StringVal(p.next));
    assert parts == (if before != "" then [before] else []) + [p.text] + (if after != "" then [after] else []);
    text := Join(parts);
  }

  method FetchTexts(store: PointStore, ids: seq<string>, answered: bool) returns (texts: map<string, string>)
    ensures texts == if answered then NeighbourTexts(store.points, ids) else map[]
  {
    hide FoundAs, PointId;
    texts := map[];
    if |ids| > 0 {
      var found := store.GetByIDs(ids, answered);
      for i := 0 to |found|
        invariant texts == TextsOf(found[..i])
      {
        assert found[..i + 1][..i] == found[..i];
        texts := texts[found[i].0 := found[i].1.text];
      }
      assert found[..|found|] == found;
    }
  }

  // --- What a passage contains -----------------------------------------------------------

  /** One of the hits links to this id. */
  ghost predicate Linked(hits: seq<Hit>, id: string) {
    id != "" && exists k :: 0 <= k < |hits| && (hits[k].payload.prev == Some(id) || hits[k].payload.next == Some(id))
  }

  /** No two ids the hits link to share a point. */
  ghost predicate Apart(hits: seq<Hit>) {
    forall a, b | Linked(hits, a) && Linked(hits, b) && PointId(a) == PointId(b) :: a == b
  }

  /** The texts are those of the linked points; only an id that shares its point may be missing. */
  ghost predicate LinksFetched(points: Points, hits: seq<Hit>, texts: map<string, string>) {
    && (forall id | id in texts :: Linked(hits, id) && PointId(id) in points && texts[id] == points[PointId(id)].text)
    && (forall id | Linked(hits, id) && PointId(id) in points && id !in texts ::
          exists other :: other in texts && other != id && PointId(other) == PointId(id))
  }

  /** The passage of a hit: the text before it, its own and the one after it, as far as they
      were fetched, and what its payload says of the document. */
  ghost predicate Shows(p: Passage, h: Hit, texts: map<string, string>) {
    var prev, next, base := h.payload.prev, h.payload.next, h.payload.base;
    var before := if prev.Some? && prev.value in texts then texts[prev.value] else "";
    var after := if next.Some? && next.value in texts then texts[next.value] else "";
    && p.text == (if before != "" then before + "\n\n" else "") + h.payload.text
                 + (if after != "" then "\n\n" + after else "")
    && p.title == (if "title" in base then base["title"] else "")
    && p.dateMonth == (if "date_month" in base then base["date_month"] else "")
    && p.score == h.score
  }

  lemma PassageShows(texts: map<string, string>, h: Hit)
    requires "" !in texts
    ensures Shows(PassageOf(texts, h), h, texts)
  {
    var p := h.payload;
    var before, after := Get(texts, StringVal(p.prev)), Get(texts, StringVal(p.next));
    assert before == if p.prev.Some? && p.prev.value in texts then texts[p.prev.value] else "";
    assert after == if p.next.Some? && p.next.value in texts then texts[p.next.value] else "";
    hide StringVal, Join;
    JoinThree(before, p.text, after);
  }

  lemma JoinThree(before: string, text: string, after: string)
    ensures Join((if before != "" then [before] else []) + [text] + (if after != "" then [after] else []))
      == (if before != "" then before + "\n\n" else "") + text + (if after != "" then "\n\n" + after else "")
  {
    assert Join([text]) == text && Join([before, text]) == before + "\n\n" + text;
    assert Join([text, after]) == text + "\n\n" + after;
    assert [before, text, after][1..] == [text, after];
    assert Join([before, text, after]) == before + "\n\n" + (text + "\n\n" + after);
  }

  lemma {:induction false} RequestedAreLinked(hits: seq<Hit>)
    ensures forall id :: id in NeighbourIds(hits) <==> Linked(hits, id)
  {
    if hits != [] {
      var rest, last := hits[..|hits| - 1], hits[|hits| - 1];
      RequestedAreLinked(rest);
      forall id ensures Linked(hits, id) <==> Linked(rest, id) || id in IdsOf(last.payload) {
        LinkedSnoc(rest, last, id);
        assert rest + [last] == hits;
      }
    }
  }

  lemma LinkedSnoc(rest: seq<Hit>, last: Hit, id: string)
    ensures Linked(rest + [last], id) <==> Linked(rest, id) || id in IdsOf(last.payload)
  {
    var all := rest + [last];
    assert all[|rest|] == last;
    if Linked(rest, id) {
      var k :| 0 <= k < |rest| && (rest[k].payload.prev == Some(id) || rest[k].payload.next == Some(id));
      assert all[k] == rest[k];
    }
    var p := last.payload;
    assert id in IdsOf(p) <==> id != "" && (p.prev == Some(id) || p.next == Some(id)) by {
      if StringVal(p.prev) != "" { assert IdsOf(p)[0] == StringVal(p.prev); }
      if StringVal(p.next) != "" { assert IdsOf(p)[|IdsOf(p)| - 1] == StringVal(p.next); }
    }
  }

  /** Each text came from a requested id, under its number's name, and every point was read. */
  lemma {:induction false} TextsByName(points: Points, ids: seq<string>, names: map<nat, string>)
    requires forall id | id in ids :: PointId(id) in names && PointId(names[PointId(id)]) == PointId(id)
    ensures var texts := TextsOf(Fetched(points, ids, names));
      && (forall x | x in texts :: PointId(x) in points && texts[x] == points[PointId(x)].text)
      && (forall x | x in texts :: exists id :: id in ids && x == names[PointId(id)])
      && (forall id | id in ids && PointId(id) in points :: names[PointId(id)] in texts)
  {
    hide PointId;
    if ids != [] {
      var rest, last := ids[..|ids| - 1], ids[|ids| - 1];
      assert last in ids && forall id | id in rest :: id in ids;
      TextsByName(points, rest, names);
      var found := Fetched(points, rest, names);
      if PointId(last) in points {
        assert (found + [(names[PointId(last)], points[PointId(last)])])[..|found|] == found;
      }
      forall id | id in ids ensures id in rest || id == last { }
    }
  }

  lemma LinksAreFetched(points: Points, hits: seq<Hit>)
    ensures LinksFetched(points, hits, NeighbourTexts(points, NeighbourIds(hits)))
  {
    hide PointId, TextsOf, Fetched, Names, Linked;
    var ids := NeighbourIds(hits);
    RequestedAreLinked(hits);
    NamesAreRequested(ids);
    TextsByName(points, ids, Names(ids));
  }

  lemma NoEmptyName(points: Points, hits: seq<Hit>, texts: map<string, string>)
    requires LinksFetched(points, hits, texts)
    ensures "" !in texts
  {
  }

  /** The chunk with its neighbours, as far as they exist. */
  function Stretch(chunks: seq<string>, i: nat): string
    requires i < |chunks|
  {
    (if i > 0 then chunks[i - 1] + "\n\n" else "") + chunks[i]
    + (if i + 1 < |chunks| then "\n\n" + chunks[i + 1] else "")
  }

  /** The passage of a hit on stored chunk i: chunks i-1, i and i+1 in order, the document's
      title and month, and the hit's score. */
  ghost predicate ReadsAround(p: Passage, h: Hit, base: map<string, string>, chunks: seq<string>, i: nat) {
    && i < |chunks| && p.text == Stretch(chunks, i)
    && p.title == (if "title" in base then base["title"] else "")
    && p.dateMonth == (if "date_month" in base then base["date_month"] else "")
    && p.score == h.score
  }

  /** It does so for every hit on a chunk of an owner whose chunks are stored, unless two ids the
      hits link to share a point. */
  ghost predicate ReadAround(points: Points, hits: seq<Hit>, passages: seq<Passage>) {
    |passages| == |hits| && (Apart(hits) ==>
      forall k, owner, base, chunks, i |
        && 0 <= k < |hits| && Stored(hits[k].payload, owner, base, chunks, i)
        && AllStored(points, owner, base, chunks) && NoneEmpty(chunks) ::
        ReadsAround(passages[k], hits[k], base, chunks, i))
  }

  ghost predicate NoneEmpty(chunks: seq<string>) { forall j | 0 <= j < |chunks| :: chunks[j] != "" }

  lemma AllReadAround(points: Points, hits: seq<Hit>)
    ensures ReadAround(points, hits, Passages(points, hits))
  {
    hide Stored, AllStored, ReadsAround, PassageOf, NeighbourTexts, Apart;
    if Apart(hits) {
      forall k, owner, base, chunks, i |
          && 0 <= k < |hits| && Stored(hits[k].payload, owner, base, chunks, i)
          && AllStored(points, owner, base, chunks) && NoneEmpty(chunks)
        ensures ReadsAround(Passages(points, hits)[k], hits[k], base, chunks, i)
      {
        HitReadsAround(points, hits, k, owner, base, chunks, i);
      }
    }
  }

  /** A hit on stored chunk i reads as chunks i-1, i, i+1 in order, whatever the other hits. */
  lemma HitReadsAround(points: Points, hits: seq<Hit>, k: nat, owner: Owner, base: map<string, string>,
                       chunks: seq<string>, i: nat)
    requires AllStored(points, owner, base, chunks) && NoneEmpty(chunks)
    requires k < |hits| && Stored(hits[k].payload, owner, base, chunks, i)
    requires Apart(hits)
    ensures ReadsAround(Passages(points, hits)[k], hits[k], base, chunks, i)
  {
    hide NeighbourIds, NeighbourTexts, AllStored, PassageOf, IdAt, PointId, LinksFetched;
    var texts, h := NeighbourTexts(points, NeighbourIds(hits)), hits[k];
    LinksAreFetched(points, hits);
    NoEmptyName(points, hits, texts);
    PassageShows(texts, h);
    if i > 0 { LinkIsFound(points, hits, k, texts, owner, base, chunks, i - 1); }
    if i + 1 < |chunks| { LinkIsFound(points, hits, k, texts, owner, base, chunks, i + 1); }
  }

  lemma LinkIsFound(points: Points, hits: seq<Hit>, k: nat, texts: map<string, string>, owner: Owner,
                    base: map<string, string>, chunks: seq<string>, j: nat)
    requires AllStored(points, owner, base, chunks) && j < |chunks| && k < |hits|
    requires LinksFetched(points, hits, texts) && Apart(hits)
    requires hits[k].payload.prev == Some(IdAt(owner, j)) || hits[k].payload.next == Some(IdAt(owner, j))
    ensures IdAt(owner, j) in texts && texts[IdAt(owner, j)] == chunks[j]
  {
    var id := IdAt(owner, j);
    assert id != "" by { assert |id| >= 1; }
    hide PointId, IdAt;
    assert PointAt(owner, j) == PointId(id) && Linked(hits, id);
  }

  ghost predicate IsChunk(p: Payload, owner: Owner, base: map<string, string>, chunks: seq<string>) {
    exists i: nat :: Stored(p, owner, base, chunks, i)
  }

  /** When every hit is a chunk of one stored owner no clash is possible. */
  lemma OneOwnerIsApart(hits: seq<Hit>, owner: Owner, base: map<string, string>, chunks: seq<string>)
    requires |chunks| <= 10000
    requires forall k | 0 <= k < |hits| :: IsChunk(hits[k].payload, owner, base, chunks)
    ensures Apart(hits)
  {
    hide PointId, IdAt, IsChunk, Linked;
    forall a, b | Linked(hits, a) && Linked(hits, b) && PointId(a) == PointId(b) ensures a == b {
      var i := LinkOfChunk(hits, owner, base, chunks, a);
      var j := LinkOfChunk(hits, owner, base, chunks, b);
      if i != j { ChunksOfOwnerDiffer(owner, i, j); }
    }
  }

  lemma LinkOfChunk(hits: seq<Hit>, owner: Owner, base: map<string, string>, chunks: seq<string>, id: string)
    returns (j: nat)
    requires forall k | 0 <= k < |hits| :: IsChunk(hits[k].payload, owner, base, chunks)
    requires Linked(hits, id)
    ensures j < |chunks| && id == IdAt(owner, j)
  {
    hide IdAt;
    var k :| 0 <= k < |hits| && (hits[k].payload.prev == Some(id) || hits[k].payload.next == Some(id));
    var i: nat :| Stored(hits[k].payload, owner, base, chunks, i);
    if i > 0 && id == IdAt(owner, i - 1) { j := i - 1; } else { j := i + 1; }
  }

  /** From text to passage: chunk a text, rebuild its owner over any earlier contents, and
      every later hit on one of its chunks reads as that stretch of chunks. */
  lemma RebuiltHitReadsAround(points: Points, owner: Owner, base: map<string, string>, text: string,
                              chunks: seq<string>,
                              size: nat, hits: seq<Hit>, k: nat)
    requires Chunking.Chunked(text, chunks, size) && |chunks| <= 10000 && NoClash(points, owner, |chunks|)
    requires var after := Placed(Without(points, owner), owner, base, chunks, |chunks|);
      k < |hits| && exists p :: p in after && after[p] == hits[k].payload && after[p].owner == owner
    requires Apart(hits)
    ensures var after := Placed(Without(points, owner), owner, base, chunks, |chunks|);
      exists i :: 0 <= i < |chunks| && hits[k].payload.text == chunks[i]
        && ReadsAround(Passages(after, hits)[k], hits[k], base, chunks, i)
  {
    hide PointAt, Passages, Apart, Placed, ReadsAround, Chunking.Chunked;
    var after := Placed(Without(points, owner), owner, base, chunks, |chunks|);
    RebuildIsExactIff(points, owner, base, chunks, true);
    var p :| p in after && after[p] == hits[k].payload && after[p].owner == owner;
    assert p in Only(after, owner);
    var i :| 0 <= i < |chunks| && PointAt(owner, i) == p;
    ChunksAreNotEmpty(text, chunks, size);
    HitReadsAround(after, hits, k, owner, base, chunks, i);
  }

  lemma ChunksAreNotEmpty(text: string, chunks: seq<string>, size: nat)
    requires Chunking.Chunked(text, chunks, size)
    ensures NoneEmpty(chunks)
  {
    var spans: seq<Chunking.Span> :| Chunking.ChunkedAs(text, chunks, spans, size);
    forall j | 0 <= j < |chunks| ensures chunks[j] != "" {
      assert Chunking.SpanOf(text, chunks[j], spans[j], size);
    }
  }
}
