/** runEmbed for a document outside any series: chunk its text and rebuild its points. */
module Embedding {
  import opened Wrappers
  import opened Chunking
  import opened Packing
  import opened VectorIndex

  const DEFAULT_SIZE: nat := 1500
  const DEFAULT_OVERLAP: nat := 200

  datatype EmbedError = NoText | EmbedFailed | NotStored

  function SizeOf(chunkSize: int): (size: nat)
    ensures size > 0 && (chunkSize > 0 ==> size == chunkSize)
  {
    if chunkSize <= 0 then DEFAULT_SIZE else chunkSize
  }

  function OverlapOf(chunkOverlap: int): (overlap: nat)
    ensures overlap > 0 && (chunkOverlap > 0 ==> overlap == chunkOverlap)
  {
    if chunkOverlap <= 0 then DEFAULT_OVERLAP else chunkOverlap
  }

  /** What every chunk of a document carries besides its text: the configured metadata fields
      found among the stage outputs, then the document's title and month over them. */
  method BasePayload(fields: seq<string>, data: map<string, string>, title: Option<string>, month: Option<string>)
    returns (base: map<string, string>)
    ensures forall f :: f in base <==>
      (f in fields && f in data) || (f == "title" && title.Some?) || (f == "date_month" && month.Some?)
    ensures forall f | f in base :: base[f] == if f == "date_month" && month.Some? then month.value
                                               else if f == "title" && title.Some? then title.value else data[f]
  {
    base := map[];
    for i := 0 to |fields|
      invariant forall f :: f in base <==> f in fields[..i] && f in data
      invariant forall f | f in base :: base[f] == data[f]
    {
      if fields[i] in data { base := base[fields[i] := data[fields[i]]]; }
    }
    assert fields[..|fields|] == fields;
    if title.Some? { base := base["title" := title.value]; }
    if month.Some? { base := base["date_month" := month.value]; }
  }

  /** Whatever the store held before, also a half-finished rebuild: the chunks reached are there
      with every field, and when no chunk fails the store holds exactly the chunks of the
      current text for this document, unless the delete failed over points these chunks do not
      reuse; also if the run then cannot be stored. Every other owner's points are untouched
      however it ends, as long as none of them sits at a point of these chunks. */
  method RunEmbed(store: PointStore, doc: string, fields: seq<string>, data: map<string, string>,
                  title: Option<string>, month: Option<string>, text: string, heads: seq<nat>,
                  chunkSize: int, chunkOverlap: int, deleted: bool, reached: nat, stored: bool)
    returns (r: Result<nat, EmbedError>, ghost chunks: seq<string>, ghost base: map<string, string>)
    requires forall i | 0 <= i < |heads| :: heads[i] <= |text|
    modifies store
    ensures text == "" <==> r == Failure(NoText)
    ensures text == "" ==> store.points == old(store.points)
    ensures text != "" ==> Chunked(Flat(Sections(text, heads)), chunks, if chunkSize > 0 then chunkSize else 1500)
    ensures text != "" ==> Packed(Sections(text, heads), |Sections(text, heads)|, chunks,
      if chunkSize > 0 then chunkSize else 1500, if chunkOverlap > 0 then chunkOverlap else 200)
    ensures Ink(Flat(Sections(text, heads))) == Ink(text)
    ensures text != "" ==> r == if reached < |chunks| then Failure(EmbedFailed)
                               else if !stored then Failure(NotStored) else Success(|chunks|)
    ensures title.Some? ==> "title" in base && base["title"] == title.value
    ensures month.Some? ==> "date_month" in base && base["date_month"] == month.value
    ensures forall f | f in base && f != "title" && f != "date_month" :: f in fields && f in data && base[f] == data[f]
    ensures forall f | f in fields && f in data :: f in base
    ensures text != "" ==> PlacedUpTo(old(store.points), store.points, OfDoc(doc), base, chunks,
      if reached < |chunks| then reached else |chunks|, deleted)
    ensures text != "" && reached >= |chunks| && |chunks| <= 10000 ==>
      AllStored(store.points, OfDoc(doc), base, chunks)
    ensures text != "" && reached >= |chunks| && |chunks| <= 10000 ==>
      NoClash(old(store.points), OfDoc(doc), |chunks|) ==>
      && (Holds(store.points, OfDoc(doc), base, chunks)
          <==> deleted || forall p | p in Only(old(store.points), OfDoc(doc)) :: IsPointOf(OfDoc(doc), |chunks|, p))
      && (deleted ==> |Only(store.points, OfDoc(doc)).Keys| == |chunks|)
    ensures NoClash(old(store.points), OfDoc(doc), |chunks|) ==>
      Without(store.points, OfDoc(doc)) == Without(old(store.points), OfDoc(doc))
  {
    hide Chunked, Ink, Sections, Flat, Placed, Holds, NoClash, IsPointOf, PlacedUpTo, AllStored, Packed;
    SectionsLoseNothing(text, heads);
    var payload := BasePayload(fields, data, title, month);
    base := payload;
    if text == "" {
      chunks := [];
      return Failure(NoText), chunks, base;
    }
    var cs := ChunkMarkdown(text, heads, SizeOf(chunkSize), OverlapOf(chunkOverlap));
    chunks := cs;
    ghost var was := store.points;
    var ok := store.Rebuild(OfDoc(doc), payload, cs, deleted, reached);
    if NoClash(was, OfDoc(doc), |cs|) {
      FewerClash(was, OfDoc(doc), |cs|, if ok then |cs| else reached);
      OthersAreUntouched(was, OfDoc(doc), base, cs, if ok then |cs| else reached, deleted);
    }
    if !ok { return Failure(EmbedFailed), chunks, base; }
    if |cs| <= 10000 && NoClash(was, OfDoc(doc), |cs|) {
      RebuildIsExactIff(was, OfDoc(doc), base, cs, deleted);
      if deleted { HoldsCount(store.points, OfDoc(doc), base, cs); }
    }
    r := if stored then Success(|cs|) else Failure(NotStored);
  }

  lemma FewerClash(points: Points, owner: Owner, n: nat, k: nat)
    requires NoClash(points, owner, n) && k <= n
    ensures NoClash(points, owner, k)
  {
  }
}
