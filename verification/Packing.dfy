/** chunkMarkdown: whole sections packed together up to the size, oversized ones windowed. */
module Packing {
  import opened Chunking

  /** What flush emits for the text collected so far. */
  function FlushOf(cur: string): seq<string> {
    if Blank(cur) then [] else [TrimNewlines(cur)]
  }

  lemma FlushChunks(cur: string, size: nat)
    requires |cur| <= size
    ensures Chunked(cur, FlushOf(cur), size)
  {
    if Blank(cur) {
      BlankChunk(cur, size);
    } else {
      var chunk := TrimNewlines(cur);
      forall p | |chunk| <= p < |cur| ensures IsSpace(cur[p]) { assert cur[p] == '\n'; }
      var p :| 0 <= p < |cur| && !IsSpace(cur[p]);
      assert p < |chunk| && chunk[p] == cur[p];
      WholeChunk(cur, chunk, size);
    }
  }

  lemma {:induction false} FlatSnoc(pieces: seq<string>, last: string)
    ensures Flat(pieces + [last]) == Flat(pieces) + last
  {
    if pieces == [] {
      assert ([] + [last])[1..] == [];
    } else {
      assert (pieces + [last])[1..] == pieces[1..] + [last];
      FlatSnoc(pieces[1..], last);
    }
  }

  /** The chunks emitted so far and the text being collected. */
  datatype Packer = Packer(chunks: seq<string>, cur: string)

  function Add(p: Packer, sec: string, size: nat, overlap: nat): Packer
    requires size > 0
  {
    if |sec| > size then Packer(p.chunks + FlushOf(p.cur) + ChunkTextOf(sec, size, overlap), "")
    else if |p.cur| > 0 && |p.cur| + |sec| > size then Packer(p.chunks + FlushOf(p.cur), sec)
    else Packer(p.chunks, p.cur + sec)
  }

  function PackAll(secs: seq<string>, size: nat, overlap: nat): Packer
    requires size > 0
  {
    if secs == [] then Packer([], "")
    else Add(PackAll(secs[..|secs| - 1], size, overlap), secs[|secs| - 1], size, overlap)
  }

  function MarkdownChunks(secs: seq<string>, size: nat, overlap: nat): seq<string>
    requires size > 0
  {
    PackAll(secs, size, overlap).chunks + FlushOf(PackAll(secs, size, overlap).cur)
  }

  method ChunkSections(secs: seq<string>, size: nat, overlap: nat) returns (chunks: seq<string>)
    requires size > 0
    ensures chunks == MarkdownChunks(secs, size, overlap)
  {
    hide Blank, ChunkTextOf;
    chunks := [];
    var cur := "";
    for k := 0 to |secs|
      invariant Packer(chunks, cur) == PackAll(secs[..k], size, overlap)
    {
      var sec := secs[k];
      assert secs[..k + 1][..k] == secs[..k];
      if |sec| > size {
        chunks := chunks + FlushOf(cur);
        cur := "";
        var windows := ChunkText(sec, size, overlap);
        chunks := chunks + windows;
      } else if |cur| > 0 && |cur| + |sec| > size {
        chunks := chunks + FlushOf(cur);
        cur := sec;
      } else {
        cur := cur + sec;
      }
    }
    assert secs[..|secs|] == secs;
    chunks := chunks + FlushOf(cur);
  }

  // --- Nothing is lost -------------------------------------------------------------------

  lemma EmptyChunk(size: nat)
    ensures Chunked("", [], size)
  {
    BlankChunk("", size);
  }

  /** The emitted chunks chunk a prefix of the sections' text, and `cur` is the rest. */
  lemma {:induction false} PackAllChunks(secs: seq<string>, size: nat, overlap: nat) returns (done: string)
    requires size > 0
    ensures Flat(secs) == done + PackAll(secs, size, overlap).cur
    ensures Chunked(done, PackAll(secs, size, overlap).chunks, size)
    ensures |PackAll(secs, size, overlap).cur| <= size
  {
    hide Chunked, Blank, ChunkTextOf, FlushOf;
    if secs == [] {
      done := "";
      EmptyChunk(size);
      return;
    }
    var front, sec := secs[..|secs| - 1], secs[|secs| - 1];
    var before := PackAllChunks(front, size, overlap);
    var p := PackAll(front, size, overlap);
    FlatSnoc(front, sec);
    assert front + [sec] == secs;
    FlushChunks(p.cur, size);
    if |sec| > size {
      JoinChunks(before, p.cur, p.chunks, FlushOf(p.cur), size);
      ChunkTextChunks(sec, size, overlap);
      JoinChunks(before + p.cur, sec, p.chunks + FlushOf(p.cur), ChunkTextOf(sec, size, overlap), size);
      done := before + p.cur + sec;
    } else if |p.cur| > 0 && |p.cur| + |sec| > size {
      JoinChunks(before, p.cur, p.chunks, FlushOf(p.cur), size);
      done := before + p.cur;
    } else {
      done := before;
      assert before + p.cur + sec == before + (p.cur + sec);
    }
  }

  lemma SectionsChunk(secs: seq<string>, size: nat, overlap: nat)
    requires size > 0
    ensures Chunked(Flat(secs), MarkdownChunks(secs, size, overlap), size)
  {
    hide Chunked;
    var done := PackAllChunks(secs, size, overlap);
    var p := PackAll(secs, size, overlap);
    FlushChunks(p.cur, size);
    JoinChunks(done, p.cur, p.chunks, FlushOf(p.cur), size);
  }

  // --- A section that fits is never cut --------------------------------------------------

  ghost predicate At(chunk: string, part: string, a: nat) {
    a + |part| <= |chunk| && chunk[a..a + |part|] == part
  }

  ghost predicate Contains(chunk: string, part: string) { exists a: nat :: At(chunk, part, a) }

  ghost predicate InOneChunk(chunks: seq<string>, part: string) {
    exists i :: 0 <= i < |chunks| && Contains(chunks[i], part)
  }

  lemma ContainsMore(chunk: string, part: string, more: string)
    ensures Contains(chunk, part) ==> Contains(chunk + more, part)
    ensures Contains(chunk + part, part)
  {
    if Contains(chunk, part) {
      var a: nat :| At(chunk, part, a);
      assert At(chunk + more, part, a);
    }
    assert At(chunk + part, part, |chunk|);
  }

  lemma MoreChunks(chunks: seq<string>, more: seq<string>, part: string)
    ensures InOneChunk(chunks, part) || InOneChunk(more, part) ==> InOneChunk(chunks + more, part)
  {
    if i :| 0 <= i < |chunks| && Contains(chunks[i], part) {
      assert (chunks + more)[i] == chunks[i];
    } else if i :| 0 <= i < |more| && Contains(more[i], part) {
      assert (chunks + more)[|chunks| + i] == more[i];
    }
  }

  /** Trimming newlines at the end keeps everything up to a rune that is not one. */
  lemma TrimKeeps(s: string, p: nat)
    requires p < |s| && s[p] != '\n'
    ensures p < |TrimNewlines(s)| && TrimNewlines(s) <= s
  {
  }

  lemma InkedRune(s: string) returns (p: nat)
    requires !Blank(s)
    ensures p < |s| && !IsSpace(s[p]) && s[p] != '\n'
  {
    p :| 0 <= p < |s| && !IsSpace(s[p]);
  }

  lemma NotBlankAt(s: string, p: nat)
    requires p < |s| && !IsSpace(s[p])
    ensures !Blank(s)
  {
  }

  lemma AtPrefixes(cur: string, sec: string, a: nat, chunk: string, part: string)
    requires At(cur, sec, a) && part <= sec && chunk <= cur && a + |part| <= |chunk|
    ensures At(chunk, part, a)
  {
    assert chunk[a..a + |part|] == cur[a..a + |sec|][..|part|];
  }

  lemma AtIndex(cur: string, sec: string, a: nat, p: nat)
    requires At(cur, sec, a) && p < |sec|
    ensures cur[a + p] == sec[p]
  {
    assert cur[a + p] == cur[a..a + |sec|][p];
  }

  lemma FlushKeepsPart(cur: string, sec: string)
    requires Contains(cur, sec) && !Blank(sec)
    ensures InOneChunk(FlushOf(cur), TrimNewlines(sec))
  {
    hide IsSpace, TrimNewlines, Blank, At;
    var a: nat :| At(cur, sec, a);
    var part, chunk := TrimNewlines(sec), TrimNewlines(cur);
    PartFits(cur, sec, a);
    AtPrefixes(cur, sec, a, chunk, part);
    assert Contains(FlushOf(cur)[0], part);
  }

  lemma PartFits(cur: string, sec: string, a: nat)
    requires At(cur, sec, a) && !Blank(sec)
    ensures !Blank(cur) && TrimNewlines(sec) <= sec && a + |TrimNewlines(sec)| <= |TrimNewlines(cur)|
  {
    hide IsSpace, TrimNewlines;
    var p := InkedRune(sec);
    var part := TrimNewlines(sec);
    TrimKeeps(sec, p);
    AtIndex(cur, sec, a, p);
    AtIndex(cur, sec, a, |part| - 1);
    NotBlankAt(cur, a + p);
    hide Blank, At;
    LastKept(sec);
    TrimKeeps(cur, a + |part| - 1);
  }

  lemma LastKept(s: string)
    ensures TrimNewlines(s) != "" ==> s[|TrimNewlines(s)| - 1] != '\n'
  {
  }

  ghost predicate Whole(p: Packer, sec: string) {
    Contains(p.cur, sec) || InOneChunk(p.chunks, TrimNewlines(sec))
  }

  lemma AddKeepsWhole(p: Packer, sec: string, size: nat, overlap: nat, old_: string)
    requires size > 0 && !Blank(old_) && Whole(p, old_)
    ensures Whole(Add(p, sec, size, overlap), old_)
  {
    hide Contains, InOneChunk, TrimNewlines, FlushOf, ChunkTextOf, Blank;
    var part := TrimNewlines(old_);
    ContainsMore(p.cur, old_, sec);
    if Contains(p.cur, old_) { FlushKeepsPart(p.cur, old_); }
    MoreChunks(p.chunks, FlushOf(p.cur), part);
    MoreChunks(p.chunks + FlushOf(p.cur), if |sec| > size then ChunkTextOf(sec, size, overlap) else [], part);
  }

  lemma {:induction false} PackAllKeepsWhole(secs: seq<string>, size: nat, overlap: nat, i: nat)
    requires size > 0 && i < |secs| && !Blank(secs[i]) && |secs[i]| <= size
    ensures Whole(PackAll(secs, size, overlap), secs[i])
  {
    hide Whole, Blank;
    var front, sec := secs[..|secs| - 1], secs[|secs| - 1];
    if i < |front| {
      PackAllKeepsWhole(front, size, overlap, i);
      AddKeepsWhole(PackAll(front, size, overlap), sec, size, overlap, secs[i]);
    } else {
      AddedIsWhole(PackAll(front, size, overlap), sec, size, overlap);
    }
  }

  lemma AddedIsWhole(p: Packer, sec: string, size: nat, overlap: nat)
    requires size > 0 && |sec| <= size
    ensures Whole(Add(p, sec, size, overlap), sec)
  {
    ContainsMore(p.cur, sec, "");
    ContainsMore("", sec, "");
    assert "" + sec == sec;
  }

  lemma SectionStaysWhole(secs: seq<string>, size: nat, overlap: nat, i: nat)
    requires size > 0 && i < |secs| && !Blank(secs[i]) && |secs[i]| <= size
    ensures InOneChunk(MarkdownChunks(secs, size, overlap), TrimNewlines(secs[i]))
  {
    PackAllKeepsWhole(secs, size, overlap, i);
    var p := PackAll(secs, size, overlap);
    hide InOneChunk, Contains, Blank, TrimNewlines, FlushOf, PackAll;
    if Contains(p.cur, secs[i]) { FlushKeepsPart(p.cur, secs[i]); }
    MoreChunks(p.chunks, FlushOf(p.cur), TrimNewlines(secs[i]));
  }

  // --- Few chunks ------------------------------------------------------------------------

  function Sum(xs: seq<nat>): nat { if xs == [] then 0 else Sum(xs[..|xs| - 1]) + xs[|xs| - 1] }

  /** Every two neighbours together exceed the size. */
  ghost predicate PairsExceed(lens: seq<nat>, size: nat) {
    forall i | 0 <= i < |lens| - 1 :: lens[i] + lens[i + 1] > size
  }

  lemma {:induction false} PairBound(lens: seq<nat>, size: nat)
    requires |lens| > 0 && PairsExceed(lens, size)
    ensures (|lens| - 1) * size + lens[|lens| - 1] <= 2 * Sum(lens)
  {
    var n := |lens|;
    if n > 1 {
      var front := lens[..n - 1];
      PairBound(front, size);
      assert lens[n - 2] + lens[n - 1] > size;
      assert (n - 1) * size == (n - 2) * size + size;
    } else {
      assert lens[..0] == [];
    }
  }

  /** The packer after some sections, none oversized or blank: `lens` are the untrimmed
      lengths of the chunks it has emitted. */
  ghost predicate Tally(p: Packer, lens: seq<nat>, size: nat) {
    && |lens| == |p.chunks| && PairsExceed(lens, size)
    && (lens != [] ==> lens[|lens| - 1] + |p.cur| > size)
    && (p.cur != "" ==> !Blank(p.cur))
  }

  lemma AddTallies(p: Packer, lens: seq<nat>, sec: string, size: nat, overlap: nat) returns (more: seq<nat>)
    requires size > 0 && Tally(p, lens, size) && !Blank(sec) && |sec| <= size
    ensures var q := Add(p, sec, size, overlap);
      Tally(q, more, size) && q.cur != "" && Sum(more) + |q.cur| == Sum(lens) + |p.cur| + |sec|
  {
    NotBlank(sec);
    if |p.cur| > 0 && |p.cur| + |sec| > size {
      hide Blank, TrimNewlines, ChunkTextOf;
      more := lens + [|p.cur|];
      assert more[..|lens|] == lens;
      assert |FlushOf(p.cur)| == 1;
    } else {
      BlankParts(p.cur, sec);
      hide Blank;
      more := lens;
    }
  }

  lemma {:induction false} PackedLengths(secs: seq<string>, size: nat, overlap: nat) returns (lens: seq<nat>)
    requires size > 0 && forall i | 0 <= i < |secs| :: !Blank(secs[i]) && |secs[i]| <= size
    ensures var p := PackAll(secs, size, overlap);
      Tally(p, lens, size) && Sum(lens) + |p.cur| == |Flat(secs)| && (secs != [] ==> p.cur != "")
  {
    hide Add, Blank, Sum;
    if secs == [] {
      NothingTallied(size);
      return [];
    }
    var front, sec := secs[..|secs| - 1], secs[|secs| - 1];
    var first := PackedLengths(front, size, overlap);
    hide Tally;
    lens := AddTallies(PackAll(front, size, overlap), first, sec, size, overlap);
    FlatSnoc(front, sec);
    assert front + [sec] == secs;
  }

  lemma NothingTallied(size: nat)
    ensures Tally(Packer([], ""), [], size) && Sum([]) == 0
  {
  }

  lemma NotBlank(s: string)
    requires !Blank(s)
    ensures s != ""
  {
  }

  lemma BlankParts(a: string, b: string)
    ensures Blank(a + b) ==> Blank(b)
  {
    if Blank(a + b) {
      forall i | 0 <= i < |b| ensures IsSpace(b[i]) { assert (a + b)[|a| + i] == b[i]; }
    }
  }

  lemma TallyEnds(p: Packer, lens: seq<nat>, size: nat)
    requires Tally(p, lens, size) && p.cur != ""
    ensures |FlushOf(p.cur)| == 1 && PairsExceed(lens + [|p.cur|], size)
    ensures Sum(lens + [|p.cur|]) == Sum(lens) + |p.cur|
  {
    hide Blank, TrimNewlines;
    assert (lens + [|p.cur|])[..|lens|] == lens;
  }

  lemma ChunkLengths(secs: seq<string>, size: nat, overlap: nat) returns (lens: seq<nat>)
    requires size > 0 && secs != [] && forall i | 0 <= i < |secs| :: !Blank(secs[i]) && |secs[i]| <= size
    ensures |lens| == |MarkdownChunks(secs, size, overlap)| > 0 && PairsExceed(lens, size)
    ensures Sum(lens) == |Flat(secs)| && lens[|lens| - 1] > 0
  {
    hide Blank, PackAll, Flat, FlushOf, Sum, PairsExceed;
    var first := PackedLengths(secs, size, overlap);
    var p := PackAll(secs, size, overlap);
    TallyEnds(p, first, size);
    lens := first + [|p.cur|];
  }

  /** Next-fit: with no oversized section, k chunks of L runes satisfy (k-1)*size < 2*L. */
  lemma FewChunks(secs: seq<string>, size: nat, overlap: nat)
    requires size > 0 && forall i | 0 <= i < |secs| :: !Blank(secs[i]) && |secs[i]| <= size
    ensures var chunks := MarkdownChunks(secs, size, overlap); chunks == [] || (|chunks| - 1) * size < 2 * |Flat(secs)|
  {
    if secs != [] {
      var lens := ChunkLengths(secs, size, overlap);
      hide Blank, MarkdownChunks, Flat;
      PairBound(lens, size);
    }
  }

  // --- Which sections make which chunk -----------------------------------------------------

  /** The part made of the sections from lo up to hi: the windows of one that is over the size,
      or one chunk of as many whole sections as fit together, without the newlines at its end. */
  ghost predicate Group(secs: seq<string>, lo: nat, hi: nat, part: seq<string>, size: nat, overlap: nat) {
    lo < hi <= |secs| &&
    if |secs[lo]| > size then hi == lo + 1 && Windowed(secs[lo], part, size, overlap)
    else
      var all := Flat(secs[lo..hi]);
      && |all| <= size && (hi < |secs| ==> |all| + |secs[hi]| > size)
      && part == if Blank(all) then [] else [TrimNewlines(all)]
  }

  /** The chunks of the first n sections are those of such groups, one after another. */
  ghost predicate Packed(secs: seq<string>, n: nat, chunks: seq<string>, size: nat, overlap: nat) {
    if n == 0 then chunks == []
    else exists lo, m ::
      && 0 <= lo < n && 0 <= m <= |chunks|
      && Group(secs, lo, n, chunks[m..], size, overlap) && Packed(secs, lo, chunks[..m], size, overlap)
  }

  lemma AddGroup(secs: seq<string>, lo: nat, hi: nat, chunks: seq<string>, part: seq<string>, size: nat, overlap: nat)
    requires Packed(secs, lo, chunks, size, overlap) && Group(secs, lo, hi, part, size, overlap)
    ensures Packed(secs, hi, chunks + part, size, overlap)
  {
    hide Group;
    var all := chunks + part;
    assert lo < hi by { GroupIsNotEmpty(secs, lo, hi, part, size, overlap); }
    assert all[|chunks|..] == part && all[..|chunks|] == chunks;
  }

  lemma GroupIsNotEmpty(secs: seq<string>, lo: nat, hi: nat, part: seq<string>, size: nat, overlap: nat)
    requires Group(secs, lo, hi, part, size, overlap)
    ensures lo < hi
  {
  }

  /** The text collected so far is that of the sections since the last group. */
  ghost predicate Collecting(secs: seq<string>, lo: nat, k: nat, cur: string, size: nat) {
    lo <= k <= |secs| && cur == Flat(secs[lo..k]) && |cur| <= size && (lo < k ==> |secs[lo]| <= size)
  }

  lemma Flushed(secs: seq<string>, lo: nat, k: nat, chunks: seq<string>, cur: string, size: nat, overlap: nat)
    requires Packed(secs, lo, chunks, size, overlap) && Collecting(secs, lo, k, cur, size)
    requires k < |secs| ==> |cur| + |secs[k]| > size
    ensures Packed(secs, k, chunks + FlushOf(cur), size, overlap)
  {
    hide Packed, Blank, TrimNewlines;
    if lo < k {
      AddGroup(secs, lo, k, chunks, FlushOf(cur), size, overlap);
    } else {
      BlankEmpty();
      assert chunks + FlushOf(cur) == chunks;
    }
  }

  lemma BlankEmpty()
    ensures Blank("")
  {
  }

  lemma Collects(secs: seq<string>, lo: nat, k: nat, cur: string, size: nat)
    requires Collecting(secs, lo, k, cur, size) && k < |secs| && |cur| + |secs[k]| <= size
    ensures Collecting(secs, lo, k + 1, cur + secs[k], size)
  {
    FlatSnoc(secs[lo..k], secs[k]);
    assert secs[lo..k] + [secs[k]] == secs[lo..k + 1];
  }

  lemma StartsEmpty(secs: seq<string>, k: nat, size: nat)
    requires k <= |secs|
    ensures Collecting(secs, k, k, "", size)
  {
  }

  lemma WindowGroup(secs: seq<string>, k: nat, chunks: seq<string>, size: nat, overlap: nat)
    requires 0 < size && k < |secs| && |secs[k]| > size && Packed(secs, k, chunks, size, overlap)
    ensures Packed(secs, k + 1, chunks + ChunkTextOf(secs[k], size, overlap), size, overlap)
  {
    hide Packed, ChunkTextOf, Windowed;
    ChunkTextIsWindowed(secs[k], size, overlap);
    AddGroup(secs, k, k + 1, chunks, ChunkTextOf(secs[k], size, overlap), size, overlap);
  }

  lemma AddPacks(secs: seq<string>, lo: nat, k: nat, p: Packer, size: nat, overlap: nat) returns (next: nat)
    requires size > 0 && k < |secs| && Packed(secs, lo, p.chunks, size, overlap)
    requires Collecting(secs, lo, k, p.cur, size)
    ensures var q := Add(p, secs[k], size, overlap);
      Packed(secs, next, q.chunks, size, overlap) && Collecting(secs, next, k + 1, q.cur, size)
  {
    hide Packed, Collecting, FlushOf, ChunkTextOf;
    var sec := secs[k];
    next := lo;
    if |sec| > size {
      Flushed(secs, lo, k, p.chunks, p.cur, size, overlap);
      WindowGroup(secs, k, p.chunks + FlushOf(p.cur), size, overlap);
      StartsEmpty(secs, k + 1, size);
      next := k + 1;
    } else if |p.cur| > 0 && |p.cur| + |sec| > size {
      Flushed(secs, lo, k, p.chunks, p.cur, size, overlap);
      StartsEmpty(secs, k, size);
      Collects(secs, k, k, "", size);
      assert "" + sec == sec;
      next := k;
    } else {
      Collects(secs, lo, k, p.cur, size);
    }
  }

  lemma {:induction false} PackAllPacks(secs: seq<string>, k: nat, size: nat, overlap: nat) returns (lo: nat)
    requires size > 0 && k <= |secs|
    ensures var p := PackAll(secs[..k], size, overlap);
      Packed(secs, lo, p.chunks, size, overlap) && Collecting(secs, lo, k, p.cur, size)
  {
    if k == 0 {
      StartsEmpty(secs, 0, size);
      return 0;
    }
    hide Packed, Collecting, Add;
    lo := PackAllPacks(secs, k - 1, size, overlap);
    assert secs[..k][..k - 1] == secs[..k - 1];
    lo := AddPacks(secs, lo, k - 1, PackAll(secs[..k - 1], size, overlap), size, overlap);
  }

  lemma MarkdownIsPacked(secs: seq<string>, size: nat, overlap: nat)
    requires size > 0
    ensures Packed(secs, |secs|, MarkdownChunks(secs, size, overlap), size, overlap)
  {
    var lo := PackAllPacks(secs, |secs|, size, overlap);
    hide Packed, FlushOf;
    assert secs[..|secs|] == secs;
    var p := PackAll(secs, size, overlap);
    hide PackAll, Collecting;
    Flushed(secs, lo, |secs|, p.chunks, p.cur, size, overlap);
  }

  // --- The whole of chunkMarkdown --------------------------------------------------------

  /** For any text and any headings: the chunks are substrings, in text order, none blank or
      over the size, of the text without its blank sections, and they cover its non-whitespace
      runes, which are those of the text; a section that fits lies in one chunk; and without
      oversized sections there are few. */
  method ChunkMarkdown(text: string, heads: seq<nat>, size: nat, overlap: nat) returns (chunks: seq<string>)
    requires size > 0 && forall i | 0 <= i < |heads| :: heads[i] <= |text|
    ensures Chunked(Flat(Sections(text, heads)), chunks, size) && Ink(Flat(Sections(text, heads))) == Ink(text)
    ensures Packed(Sections(text, heads), |Sections(text, heads)|, chunks, size, overlap)
    ensures forall i | 0 <= i < |Sections(text, heads)| && |Sections(text, heads)[i]| <= size ::
              InOneChunk(chunks, TrimNewlines(Sections(text, heads)[i]))
    ensures (forall i | 0 <= i < |Sections(text, heads)| :: |Sections(text, heads)[i]| <= size)
      ==> chunks == [] || (|chunks| - 1) * size < 2 * |text|
  {
    hide Chunked, InOneChunk, Ink, MarkdownChunks, Blank, TrimNewlines, Packed;
    var secs := SplitMarkdownSections(text, heads);
    chunks := ChunkSections(secs, size, overlap);
    SectionsLoseNothing(text, heads);
    SectionsChunk(secs, size, overlap);
    MarkdownIsPacked(secs, size, overlap);
    hide Sections;
    forall i | 0 <= i < |secs| && |secs[i]| <= size { SectionStaysWhole(secs, size, overlap, i); }
    if forall i | 0 <= i < |secs| :: |secs[i]| <= size {
      FewChunks(secs, size, overlap);
    }
  }
}
