/** Cutting a document into chunks for embedding: heading-delimited sections packed up to a
    size, and overlapping windows for a section that is too large. Text is a sequence of runes. */
module Chunking {

  /** unicode.IsSpace. */
  predicate IsSpace(c: char) {
    var n := c as int;
    9 <= n <= 13 || n == 0x20 || n == 0x85 || n == 0xA0 || n == 0x1680 || 0x2000 <= n <= 0x200A
    || n == 0x2028 || n == 0x2029 || n == 0x202F || n == 0x205F || n == 0x3000
  }

  /** strings.TrimSpace leaves nothing. */
  predicate Blank(s: string) { forall i | 0 <= i < |s| :: IsSpace(s[i]) }

  /** The non-whitespace runes, in order. */
  function Ink(s: string): string {
    if s == "" then "" else if IsSpace(s[0]) then Ink(s[1..]) else [s[0]] + Ink(s[1..])
  }

  function Flat(pieces: seq<string>): string {
    if pieces == [] then "" else pieces[0] + Flat(pieces[1..])
  }

  function NonBlank(pieces: seq<string>): seq<string> {
    if pieces == [] then []
    else if Blank(pieces[0]) then NonBlank(pieces[1..]) else [pieces[0]] + NonBlank(pieces[1..])
  }

  /** strings.TrimRight(s, "\n"). */
  function TrimNewlines(s: string): (r: string)
    ensures r <= s && forall i | |r| <= i < |s| :: s[i] == '\n'
    ensures r != "" ==> r[|r| - 1] != '\n'
  {
    if s != "" && s[|s| - 1] == '\n' then TrimNewlines(s[..|s| - 1]) else s
  }

  lemma {:induction false} InkJoins(a: string, b: string)
    ensures Ink(a + b) == Ink(a) + Ink(b)
  {
    if a == "" {
      assert a + b == b;
    } else {
      assert (a + b)[1..] == a[1..] + b;
      InkJoins(a[1..], b);
    }
  }

  lemma {:induction false} BlankHasNoInk(s: string)
    ensures Blank(s) <==> Ink(s) == ""
  {
    if s != "" {
      BlankHasNoInk(s[1..]);
      assert Blank(s) <==> IsSpace(s[0]) && Blank(s[1..]);
    }
  }

  // --- Sections --------------------------------------------------------------------------

  /** The start of the line that position h is on. */
  function LineStart(text: string, h: nat): (r: nat)
    requires h <= |text|
    ensures r <= h && (r > 0 ==> text[r - 1] == '\n')
    ensures forall i | r <= i < h :: text[i] != '\n'
  {
    if h > 0 && text[h - 1] != '\n' then LineStart(text, h - 1) else h
  }

  /** Section starts for the heading positions the markdown parser reports, in its order. */
  function Cuts(text: string, heads: seq<nat>): (cuts: seq<nat>)
    requires forall i | 0 <= i < |heads| :: heads[i] <= |text|
    ensures |cuts| > 0 && cuts[0] == 0
  {
    if heads == [] then [0]
    else
      var rest := Cuts(text, heads[..|heads| - 1]);
      var start := LineStart(text, heads[|heads| - 1]);
      if start > rest[|rest| - 1] then rest + [start] else rest
  }

  ghost predicate ValidCuts(text: string, cuts: seq<nat>) {
    && |cuts| > 0 && cuts[0] == 0
    && (forall i, j | 0 <= i < j < |cuts| :: cuts[i] < cuts[j])
    && (forall i | 0 <= i < |cuts| :: cuts[i] <= |text|)
    && (forall i | 0 < i < |cuts| :: text[cuts[i] - 1] == '\n')
  }

  /** Whatever the parser reports, the cuts strictly increase and lie at line starts. */
  lemma {:induction false} CutsAreValid(text: string, heads: seq<nat>)
    requires forall i | 0 <= i < |heads| :: heads[i] <= |text|
    ensures ValidCuts(text, Cuts(text, heads))
  {
    hide ValidCuts, LineStart;
    if heads == [] {
      FirstCut(text);
    } else {
      var rest, start := Cuts(text, heads[..|heads| - 1]), LineStart(text, heads[|heads| - 1]);
      CutsAreValid(text, heads[..|heads| - 1]);
      if start > rest[|rest| - 1] { CutSnoc(text, rest, start); }
    }
  }

  lemma FirstCut(text: string)
    ensures ValidCuts(text, [0])
  {
  }

  lemma CutSnoc(text: string, cuts: seq<nat>, start: nat)
    requires ValidCuts(text, cuts) && start <= |text| && start > cuts[|cuts| - 1] && text[start - 1] == '\n'
    ensures ValidCuts(text, cuts + [start])
  {
  }

  /** For headings reported in text order every heading line opens a section. */
  lemma {:induction false} HeadingsAreCuts(text: string, heads: seq<nat>, k: nat)
    requires forall i | 0 <= i < |heads| :: heads[i] <= |text|
    requires forall i, j | 0 <= i < j < |heads| :: heads[i] <= heads[j]
    requires k < |heads|
    ensures LineStart(text, heads[k]) in Cuts(text, heads)
  {
    var last := |heads| - 1;
    LastCut(text, heads);
    if k < last {
      HeadingsAreCuts(text, heads[..last], k);
    } else {
      assert Cuts(text, heads)[|Cuts(text, heads)| - 1] in Cuts(text, heads);
    }
  }

  lemma {:induction false} LastCut(text: string, heads: seq<nat>)
    requires forall i | 0 <= i < |heads| :: heads[i] <= |text|
    requires forall i, j | 0 <= i < j < |heads| :: heads[i] <= heads[j]
    requires heads != []
    ensures Cuts(text, heads)[|Cuts(text, heads)| - 1] == LineStart(text, heads[|heads| - 1])
  {
    var last := |heads| - 1;
    if last > 0 {
      LastCut(text, heads[..last]);
      LineStartMonotone(text, heads[last - 1], heads[last]);
    } else {
      assert heads[..0] == [];
    }
    hide LineStart;
  }

  lemma LineStartMonotone(text: string, a: nat, b: nat)
    requires a <= b <= |text|
    ensures LineStart(text, a) <= LineStart(text, b)
  {
  }

  /** The unfiltered sections from the k-th on. */
  function Pieces(text: string, cuts: seq<nat>, k: nat): seq<string>
    requires ValidCuts(text, cuts) && k <= |cuts|
    decreases |cuts| - k
  {
    if k == |cuts| then []
    else [text[cuts[k]..if k + 1 < |cuts| then cuts[k + 1] else |text|]] + Pieces(text, cuts, k + 1)
  }

  lemma {:induction false} PiecesJoin(text: string, cuts: seq<nat>, k: nat)
    requires ValidCuts(text, cuts) && k < |cuts|
    ensures Flat(Pieces(text, cuts, k)) == text[cuts[k]..]
    decreases |cuts| - k
  {
    if k + 1 < |cuts| {
      PiecesJoin(text, cuts, k + 1);
      assert text[cuts[k]..] == text[cuts[k]..cuts[k + 1]] + text[cuts[k + 1]..];
    } else {
      assert Pieces(text, cuts, k)[1..] == [] && text[cuts[k]..|text|] == text[cuts[k]..];
    }
  }

  lemma {:induction false} DroppingBlanksKeepsInk(pieces: seq<string>)
    ensures Ink(Flat(NonBlank(pieces))) == Ink(Flat(pieces))
    ensures |Flat(NonBlank(pieces))| <= |Flat(pieces)|
  {
    if pieces != [] {
      DroppingBlanksKeepsInk(pieces[1..]);
      InkJoins(pieces[0], Flat(pieces[1..]));
      BlankHasNoInk(pieces[0]);
      if !Blank(pieces[0]) {
        InkJoins(pieces[0], Flat(NonBlank(pieces[1..])));
        assert ([pieces[0]] + NonBlank(pieces[1..]))[1..] == NonBlank(pieces[1..]);
      }
    }
  }

  lemma {:induction false} NonBlankAreNonBlank(pieces: seq<string>)
    ensures forall i | 0 <= i < |NonBlank(pieces)| :: !Blank(NonBlank(pieces)[i])
  {
    if pieces != [] { NonBlankAreNonBlank(pieces[1..]); }
  }

  function Sections(text: string, heads: seq<nat>): seq<string>
    requires forall i | 0 <= i < |heads| :: heads[i] <= |text|
  {
    CutsAreValid(text, heads);
    NonBlank(Pieces(text, Cuts(text, heads), 0))
  }

  /** The sections before dropping blanks concatenate to the text; dropping loses no ink. */
  lemma SectionsLoseNothing(text: string, heads: seq<nat>)
    requires forall i | 0 <= i < |heads| :: heads[i] <= |text|
    ensures ValidCuts(text, Cuts(text, heads)) && Flat(Pieces(text, Cuts(text, heads), 0)) == text
    ensures Ink(Flat(Sections(text, heads))) == Ink(text)
    ensures |Flat(Sections(text, heads))| <= |text|
    ensures forall i | 0 <= i < |Sections(text, heads)| :: !Blank(Sections(text, heads)[i])
  {
    var cuts := Cuts(text, heads);
    CutsAreValid(text, heads);
    PiecesJoin(text, cuts, 0);
    DroppingBlanksKeepsInk(Pieces(text, cuts, 0));
    NonBlankAreNonBlank(Pieces(text, cuts, 0));
  }

  /** The pieces that are not blank, by their positions. */
  ghost predicate PickedAs(pieces: seq<string>, picked: seq<string>, kept: seq<nat>) {
    && |kept| == |picked|
    && (forall i, j | 0 <= i < j < |kept| :: kept[i] < kept[j])
    && (forall j | 0 <= j < |kept| :: kept[j] < |pieces| && picked[j] == pieces[kept[j]] && !Blank(picked[j]))
    && (forall k: nat | k < |pieces| && !Blank(pieces[k]) :: k in kept)
  }

  lemma {:induction false} NonBlankPicks(pieces: seq<string>) returns (kept: seq<nat>)
    ensures PickedAs(pieces, NonBlank(pieces), kept)
  {
    kept := [];
    if pieces != [] {
      var front := pieces[..|pieces| - 1];
      NonBlankSnoc(front, pieces[|pieces| - 1]);
      assert front + [pieces[|pieces| - 1]] == pieces;
      hide Blank, NonBlank;
      kept := NonBlankPicks(front);
      if !Blank(pieces[|pieces| - 1]) { kept := kept + [|front|]; }
    }
  }

  lemma {:induction false} NonBlankSnoc(pieces: seq<string>, last: string)
    ensures NonBlank(pieces + [last]) == NonBlank(pieces) + if Blank(last) then [] else [last]
  {
    hide Blank;
    if pieces == [] {
      assert ([] + [last])[1..] == [];
    } else {
      assert (pieces + [last])[1..] == pieces[1..] + [last];
      NonBlankSnoc(pieces[1..], last);
    }
  }

  /** Where the headings' lines start. */
  ghost function Starts(text: string, heads: seq<nat>): (starts: seq<nat>)
    requires forall i | 0 <= i < |heads| :: heads[i] <= |text|
    ensures |starts| == |heads| && forall k | 0 <= k < |heads| :: starts[k] == LineStart(text, heads[k])
  {
    seq(|heads|, k requires 0 <= k < |heads| => LineStart(text, heads[k]))
  }

  /** The k-th start lies behind the text's and behind every earlier one. */
  ghost predicate Farthest(starts: seq<nat>, k: nat) {
    k < |starts| && starts[k] > 0 && forall j | 0 <= j < k :: starts[j] < starts[k]
  }

  ghost predicate IsCut(starts: seq<nat>, c: nat) {
    c == 0 || exists k: nat :: Farthest(starts, k) && starts[k] == c
  }

  lemma {:induction false} LastCutIsFarthest(text: string, heads: seq<nat>)
    requires forall i | 0 <= i < |heads| :: heads[i] <= |text|
    ensures var last := Cuts(text, heads)[|Cuts(text, heads)| - 1];
      && (forall k | 0 <= k < |heads| :: LineStart(text, heads[k]) <= last)
      && (last == 0 || exists k :: 0 <= k < |heads| && last == LineStart(text, heads[k]))
  {
    hide LineStart;
    if heads != [] {
      var n := |heads| - 1;
      LastCutIsFarthest(text, heads[..n]);
      assert forall k | 0 <= k < n :: heads[..n][k] == heads[k];
    }
  }

  lemma NextCutIsFarther(text: string, heads: seq<nat>)
    requires heads != [] && forall i | 0 <= i < |heads| :: heads[i] <= |text|
    ensures var n, rest := |heads| - 1, Cuts(text, heads[..|heads| - 1]);
      LineStart(text, heads[n]) > rest[|rest| - 1] <==> Farthest(Starts(text, heads), n)
  {
    var n := |heads| - 1;
    LastCutIsFarthest(text, heads[..n]);
    hide LineStart, Cuts;
    assert forall k | 0 <= k < n :: heads[..n][k] == heads[k];
  }

  /** Exactly these are the cuts, whatever the order of the headings. */
  lemma {:induction false} CutsAreHeadingLines(text: string, heads: seq<nat>)
    requires forall i | 0 <= i < |heads| :: heads[i] <= |text|
    ensures forall c: nat :: c in Cuts(text, heads) <==> IsCut(Starts(text, heads), c)
  {
    hide LineStart;
    if heads != [] {
      hide Farthest;
      var n := |heads| - 1;
      var starts := Starts(text, heads);
      CutsAreHeadingLines(text, heads[..n]);
      assert forall j | 0 <= j < n :: starts[j] == LineStart(text, heads[..n][j]);
      assert Starts(text, heads[..n]) == starts[..n];
      NextCutIsFarther(text, heads);
      forall c: nat { FarthestStays(starts, c); }
      hide IsCut;
    }
  }

  lemma FarthestStays(starts: seq<nat>, c: nat)
    requires starts != []
    ensures var n := |starts| - 1;
      IsCut(starts, c) <==> IsCut(starts[..n], c) || (Farthest(starts, n) && c == starts[n])
  {
    var n := |starts| - 1;
    var front := starts[..n];
    forall k: nat | k < n ensures Farthest(starts, k) <==> Farthest(front, k) {
      assert forall j | 0 <= j <= k :: front[j] == starts[j];
    }
    hide Farthest;
    if k: nat :| k < n && Farthest(front, k) && c == front[k] {
      assert Farthest(starts, k) && starts[k] == c;
    }
    if k: nat :| k < n && Farthest(starts, k) && c == starts[k] {
      assert Farthest(front, k) && front[k] == c;
    }
  }

  ghost function Piece(text: string, cuts: seq<nat>, k: nat): string
    requires ValidCuts(text, cuts) && k < |cuts|
  {
    text[cuts[k]..if k + 1 < |cuts| then cuts[k + 1] else |text|]
  }

  /** The text cut there, and nowhere else. */
  ghost predicate CutAt(text: string, cuts: seq<nat>, pieces: seq<string>)
    requires ValidCuts(text, cuts)
  {
    |pieces| == |cuts| && forall k | 0 <= k < |cuts| :: pieces[k] == Piece(text, cuts, k)
  }

  lemma {:induction false} PiecesAreCut(text: string, cuts: seq<nat>, m: nat)
    requires ValidCuts(text, cuts) && m <= |cuts|
    ensures |Pieces(text, cuts, m)| == |cuts| - m
    ensures forall k | m <= k < |cuts| :: Pieces(text, cuts, m)[k - m] == Piece(text, cuts, k)
    decreases |cuts| - m
  {
    if m < |cuts| {
      PiecesAreCut(text, cuts, m + 1);
      var ps, rest := Pieces(text, cuts, m), Pieces(text, cuts, m + 1);
      assert ps == [Piece(text, cuts, m)] + rest;
      hide ValidCuts, Pieces, Piece;
      forall k | m <= k < |cuts| ensures ps[k - m] == Piece(text, cuts, k) {
        if k > m { assert ps[k - m] == rest[k - (m + 1)]; }
      }
    }
  }

  /** The sections are the text's pieces between the cuts that are not blank, in order. */
  ghost predicate SplitAs(text: string, heads: seq<nat>, sections: seq<string>, cuts: seq<nat>, pieces: seq<string>,
                          kept: seq<nat>)
    requires forall i | 0 <= i < |heads| :: heads[i] <= |text|
  {
    && ValidCuts(text, cuts) && (forall c: nat :: c in cuts <==> IsCut(Starts(text, heads), c))
    && CutAt(text, cuts, pieces) && PickedAs(pieces, sections, kept)
  }

  lemma SectionsAreSplit(text: string, heads: seq<nat>)
    requires forall i | 0 <= i < |heads| :: heads[i] <= |text|
    ensures exists cuts, pieces, kept :: SplitAs(text, heads, Sections(text, heads), cuts, pieces, kept)
  {
    hide ValidCuts, IsCut, PickedAs, NonBlank, Cuts, Pieces, Piece;
    CutsAreValid(text, heads);
    CutsAreHeadingLines(text, heads);
    var cuts := Cuts(text, heads);
    PiecesAreCut(text, cuts, 0);
    var pieces := Pieces(text, cuts, 0);
    forall k | 0 <= k < |cuts| ensures pieces[k] == Piece(text, cuts, k) {
      assert pieces[k - 0] == Piece(text, cuts, k);
    }
    var kept := NonBlankPicks(pieces);
    assert SplitAs(text, heads, Sections(text, heads), cuts, pieces, kept);
  }

  method FindCuts(text: string, heads: seq<nat>) returns (cuts: seq<nat>)
    requires forall i | 0 <= i < |heads| :: heads[i] <= |text|
    ensures cuts == Cuts(text, heads)
  {
    cuts := [0];
    for k := 0 to |heads|
      invariant cuts == Cuts(text, heads[..k])
    {
      var start := heads[k];
      while start > 0 && text[start - 1] != '\n'
        invariant 0 <= start <= heads[k] && LineStart(text, start) == LineStart(text, heads[k])
      {
        start := start - 1;
      }
      assert heads[..k + 1][..k] == heads[..k];
      if start > cuts[|cuts| - 1] {
        cuts := cuts + [start];
      }
    }
    assert heads[..|heads|] == heads;
  }

  method SplitMarkdownSections(text: string, heads: seq<nat>) returns (sections: seq<string>)
    requires forall i | 0 <= i < |heads| :: heads[i] <= |text|
    ensures sections == Sections(text, heads)
    ensures exists cuts, pieces, kept :: SplitAs(text, heads, sections, cuts, pieces, kept)
  {
    hide IsSpace, Blank, Cuts, SplitAs;
    CutsAreValid(text, heads);
    SectionsAreSplit(text, heads);
    var cuts := FindCuts(text, heads);
    sections := [];
    for i := 0 to |cuts|
      invariant Sections(text, heads) == sections + NonBlank(Pieces(text, cuts, i))
    {
      var end := |text|;
      if i + 1 < |cuts| { end := cuts[i + 1]; }
      assert Pieces(text, cuts, i)[1..] == Pieces(text, cuts, i + 1);
      if !Blank(text[cuts[i]..end]) {
        sections := sections + [text[cuts[i]..end]];
      }
    }
  }

  // --- What chunking promises ------------------------------------------------------------

  datatype Span = Span(lo: nat, hi: nat)

  ghost predicate SpanOf(text: string, chunk: string, span: Span, size: nat) {
    span.lo < span.hi <= |text| && chunk == text[span.lo..span.hi] && !Blank(chunk) && |chunk| <= size
  }

  ghost predicate Covered(spans: seq<Span>, p: int) {
    exists i :: 0 <= i < |spans| && spans[i].lo <= p < spans[i].hi
  }

  /** The chunks are substrings of the text at these spans: in text order, none blank, none
      over the size, and together they cover every non-whitespace position. */
  ghost predicate ChunkedAs(text: string, chunks: seq<string>, spans: seq<Span>, size: nat) {
    && |spans| == |chunks|
    && (forall i | 0 <= i < |spans| :: SpanOf(text, chunks[i], spans[i], size))
    && (forall i, j | 0 <= i < j < |spans| :: spans[i].lo < spans[j].lo)
    && (forall p | 0 <= p < |text| :: IsSpace(text[p]) || Covered(spans, p))
  }

  ghost predicate Chunked(text: string, chunks: seq<string>, size: nat) {
    exists spans :: ChunkedAs(text, chunks, spans, size)
  }

  function Shift(spans: seq<Span>, d: nat): (r: seq<Span>)
    ensures |r| == |spans| && forall i | 0 <= i < |r| :: r[i] == Span(spans[i].lo + d, spans[i].hi + d)
  {
    seq(|spans|, i requires 0 <= i < |spans| => Span(spans[i].lo + d, spans[i].hi + d))
  }

  lemma SpanStays(text: string, chunk: string, span: Span, size: nat, after: string)
    requires SpanOf(text, chunk, span, size)
    ensures SpanOf(text + after, chunk, span, size)
  {
    assert (text + after)[span.lo..span.hi] == text[span.lo..span.hi];
  }

  lemma CoverStays(spans: seq<Span>, p: int, after: seq<Span>)
    requires Covered(spans, p)
    ensures Covered(spans + after, p)
  {
    var i :| 0 <= i < |spans| && spans[i].lo <= p < spans[i].hi;
    assert (spans + after)[i] == spans[i];
  }

  lemma SpanShifts(before: string, text: string, chunk: string, span: Span, size: nat)
    requires SpanOf(text, chunk, span, size)
    ensures SpanOf(before + text, chunk, Span(span.lo + |before|, span.hi + |before|), size)
  {
    assert (before + text)[span.lo + |before|..span.hi + |before|] == text[span.lo..span.hi];
  }

  lemma CoverShifts(before: seq<Span>, spans: seq<Span>, p: int, d: nat)
    requires Covered(spans, p)
    ensures Covered(before + Shift(spans, d), p + d)
  {
    var i :| 0 <= i < |spans| && spans[i].lo <= p < spans[i].hi;
    assert (before + Shift(spans, d))[|before| + i] == Span(spans[i].lo + d, spans[i].hi + d);
  }

  /** The chunks of a suffix, placed in the whole text; `head` covers what comes before. */
  lemma PlaceChunks(before: string, text: string, heads: seq<string>, headSpans: seq<Span>,
                    chunks: seq<string>, spans: seq<Span>, size: nat)
    requires ChunkedAs(text, chunks, spans, size)
    requires |heads| == |headSpans|
      && forall i | 0 <= i < |heads| :: SpanOf(before + text, heads[i], headSpans[i], size)
    requires forall i | 0 <= i < |headSpans| :: headSpans[i].lo < |before|
    requires forall i, j | 0 <= i < j < |headSpans| :: headSpans[i].lo < headSpans[j].lo
    requires forall p | 0 <= p < |before| :: IsSpace(before[p]) || Covered(headSpans, p)
    ensures ChunkedAs(before + text, heads + chunks, headSpans + Shift(spans, |before|), size)
  {
    hide IsSpace, SpanOf, Covered;
    var all := headSpans + Shift(spans, |before|);
    forall i | 0 <= i < |all| ensures SpanOf(before + text, (heads + chunks)[i], all[i], size) {
      if i >= |heads| { SpanShifts(before, text, chunks[i - |heads|], spans[i - |heads|], size); }
    }
    forall p | 0 <= p < |before + text| ensures IsSpace((before + text)[p]) || Covered(all, p) {
      if p < |before| {
        if !IsSpace(before[p]) { CoverStays(headSpans, p, Shift(spans, |before|)); }
      } else if !IsSpace(text[p - |before|]) {
        CoverShifts(headSpans, spans, p - |before|, |before|);
      }
    }
  }

  /** A first chunk that reaches at least to where the chunks of the rest begin. */
  lemma PrependChunk(text: string, end: nat, step: nat, chunks: seq<string>, spans: seq<Span>, size: nat)
    requires 0 < step <= end <= |text| && end <= size && !Blank(text[..end])
    requires ChunkedAs(text[step..], chunks, spans, size)
    ensures ChunkedAs(text, [text[..end]] + chunks, [Span(0, end)] + Shift(spans, step), size)
  {
    assert text[..step] + text[step..] == text;
    assert SpanOf(text, text[..end], Span(0, end), size);
    forall p | 0 <= p < step ensures Covered([Span(0, end)], p) {
      assert [Span(0, end)][0].lo <= p < [Span(0, end)][0].hi;
    }
    hide ChunkedAs, IsSpace, SpanOf, Covered, Blank;
    PlaceChunks(text[..step], text[step..], [text[..end]], [Span(0, end)], chunks, spans, size);
  }

  lemma PrependBlank(text: string, step: nat, chunks: seq<string>, spans: seq<Span>, size: nat)
    requires step <= |text| && Blank(text[..step]) && ChunkedAs(text[step..], chunks, spans, size)
    ensures ChunkedAs(text, chunks, Shift(spans, step), size)
  {
    hide ChunkedAs, IsSpace, SpanOf, Covered;
    assert text[..step] + text[step..] == text;
    PlaceChunks(text[..step], text[step..], [], [], chunks, spans, size);
    assert [] + chunks == chunks && [] + Shift(spans, step) == Shift(spans, step);
  }

  lemma JoinChunksAs(a: string, b: string, cs: seq<string>, ds: seq<string>, sp: seq<Span>, tp: seq<Span>, size: nat)
    requires ChunkedAs(a, cs, sp, size) && ChunkedAs(b, ds, tp, size)
    ensures ChunkedAs(a + b, cs + ds, sp + Shift(tp, |a|), size)
  {
    forall i | 0 <= i < |sp| ensures SpanOf(a + b, cs[i], sp[i], size) && sp[i].lo < |a| {
      assert SpanOf(a, cs[i], sp[i], size);
      SpanStays(a, cs[i], sp[i], size, b);
    }
    PlaceChunks(a, b, cs, sp, ds, tp, size);
  }

  /** Chunks of two texts in a row are chunks of their concatenation. */
  lemma JoinChunks(a: string, b: string, cs: seq<string>, ds: seq<string>, size: nat)
    requires Chunked(a, cs, size) && Chunked(b, ds, size)
    ensures Chunked(a + b, cs + ds, size)
  {
    hide ChunkedAs;
    var sp: seq<Span> :| ChunkedAs(a, cs, sp, size);
    var tp: seq<Span> :| ChunkedAs(b, ds, tp, size);
    JoinChunksAs(a, b, cs, ds, sp, tp, size);
  }

  // --- Windows ---------------------------------------------------------------------------

  function Step(size: nat, overlap: nat): (step: nat)
    requires size > 0
    ensures 0 < step <= size
  {
    if size - overlap <= 0 then size else size - overlap
  }

  /** The unfiltered windows from position i on. */
  function WindowsFrom(text: string, i: nat, size: nat, step: nat): seq<string>
    requires 0 < step <= size && i <= |text|
    decreases |text| - i
  {
    if i + size >= |text| then [text[i..]] else [text[i..i + size]] + WindowsFrom(text, i + step, size, step)
  }

  /** The first window and what each later one adds behind the overlap. */
  function Rebuild(windows: seq<string>, overlap: nat): string {
    if windows == [] then "" else windows[0] + Additions(windows[1..], overlap)
  }

  function Additions(windows: seq<string>, overlap: nat): string {
    if windows == [] then ""
    else (if overlap <= |windows[0]| then windows[0][overlap..] else "") + Additions(windows[1..], overlap)
  }

  lemma {:induction false} WindowAdditions(text: string, i: nat, size: nat, step: nat)
    requires 0 < step <= size && i + (size - step) <= |text|
    ensures Additions(WindowsFrom(text, i, size, step), size - step) == text[i + (size - step)..]
    decreases |text| - i
  {
    var overlap := size - step;
    if i + size >= |text| {
      assert WindowsFrom(text, i, size, step)[1..] == [];
      assert text[i..][overlap..] == text[i + overlap..];
    } else {
      WindowAdditions(text, i + step, size, step);
      var rest := WindowsFrom(text, i + step, size, step);
      var first := text[i..i + size];
      assert WindowsFrom(text, i, size, step) == [first] + rest;
      assert Additions([first] + rest, overlap) == first[overlap..] + Additions(rest, overlap) by {
        assert ([first] + rest)[1..] == rest;
      }
      CutWindow(text, i, size, overlap);
    }
  }

  lemma CutWindow(text: string, i: nat, size: nat, overlap: nat)
    requires overlap <= size && i + size <= |text|
    ensures text[i..i + size][overlap..] + text[i + size..] == text[i + overlap..]
  {
  }

  /** Round trip: the windows of a text, with their overlaps removed, are the text again. */
  lemma WindowsRebuild(text: string, size: nat, step: nat)
    requires 0 < step <= size
    ensures Rebuild(WindowsFrom(text, 0, size, step), size - step) == text
  {
    var ws := WindowsFrom(text, 0, size, step);
    if size < |text| {
      WindowAdditions(text, step, size, step);
      assert ws[1..] == WindowsFrom(text, step, size, step);
      assert text[0..size] + text[size..] == text;
    } else {
      assert ws == [text] && ws[1..] == [];
    }
  }

  /** Exact count: beyond the first, one window for each step, rounded up, by which the text
      exceeds the size. */
  lemma {:induction false} WindowCount(text: string, i: nat, size: nat, step: nat)
    requires 0 < step <= size && i + size < |text|
    ensures var later := |WindowsFrom(text, i, size, step)| - 1;
      step * (later - 1) < |text| - i - size <= step * later
    decreases |text| - i
  {
    var rest := WindowsFrom(text, i + step, size, step);
    if i + step + size < |text| {
      WindowCount(text, i + step, size, step);
      assert step * |rest| == step * (|rest| - 1) + step && step * (|rest| - 1) == step * (|rest| - 2) + step;
    } else {
      assert |rest| == 1;
    }
  }

  function ChunkTextOf(text: string, size: nat, overlap: nat): seq<string>
    requires size > 0
  {
    if |text| <= size then (if Blank(text) then [] else [text])
    else NonBlank(WindowsFrom(text, 0, size, Step(size, overlap)))
  }

  /** One turn of the window loop. */
  lemma WindowStep(text: string, i: nat, end: nat, size: nat, step: nat)
    requires 0 < step <= size && i < |text| && end == (if i + size > |text| then |text| else i + size)
    ensures end < |text| ==> i + step < |text|
    ensures NonBlank(WindowsFrom(text, i, size, step))
      == (if Blank(text[i..end]) then [] else [text[i..end]])
         + if end == |text| then [] else NonBlank(WindowsFrom(text, i + step, size, step))
  {
    hide Blank;
    var ws := WindowsFrom(text, i, size, step);
    if end == |text| {
      assert text[i..end] == text[i..];
      assert ws[1..] == [];
    } else {
      assert ws[1..] == WindowsFrom(text, i + step, size, step);
    }
  }

  lemma NoChunks(size: nat)
    ensures ChunkedAs("", [], [], size)
  {
  }

  lemma {:induction false} WindowsChunk(text: string, i: nat, size: nat, step: nat) returns (spans: seq<Span>)
    requires 0 < step <= size && i < |text|
    ensures ChunkedAs(text[i..], NonBlank(WindowsFrom(text, i, size, step)), spans, size)
    decreases |text| - i
  {
    hide ChunkedAs, Blank, WindowsFrom, NonBlank;
    var tail := text[i..];
    var end := if i + size > |text| then |text| else i + size;
    WindowStep(text, i, end, size, step);
    assert tail[..end - i] == text[i..end];
    var rest: seq<string> := [];
    var move := |tail|;
    spans := [];
    NoChunks(size);
    assert end == |text| ==> tail[move..] == "";
    if end < |text| {
      move, rest := step, NonBlank(WindowsFrom(text, i + step, size, step));
      spans := WindowsChunk(text, i + step, size, step);
      assert tail[move..] == text[i + move..];
    }
    if Blank(tail[..end - i]) {
      BlankPrefix(tail, end - i, move);
      PrependBlank(tail, move, rest, spans, size);
      assert [] + rest == rest;
      spans := Shift(spans, move);
    } else {
      PrependChunk(tail, end - i, move, rest, spans, size);
      spans := [Span(0, end - i)] + Shift(spans, move);
    }
  }

  lemma BlankPrefix(s: string, a: nat, b: nat)
    requires b <= a <= |s| && Blank(s[..a])
    ensures Blank(s[..b])
  {
    forall i | 0 <= i < b ensures IsSpace(s[..b][i]) {
      assert s[..a][i] == s[..b][i];
    }
  }

  /** A whole text that fits is one chunk, unless it is blank. */
  lemma WholeChunk(text: string, chunk: string, size: nat)
    requires |text| <= size && chunk <= text && !Blank(chunk)
    requires forall p | |chunk| <= p < |text| :: IsSpace(text[p])
    ensures Chunked(text, [chunk], size)
  {
    var span := Span(0, |chunk|);
    assert [span][0].lo == 0;
    assert ChunkedAs(text, [chunk], [span], size);
  }

  lemma BlankChunk(text: string, size: nat)
    requires Blank(text)
    ensures Chunked(text, [], size)
  {
    assert ChunkedAs(text, [], [], size);
  }

  lemma ChunkTextChunks(text: string, size: nat, overlap: nat)
    requires size > 0
    ensures Chunked(text, ChunkTextOf(text, size, overlap), size)
  {
    if |text| > size {
      var spans := WindowsChunk(text, 0, size, Step(size, overlap));
      assert text[0..] == text;
    } else if Blank(text) {
      BlankChunk(text, size);
    } else {
      WholeChunk(text, text, size);
    }
  }

  /** The loop of chunkText, for a text that exceeds the size. */
  method WindowLoop(text: string, size: nat, step: nat) returns (chunks: seq<string>)
    requires 0 < step <= size < |text|
    ensures chunks == NonBlank(WindowsFrom(text, 0, size, step))
  {
    hide Blank, IsSpace, WindowsFrom, NonBlank;
    chunks := [];
    var i := 0;
    while i < |text|
      invariant i < |text|
      invariant NonBlank(WindowsFrom(text, 0, size, step)) == chunks + NonBlank(WindowsFrom(text, i, size, step))
      decreases |text| - i
    {
      var end := if i + size > |text| then |text| else i + size;
      WindowStep(text, i, end, size, step);
      if !Blank(text[i..end]) {
        chunks := chunks + [text[i..end]];
      }
      if end == |text| { return; }
      i := i + step;
    }
  }

  // --- The windows by their number -------------------------------------------------------

  function Offset(k: nat, step: nat): nat { k * step }

  /** There is a k-th window if the one before it ends short of the text's end. */
  ghost predicate HasWindow(text: string, size: nat, step: nat, k: nat) {
    Offset(k, step) < |text| && (k == 0 || Offset(k - 1, step) + size < |text|)
  }

  ghost function Window(text: string, size: nat, step: nat, k: nat): string
    requires HasWindow(text, size, step, k)
  {
    var lo := Offset(k, step);
    text[lo..if lo + size < |text| then lo + size else |text|]
  }

  /** The pieces are all windows from the m-th on. */
  ghost predicate AllFrom(text: string, pieces: seq<string>, m: nat, size: nat, step: nat) {
    && (forall k: nat | m <= k :: HasWindow(text, size, step, k) <==> k < m + |pieces|)
    && (forall k | m <= k < m + |pieces| && HasWindow(text, size, step, k) ::
          pieces[k - m] == Window(text, size, step, k))
  }

  lemma {:induction false} WindowsByNumber(text: string, m: nat, size: nat, step: nat)
    requires 0 < step <= size && HasWindow(text, size, step, m)
    ensures AllFrom(text, WindowsFrom(text, Offset(m, step), size, step), m, size, step)
    decreases |text| - Offset(m, step)
  {
    hide Offset;
    ThisWindow(text, m, size, step);
    var i := Offset(m, step);
    if i + size < |text| {
      WindowsByNumber(text, m + 1, size, step);
      OneMore(text, WindowsFrom(text, i + step, size, step), m, size, step);
    } else {
      assert text[i..] == text[i..|text|];
    }
  }

  lemma OneMore(text: string, rest: seq<string>, m: nat, size: nat, step: nat)
    requires HasWindow(text, size, step, m) && AllFrom(text, rest, m + 1, size, step)
    ensures AllFrom(text, [Window(text, size, step, m)] + rest, m, size, step)
  {
    hide HasWindow, Window;
  }

  lemma ThisWindow(text: string, m: nat, size: nat, step: nat)
    requires 0 < step <= size && HasWindow(text, size, step, m)
    ensures Offset(m + 1, step) == Offset(m, step) + step
    ensures Offset(m, step) + size < |text| ==> HasWindow(text, size, step, m + 1)
    ensures Offset(m, step) + size >= |text| ==> forall k | m < k :: !HasWindow(text, size, step, k)
  {
    Offsets(m, m, step);
    hide Offset;
    if Offset(m, step) + size >= |text| {
      forall k | m < k ensures !HasWindow(text, size, step, k) { Offsets(m, k - 1, step); }
    }
  }

  lemma Offsets(a: nat, b: nat, step: nat)
    requires a <= b
    ensures Offset(a, step) <= Offset(b, step) && Offset(b + 1, step) == Offset(b, step) + step
    ensures Offset(0, step) == 0
  {
    assert (b + 1) * step == b * step + step;
  }

  lemma {:induction false} NoneBlank(pieces: seq<string>)
    requires forall k | 0 <= k < |pieces| :: !Blank(pieces[k])
    ensures NonBlank(pieces) == pieces
  {
    if pieces != [] { NoneBlank(pieces[1..]); }
  }

  lemma {:induction false} NothingToCut(windows: seq<string>)
    ensures Additions(windows, 0) == Flat(windows) && Rebuild(windows, 0) == Flat(windows)
  {
    if windows != [] { NothingToCut(windows[1..]); }
  }

  /** The chunks are the windows that are not blank, in order. */
  ghost predicate WindowsPicked(text: string, chunks: seq<string>, kept: seq<nat>, size: nat, step: nat) {
    && |kept| == |chunks|
    && (forall i, j | 0 <= i < j < |kept| :: kept[i] < kept[j])
    && (forall j | 0 <= j < |kept| :: HasWindow(text, size, step, kept[j])
          && chunks[j] == Window(text, size, step, kept[j]) && !Blank(chunks[j]))
    && (forall k: nat | HasWindow(text, size, step, k) && !Blank(Window(text, size, step, k)) :: k in kept)
  }

  ghost predicate NoBlankWindow(text: string, size: nat, step: nat) {
    forall k: nat | HasWindow(text, size, step, k) :: !Blank(Window(text, size, step, k))
  }

  /** Chunk k starts k steps in, and there are just enough to reach the end. */
  ghost predicate Numbered(text: string, chunks: seq<string>, size: nat, step: nat) {
    && (forall k | 0 <= k < |chunks| :: ChunkAt(text, chunks[k], Offset(k, step), size))
    && |chunks| >= 2
    && Offset(|chunks| - 2, step) + size < |text| <= Offset(|chunks| - 1, step) + size
  }

  /** The chunk begins there and has the size, unless the text ends sooner. */
  ghost predicate ChunkAt(text: string, chunk: string, lo: nat, size: nat) {
    lo < |text| && chunk == text[lo..if lo + size < |text| then lo + size else |text|]
  }

  /** What chunkText makes of a text, from its two settings alone. Two windows in a row share
      `overlap` runes; an overlap of the size or more counts as none. */
  ghost predicate Windowed(text: string, chunks: seq<string>, size: nat, overlap: nat) {
    if |text| <= size then chunks == if Blank(text) then [] else [text]
    else
      var step := if overlap < size then size - overlap else size;
      && (exists kept :: WindowsPicked(text, chunks, kept, size, step))
      && (NoBlankWindow(text, size, step) ==>
            && Numbered(text, chunks, size, step)
            && (if overlap < size then Rebuild(chunks, overlap) else Flat(chunks)) == text)
  }

  lemma WindowsAreWindowed(text: string, size: nat, overlap: nat)
    requires 0 < size < |text|
    ensures Windowed(text, NonBlank(WindowsFrom(text, 0, size, Step(size, overlap))), size, overlap)
  {
    hide Blank, NonBlank, WindowsFrom, Rebuild, Flat, Window, WindowsPicked, PickedAs, Numbered, Window, AllFrom;
    var step := Step(size, overlap);
    var ws := WindowsFrom(text, 0, size, step);
    Offsets(0, 0, step);
    WindowsByNumber(text, 0, size, step);
    hide HasWindow, Offset;
    var kept := NonBlankPicks(ws);
    PicksAreWindows(text, ws, NonBlank(ws), kept, size, step);
    if NoBlankWindow(text, size, step) {
      hide NoBlankWindow;
      AllAreKept(text, ws, size, step);
      WindowsRebuild(text, size, step);
      if overlap >= size { NothingToCut(ws); }
      AreNumbered(text, ws, size, step);
    }
  }

  lemma PicksAreWindows(text: string, ws: seq<string>, chunks: seq<string>, kept: seq<nat>, size: nat, step: nat)
    requires AllFrom(text, ws, 0, size, step) && PickedAs(ws, chunks, kept)
    ensures WindowsPicked(text, chunks, kept, size, step)
  {
    hide Blank, HasWindow, Window;
    forall k: nat | HasWindow(text, size, step, k) ensures k < |ws| && ws[k] == Window(text, size, step, k) {
      assert ws[k - 0] == Window(text, size, step, k);
    }
  }

  lemma AllAreKept(text: string, ws: seq<string>, size: nat, step: nat)
    requires AllFrom(text, ws, 0, size, step) && NoBlankWindow(text, size, step)
    ensures NonBlank(ws) == ws
  {
    hide Blank, HasWindow, Window;
    forall k | 0 <= k < |ws| ensures !Blank(ws[k]) {
      assert HasWindow(text, size, step, k) && ws[k - 0] == Window(text, size, step, k);
    }
    NoneBlank(ws);
  }

  lemma AreNumbered(text: string, ws: seq<string>, size: nat, step: nat)
    requires 0 < step <= size < |text| && AllFrom(text, ws, 0, size, step)
    ensures Numbered(text, ws, size, step)
  {
    hide Offset, HasWindow, Window, ChunkAt;
    forall k | 0 <= k < |ws| ensures ChunkAt(text, ws[k], Offset(k, step), size) && HasWindow(text, size, step, k) {
      assert HasWindow(text, size, step, k) && ws[k - 0] == Window(text, size, step, k);
      WindowIsAt(text, size, step, k);
    }
    assert !HasWindow(text, size, step, |ws|);
    JustEnough(text, |ws|, size, step);
  }

  lemma WindowIsAt(text: string, size: nat, step: nat, k: nat)
    requires HasWindow(text, size, step, k)
    ensures ChunkAt(text, Window(text, size, step, k), Offset(k, step), size)
  {
    hide Offset;
  }

  lemma JustEnough(text: string, n: nat, size: nat, step: nat)
    requires 0 < step <= size < |text| && !HasWindow(text, size, step, n)
    requires forall k | 0 <= k < n :: HasWindow(text, size, step, k)
    ensures n >= 2 && Offset(n - 2, step) + size < |text| <= Offset(n - 1, step) + size
  {
    Offsets(0, 0, step);
    hide Offset;
    assert Offset(1, step) == step;
    assert HasWindow(text, size, step, 0) && HasWindow(text, size, step, 1);
    assert n >= 2;
    Offsets(0, n - 1, step);
    assert Offset(n, step) == Offset(n - 1, step) + step;
    assert HasWindow(text, size, step, n - 1);
  }

  lemma ChunkTextIsWindowed(text: string, size: nat, overlap: nat)
    requires size > 0
    ensures Windowed(text, ChunkTextOf(text, size, overlap), size, overlap)
  {
    hide Blank, NonBlank;
    if |text| > size { WindowsAreWindowed(text, size, overlap); }
  }

  method ChunkText(text: string, size: nat, overlap: nat) returns (chunks: seq<string>)
    requires size > 0
    ensures chunks == ChunkTextOf(text, size, overlap) && Chunked(text, chunks, size)
    ensures Windowed(text, chunks, size, overlap)
  {
    hide Blank, WindowsFrom, NonBlank, Chunked;
    ChunkTextChunks(text, size, overlap);
    ChunkTextIsWindowed(text, size, overlap);
    if |text| <= size {
      return if Blank(text) then [] else [text];
    }
    var step := size - overlap;
    if step <= 0 { step := size; }
    chunks := WindowLoop(text, size, step);
  }
}
