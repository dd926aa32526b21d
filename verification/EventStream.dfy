/** The event stream between server and browser: the printer, the line parser that is fed one
    network chunk at a time, and that one undoes the other. A subset of section 9.2.6 of the
    WHATWG HTML Living Standard. Payload decoding is left to the handlers. */
module EventStream {
  datatype Entry = Event(kind: string, data: string) | Comment(text: string)

  /** A dispatched event: the current event name and the raw payload. */
  datatype Message = Message(kind: string, data: string)

  // --- Printing --------------------------------------------------------------------------

  function Printed(e: Entry): string {
    match e
    case Event(kind, data) => "event: " + kind + "\n" + ("data: " + data + "\n" + ("\n" + ""))
    case Comment(text) => ": " + text + "\n" + ("\n" + "")
  }

  function Stream(entries: seq<Entry>): string {
    if entries == [] then "" else Printed(entries[0]) + Stream(entries[1..])
  }

  lemma PrintedText(kind: string, data: string)
    ensures Printed(Event(kind, data)) == "event: " + kind + "\ndata: " + data + "\n\n"
  {
    var a := "event: " + kind;
    assert a + "\n" + ("data: " + data + "\n\n") == a + "\ndata: " + data + "\n\n";
    assert "data: " + data + "\n" + ("\n" + "") == "data: " + data + "\n\n";
  }

  class EventWriter {
    var out: string

    constructor ()
      ensures out == ""
    {
      out := "";
    }

    method WriteEvent(kind: string, data: string)
      modifies this
      ensures out == old(out) + Printed(Event(kind, data))
      ensures out == old(out) + ("event: " + kind + "\ndata: " + data + "\n\n")
    {
      PrintedText(kind, data);
      out := out + ("event: " + kind + "\ndata: " + data + "\n\n");
    }

    method WriteComment(text: string)
      modifies this
      ensures out == old(out) + Printed(Comment(text))
      ensures out == old(out) + (": " + text + "\n\n")
    {
      out := out + (": " + text + "\n\n");
    }
  }

  // --- Text ------------------------------------------------------------------------------

  /** White space and line terminators as String.prototype.trim sees them. */
  predicate IsSpace(c: char) {
    var n := c as int;
    9 <= n <= 13 || n == 0x20 || n == 0xA0 || n == 0x1680 || 0x2000 <= n <= 0x200A || n == 0x2028
    || n == 0x2029 || n == 0x202F || n == 0x205F || n == 0x3000 || n == 0xFEFF
  }

  function TrimStart(s: string): string { if s != "" && IsSpace(s[0]) then TrimStart(s[1..]) else s }

  function TrimEnd(s: string): string {
    if s != "" && IsSpace(s[|s| - 1]) then TrimEnd(s[..|s| - 1]) else s
  }

  function Trim(s: string): string { TrimEnd(TrimStart(s)) }

  /** The stretch of the text between its first and its last rune that is no white space. */
  lemma TrimIs(s: string) returns (a: nat, b: nat)
    ensures a <= b <= |s| && Trim(s) == s[a..b]
    ensures forall i | 0 <= i < |s| && (i < a || b <= i) :: IsSpace(s[i])
    ensures a < b ==> !IsSpace(s[a]) && !IsSpace(s[b - 1])
  {
    a := TrimStartIs(s);
    var front := s[a..];
    var n := TrimEndIs(front);
    b := a + n;
    assert front[..n] == s[a..b] && forall i | n <= i < |front| :: front[i] == s[a + i];
    forall i | b <= i < |s| ensures IsSpace(s[i]) { assert front[i - a] == s[i]; }
  }

  lemma {:induction false} TrimStartIs(s: string) returns (a: nat)
    ensures a <= |s| && TrimStart(s) == s[a..] && (a < |s| ==> !IsSpace(s[a]))
    ensures forall i | 0 <= i < a :: IsSpace(s[i])
  {
    a := 0;
    if s != "" && IsSpace(s[0]) {
      var rest := TrimStartIs(s[1..]);
      a := rest + 1;
      assert forall i | 1 <= i < |s| :: s[1..][i - 1] == s[i];
    }
  }

  lemma {:induction false} TrimEndIs(s: string) returns (n: nat)
    ensures n <= |s| && TrimEnd(s) == s[..n] && (n > 0 ==> !IsSpace(s[n - 1]))
    ensures forall i | n <= i < |s| :: IsSpace(s[i])
  {
    n := |s|;
    if s != "" && IsSpace(s[|s| - 1]) { n := TrimEndIs(s[..|s| - 1]); }
  }

  predicate OneLine(s: string) { '\n' !in s }

  /** split("\n"). */
  function Split(s: string): (lines: seq<string>)
    ensures |lines| > 0
  {
    if s == "" then [""]
    else
      var rest := Split(s[1..]);
      if s[0] == '\n' then [""] + rest else [[s[0]] + rest[0]] + rest[1..]
  }

  /** The pieces with line breaks between them. */
  function Broken(pieces: seq<string>): string {
    if pieces == [] then ""
    else if |pieces| == 1 then pieces[0] else pieces[0] + "\n" + Broken(pieces[1..])
  }

  /** The pieces are lines, and with line breaks between them they are the text. */
  lemma {:induction false} SplitUndone(s: string)
    ensures Broken(Split(s)) == s && forall i | 0 <= i < |Split(s)| :: OneLine(Split(s)[i])
  {
    if s != "" {
      SplitUndone(s[1..]);
      var rest, pieces := Split(s[1..]), Split(s);
      if s[0] == '\n' {
        assert pieces[1..] == rest;
      } else {
        assert pieces[1..] == rest[1..];
      }
    }
  }

  function Lines(s: string): seq<string> { Split(s)[..|Split(s)| - 1] }

  function Unfinished(s: string): string { Split(s)[|Split(s)| - 1] }

  /** Splitting a longer text splits the unfinished line of the shorter one again. */
  lemma SplitJoins(a: string, b: string)
    ensures Lines(a + b) == Lines(a) + Lines(Unfinished(a) + b)
    ensures Unfinished(a + b) == Unfinished(Unfinished(a) + b)
  {
    hide Split;
    SplitResumes(a, b);
  }

  function Extend(c: char, lines: seq<string>): seq<string>
    requires lines != []
  {
    if c == '\n' then [""] + lines else [[c] + lines[0]] + lines[1..]
  }

  lemma SplitCons(c: char, s: string)
    ensures Split([c] + s) == Extend(c, Split(s))
  {
    assert ([c] + s)[1..] == s;
  }

  lemma ExtendJoins(c: char, lines: seq<string>, more: seq<string>)
    requires lines != [] && more != [] && (|lines| > 1 || c == '\n')
    ensures Extend(c, lines[..|lines| - 1] + more) == Extend(c, lines)[..|Extend(c, lines)| - 1] + more
    ensures Extend(c, lines)[|Extend(c, lines)| - 1] == lines[|lines| - 1]
  {
  }

  lemma ResumesBehind(c: char, s: string, b: string)
    requires Split(s + b) == Lines(s) + Split(Unfinished(s) + b) && (|Split(s)| > 1 || c == '\n')
    ensures Split([c] + s + b) == Lines([c] + s) + Split(Unfinished([c] + s) + b)
  {
    hide Split;
    SplitCons(c, s);
    SplitCons(c, s + b);
    assert [c] + s + b == [c] + (s + b);
    ExtendJoins(c, Split(s), Split(Unfinished(s) + b));
  }

  lemma ResumesWithin(c: char, s: string, b: string)
    requires Split(s + b) == Lines(s) + Split(Unfinished(s) + b) && |Split(s)| == 1 && c != '\n'
    ensures Split([c] + s + b) == Lines([c] + s) + Split(Unfinished([c] + s) + b)
  {
    hide Split;
    var u := Unfinished(s);
    SplitCons(c, s);
    SplitCons(c, s + b);
    SplitCons(c, u + b);
    assert [c] + s + b == [c] + (s + b) && [c] + u + b == [c] + (u + b);
    assert Lines(s) == [] && Split([c] + s) == [[c] + u];
    assert Split(s + b) == Split(u + b);
  }

  lemma {:induction false} SplitResumes(a: string, b: string)
    ensures Split(a + b) == Lines(a) + Split(Unfinished(a) + b)
  {
    if a == "" {
      assert a + b == b;
    } else {
      var c, s := a[0], a[1..];
      SplitResumes(s, b);
      hide Split, Lines, Unfinished;
      assert a == [c] + s;
      if |Split(s)| > 1 || c == '\n' { ResumesBehind(c, s, b); } else { ResumesWithin(c, s, b); }
    }
  }

  lemma {:induction false} OneLineSplits(line: string, rest: string)
    requires OneLine(line)
    ensures Lines(line + "\n" + rest) == [line] + Lines(rest) && Unfinished(line + "\n" + rest) == Unfinished(rest)
  {
    if line == "" {
      assert ("\n" + rest)[1..] == rest && line + "\n" + rest == "\n" + rest;
    } else {
      OneLineSplits(line[1..], rest);
      assert (line + "\n" + rest)[1..] == line[1..] + "\n" + rest;
      assert [line[0]] + line[1..] == line;
    }
  }

  // --- Parsing ---------------------------------------------------------------------------

  datatype Parser = Parser(event: string, out: seq<Message>)

  const FRESH := Parser("message", [])

  function OnLine(p: Parser, line: string): Parser {
    if "event: " <= line then p.(event := Trim(line[7..]))
    else if !("data: " <= line) then p
    else if Trim(line[6..]) == "" then p
    else p.(out := p.out + [Message(p.event, Trim(line[6..]))])
  }

  function OnLines(p: Parser, lines: seq<string>): Parser
    decreases |lines|
  {
    if lines == [] then p else OnLines(OnLine(p, lines[0]), lines[1..])
  }

  /** What a complete text dispatches; a last line without its newline is dropped. */
  function Parsed(text: string): seq<Message> { OnLines(FRESH, Lines(text)).out }

  function Flat(chunks: seq<string>): string {
    if chunks == [] then "" else Flat(chunks[..|chunks| - 1]) + chunks[|chunks| - 1]
  }

  lemma {:induction false} OnLinesJoins(p: Parser, a: seq<string>, b: seq<string>)
    ensures OnLines(p, a + b) == OnLines(OnLines(p, a), b)
    decreases |a|
  {
    if a == [] {
      assert a + b == b;
    } else {
      assert (a + b)[1..] == a[1..] + b;
      OnLinesJoins(OnLine(p, a[0]), a[1..], b);
    }
  }

  // --- What is dispatched, line by line --------------------------------------------------

  predicate NamesEvent(line: string) { "event: " <= line }

  /** The line carries a payload that is not blank. */
  predicate HasData(line: string) { "data: " <= line && Trim(line[6..]) != "" }

  /** The event name in force behind the first n lines: that of the last line that gives one. */
  ghost predicate InForce(lines: seq<string>, n: nat, event: string) {
    || (event == "message" && forall k | 0 <= k < n && k < |lines| :: !NamesEvent(lines[k]))
    || exists k: nat :: GivesEvent(lines, n, event, k)
  }

  ghost predicate GivesEvent(lines: seq<string>, n: nat, event: string, k: nat) {
    && k < n && k < |lines| && NamesEvent(lines[k]) && event == Trim(lines[k][7..])
    && forall m | k < m < n && m < |lines| :: !NamesEvent(lines[m])
  }

  /** One message for each line with a payload, in order, with the name in force. */
  ghost predicate Dispatched(lines: seq<string>, out: seq<Message>, at: seq<nat>) {
    && |at| == |out|
    && (forall i, j | 0 <= i < j < |at| :: at[i] < at[j])
    && (forall i | 0 <= i < |at| :: at[i] < |lines| && HasData(lines[at[i]]) && IsMessage(lines, at[i], out[i]))
    && (forall k: nat | k < |lines| && HasData(lines[k]) :: k in at)
  }

  ghost predicate IsMessage(lines: seq<string>, k: nat, m: Message)
    requires k < |lines| && HasData(lines[k])
  {
    m.data == Trim(lines[k][6..]) && InForce(lines, k, m.kind)
  }

  lemma InForceSnoc(lines: seq<string>, line: string, n: nat, event: string)
    requires n <= |lines|
    ensures InForce(lines + [line], n, event) <==> InForce(lines, n, event)
  {
    hide NamesEvent, Trim;
    var all := lines + [line];
    assert forall k | 0 <= k < |lines| :: all[k] == lines[k];
    forall k: nat ensures GivesEvent(all, n, event, k) <==> GivesEvent(lines, n, event, k) { }
    hide GivesEvent;
  }

  lemma NextInForce(lines: seq<string>, line: string, event: string)
    requires InForce(lines, |lines|, event)
    ensures InForce(lines + [line], |lines| + 1, if NamesEvent(line) then Trim(line[7..]) else event)
  {
    hide NamesEvent, Trim;
    var all, n := lines + [line], |lines|;
    assert all[n] == line && forall k | 0 <= k < n :: all[k] == lines[k];
    if NamesEvent(line) {
      assert NamesEvent(line) ==> |line| >= 7 by { EventLineIsLong(line); }
      assert GivesEvent(all, n + 1, Trim(line[7..]), n);
    } else if k: nat :| GivesEvent(lines, n, event, k) {
      assert GivesEvent(all, n + 1, event, k);
    }
  }

  lemma EventLineIsLong(line: string)
    requires NamesEvent(line)
    ensures |line| >= 7
  {
  }

  lemma MessageStays(lines: seq<string>, line: string, k: nat, m: Message)
    requires k < |lines| && HasData(lines[k]) && IsMessage(lines, k, m)
    ensures HasData((lines + [line])[k]) && IsMessage(lines + [line], k, m)
  {
    InForceSnoc(lines, line, k, m.kind);
    hide InForce, Trim;
  }

  lemma DispatchedStays(lines: seq<string>, line: string, out: seq<Message>, at: seq<nat>)
    requires Dispatched(lines, out, at) && !HasData(line)
    ensures Dispatched(lines + [line], out, at)
  {
    hide IsMessage, HasData;
    var all := lines + [line];
    assert all[|lines|] == line && forall k | 0 <= k < |lines| :: all[k] == lines[k];
    forall i | 0 <= i < |at| ensures at[i] < |all| && HasData(all[at[i]]) && IsMessage(all, at[i], out[i]) {
      MessageStays(lines, line, at[i], out[i]);
    }
  }

  lemma DispatchedMore(lines: seq<string>, line: string, out: seq<Message>, at: seq<nat>, m: Message)
    requires Dispatched(lines, out, at) && HasData(line) && IsMessage(lines + [line], |lines|, m)
    ensures Dispatched(lines + [line], out + [m], at + [|lines|])
  {
    hide IsMessage, HasData;
    var all, more := lines + [line], at + [|lines|];
    assert all[|lines|] == line && forall k | 0 <= k < |lines| :: all[k] == lines[k];
    forall i | 0 <= i < |at| ensures at[i] < |all| && HasData(all[at[i]]) && IsMessage(all, at[i], out[i]) {
      MessageStays(lines, line, at[i], out[i]);
    }
    forall k: nat | k < |all| && HasData(all[k]) ensures k in more {
      if k < |lines| {
        var i :| 0 <= i < |at| && at[i] == k;
        assert more[i] == k;
      } else {
        assert more[|at|] == k;
      }
    }
  }

  lemma OneField(line: string)
    ensures HasData(line) ==> !NamesEvent(line) && |line| >= 6
  {
    if HasData(line) { assert line[0] == 'd'; }
  }

  lemma DispatchSnoc(lines: seq<string>, line: string, p: Parser, at: seq<nat>) returns (next: seq<nat>)
    requires Dispatched(lines, p.out, at) && InForce(lines, |lines|, p.event)
    ensures Dispatched(lines + [line], OnLine(p, line).out, next)
    ensures InForce(lines + [line], |lines| + 1, OnLine(p, line).event)
  {
    hide Dispatched, InForce, Trim;
    NextInForce(lines, line, p.event);
    OneField(line);
    if HasData(line) {
      InForceSnoc(lines, line, |lines|, p.event);
      assert (lines + [line])[|lines|] == line;
      DispatchedMore(lines, line, p.out, at, Message(p.event, Trim(line[6..])));
      next := at + [|lines|];
    } else {
      DispatchedStays(lines, line, p.out, at);
      next := at;
    }
  }

  lemma {:induction false} LinesDispatch(lines: seq<string>) returns (at: seq<nat>)
    ensures Dispatched(lines, OnLines(FRESH, lines).out, at) && InForce(lines, |lines|, OnLines(FRESH, lines).event)
  {
    at := [];
    if lines != [] {
      hide Dispatched, InForce, OnLine;
      var front, last := lines[..|lines| - 1], lines[|lines| - 1];
      at := LinesDispatch(front);
      assert front + [last] == lines;
      OnLinesJoins(FRESH, front, [last]);
      assert [last][1..] == [];
      assert OnLines(OnLines(FRESH, front), [last]) == OnLines(OnLine(OnLines(FRESH, front), last), []);
      at := DispatchSnoc(front, last, OnLines(FRESH, front), at);
    }
  }

  method PopLines(buf: string) returns (lines: seq<string>, rest: string)
    ensures lines == Lines(buf) && rest == Unfinished(buf)
  {
    lines := Split(buf);
    rest := lines[|lines| - 1];
    lines := lines[..|lines| - 1];
  }

  method HandleLines(event: string, out: seq<Message>, lines: seq<string>) returns (event': string, out': seq<Message>)
    ensures Parser(event', out') == OnLines(Parser(event, out), lines)
  {
    hide Trim;
    event', out' := event, out;
    assert lines[0..] == lines;
    for i := 0 to |lines|
      invariant OnLines(Parser(event', out'), lines[i..]) == OnLines(Parser(event, out), lines)
    {
      assert lines[i..][1..] == lines[i + 1..];
      if "event: " <= lines[i] { event' := Trim(lines[i][7..]); continue; }
      if !("data: " <= lines[i]) { continue; }
      var raw := Trim(lines[i][6..]);
      if raw == "" { continue; }
      out' := out' + [Message(event', raw)];
    }
    assert lines[|lines|..] == [];
  }

  /** However the network cuts the stream, the parser dispatches what the whole text holds. */
  method ReadAgentStream(chunks: seq<string>) returns (out: seq<Message>, ghost at: seq<nat>)
    ensures out == Parsed(Flat(chunks)) && Dispatched(Lines(Flat(chunks)), out, at)
  {
    hide Split, Lines, Unfinished, OnLines, Dispatched, InForce;
    at := LinesDispatch(Lines(Flat(chunks)));
    var buf, event := "", "message";
    out := [];
    NothingYet();
    for i := 0 to |chunks|
      invariant buf == Unfinished(Flat(chunks[..i]))
      invariant Parser(event, out) == OnLines(FRESH, Lines(Flat(chunks[..i])))
    {
      assert chunks[..i + 1][..i] == chunks[..i];
      SplitJoins(Flat(chunks[..i]), chunks[i]);
      var lines;
      lines, buf := PopLines(buf + chunks[i]);
      OnLinesJoins(FRESH, Lines(Flat(chunks[..i])), lines);
      event, out := HandleLines(event, out, lines);
    }
    assert chunks[..|chunks|] == chunks;
  }

  lemma NothingYet()
    ensures Unfinished("") == "" && OnLines(FRESH, Lines("")) == FRESH
  {
  }

  // --- The round trip --------------------------------------------------------------------

  predicate SingleLine(e: Entry) {
    match e
    case Event(kind, data) => OneLine(kind) && OneLine(data)
    case Comment(text) => OneLine(text)
  }

  /** What arrives of an entry: trimmed, and not at all if its payload is blank. */
  function Received(e: Entry): seq<Message> {
    if e.Event? && Trim(e.data) != "" then [Message(Trim(e.kind), Trim(e.data))] else []
  }

  function AllReceived(entries: seq<Entry>): seq<Message> {
    if entries == [] then [] else Received(entries[0]) + AllReceived(entries[1..])
  }

  function EntryLines(e: Entry): seq<string> {
    match e
    case Event(kind, data) => ["event: " + kind, "data: " + data, ""]
    case Comment(text) => [": " + text, ""]
  }

  lemma EntrySplits(e: Entry, rest: string)
    requires SingleLine(e)
    ensures Lines(Printed(e) + rest) == EntryLines(e) + Lines(rest)
  {
    hide Lines, Unfinished;
    match e
    case Event(kind, data) =>
      var a, b := "event: " + kind, "data: " + data;
      OneLineSplits("", rest);
      OneLineSplits(b, "" + "\n" + rest);
      OneLineSplits(a, b + "\n" + ("" + "\n" + rest));
      assert Printed(e) + rest == a + "\n" + (b + "\n" + ("" + "\n" + rest));
    case Comment(text) =>
      OneLineSplits("", rest);
      OneLineSplits(": " + text, "" + "\n" + rest);
      assert Printed(e) + rest == ": " + text + "\n" + ("" + "\n" + rest);
  }

  lemma EntryArrives(p: Parser, e: Entry, rest: seq<string>)
    ensures exists event :: OnLines(p, EntryLines(e) + rest) == OnLines(Parser(event, p.out + Received(e)), rest)
  {
    hide Trim, OnLines;
    var q := EntryArrivesAs(p, e);
    OnLinesJoins(p, EntryLines(e), rest);
  }

  lemma EntryArrivesAs(p: Parser, e: Entry) returns (q: Parser)
    ensures OnLines(p, EntryLines(e)) == q && q.out == p.out + Received(e)
  {
    match e
    case Event(kind, data) =>
      q := OnLine(OnLine(p, "event: " + kind), "data: " + data);
      FieldLinesOf(p, kind, data);
      assert OnLine(q, "") == q;
      ThreeLines(p, "event: " + kind, "data: " + data);
    case Comment(text) =>
      q := p;
      var a := ": " + text;
      assert [a, ""][1..] == [""] && [""][1..] == [];
      assert a[0] == ':';
      assert OnLines(p, [a, ""]) == OnLines(OnLine(p, a), [""]) == OnLines(p, [""]) == OnLines(OnLine(p, ""), []);
  }

  lemma ThreeLines(p: Parser, a: string, b: string)
    ensures OnLines(p, [a, b, ""]) == OnLine(OnLine(OnLine(p, a), b), "")
  {
    hide OnLine;
    assert [a, b, ""][1..] == [b, ""] && [b, ""][1..] == [""] && [""][1..] == [];
    var q := OnLine(OnLine(p, a), b);
    assert OnLines(q, [""]) == OnLines(OnLine(q, ""), []);
    assert OnLines(OnLine(p, a), [b, ""]) == OnLines(q, [""]);
  }

  lemma {:induction false} StreamArrives(p: Parser, entries: seq<Entry>)
    requires forall i | 0 <= i < |entries| :: SingleLine(entries[i])
    ensures OnLines(p, Lines(Stream(entries))).out == p.out + AllReceived(entries)
    decreases |entries|
  {
    hide Lines, SingleLine, Received, Printed, EntryLines;
    if entries == [] {
      NothingYet();
      assert Lines("") == [] by { OneLineNothing(); }
    } else {
      EntrySplits(entries[0], Stream(entries[1..]));
      EntryArrives(p, entries[0], Lines(Stream(entries[1..])));
      var event :| OnLines(p, EntryLines(entries[0]) + Lines(Stream(entries[1..])))
        == OnLines(Parser(event, p.out + Received(entries[0])), Lines(Stream(entries[1..])));
      StreamArrives(Parser(event, p.out + Received(entries[0])), entries[1..]);
    }
  }

  lemma OneLineNothing()
    ensures Lines("") == []
  {
  }

  /** Parsing a printed stream gives its events back, trimmed and without blank payloads. */
  lemma ParsedStream(entries: seq<Entry>)
    requires forall i | 0 <= i < |entries| :: SingleLine(entries[i])
    ensures Parsed(Stream(entries)) == AllReceived(entries)
  {
    StreamArrives(FRESH, entries);
  }

  lemma SingleSurvivesIff(kind: string, data: string)
    requires OneLine(kind) && OneLine(data)
    ensures Parsed(Stream([Event(kind, data)])) == [Message(kind, data)]
      <==> Trim(kind) == kind && Trim(data) == data != ""
  {
    hide Trim;
    ParsedStream([Event(kind, data)]);
    var e := Event(kind, data);
    assert [e][1..] == [];
    assert AllReceived([e]) == Received(e) + AllReceived([]) == Received(e);
  }

  lemma {:induction false} TrimStartIsLine(s: string)
    requires OneLine(s)
    ensures OneLine(TrimStart(s))
  {
    if s != "" && IsSpace(s[0]) { TrimStartIsLine(s[1..]); }
  }

  lemma {:induction false} TrimEndIsLine(s: string)
    requires OneLine(s)
    ensures OneLine(TrimEnd(s))
  {
    if s != "" && IsSpace(s[|s| - 1]) { TrimEndIsLine(s[..|s| - 1]); }
  }

  lemma TrimIsLine(s: string)
    requires OneLine(s)
    ensures OneLine(Trim(s))
  {
    TrimStartIsLine(s);
    TrimEndIsLine(TrimStart(s));
  }

  ghost predicate LineMessages(p: Parser) {
    OneLine(p.event) && forall i | 0 <= i < |p.out| :: OneLine(p.out[i].kind) && OneLine(p.out[i].data)
  }

  lemma OnLineKeepsLines(p: Parser, line: string)
    requires LineMessages(p) && OneLine(line)
    ensures LineMessages(OnLine(p, line))
  {
    hide Trim;
    if |line| >= 7 { TrimIsLine(line[7..]); }
    if |line| >= 6 { TrimIsLine(line[6..]); }
  }

  lemma {:induction false} OnLinesKeepsLines(p: Parser, lines: seq<string>)
    requires LineMessages(p) && forall i | 0 <= i < |lines| :: OneLine(lines[i])
    ensures LineMessages(OnLines(p, lines))
    decreases |lines|
  {
    hide OnLine, LineMessages;
    if lines != [] {
      OnLineKeepsLines(p, lines[0]);
      OnLinesKeepsLines(OnLine(p, lines[0]), lines[1..]);
    }
  }

  /** Nothing that spans lines is ever dispatched, whatever the text. */
  lemma ParsedIsLines(text: string)
    ensures forall i | 0 <= i < |Parsed(text)| :: OneLine(Parsed(text)[i].kind) && OneLine(Parsed(text)[i].data)
  {
    hide OnLines;
    SplitUndone(text);
    OnLinesKeepsLines(FRESH, Lines(text));
  }

  /** So, of all events, exactly those on one line each, trimmed, and with a payload survive. */
  lemma EventSurvivesIff(kind: string, data: string)
    ensures Parsed(Stream([Event(kind, data)])) == [Message(kind, data)]
      <==> OneLine(kind) && OneLine(data) && Trim(kind) == kind && Trim(data) == data != ""
  {
    hide Parsed, Stream, Trim;
    if Parsed(Stream([Event(kind, data)])) == [Message(kind, data)] { SurvivorIsLine(kind, data); }
    if OneLine(kind) && OneLine(data) { SingleSurvivesIff(kind, data); }
  }

  lemma SurvivorIsLine(kind: string, data: string)
    requires Parsed(Stream([Event(kind, data)])) == [Message(kind, data)]
    ensures OneLine(kind) && OneLine(data)
  {
    hide Parsed, Stream;
    ParsedIsLines(Stream([Event(kind, data)]));
    assert Parsed(Stream([Event(kind, data)]))[0] == Message(kind, data);
  }

  /** What arrives of a payload that spans lines: its first line, then whatever the rest of it
      means as lines of the stream; a further line that starts like a field is read as one. */
  lemma RestIsReadAsLines(kind: string, first: string, rest: string)
    requires OneLine(kind) && OneLine(first)
    ensures Parsed(Stream([Event(kind, first + "\n" + rest)]))
      == OnLines(Parser(Trim(kind), Received(Event(kind, first))), Split(rest)).out
  {
    hide Split, Lines, Unfinished, Trim, OnLines, OnLine;
    var e := Event(kind, first + "\n" + rest);
    assert [e][1..] == [];
    var a, b, tail := "event: " + kind, "data: " + first, rest + "\n" + "\n";
    assert Stream([e]) == a + "\n" + (b + "\n" + tail);
    OneLineSplits(a, b + "\n" + tail);
    OneLineSplits(b, tail);
    TwoBreaks(rest);
    var more := Split(rest);
    assert Lines(Stream([e])) == [a, b] + (more + [""]);
    OnLinesJoins(FRESH, [a, b], more + [""]);
    TwoLines(FRESH, a, b);
    FieldLinesOf(FRESH, kind, first);
    var p := Parser(Trim(kind), Received(Event(kind, first)));
    assert FRESH.out + Received(Event(kind, first)) == Received(Event(kind, first));
    OnLinesJoins(p, more, [""]);
    BlankLine(OnLines(p, more));
  }

  lemma TwoBreaks(rest: string)
    ensures Lines(rest + "\n" + "\n") == Split(rest) + [""]
  {
    var u := Unfinished(rest);
    SplitUndone(rest);
    SplitJoins(rest, "\n\n");
    LineAndBreak(u);
    hide Split, Unfinished;
    assert rest + "\n" + "\n" == rest + "\n\n";
    assert Lines(rest) + [u, ""] == Lines(rest) + [u] + [""];
    assert Split(rest) == Lines(rest) + [u] by { LastOfSplit(rest); }
  }

  lemma LastOfSplit(s: string)
    ensures Split(s) == Lines(s) + [Unfinished(s)]
  {
  }

  lemma LineAndBreak(u: string)
    requires OneLine(u)
    ensures Lines(u + "\n\n") == [u, ""]
  {
    hide Split, Lines, Unfinished;
    OneLineSplits(u, "\n");
    OneLineSplits("", "");
    OneLineNothing();
    assert u + "\n" + "\n" == u + "\n\n" && "" + "\n" + "" == "\n";
    assert [u] + ([""] + []) == [u, ""];
  }

  lemma TwoLines(p: Parser, a: string, b: string)
    ensures OnLines(p, [a, b]) == OnLine(OnLine(p, a), b)
  {
    hide OnLine;
    assert [a, b][1..] == [b] && [b][1..] == [];
    assert OnLines(OnLine(p, a), [b]) == OnLines(OnLine(OnLine(p, a), b), []);
  }

  lemma BlankLine(p: Parser)
    ensures OnLines(p, [""]) == p
  {
    assert [""][1..] == [];
    assert OnLines(OnLine(p, ""), []) == p;
  }

  lemma FieldLinesOf(p: Parser, kind: string, data: string)
    ensures OnLine(OnLine(p, "event: " + kind), "data: " + data)
      == Parser(Trim(kind), p.out + Received(Event(kind, data)))
  {
    hide Trim;
    var a, b := "event: " + kind, "data: " + data;
    assert a[7..] == kind && b[6..] == data;
    assert b[0] == 'd';
  }

  /** A stream that breaks off dispatches a prefix of what the whole one would have. */
  lemma BrokenStreamIsPrefix(a: string, b: string)
    ensures Parsed(a) <= Parsed(a + b)
  {
    hide Lines, Unfinished, OnLines;
    SplitJoins(a, b);
    OnLinesJoins(FRESH, Lines(a), Lines(Unfinished(a) + b));
    OnLinesGrows(OnLines(FRESH, Lines(a)), Lines(Unfinished(a) + b));
  }

  lemma {:induction false} OnLinesGrows(p: Parser, lines: seq<string>)
    ensures p.out <= OnLines(p, lines).out
    decreases |lines|
  {
    hide Trim;
    if lines != [] { OnLinesGrows(OnLine(p, lines[0]), lines[1..]); }
  }
}
