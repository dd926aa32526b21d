/** The ordered parts of an assistant message, and the plain text they project to. */
module MessageParts {
  import opened Wrappers

  datatype Card =
    Card(callId: string, toolName: string, hint: string, field: string, stage: string, before: string, after: string)

  datatype Decision = Pending | Approved | Rejected

  /** Arguments and results are opaque; a tool call without a result is still running. */
  datatype Part =
    | Text(text: string)
    | Thinking(text: string)
    | ToolCall(name: string, args: string, result: Option<string>)
    | Confirmation(card: Card, status: Decision)

  function PartsToText(parts: seq<Part>): string {
    if parts == [] then ""
    else PartsToText(parts[..|parts| - 1]) + if parts[|parts| - 1].Text? then parts[|parts| - 1].text else ""
  }

  predicate SameKind(a: Part, b: Part) { (a.Text? && b.Text?) || (a.Thinking? && b.Thinking?) }

  /** appendStreamingPart for a text or thinking part: merge into a last part of its kind. */
  function AppendStreaming(parts: seq<Part>, p: Part): seq<Part>
    requires p.Text? || p.Thinking?
  {
    if parts != [] && SameKind(parts[|parts| - 1], p)
    then parts[|parts| - 1 := p.(text := parts[|parts| - 1].text + p.text)]
    else parts + [p]
  }

  function AppendToolCall(parts: seq<Part>, name: string, args: string): seq<Part> {
    parts + [ToolCall(name, args, None)]
  }

  predicate Open(p: Part, name: string) { p.ToolCall? && p.name == name && p.result == None }

  function FillToolResult(parts: seq<Part>, name: string, result: Option<string>): seq<Part> {
    if parts == [] then []
    else if Open(parts[|parts| - 1], name) then parts[|parts| - 1 := parts[|parts| - 1].(result := result)]
    else FillToolResult(parts[..|parts| - 1], name, result) + [parts[|parts| - 1]]
  }

  function AppendConfirmation(parts: seq<Part>, card: Card): seq<Part> { parts + [Confirmation(card, Pending)] }

  function Marked(p: Part, callId: string, status: Decision): Part {
    if p.Confirmation? && p.card.callId == callId then p.(status := status) else p
  }

  function MarkConfirmation(parts: seq<Part>, callId: string, status: Decision): (marked: seq<Part>)
    ensures |marked| == |parts| && forall i | 0 <= i < |parts| :: marked[i] == Marked(parts[i], callId, status)
  {
    seq(|parts|, i requires 0 <= i < |parts| => Marked(parts[i], callId, status))
  }

  lemma FillAt(parts: seq<Part>, name: string, result: Option<string>, i: nat)
    requires i < |parts|
    ensures FillToolResult(parts[..i + 1], name, result)
      == if Open(parts[i], name) then parts[..i] + [parts[i].(result := result)]
         else FillToolResult(parts[..i], name, result) + [parts[i]]
  {
    assert parts[..i + 1][..i] == parts[..i] && parts[..i + 1][i] == parts[i];
  }

  /** The state of the search when everything behind part i has been passed over. */
  lemma FillRest(parts: seq<Part>, name: string, result: Option<string>, i: nat)
    requires i < |parts|
    ensures FillToolResult(parts[..i + 1], name, result) + parts[i + 1..]
      == if Open(parts[i], name) then parts[i := parts[i].(result := result)]
         else FillToolResult(parts[..i], name, result) + parts[i..]
  {
    FillAt(parts, name, result, i);
    hide FillToolResult, Open;
    assert parts[i..] == [parts[i]] + parts[i + 1..];
    if Open(parts[i], name) {
      var x := parts[i].(result := result);
      assert parts[..i] + [x] + parts[i + 1..] == parts[i := x];
    }
  }

  /** The backward search of fillToolResult. */
  method FillLatest(parts: seq<Part>, name: string, result: Option<string>) returns (next: seq<Part>)
    ensures next == FillToolResult(parts, name, result)
    ensures |next| == |parts|
    ensures forall i | 0 <= i < |parts| ::
      next[i] == if LatestOpen(parts, name, i) then ToolCall(name, parts[i].args, result) else parts[i]
  {
    hide FillToolResult;
    if parts == [] { FillsNothing(name, result); }
    forall i | 0 <= i < |parts|
      ensures |FillToolResult(parts, name, result)| == |parts|
      ensures FillToolResult(parts, name, result)[i]
        == if LatestOpen(parts, name, i) then ToolCall(name, parts[i].args, result) else parts[i]
    {
      FillsLatestOpen(parts, name, result, i);
    }
    hide LatestOpen;
    var i: nat := |parts|;
    assert parts[..i] == parts && parts[i..] == [];
    while i > 0
      invariant i <= |parts|
      invariant FillToolResult(parts, name, result) == FillToolResult(parts[..i], name, result) + parts[i..]
    {
      i := i - 1;
      FillRest(parts, name, result, i);
      if Open(parts[i], name) {
        return parts[i := parts[i].(result := result)];
      }
    }
    FillsNothing(name, result);
    next := parts;
  }

  lemma FillsNothing(name: string, result: Option<string>)
    ensures FillToolResult([], name, result) == []
  {
  }

  // --- What the helpers do to the text and to the other parts ----------------------------

  lemma TextOfSnoc(parts: seq<Part>, p: Part)
    ensures PartsToText(parts + [p]) == PartsToText(parts) + if p.Text? then p.text else ""
  {
    assert (parts + [p])[..|parts|] == parts;
  }

  /** A text chunk extends the text by itself, a thinking chunk leaves it. */
  lemma StreamingText(parts: seq<Part>, p: Part)
    requires p.Text? || p.Thinking?
    ensures PartsToText(AppendStreaming(parts, p)) == PartsToText(parts) + if p.Text? then p.text else ""
  {
    if parts != [] && SameKind(parts[|parts| - 1], p) {
      var front, last := parts[..|parts| - 1], parts[|parts| - 1];
      TextOfSnoc(front, last);
      TextOfSnoc(front, p.(text := last.text + p.text));
      assert parts == front + [last];
      assert AppendStreaming(parts, p) == front + [p.(text := last.text + p.text)];
    } else {
      TextOfSnoc(parts, p);
    }
  }

  /** Chunks of one kind in a row share one part. */
  ghost predicate Coalesced(parts: seq<Part>) { forall i | 0 < i < |parts| :: !SameKind(parts[i - 1], parts[i]) }

  lemma StreamingCoalesces(parts: seq<Part>, p: Part)
    requires (p.Text? || p.Thinking?) && Coalesced(parts)
    ensures Coalesced(AppendStreaming(parts, p))
  {
  }

  /** Part i is the latest call of that name without a result. */
  ghost predicate LatestOpen(parts: seq<Part>, name: string, i: nat) {
    i < |parts| && Open(parts[i], name) && forall j | i < j < |parts| :: !Open(parts[j], name)
  }

  lemma LatestOpenInFront(parts: seq<Part>, name: string, i: nat)
    requires i < |parts| - 1 && !Open(parts[|parts| - 1], name)
    ensures LatestOpen(parts[..|parts| - 1], name, i) <==> LatestOpen(parts, name, i)
  {
    var front := parts[..|parts| - 1];
    assert forall j | 0 <= j < |front| :: front[j] == parts[j];
  }

  /** A tool result goes to the latest open call of that name and nowhere else. */
  lemma {:induction false} FillsLatestOpen(parts: seq<Part>, name: string, result: Option<string>, i: nat)
    requires i < |parts|
    ensures |FillToolResult(parts, name, result)| == |parts|
    ensures FillToolResult(parts, name, result)[i]
      == if LatestOpen(parts, name, i) then parts[i].(result := result) else parts[i]
  {
    hide LatestOpen;
    var last := |parts| - 1;
    if Open(parts[last], name) {
      assert LatestOpen(parts, name, i) <==> i == last by { OnlyLast(parts, name, i); }
    } else {
      if i < last {
        FillsLatestOpen(parts[..last], name, result, i);
        LatestOpenInFront(parts, name, i);
      } else {
        if last > 0 { FillsLatestOpen(parts[..last], name, result, 0); }
        assert !LatestOpen(parts, name, i) by { OnlyOpen(parts, name, i); }
      }
    }
  }

  lemma OnlyLast(parts: seq<Part>, name: string, i: nat)
    requires i < |parts| && Open(parts[|parts| - 1], name)
    ensures LatestOpen(parts, name, i) <==> i == |parts| - 1
  {
  }

  lemma OnlyOpen(parts: seq<Part>, name: string, i: nat)
    requires i < |parts| && !Open(parts[i], name)
    ensures !LatestOpen(parts, name, i)
  {
  }

  /** Parts that agree on which are text, and on what it says, project to the same text. */
  lemma {:induction false} SameText(a: seq<Part>, b: seq<Part>)
    requires |a| == |b| && forall i | 0 <= i < |a| :: (a[i].Text? <==> b[i].Text?) && (a[i].Text? ==> a[i] == b[i])
    ensures PartsToText(a) == PartsToText(b)
  {
    if a != [] { SameText(a[..|a| - 1], b[..|b| - 1]); }
  }

  lemma FillKeepsText(parts: seq<Part>, name: string, result: Option<string>)
    ensures PartsToText(FillToolResult(parts, name, result)) == PartsToText(parts)
  {
    hide LatestOpen;
    forall i | 0 <= i < |parts|
      ensures |FillToolResult(parts, name, result)| == |parts|
      ensures var next := FillToolResult(parts, name, result);
        (next[i].Text? <==> parts[i].Text?) && (parts[i].Text? ==> next[i] == parts[i])
    {
      FillsLatestOpen(parts, name, result, i);
      assert LatestOpen(parts, name, i) ==> parts[i].ToolCall? by {
        if !parts[i].ToolCall? { OnlyOpen(parts, name, i); }
      }
    }
    assert |FillToolResult(parts, name, result)| == |parts| by {
      if parts == [] { FillsNothing(name, result); } else { FillsLatestOpen(parts, name, result, 0); }
    }
    SameText(FillToolResult(parts, name, result), parts);
  }

  lemma MarkKeepsText(parts: seq<Part>, callId: string, status: Decision)
    ensures PartsToText(MarkConfirmation(parts, callId, status)) == PartsToText(parts)
  {
    SameText(MarkConfirmation(parts, callId, status), parts);
  }
}
