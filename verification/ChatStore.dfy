/** The browser's chat store: turns, the streams that fold replies into them, and the
    generation counter that retires streams a chat has moved on from. */
module ChatStore {
  import opened Wrappers
  import opened MessageParts
  import EventStream

  datatype Role = User | Assistant

  datatype Message = Message(role: Role, content: string, parts: Option<seq<Part>>)

  datatype Turn = Turn(messages: seq<Message>, streaming: bool, error: string)

  /** One call of runStream: its generation, the message it folds into, whether a failure may
      drop that message, whether the body is folded at all, and how far it is. */
  datatype Stream = Stream(generation: nat, foldIdx: nat, drop: bool, fold: bool, live: bool, aborted: bool)

  /** All that is kept for one chat. Streams are numbered; the controller names one of them. */
  datatype Chat = Chat(turn: Option<Turn>, controller: Option<nat>, generation: nat, streams: seq<Stream>)

  datatype Arrival =
    | Token(text: string)
    | Thought(text: string)
    | Called(name: string, args: string)
    | Returned(name: string, result: Option<string>)
    | Asked(card: Card)
    | Reported(error: string)
    | Ended

  datatype Step =
    | Submit(content: string)
    | Decide(callId: string, confirmed: bool)
    | Stop
    | Clear
    | Seed(messages: seq<Message>)
    | Arrive(stream: nat, event: Arrival)
    | Break(stream: nat, aborted: bool, error: string)
    | Close(stream: nat)

  const EMPTY := Chat(None, None, 0, [])

  function TurnOf(c: Chat): Turn { if c.turn.Some? then c.turn.value else Turn([], false, "") }

  ghost predicate Consistent(m: Message) { m.parts.Some? ==> m.content == PartsToText(m.parts.value) }

  ghost predicate AllConsistent(messages: seq<Message>) {
    forall i | 0 <= i < |messages| :: Consistent(messages[i])
  }

  ghost predicate Enabled(c: Chat, s: Step) {
    match s
    case Arrive(i, _) => i < |c.streams| && c.streams[i].live && c.streams[i].fold
    case Break(i, aborted, _) => i < |c.streams| && c.streams[i].live && (aborted ==> c.streams[i].aborted)
    case Close(i) => i < |c.streams| && c.streams[i].live
    case _ => true
  }

  // --- The steps -------------------------------------------------------------------------

  function Started(c: Chat, t: Turn, foldIdx: nat, drop: bool, fold: bool): Chat {
    Chat(Some(t), Some(|c.streams|), c.generation + 1,
         c.streams + [Stream(c.generation + 1, foldIdx, drop, fold, true, false)])
  }

  predicate Hosts(m: Message, callId: string) {
    m.role.Assistant? && m.parts.Some?
    && exists k :: 0 <= k < |m.parts.value| && m.parts.value[k].Confirmation? && m.parts.value[k].card.callId == callId
  }

  function HostOf(messages: seq<Message>, callId: string): (i: nat)
    ensures i <= |messages| && (i < |messages| ==> Hosts(messages[i], callId))
    ensures forall j | 0 <= j < i :: !Hosts(messages[j], callId)
  {
    if messages == [] then 0
    else
      var i := HostOf(messages[..|messages| - 1], callId);
      if i < |messages| - 1 || Hosts(messages[i], callId) then i else |messages|
  }

  function MarkMessage(m: Message, callId: string, status: Decision): Message {
    if m.parts.Some? then m.(parts := Some(MarkConfirmation(m.parts.value, callId, status))) else m
  }

  function MarkAll(messages: seq<Message>, callId: string, status: Decision): (r: seq<Message>)
    ensures |r| == |messages| && forall i | 0 <= i < |r| :: r[i] == MarkMessage(messages[i], callId, status)
  {
    seq(|messages|, i requires 0 <= i < |messages| => MarkMessage(messages[i], callId, status))
  }

  function Aborted(c: Chat): Chat {
    if c.controller.Some? && c.controller.value < |c.streams|
    then c.(streams := c.streams[c.controller.value := c.streams[c.controller.value].(aborted := true)])
    else c
  }

  function WithParts(m: Message, parts: seq<Part>): Message { m.(parts := Some(parts), content := PartsToText(parts)) }

  function FoldInto(parts: seq<Part>, e: Arrival): seq<Part>
    requires !e.Reported? && !e.Ended?
  {
    match e
    case Token(text) => AppendStreaming(parts, Text(text))
    case Thought(text) => AppendStreaming(parts, Thinking(text))
    case Called(name, args) => AppendToolCall(parts, name, args)
    case Returned(name, result) => FillToolResult(parts, name, result)
    case Asked(card) => AppendConfirmation(parts, card)
  }

  function Folded(t: Turn, idx: nat, e: Arrival): Turn {
    if e.Ended? then t
    else if e.Reported? then t.(error := e.error)
    else if idx >= |t.messages| then t
    else
      var m := t.messages[idx];
      t.(messages := t.messages[idx := WithParts(m, FoldInto(if m.parts.Some? then m.parts.value else [], e))])
  }

  /** The stream would drop the reply it was opened for: nothing has been written to it. */
  predicate Drops(t: Turn, s: Stream) {
    s.drop && s.foldIdx < |t.messages| && t.messages[s.foldIdx].role.Assistant? && t.messages[s.foldIdx].content == ""
  }

  function Failed(t: Turn, s: Stream, error: string): Turn {
    t.(messages := if Drops(t, s) then t.messages[..s.foldIdx] else t.messages, error := error)
  }

  function Finished(c: Chat, i: nat): Chat
    requires i < |c.streams|
  {
    c.(controller := if c.controller == Some(i) then None else c.controller,
       streams := c.streams[i := c.streams[i].(live := false)],
       turn := if c.generation == c.streams[i].generation && c.turn.Some?
               then Some(c.turn.value.(streaming := false)) else c.turn)
  }

  function Apply(c: Chat, s: Step): Chat
    requires Enabled(c, s)
  {
    var t := TurnOf(c);
    match s
    case Submit(content) =>
      var trimmed := EventStream.Trim(content);
      if trimmed == "" || t.streaming then c
      else Started(c, Turn(t.messages + [Message(User, trimmed, None), Message(Assistant, "", Some([]))], true, ""),
                   |t.messages| + 1, true, true)
    case Decide(callId, confirmed) =>
      var host := HostOf(t.messages, callId);
      if host == |t.messages| then c
      else
        var status := if confirmed then Approved else Rejected;
        Started(c, Turn(MarkAll(t.messages, callId, status), true, ""), host, false, confirmed)
    case Stop => Aborted(c)
    case Clear => Aborted(c).(controller := None, turn := None, generation := c.generation + 1)
    case Seed(messages) => if t.streaming || t.messages != [] then c else c.(turn := Some(Turn(messages, false, "")))
    case Arrive(i, e) =>
      if c.generation != c.streams[i].generation || c.turn.None? then c
      else c.(turn := Some(Folded(c.turn.value, c.streams[i].foldIdx, e)))
    case Break(i, aborted, error) =>
      Finished(if aborted || c.turn.None? then c else c.(turn := Some(Failed(c.turn.value, c.streams[i], error))), i)
    case Close(i) => Finished(c, i)
  }

  // --- The protocol ----------------------------------------------------------------------

  predicate Current(c: Chat, i: int) {
    0 <= i < |c.streams| && c.streams[i].live && c.streams[i].generation == c.generation
  }

  /** Every stream has a generation of its own. */
  ghost predicate Numbered(c: Chat) {
    && (forall i, j | 0 <= i < j < |c.streams| :: c.streams[i].generation < c.streams[j].generation)
    && (forall i | 0 <= i < |c.streams| :: c.streams[i].generation <= c.generation)
  }

  /** The live stream of the current generation is the one the controller names; it exists
      exactly while the chat shows streaming. */
  ghost predicate Steered(c: Chat) {
    && (forall i :: Current(c, i) <==> c.controller.Some? && c.controller.value == i)
    && (c.controller.Some? <==> TurnOf(c).streaming)
  }

  predicate CanFold(m: Message) { m.role.Assistant? && m.parts.Some? }

  /** That stream folds into an assistant message, unless the message was dropped. */
  ghost predicate Aimed(c: Chat) {
    forall i | Current(c, i) && c.streams[i].foldIdx < |TurnOf(c).messages| ::
      CanFold(TurnOf(c).messages[c.streams[i].foldIdx])
  }

  ghost predicate Protocol(c: Chat) { Numbered(c) && Steered(c) && Aimed(c) }

  lemma FoldKeepsFolding(t: Turn, idx: nat, e: Arrival)
    ensures Folded(t, idx, e).streaming == t.streaming
    ensures |Folded(t, idx, e).messages| == |t.messages|
    ensures forall k | 0 <= k < |t.messages| && CanFold(t.messages[k]) :: CanFold(Folded(t, idx, e).messages[k])
  {
    hide FoldInto;
  }

  lemma MarkIsConsistent(messages: seq<Message>, callId: string, status: Decision)
    requires AllConsistent(messages)
    ensures AllConsistent(MarkAll(messages, callId, status))
  {
    forall i | 0 <= i < |messages| ensures Consistent(MarkMessage(messages[i], callId, status)) {
      MarkedIsConsistent(messages[i], callId, status);
    }
  }

  lemma StartKeepsProtocol(c: Chat, t: Turn, foldIdx: nat, drop: bool, fold: bool)
    requires Protocol(c) && t.streaming
    requires foldIdx < |t.messages| && CanFold(t.messages[foldIdx])
    ensures Protocol(Started(c, t, foldIdx, drop, fold))
  {
    hide Consistent, CanFold;
    var d := Started(c, t, foldIdx, drop, fold);
    assert forall i | 0 <= i < |c.streams| :: d.streams[i] == c.streams[i] && d.streams[i].generation < d.generation;
    assert forall i :: Current(d, i) <==> i == |c.streams|;
  }

  lemma FinishKeepsProtocol(c: Chat, i: nat)
    requires Protocol(c) && i < |c.streams| && c.streams[i].live
    ensures Protocol(Finished(c, i))
  {
    hide CanFold;
    var d := Finished(c, i);
    FinishedStreams(c, i);
    hide Current, Finished;
    assert Numbered(d);
    assert Steered(d);
    assert Aimed(d);
  }

  lemma FinishedStreams(c: Chat, i: nat)
    requires i < |c.streams| && c.streams[i].live
    ensures var d := Finished(c, i);
      && d.generation == c.generation && |d.streams| == |c.streams|
      && (forall k | 0 <= k < |c.streams| :: d.streams[k] == c.streams[k].(live := k != i && c.streams[k].live))
      && (forall k :: Current(d, k) <==> Current(c, k) && k != i)
      && d.controller == (if c.controller == Some(i) then None else c.controller)
      && TurnOf(d).messages == TurnOf(c).messages
      && TurnOf(d).streaming == (TurnOf(c).streaming && !Current(c, i))
  {
  }

  lemma TurnKeepsProtocol(c: Chat, t: Turn)
    requires Protocol(c) && c.turn.Some? && t.streaming == c.turn.value.streaming
    requires |t.messages| <= |c.turn.value.messages|
    requires forall k | 0 <= k < |t.messages| && CanFold(c.turn.value.messages[k]) :: CanFold(t.messages[k])
    ensures Protocol(c.(turn := Some(t)))
  {
    hide Consistent, CanFold;
    var d := c.(turn := Some(t));
    assert forall i :: Current(d, i) <==> Current(c, i);
  }

  lemma AbortKeepsProtocol(c: Chat)
    requires Protocol(c)
    ensures Protocol(Aborted(c))
  {
    hide Consistent, CanFold;
    assert forall i :: Current(Aborted(c), i) <==> Current(c, i);
  }

  lemma StepKeepsProtocol(c: Chat, s: Step)
    requires Protocol(c) && Enabled(c, s)
    ensures Protocol(Apply(c, s))
  {
    hide Consistent, Current, Folded, MarkAll, FoldInto, Numbered, Aimed;
    var t := TurnOf(c);
    match s
    case Submit(content) =>
      var trimmed := EventStream.Trim(content);
      if trimmed != "" && !t.streaming {
        var next := Turn(t.messages + [Message(User, trimmed, None), Message(Assistant, "", Some([]))], true, "");
        hide Protocol;
        StartKeepsProtocol(c, next, |t.messages| + 1, true, true);
      }
    case Decide(callId, confirmed) =>
      var host := HostOf(t.messages, callId);
      if host < |t.messages| {
        var status := if confirmed then Approved else Rejected;
        hide Protocol;
        StartKeepsProtocol(c, Turn(MarkAll(t.messages, callId, status), true, ""), host, false, confirmed);
      }
    case Stop => AbortKeepsProtocol(c);
    case Clear => ClearKeepsProtocol(c);
    case Seed(messages) => SeedKeepsProtocol(c, messages);
    case Arrive(i, e) =>
      if c.generation == c.streams[i].generation && c.turn.Some? {
        FoldKeepsFolding(t, c.streams[i].foldIdx, e);
        hide Protocol;
        TurnKeepsProtocol(c, Folded(c.turn.value, c.streams[i].foldIdx, e));
      }
    case Break(i, aborted, error) =>
      var d := if aborted || c.turn.None? then c else c.(turn := Some(Failed(c.turn.value, c.streams[i], error)));
      if !aborted && c.turn.Some? { TurnKeepsProtocol(c, Failed(c.turn.value, c.streams[i], error)); }
      hide Protocol;
      FinishKeepsProtocol(d, i);
    case Close(i) => FinishKeepsProtocol(c, i);
  }

  lemma FreshAreConsistent(content: string)
    ensures Consistent(Message(User, content, None)) && Consistent(Message(Assistant, "", Some([])))
  {
  }

  lemma ClearKeepsProtocol(c: Chat)
    requires Protocol(c)
    ensures Protocol(Apply(c, Clear))
  {
    var d := Apply(c, Clear);
    assert forall i | 0 <= i < |c.streams| :: d.streams[i].generation == c.streams[i].generation < d.generation;
    assert forall i :: !Current(d, i);
  }

  lemma SeedKeepsProtocol(c: Chat, messages: seq<Message>)
    requires Protocol(c)
    ensures Protocol(Apply(c, Seed(messages)))
  {
    var d := Apply(c, Seed(messages));
    assert forall i :: Current(d, i) <==> Current(c, i);
  }

  // --- Whole runs ------------------------------------------------------------------------

  ghost predicate Possible(c: Chat, steps: seq<Step>)
    decreases |steps|
  {
    steps != [] ==> Enabled(c, steps[0]) && Possible(Apply(c, steps[0]), steps[1..])
  }

  function RunOf(c: Chat, steps: seq<Step>): Chat
    requires Possible(c, steps)
    decreases |steps|
  {
    if steps == [] then c else RunOf(Apply(c, steps[0]), steps[1..])
  }

  lemma EmptyHasProtocol()
    ensures Protocol(EMPTY)
  {
  }

  lemma {:induction false} RunKeepsProtocol(c: Chat, steps: seq<Step>)
    requires Protocol(c) && Possible(c, steps)
    ensures Protocol(RunOf(c, steps))
    decreases |steps|
  {
    hide Protocol, Enabled, Apply;
    if steps != [] {
      StepKeepsProtocol(c, steps[0]);
      RunKeepsProtocol(Apply(c, steps[0]), steps[1..]);
    }
  }

  lemma StepKeepsConsistent(c: Chat, s: Step)
    requires Enabled(c, s) && AllConsistent(TurnOf(c).messages) && (s.Seed? ==> AllConsistent(s.messages))
    ensures AllConsistent(TurnOf(Apply(c, s)).messages)
  {
    hide MarkAll, FoldInto, PartsToText, EventStream.Trim;
    match s
    case Submit(content) => FreshAreConsistent(EventStream.Trim(content));
    case Decide(callId, confirmed) =>
      MarkIsConsistent(TurnOf(c).messages, callId, if confirmed then Approved else Rejected);
    case _ =>
  }

  lemma {:induction false} RunKeepsConsistent(c: Chat, steps: seq<Step>)
    requires Possible(c, steps) && AllConsistent(TurnOf(c).messages)
    requires forall k | 0 <= k < |steps| && steps[k].Seed? :: AllConsistent(steps[k].messages)
    ensures AllConsistent(TurnOf(RunOf(c, steps)).messages)
    decreases |steps|
  {
    hide AllConsistent, Enabled, Apply;
    if steps != [] {
      StepKeepsConsistent(c, steps[0]);
      RunKeepsConsistent(Apply(c, steps[0]), steps[1..]);
    }
  }

  /** In every reachable state the chat shows streaming exactly when a live stream carries its
      current generation, and that stream is unique. If the messages it was seeded with have
      the text of their parts as content, all its messages do. */
  lemma StreamingIffLive(steps: seq<Step>)
    requires Possible(EMPTY, steps)
    ensures var c := RunOf(EMPTY, steps);
      && (TurnOf(c).streaming <==> exists i :: Current(c, i))
      && (forall i, j | Current(c, i) && Current(c, j) :: i == j)
      && ((forall k | 0 <= k < |steps| && steps[k].Seed? :: AllConsistent(steps[k].messages))
          ==> AllConsistent(TurnOf(c).messages))
  {
    if forall k | 0 <= k < |steps| && steps[k].Seed? :: AllConsistent(steps[k].messages) {
      RunKeepsConsistent(EMPTY, steps);
    }
    EmptyHasProtocol();
    RunKeepsProtocol(EMPTY, steps);
    var c := RunOf(EMPTY, steps);
    if c.controller.Some? { assert Current(c, c.controller.value); }
  }

  // --- Retired streams -------------------------------------------------------------------

  predicate OfStream(s: Step, i: nat) {
    (s.Arrive? && s.stream == i) || (s.Break? && s.stream == i) || (s.Close? && s.stream == i)
  }

  /** A stream of an older generation changes nothing by what arrives on it or by closing. If
      it breaks it still writes its error, and the messages stay the same unless the message
      at its old index is an assistant message without text: failures are not checked against
      the generation. */
  lemma RetiredStreamsAreInertIff(c: Chat, i: nat, s: Step)
    requires Protocol(c) && Enabled(c, s) && OfStream(s, i) && !Current(c, i)
    ensures s.Arrive? ==> Apply(c, s) == c
    ensures s.Close? ==> Apply(c, s).turn == c.turn
    ensures Apply(c, s).controller == c.controller && Apply(c, s).generation == c.generation
    ensures TurnOf(Apply(c, s)).streaming == TurnOf(c).streaming
    ensures TurnOf(Apply(c, s)).messages == TurnOf(c).messages
      <==> !(s.Break? && !s.aborted && c.turn.Some? && Drops(c.turn.value, c.streams[i]))
    ensures s.Break? ==> TurnOf(Apply(c, s)).error == if !s.aborted && c.turn.Some? then s.error else TurnOf(c).error
  {
    assert c.streams[i].generation != c.generation;
    assert !Current(c, i) ==> c.controller != Some(i);
  }

  /** The exception happens: a reply that starts with a confirmation is approved, and then the
      first request breaks. The reply is dropped while its second stream is still writing it,
      and what that stream says is lost. */
  lemma LateBreakDropsTheReply(question: string, card: Card, error: string, text: string)
    requires EventStream.Trim(question) != ""
    ensures var steps := [Submit(question), Arrive(0, Asked(card)), Decide(card.callId, true),
                         Break(0, false, error), Arrive(1, Token(text))];
      && Possible(EMPTY, steps)
      && var c := RunOf(EMPTY, steps);
         Current(c, 1) && TurnOf(c).streaming && TurnOf(c).messages == [Message(User, EventStream.Trim(question), None)]
  {
    hide EventStream.Trim, Apply, PartsToText, HostOf;
    var user := Message(User, EventStream.Trim(question), None);
    var s0, s1 := Stream(1, 1, true, true, true, false), Stream(2, 1, false, true, true, false);
    var c1 := Chat(Some(Turn([user, Message(Assistant, "", Some([]))], true, "")), Some(0), 1, [s0]);
    var c2 := Chat(Some(Turn([user, Message(Assistant, "", Some([Confirmation(card, Pending)]))], true, "")),
      Some(0), 1, [s0]);
    var c3 := Chat(Some(Turn([user, Message(Assistant, "", Some([Confirmation(card, Approved)]))], true, "")),
      Some(1), 2, [s0, s1]);
    var c4 := Chat(Some(Turn([user], true, error)), Some(1), 2, [s0.(live := false), s1]);
    Submitting(question, user, c1);
    Asking(user, card, s0, c1, c2);
    Deciding(user, card, s0, s1, c2, c3);
    Breaking(user, card, error, s0, s1, c3, c4);
    Losing(c4, 1, text);
    FiveSteps(EMPTY, Submit(question), Arrive(0, Asked(card)), Decide(card.callId, true), Break(0, false, error),
      Arrive(1, Token(text)));
  }

  lemma Submitting(question: string, user: Message, c: Chat)
    requires EventStream.Trim(question) != "" && user == Message(User, EventStream.Trim(question), None)
    requires c == Chat(Some(Turn([user, Message(Assistant, "", Some([]))], true, "")), Some(0), 1,
      [Stream(1, 1, true, true, true, false)])
    ensures Apply(EMPTY, Submit(question)) == c
  {
    hide EventStream.Trim;
    var m := Message(Assistant, "", Some([]));
    assert [] + [user, m] == [user, m];
    assert [] + [Stream(1, 1, true, true, true, false)] == [Stream(1, 1, true, true, true, false)];
  }

  lemma Asking(user: Message, card: Card, s: Stream, c: Chat, d: Chat)
    requires s.generation == 1 && s.foldIdx == 1 && s.live && s.fold
    requires c == Chat(Some(Turn([user, Message(Assistant, "", Some([]))], true, "")), Some(0), 1, [s])
    requires d == Chat(Some(Turn([user, Message(Assistant, "", Some([Confirmation(card, Pending)]))], true, "")),
      Some(0), 1, [s])
    ensures Enabled(c, Arrive(0, Asked(card))) && Apply(c, Arrive(0, Asked(card))) == d
  {
    OneCardText(Confirmation(card, Pending));
    hide PartsToText;
    var was, m := Message(Assistant, "", Some([])), Message(Assistant, "", Some([Confirmation(card, Pending)]));
    assert FoldInto([], Asked(card)) == [Confirmation(card, Pending)];
    assert WithParts(was, [Confirmation(card, Pending)]) == m;
    assert [user, was][1 := m] == [user, m];
  }

  lemma OneCardText(p: Part)
    requires p.Confirmation?
    ensures PartsToText([p]) == ""
  {
    assert [p][..0] == [];
  }

  lemma Deciding(user: Message, card: Card, s0: Stream, s1: Stream, c: Chat, d: Chat)
    requires user.role.User? && user.parts.None? && s1 == Stream(2, 1, false, true, true, false)
    requires c == Chat(Some(Turn([user, Message(Assistant, "", Some([Confirmation(card, Pending)]))], true, "")),
      Some(0), 1, [s0])
    requires d == Chat(Some(Turn([user, Message(Assistant, "", Some([Confirmation(card, Approved)]))], true, "")),
      Some(1), 2, [s0, s1])
    ensures Apply(c, Decide(card.callId, true)) == d
  {
    AskedHosts(user, card);
    hide HostOf, PartsToText;
    var p := Confirmation(card, Pending);
    assert MarkConfirmation([p], card.callId, Approved) == [Confirmation(card, Approved)];
    assert MarkMessage(user, card.callId, Approved) == user;
    assert [s0] + [s1] == [s0, s1];
    assert MarkAll(TurnOf(c).messages, card.callId, Approved) == TurnOf(d).messages;
  }

  lemma Breaking(user: Message, card: Card, error: string, s0: Stream, s1: Stream, c: Chat, d: Chat)
    requires s0 == Stream(1, 1, true, true, true, false)
    requires c == Chat(Some(Turn([user, Message(Assistant, "", Some([Confirmation(card, Approved)]))], true, "")),
      Some(1), 2, [s0, s1])
    requires d == Chat(Some(Turn([user], true, error)), Some(1), 2, [s0.(live := false), s1])
    ensures Enabled(c, Break(0, false, error)) && Apply(c, Break(0, false, error)) == d
  {
    assert TurnOf(c).messages[..1] == [user];
  }

  lemma Losing(c: Chat, i: nat, text: string)
    requires i < |c.streams| && c.streams[i].live && c.streams[i].fold && c.streams[i].generation == c.generation
    requires c.turn.Some? && c.streams[i].foldIdx >= |c.turn.value.messages|
    ensures Enabled(c, Arrive(i, Token(text))) && Apply(c, Arrive(i, Token(text))) == c
  {
  }

  lemma AskedHosts(user: Message, card: Card)
    requires user.role.User?
    ensures HostOf([user, Message(Assistant, "", Some([Confirmation(card, Pending)]))], card.callId) == 1
  {
    var m := Message(Assistant, "", Some([Confirmation(card, Pending)]));
    assert m.parts.value[0].Confirmation?;
    assert Hosts(m, card.callId);
    var i := HostOf([user, m], card.callId);
    assert [user, m][0] == user && [user, m][1] == m;
  }

  lemma FiveSteps(c: Chat, s1: Step, s2: Step, s3: Step, s4: Step, s5: Step)
    requires Enabled(c, s1) && Enabled(Apply(c, s1), s2) && Enabled(Apply(Apply(c, s1), s2), s3)
    requires Enabled(Apply(Apply(Apply(c, s1), s2), s3), s4)
    requires Enabled(Apply(Apply(Apply(Apply(c, s1), s2), s3), s4), s5)
    ensures Possible(c, [s1, s2, s3, s4, s5])
    ensures RunOf(c, [s1, s2, s3, s4, s5]) == Apply(Apply(Apply(Apply(Apply(c, s1), s2), s3), s4), s5)
  {
    hide Apply, Enabled;
    var c1 := Apply(c, s1);
    var c2 := Apply(c1, s2);
    var c3 := Apply(c2, s3);
    var c4 := Apply(c3, s4);
    var c5 := Apply(c4, s5);
    assert [s1, s2, s3, s4, s5][1..] == [s2, s3, s4, s5] && [s2, s3, s4, s5][1..] == [s3, s4, s5];
    assert [s3, s4, s5][1..] == [s4, s5] && [s4, s5][1..] == [s5] && [s5][1..] == [];
    assert Possible(c5, []) && RunOf(c5, []) == c5;
    assert Possible(c4, [s5]) && RunOf(c4, [s5]) == c5;
    assert Possible(c3, [s4, s5]) && RunOf(c3, [s4, s5]) == c5;
    assert Possible(c2, [s3, s4, s5]) && RunOf(c2, [s3, s4, s5]) == c5;
    assert Possible(c1, [s2, s3, s4, s5]) && RunOf(c1, [s2, s3, s4, s5]) == c5;
  }

  // --- What a reply says -----------------------------------------------------------------

  /** The token this step folds into message k. */
  function TokenFor(c: Chat, s: Step, k: nat): string
    requires Enabled(c, s)
  {
    if s.Arrive? && s.event.Token? && c.streams[s.stream].generation == c.generation && c.streams[s.stream].foldIdx == k
    then s.event.text else ""
  }

  function TokensFor(c: Chat, steps: seq<Step>, k: nat): string
    requires Possible(c, steps)
    decreases |steps|
  {
    if steps == [] then ""
    else TokenFor(c, steps[0], k) + TokensFor(Apply(c, steps[0]), steps[1..], k)
  }

  /** Message k is there after every step. */
  ghost predicate Stays(c: Chat, steps: seq<Step>, k: nat)
    requires Possible(c, steps)
    decreases |steps|
  {
    k < |TurnOf(c).messages| && (steps != [] ==> Stays(Apply(c, steps[0]), steps[1..], k))
  }

  lemma FoldedContent(t: Turn, idx: nat, e: Arrival, k: nat)
    requires k < |t.messages| && Consistent(t.messages[k]) && (idx < |t.messages| ==> CanFold(t.messages[idx]))
    ensures k < |Folded(t, idx, e).messages| && Consistent(Folded(t, idx, e).messages[k])
    ensures Folded(t, idx, e).messages[k].content
      == t.messages[k].content + if idx == k && e.Token? then e.text else ""
  {
    hide AppendStreaming, FillToolResult, PartsToText;
    if k == idx && !e.Reported? && !e.Ended? {
      assert Consistent(t.messages[k]);
      var parts := t.messages[k].parts.value;
      match e
      case Token(text) => StreamingText(parts, Text(text));
      case Thought(text) => StreamingText(parts, Thinking(text));
      case Called(name, args) => TextOfSnoc(parts, ToolCall(name, args, None));
      case Returned(name, result) => FillKeepsText(parts, name, result);
      case Asked(card) => TextOfSnoc(parts, Confirmation(card, Pending));
    }
  }

  lemma StepContent(c: Chat, s: Step, k: nat)
    requires Protocol(c) && Enabled(c, s) && k < |TurnOf(c).messages| && k < |TurnOf(Apply(c, s)).messages|
    requires Consistent(TurnOf(c).messages[k])
    ensures Consistent(TurnOf(Apply(c, s)).messages[k])
    ensures TurnOf(Apply(c, s)).messages[k].content == TurnOf(c).messages[k].content + TokenFor(c, s, k)
  {
    hide Folded, Consistent, Numbered, CanFold;
    if s.Arrive? && c.generation == c.streams[s.stream].generation && c.turn.Some? {
      assert Current(c, s.stream);
      FoldedContent(c.turn.value, c.streams[s.stream].foldIdx, s.event, k);
    } else if s.Decide? {
      MarkedIsConsistent(TurnOf(c).messages[k], s.callId, if s.confirmed then Approved else Rejected);
    }
  }

  lemma MarkedIsConsistent(m: Message, callId: string, status: Decision)
    requires Consistent(m)
    ensures Consistent(MarkMessage(m, callId, status)) && MarkMessage(m, callId, status).content == m.content
  {
    if m.parts.Some? { MarkKeepsText(m.parts.value, callId, status); }
  }

  /** Through any run in which it is not dropped or cleared, a message's text grows by exactly
      the tokens folded into it, in the order they arrive. */
  lemma {:induction false} ContentIsItsTokens(c: Chat, steps: seq<Step>, k: nat)
    requires Protocol(c) && Possible(c, steps) && Stays(c, steps, k) && Consistent(TurnOf(c).messages[k])
    ensures k < |TurnOf(RunOf(c, steps)).messages|
    ensures TurnOf(RunOf(c, steps)).messages[k].content == TurnOf(c).messages[k].content + TokensFor(c, steps, k)
    decreases |steps|
  {
    hide Protocol, Enabled, Apply, TokenFor, Consistent;
    if steps != [] {
      StepKeepsProtocol(c, steps[0]);
      assert Stays(Apply(c, steps[0]), steps[1..], k);
      StepContent(c, steps[0], k);
      ContentIsItsTokens(Apply(c, steps[0]), steps[1..], k);
    }
  }

  // --- What each call does, written out ----------------------------------------------------

  /** A stream is opened under the next generation, and the controller names it. */
  ghost predicate Opened(c: Chat, d: Chat, foldIdx: nat, drop: bool, fold: bool) {
    && d.generation == c.generation + 1 && d.controller == Some(|c.streams|)
    && d.streams == c.streams + [Stream(c.generation + 1, foldIdx, drop, fold, true, false)]
  }

  ghost predicate Submitted(c: Chat, d: Chat, content: string) {
    var was, trimmed := if c.turn.Some? then c.turn.value.messages else [], EventStream.Trim(content);
    if trimmed == "" || (c.turn.Some? && c.turn.value.streaming) then d == c
    else
      && d.turn.Some? && d.turn.value.streaming && d.turn.value.error == ""
      && d.turn.value.messages == was + [Message(User, trimmed, None), Message(Assistant, "", Some([]))]
      && Opened(c, d, |was| + 1, true, true)
  }

  /** The message is an assistant's and shows a card of this call. */
  ghost predicate Shows(m: Message, callId: string) {
    m.role == Assistant && m.parts.Some?
    && exists p :: p in m.parts.value && p.Confirmation? && p.card.callId == callId
  }

  /** The cards of this call show the decision, and nothing else of the message changed. */
  ghost predicate Stamped(was: Message, now: Message, callId: string, status: Decision) {
    && now.role == was.role && now.content == was.content && (now.parts.Some? <==> was.parts.Some?)
    && (now.parts.Some? ==>
          && |now.parts.value| == |was.parts.value|
          && forall i | 0 <= i < |now.parts.value| :: now.parts.value[i] ==
               if was.parts.value[i].Confirmation? && was.parts.value[i].card.callId == callId
               then Confirmation(was.parts.value[i].card, status) else was.parts.value[i])
  }

  ghost predicate FirstToShow(messages: seq<Message>, callId: string, host: nat) {
    host < |messages| && Shows(messages[host], callId) && forall i | 0 <= i < host :: !Shows(messages[i], callId)
  }

  ghost predicate DecidedAt(c: Chat, d: Chat, callId: string, confirmed: bool, host: nat) {
    c.turn.Some? && d.turn.Some? &&
    var was, now := c.turn.value.messages, d.turn.value;
    && FirstToShow(was, callId, host) && Opened(c, d, host, false, confirmed)
    && now.streaming && now.error == "" && |now.messages| == |was|
    && forall i | 0 <= i < |was| ::
         Stamped(was[i], now.messages[i], callId, if confirmed then Approved else Rejected)
  }

  /** A decision goes to the first message that shows a card of the call: every card of it is
      stamped, and a stream into that message is opened. Without such a message it does nothing. */
  ghost predicate Decided(c: Chat, d: Chat, callId: string, confirmed: bool) {
    if c.turn.None? || forall host: nat :: !FirstToShow(c.turn.value.messages, callId, host) then d == c
    else exists host: nat :: DecidedAt(c, d, callId, confirmed, host)
  }

  /** What one event adds to the parts of a reply. */
  ghost predicate Extends(was: seq<Part>, now: seq<Part>, e: Arrival) {
    match e
    case Token(text) =>
      if was != [] && was[|was| - 1].Text? then now == was[..|was| - 1] + [Text(was[|was| - 1].text + text)]
      else now == was + [Text(text)]
    case Thought(text) =>
      if was != [] && was[|was| - 1].Thinking? then now == was[..|was| - 1] + [Thinking(was[|was| - 1].text + text)]
      else now == was + [Thinking(text)]
    case Called(name, args) => now == was + [ToolCall(name, args, None)]
    case Returned(name, result) =>
      |now| == |was| && forall i | 0 <= i < |was| ::
        now[i] == if LatestOpen(was, name, i) then ToolCall(name, was[i].args, result) else was[i]
    case Asked(card) => now == was + [Confirmation(card, MessageParts.Pending)]
    case _ => false
  }

  /** An event of the current generation reaches the message its stream folds into, or sets the
      error; anything else changes nothing. */
  ghost predicate Arrived(c: Chat, d: Chat, s: Stream, e: Arrival) {
    if s.generation != c.generation || c.turn.None? || e.Ended?
       || (!e.Reported? && s.foldIdx >= |c.turn.value.messages|)
    then d == c
    else
      var was := c.turn.value;
      && d == c.(turn := d.turn) && d.turn.Some?
      && if e.Reported? then d.turn.value == was.(error := e.error)
         else
           var now := d.turn.value.messages;
           && d.turn.value == was.(messages := now) && |now| == |was.messages|
           && (forall k | 0 <= k < |now| && k != s.foldIdx :: now[k] == was.messages[k])
           && Replied(was.messages[s.foldIdx], now[s.foldIdx], e)
  }

  ghost predicate Replied(was: Message, now: Message, e: Arrival) {
    && now.role == was.role && now.parts.Some? && Consistent(now)
    && Extends(if was.parts.Some? then was.parts.value else [], now.parts.value, e)
  }

  /** The stream is over, and with it the chat's streaming if it was of the current generation. */
  ghost predicate Closed(c: Chat, d: Chat, i: nat) {
    && i < |c.streams| && d.generation == c.generation
    && d.controller == (if c.controller == Some(i) then None else c.controller)
    && |d.streams| == |c.streams| && d.streams[i] == c.streams[i].(live := false)
    && (forall k | 0 <= k < |c.streams| && k != i :: d.streams[k] == c.streams[k])
    && (d.turn.Some? <==> c.turn.Some?)
    && (d.turn.Some? ==>
          d.turn.value.streaming == (c.turn.value.streaming && c.streams[i].generation != c.generation))
  }

  /** A break that is no abort sets the error, and cuts off the reply from the message the
      stream folds into if that one may be dropped and is an assistant's without content. */
  ghost predicate Broken(c: Chat, d: Chat, i: nat, aborted: bool, error: string) {
    Closed(c, d, i) && (c.turn.Some? ==>
      var s, was, now := c.streams[i], c.turn.value, d.turn.value;
      && now.error == (if aborted then was.error else error)
      && now.messages == if !aborted && s.drop && s.foldIdx < |was.messages| && was.messages[s.foldIdx].content == ""
                            && was.messages[s.foldIdx].role == Assistant
                         then was.messages[..s.foldIdx] else was.messages)
  }

  /** The stream the controller names is aborted and no other. */
  ghost predicate AbortsNamed(c: Chat, d: Chat) {
    |d.streams| == |c.streams| && forall k | 0 <= k < |c.streams| ::
      d.streams[k] == if c.controller == Some(k) then c.streams[k].(aborted := true) else c.streams[k]
  }

  lemma SubmitEffect(c: Chat, content: string)
    ensures Submitted(c, Apply(c, Submit(content)), content)
  {
    hide EventStream.Trim;
  }

  lemma HostsShows(m: Message, callId: string)
    ensures Hosts(m, callId) <==> Shows(m, callId)
  {
    if Shows(m, callId) {
      var p :| p in m.parts.value && p.Confirmation? && p.card.callId == callId;
      var k :| 0 <= k < |m.parts.value| && m.parts.value[k] == p;
    }
  }

  lemma DecideEffect(c: Chat, callId: string, confirmed: bool)
    ensures Decided(c, Apply(c, Decide(callId, confirmed)), callId, confirmed)
  {
    var was, d := TurnOf(c).messages, Apply(c, Decide(callId, confirmed));
    var host := HostOf(was, callId);
    HostIsFirst(was, callId);
    if host < |was| {
      var status := if confirmed then Approved else Rejected;
      var t := Turn(MarkAll(was, callId, status), true, "");
      StartOpens(c, t, host, false, confirmed);
      forall i | 0 <= i < |was| { MarkStamps(was[i], callId, status); }
      hide FirstToShow, Stamped, MarkAll, Opened;
      assert DecidedAt(c, d, callId, confirmed, host);
    }
  }

  lemma HostIsFirst(messages: seq<Message>, callId: string)
    ensures forall host: nat :: FirstToShow(messages, callId, host) <==>
      host == HostOf(messages, callId) && host < |messages|
  {
    hide Hosts, Shows;
    forall i | 0 <= i < |messages| ensures Hosts(messages[i], callId) <==> Shows(messages[i], callId) {
      HostsShows(messages[i], callId);
    }
  }

  lemma StartOpens(c: Chat, t: Turn, foldIdx: nat, drop: bool, fold: bool)
    ensures Opened(c, Started(c, t, foldIdx, drop, fold), foldIdx, drop, fold)
  {
  }

  lemma MarkStamps(m: Message, callId: string, status: Decision)
    ensures Stamped(m, MarkMessage(m, callId, status), callId, status)
  {
  }

  lemma FoldExtends(parts: seq<Part>, e: Arrival)
    requires !e.Reported? && !e.Ended?
    ensures Extends(parts, FoldInto(parts, e), e)
  {
    match e
    case Token(text) =>
    case Thought(text) =>
    case Called(name, args) =>
    case Asked(card) =>
    case Returned(name, result) =>
      if parts == [] { FillsNothing(name, result); }
      forall i | 0 <= i < |parts| { FillsLatestOpen(parts, name, result, i); }
  }

  lemma ArriveEffect(c: Chat, i: nat, e: Arrival)
    requires Enabled(c, Arrive(i, e))
    ensures Arrived(c, Apply(c, Arrive(i, e)), c.streams[i], e)
  {
    hide Extends, FoldInto, PartsToText;
    var s := c.streams[i];
    if c.turn.Some? && !e.Reported? && !e.Ended? && s.foldIdx < |c.turn.value.messages| {
      var m := c.turn.value.messages[s.foldIdx];
      FoldExtends(if m.parts.Some? then m.parts.value else [], e);
    }
  }

  lemma FinishEffect(c: Chat, i: nat)
    requires i < |c.streams|
    ensures Closed(c, Finished(c, i), i)
  {
  }

  lemma BreakEffect(c: Chat, i: nat, aborted: bool, error: string)
    requires Enabled(c, Break(i, aborted, error))
    ensures Broken(c, Apply(c, Break(i, aborted, error)), i, aborted, error)
  {
    var e := if aborted || c.turn.None? then c else c.(turn := Some(Failed(c.turn.value, c.streams[i], error)));
    FinishEffect(e, i);
  }

  lemma AbortEffect(c: Chat)
    ensures AbortsNamed(c, Aborted(c))
  {
  }

  // --- The store -------------------------------------------------------------------------

  /** The maps of the store. `streams` stands for the pending runStream calls of a chat. */
  class Store {
    var states: map<string, Turn>
    var controllers: map<string, nat>
    var generations: map<string, nat>
    var streams: map<string, seq<Stream>>

    constructor ()
      ensures forall chat :: View(chat) == EMPTY
    {
      states, controllers, generations, streams := map[], map[], map[], map[];
    }

    function StreamsOf(chat: string): seq<Stream>
      reads this
    {
      if chat in streams then streams[chat] else []
    }

    function View(chat: string): Chat
      reads this
    {
      Chat(if chat in states then Some(states[chat]) else None,
           if chat in controllers then Some(controllers[chat]) else None,
           if chat in generations then generations[chat] else 0,
           StreamsOf(chat))
    }

    function Current(chat: string): Turn
      reads this
    {
      if chat in states then states[chat] else Turn([], false, "")
    }

    method SeedChat(chat: string, messages: seq<Message>)
      modifies this
      ensures View(chat) == Apply(old(View(chat)), Seed(messages))
      ensures var was := old(View(chat));
        View(chat) == if was.turn.Some? && (was.turn.value.streaming || was.turn.value.messages != []) then was
                      else was.(turn := Some(Turn(messages, false, "")))
      ensures forall other | other != chat :: View(other) == old(View(other))
    {
      if chat in states && (states[chat].streaming || |states[chat].messages| > 0) { return; }
      states := states[chat := Turn(messages, false, "")];
    }

    method AbortController(chat: string)
      modifies this`streams
      ensures View(chat) == Aborted(old(View(chat))) && AbortsNamed(old(View(chat)), View(chat))
      ensures forall other | other != chat :: View(other) == old(View(other))
    {
      AbortEffect(View(chat));
      if chat in controllers && controllers[chat] < |StreamsOf(chat)| {
        var all := StreamsOf(chat);
        streams := streams[chat := all[controllers[chat] := all[controllers[chat]].(aborted := true)]];
      }
    }

    method StopChat(chat: string)
      modifies this
      ensures View(chat) == Apply(old(View(chat)), Stop)
      ensures AbortsNamed(old(View(chat)), View(chat)) && View(chat) == old(View(chat)).(streams := StreamsOf(chat))
      ensures forall other | other != chat :: View(other) == old(View(other))
    {
      AbortController(chat);
    }

    method ClearChat(chat: string)
      modifies this
      ensures View(chat) == Apply(old(View(chat)), Clear)
      ensures AbortsNamed(old(View(chat)), View(chat))
      ensures View(chat) == Chat(None, None, old(View(chat)).generation + 1, StreamsOf(chat))
      ensures forall other | other != chat :: View(other) == old(View(other))
    {
      AbortController(chat);
      controllers := controllers - {chat};
      states := states - {chat};
      var generation := BumpGeneration(chat);
    }

    method BumpGeneration(chat: string) returns (next: nat)
      modifies this`generations
      ensures next == old(View(chat)).generation + 1
      ensures View(chat) == old(View(chat)).(generation := next)
      ensures forall other | other != chat :: View(other) == old(View(other))
    {
      next := (if chat in generations then generations[chat] else 0) + 1;
      generations := generations[chat := next];
    }

    /** The part of runStream before its first await. */
    method RunStream(chat: string, foldIdx: nat, drop: bool, fold: bool)
      requires chat in states
      modifies this
      ensures View(chat) == Started(old(View(chat)), old(states[chat]), foldIdx, drop, fold)
      ensures Opened(old(View(chat)), View(chat), foldIdx, drop, fold) && View(chat).turn == old(View(chat)).turn
      ensures forall other | other != chat :: View(other) == old(View(other))
    {
      controllers := controllers[chat := |StreamsOf(chat)|];
      assert forall other | other != chat :: View(other) == old(View(other));
      var generation := BumpGeneration(chat);
      assert forall other | other != chat :: View(other) == old(View(other));
      streams := streams[chat := StreamsOf(chat) + [Stream(generation, foldIdx, drop, fold, true, false)]];
    }

    method SubmitMessage(chat: string, content: string)
      modifies this
      ensures View(chat) == Apply(old(View(chat)), Submit(content)) && Submitted(old(View(chat)), View(chat), content)
      ensures forall other | other != chat :: View(other) == old(View(other))
    {
      SubmitEffect(View(chat), content);
      hide Submitted;
      var trimmed := EventStream.Trim(content);
      if trimmed == "" { return; }
      var cur := Current(chat);
      if cur.streaming { return; }
      var user, assistant := Message(User, trimmed, None), Message(Assistant, "", Some([]));
      states := states[chat := Turn(cur.messages + [user, assistant], true, "")];
      RunStream(chat, |cur.messages| + 1, true, true);
    }

    method FindHost(messages: seq<Message>, callId: string) returns (i: nat)
      ensures i == HostOf(messages, callId)
    {
      i := 0;
      while i < |messages| && !Hosts(messages[i], callId)
        invariant i <= |messages| && forall j | 0 <= j < i :: !Hosts(messages[j], callId)
      {
        i := i + 1;
      }
    }

    method DecideConfirmation(chat: string, callId: string, confirmed: bool)
      modifies this
      ensures View(chat) == Apply(old(View(chat)), Decide(callId, confirmed))
      ensures Decided(old(View(chat)), View(chat), callId, confirmed)
      ensures forall other | other != chat :: View(other) == old(View(other))
    {
      hide EventStream.Trim, Decided;
      DecideEffect(View(chat), callId, confirmed);
      var cur := Current(chat);
      var host := FindHost(cur.messages, callId);
      if host == |cur.messages| { return; }
      states := states[chat := Turn(MarkAll(cur.messages, callId, if confirmed then Approved else Rejected), true, "")];
      RunStream(chat, host, false, confirmed);
    }

    /** One event read by consumeStream. */
    method OnArrival(chat: string, stream: nat, e: Arrival)
      requires Enabled(View(chat), Arrive(stream, e))
      modifies this
      ensures View(chat) == Apply(old(View(chat)), Arrive(stream, e))
      ensures Arrived(old(View(chat)), View(chat), old(StreamsOf(chat))[stream], e)
      ensures forall other | other != chat :: View(other) == old(View(other))
    {
      hide Arrived;
      ArriveEffect(View(chat), stream, e);
      var s := StreamsOf(chat)[stream];
      if (if chat in generations then generations[chat] else 0) != s.generation { return; }
      if chat !in states { return; }
      states := states[chat := Folded(states[chat], s.foldIdx, e)];
    }

    /** handleStreamError. */
    method HandleStreamError(chat: string, s: Stream, aborted: bool, error: string)
      modifies this`states
      ensures View(chat) == if aborted || old(View(chat)).turn.None? then old(View(chat))
        else old(View(chat)).(turn := Some(Failed(old(states[chat]), s, error)))
      ensures forall other | other != chat :: View(other) == old(View(other))
    {
      if aborted { return; }
      if chat !in states { return; }
      var messages := states[chat].messages;
      if s.drop && s.foldIdx < |messages| {
        var last := messages[s.foldIdx];
        if last.role.Assistant? && last.content == "" {
          messages := messages[..s.foldIdx];
        }
      }
      states := states[chat := states[chat].(messages := messages, error := error)];
    }

    /** The finally block of runStream, with finishStream. */
    method FinishStream(chat: string, stream: nat)
      requires stream < |StreamsOf(chat)|
      modifies this
      ensures View(chat) == Finished(old(View(chat)), stream) && Closed(old(View(chat)), View(chat), stream)
      ensures forall other | other != chat :: View(other) == old(View(other))
    {
      hide Closed;
      FinishEffect(View(chat), stream);
      var s := StreamsOf(chat)[stream];
      if chat in controllers && controllers[chat] == stream { controllers := controllers - {chat}; }
      streams := streams[chat := StreamsOf(chat)[stream := s.(live := false)]];
      if (if chat in generations then generations[chat] else 0) != s.generation { return; }
      if chat !in states { return; }
      states := states[chat := states[chat].(streaming := false)];
    }

    method OnBreak(chat: string, stream: nat, aborted: bool, error: string)
      requires Enabled(View(chat), Break(stream, aborted, error))
      modifies this
      ensures View(chat) == Apply(old(View(chat)), Break(stream, aborted, error))
      ensures Broken(old(View(chat)), View(chat), stream, aborted, error)
      ensures forall other | other != chat :: View(other) == old(View(other))
    {
      hide Broken, Closed;
      BreakEffect(View(chat), stream, aborted, error);
      HandleStreamError(chat, StreamsOf(chat)[stream], aborted, error);
      FinishStream(chat, stream);
    }

    method OnClose(chat: string, stream: nat)
      requires Enabled(View(chat), Close(stream))
      modifies this
      ensures View(chat) == Apply(old(View(chat)), Close(stream)) && Closed(old(View(chat)), View(chat), stream)
      ensures chat in states ==> states[chat] == old(states[chat]).(streaming := states[chat].streaming)
      ensures forall other | other != chat :: View(other) == old(View(other))
    {
      FinishStream(chat, stream);
    }
  }
}
