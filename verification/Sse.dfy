/** Rendering of a content list as server-sent events (`build_sse_events`), and the replay that
    a client runs over them. */
module Sse {
  import opened Wrappers
  import opened Json
  import JsonText
  import Types
  import W = WebSearch

  datatype Usage = Usage(inputTokens: int, outputTokens: int, cacheCreation: int, cacheRead: int)

  datatype Delta =
    | TextDelta(text: string)
    | ThinkingDelta(thinking: string)
    | SignatureDelta(signature: string)
    | InputJsonDelta(partial: string)

  datatype SseEvent =
    | MessageStart(model: string, inputTokens: int, cacheCreation: int, cacheRead: int)
    | BlockStart(index: int, block: Value)
    | BlockDelta(index: int, delta: Delta)
    | BlockStop(index: int)
    | MessageDelta(stopReason: string, outputTokens: int, cacheCreation: int, cacheRead: int)
    | MessageStop

  // ----- Rendering -----

  function TypeOf(block: Value): string {
    StrField(block, "type")
  }

  /** The `input` of a tool call, an empty object if there is none. */
  function InputOf(block: Value): Value {
    Get(block, "input").GetOr(Obj(map[]))
  }

  function StartOf(block: Value): Value {
    match TypeOf(block)
    case "thinking" => Obj(map["type" := Str("thinking"), "thinking" := Str("")])
    case "redacted_thinking" => Obj(map["type" := Str("redacted_thinking"), "data" := Str(StrField(block, "data"))])
    case "text" => Obj(map["type" := Str("text"), "text" := Str("")])
    case "tool_use" =>
      Obj(map["type" := Str("tool_use"), "id" := Str(StrField(block, "id")), "name" := Str(StrField(block, "name")),
              "input" := Obj(map[])])
    case _ => block
  }

  function DeltasOf(block: Value): seq<Delta> {
    match TypeOf(block)
    case "thinking" =>
      (if StrField(block, "thinking") == "" then [] else [ThinkingDelta(StrField(block, "thinking"))]) +
      [SignatureDelta(W.SIGNATURE)]
    case "text" => [TextDelta(StrField(block, "text"))]
    case "tool_use" => [InputJsonDelta(JsonText.Text(InputOf(block)))]
    case _ => []
  }

  const KNOWN_TYPES :=
    ["thinking", "redacted_thinking", "text", "tool_use", "server_tool_use", "web_search_tool_result"]

  /** Start, deltas and stop of one block; a block of another type is not rendered. */
  function BlockEvents(index: int, block: Value): seq<SseEvent> {
    if TypeOf(block) !in KNOWN_TYPES then []
    else
      var deltas := DeltasOf(block);
      [BlockStart(index, StartOf(block))] +
      seq(|deltas|, i requires 0 <= i < |deltas| => BlockDelta(index, deltas[i])) +
      [BlockStop(index)]
  }

  function BodyEvents(content: seq<Value>): seq<SseEvent> {
    if content == [] then []
    else BodyEvents(content[..|content| - 1]) + BlockEvents(|content| - 1, content[|content| - 1])
  }

  function Events(model: string, content: seq<Value>, stopReason: string, usage: Usage): seq<SseEvent> {
    [MessageStart(model, usage.inputTokens, usage.cacheCreation, usage.cacheRead)] + BodyEvents(content) +
    [MessageDelta(stopReason, usage.outputTokens, usage.cacheCreation, usage.cacheRead), MessageStop]
  }

  method BuildSseEvents(model: string, content: seq<Value>, stopReason: string, usage: Usage)
    returns (events: seq<SseEvent>)
    ensures events == Events(model, content, stopReason, usage)
  {
    var start := MessageStart(model, usage.inputTokens, usage.cacheCreation, usage.cacheRead);
    var delta := MessageDelta(stopReason, usage.outputTokens, usage.cacheCreation, usage.cacheRead);
    var body := RenderBody(content);
    events := [start] + body + [delta, MessageStop];
  }

  method RenderBody(content: seq<Value>) returns (events: seq<SseEvent>)
    ensures events == BodyEvents(content)
  {
    events := [];
    for index := 0 to |content|
      invariant events == BodyEvents(content[..index])
    {
      var rendered := RenderBlock(index, content[index]);
      BodySnoc(content, index);
      events := events + rendered;
    }
    assert content[..|content|] == content;
  }

  lemma BodySnoc(content: seq<Value>, index: nat)
    requires index < |content|
    ensures BodyEvents(content[..index + 1]) == BodyEvents(content[..index]) + BlockEvents(index, content[index])
  {
    assert content[..index + 1][..index] == content[..index];
  }

  method RenderBlock(index: int, block: Value) returns (events: seq<SseEvent>)
    ensures events == BlockEvents(index, block)
  {
    events := [];
    if TypeOf(block) in KNOWN_TYPES {
      events := [BlockStart(index, StartOf(block))];
      var deltas := DeltasOf(block);
      for i := 0 to |deltas|
        invariant events == [BlockStart(index, StartOf(block))] +
                            seq(|deltas|, j requires 0 <= j < |deltas| => BlockDelta(index, deltas[j]))[..i]
      {
        events := events + [BlockDelta(index, deltas[i])];
      }
      events := events + [BlockStop(index)];
    }
  }

  // ----- Replay -----

  datatype Reply = Reply(model: string, content: seq<Value>, stopReason: string, usage: Usage)

  /** A client in the middle of a stream: finished blocks, and the block being received with
      the tool arguments collected so far. */
  datatype Client = Client(done: seq<Value>, open: Option<Value>, partial: string)

  /** The JSON value a text stands for. */
  ghost function Parse(text: string): (r: Value)
    ensures JsonText.WellFormed(r)
  {
    if exists v :: JsonText.WellFormed(v) && JsonText.Text(v) == text then
      var v :| JsonText.WellFormed(v) && JsonText.Text(v) == text;
      v
    else Null
  }

  lemma ParseText(v: Value)
    requires JsonText.WellFormed(v)
    ensures Parse(JsonText.Text(v)) == v
  {
    var w := Parse(JsonText.Text(v));
    JsonText.TextInjective(v, w);
  }

  function SetField(block: Value, key: string, v: Value): Value {
    if block.Obj? then Obj(block.fields[key := v]) else block
  }

  function ApplyDelta(c: Client, delta: Delta): Client
    requires c.open.Some?
  {
    var b := c.open.value;
    match delta
    case TextDelta(text) => c.(open := Some(SetField(b, "text", Str(StrField(b, "text") + text))))
    case ThinkingDelta(t) => c.(open := Some(SetField(b, "thinking", Str(StrField(b, "thinking") + t))))
    case SignatureDelta(s) => c.(open := Some(SetField(b, "signature", Str(s))))
    case InputJsonDelta(p) => c.(partial := c.partial + p)
  }

  /** What a client makes of an open block once its deltas are over. */
  ghost function Filled(full: Client): Value
    requires full.open.Some?
  {
    if TypeOf(full.open.value) == "tool_use" then SetField(full.open.value, "input", Parse(full.partial))
    else full.open.value
  }

  /** A strict client: indices run 0, 1, 2, ... and each block is stopped before the next one
      starts; anything else is refused. */
  ghost function Receive(c: Client, e: SseEvent): Option<Client> {
    match e
    case BlockStart(index, block) =>
      if c.open.None? && index == |c.done| then Some(Client(c.done, Some(block), "")) else None
    case BlockDelta(index, delta) =>
      if c.open.Some? && index == |c.done| then Some(ApplyDelta(c, delta)) else None
    case BlockStop(index) =>
      if c.open.Some? && index == |c.done| then
        Some(Client(c.done + [Filled(c)], None, ""))
      else None
    case _ => None
  }

  ghost function ReceiveAll(c: Option<Client>, events: seq<SseEvent>): Option<Client>
    decreases |events|
  {
    if events == [] || c.None? then c
    else ReceiveAll(Receive(c.value, events[0]), events[1..])
  }

  const FRESH_CLIENT := Client([], None, "")

  /** Replay of a whole stream: framed by the message events, every block stopped. */
  ghost function Replay(events: seq<SseEvent>): Option<Reply> {
    if |events| < 3 || !events[0].MessageStart? || !events[|events| - 2].MessageDelta?
       || events[|events| - 1] != MessageStop then None
    else
      var first, last := events[0], events[|events| - 2];
      match ReceiveAll(Some(FRESH_CLIENT), events[1..|events| - 2])
      case Some(c) =>
        if c.open.Some? then None
        else Some(Reply(first.model, c.done, last.stopReason,
                        Usage(first.inputTokens, last.outputTokens, first.cacheCreation, first.cacheRead)))
      case None => None
  }

  lemma {:induction false} ReceiveAppend(c: Option<Client>, a: seq<SseEvent>, b: seq<SseEvent>)
    ensures ReceiveAll(c, a + b) == ReceiveAll(ReceiveAll(c, a), b)
    decreases |a|
  {
    if a == [] {
      assert a + b == b;
    } else if c.Some? {
      assert (a + b)[0] == a[0] && (a + b)[1..] == a[1..] + b;
      ReceiveAppend(Receive(c.value, a[0]), a[1..], b);
    }
  }

  // ----- Replay inverts rendering -----

  /** What a client ends up with for a block. */
  ghost function Rebuilt(block: Value): Value {
    match TypeOf(block)
    case "thinking" =>
      Obj(map["type" := Str("thinking"), "thinking" := Str(StrField(block, "thinking")),
              "signature" := Str(W.SIGNATURE)])
    case "redacted_thinking" => Obj(map["type" := Str("redacted_thinking"), "data" := Str(StrField(block, "data"))])
    case "text" => Obj(map["type" := Str("text"), "text" := Str(StrField(block, "text"))])
    case "tool_use" =>
      Obj(map["type" := Str("tool_use"), "id" := Str(StrField(block, "id")), "name" := Str(StrField(block, "name")),
              "input" := Parse(JsonText.Text(InputOf(block)))])
    case _ => block
  }

  /** Blocks that stream without loss: of a known type, with exactly the fields of their type. */
  predicate Streamable(block: Value) {
    && block.Obj?
    && match TypeOf(block)
       case "thinking" =>
         && block.fields.Keys == {"type", "thinking", "signature"}
         && block.fields["thinking"].Str? && block.fields["signature"] == Str(W.SIGNATURE)
       case "redacted_thinking" => block.fields.Keys == {"type", "data"} && block.fields["data"].Str?
       case "text" => block.fields.Keys == {"type", "text"} && block.fields["text"].Str?
       case "tool_use" =>
         && block.fields.Keys == {"type", "id", "name", "input"}
         && block.fields["id"].Str? && block.fields["name"].Str? && JsonText.WellFormed(block.fields["input"])
       case t => t in KNOWN_TYPES
  }

  predicate AllStreamable(content: seq<Value>) {
    forall b <- content :: Streamable(b)
  }

  lemma StreamableIsRebuilt(block: Value)
    requires Streamable(block)
    ensures Rebuilt(block) == block
  {
    if TypeOf(block) == "tool_use" {
      ParseText(InputOf(block));
    }
    assert Rebuilt(block).fields.Keys == block.fields.Keys;
    assert Rebuilt(block).fields == block.fields;
  }

  lemma RebuiltIsStreamable(block: Value)
    requires TypeOf(block) in KNOWN_TYPES && Rebuilt(block) == block
    ensures Streamable(block)
  {
  }

  lemma ReceiveOne(c: Client, e: SseEvent)
    ensures ReceiveAll(Some(c), [e]) == Receive(c, e)
  {
    assert [e][1..] == [];
  }

  lemma {:induction false} ReceiveDeltas(c: Client, index: int, deltas: seq<Delta>)
    requires c.open.Some? && index == |c.done|
    ensures ReceiveAll(Some(c), seq(|deltas|, i requires 0 <= i < |deltas| => BlockDelta(index, deltas[i]))) ==
            Some(ApplyAll(c, deltas))
    decreases |deltas|
  {
    var events := seq(|deltas|, i requires 0 <= i < |deltas| => BlockDelta(index, deltas[i]));
    if deltas != [] {
      var rest := deltas[1..];
      assert events[1..] == seq(|rest|, i requires 0 <= i < |rest| => BlockDelta(index, rest[i]));
      ReceiveDeltas(ApplyDelta(c, deltas[0]), index, rest);
    }
  }

  function ApplyAll(c: Client, deltas: seq<Delta>): (r: Client)
    requires c.open.Some?
    ensures r.open.Some? && r.done == c.done
    decreases |deltas|
  {
    if deltas == [] then c else ApplyAll(ApplyDelta(c, deltas[0]), deltas[1..])
  }

  /** One block, rendered and received. */
  lemma BlockReceived(done: seq<Value>, block: Value)
    requires TypeOf(block) in KNOWN_TYPES
    ensures ReceiveAll(Some(Client(done, None, "")), BlockEvents(|done|, block)) ==
            Some(Client(done + [Rebuilt(block)], None, ""))
  {
    var n, deltas := |done|, DeltasOf(block);
    var a, b, s :=
      [BlockStart(n, StartOf(block))],
      seq(|deltas|, i requires 0 <= i < |deltas| => BlockDelta(n, deltas[i])),
      [BlockStop(n)];
    var c, started := Client(done, None, ""), Client(done, Some(StartOf(block)), "");
    ReceiveAppend(Some(c), a + b, s);
    ReceiveAppend(Some(c), a, b);
    ReceiveOne(c, a[0]);
    ReceiveDeltas(started, n, deltas);
    var full := ApplyAll(started, deltas);
    ReceiveOne(full, s[0]);
    BlockFilled(done, block);
  }

  /** The deltas of a block fill in what its start leaves out. */
  lemma BlockFilled(done: seq<Value>, block: Value)
    requires TypeOf(block) in KNOWN_TYPES
    ensures var full := ApplyAll(Client(done, Some(StartOf(block)), ""), DeltasOf(block));
            Rebuilt(block) == Filled(full)
  {
    var start := Client(done, Some(StartOf(block)), "");
    match TypeOf(block) {
      case "thinking" =>
        ThinkingFilled(start, StrField(block, "thinking"));
      case "text" =>
        TextFilled(start, block);
      case "tool_use" =>
        ToolUseFilled(start, block);
      case _ =>
    }
  }

  lemma TextFilled(start: Client, block: Value)
    requires TypeOf(block) == "text" && start.open == Some(StartOf(block))
    ensures Filled(ApplyAll(start, DeltasOf(block))) == Rebuilt(block)
  {
    assert ApplyAll(start, DeltasOf(block)) == ApplyDelta(start, DeltasOf(block)[0]);
    assert [] + StrField(block, "text") == StrField(block, "text");
    assert ApplyDelta(start, DeltasOf(block)[0]).open.value.fields == Rebuilt(block).fields;
  }

  lemma ToolUseFilled(start: Client, block: Value)
    requires TypeOf(block) == "tool_use" && start.open == Some(StartOf(block)) && start.partial == ""
    ensures Filled(ApplyAll(start, DeltasOf(block))) == Rebuilt(block)
  {
    var text := JsonText.Text(InputOf(block));
    assert ApplyAll(start, DeltasOf(block)) == ApplyDelta(start, DeltasOf(block)[0]);
    assert "" + text == text;
    assert SetField(StartOf(block), "input", Parse(text)).fields == Rebuilt(block).fields;
  }

  lemma ThinkingFilled(start: Client, t: string)
    requires start.open == Some(Obj(map["type" := Str("thinking"), "thinking" := Str("")]))
    ensures ApplyAll(start, (if t == "" then [] else [ThinkingDelta(t)]) + [SignatureDelta(W.SIGNATURE)]).open ==
            Some(Obj(map["type" := Str("thinking"), "thinking" := Str(t), "signature" := Str(W.SIGNATURE)]))
  {
    var signed := SignatureDelta(W.SIGNATURE);
    if t == "" {
      assert ApplyAll(start, [] + [signed]) == ApplyDelta(start, signed);
      assert map["type" := Str("thinking"), "thinking" := Str("")]["signature" := Str(W.SIGNATURE)] ==
             map["type" := Str("thinking"), "thinking" := Str(t), "signature" := Str(W.SIGNATURE)];
    } else {
      var deltas := [ThinkingDelta(t), signed];
      assert [ThinkingDelta(t)] + [signed] == deltas;
      var c1 := ApplyDelta(start, deltas[0]);
      assert deltas[1..] == [signed];
      assert ApplyAll(start, deltas) == ApplyAll(c1, [signed]);
      assert ApplyAll(c1, [signed]) == ApplyDelta(c1, signed);
      assert "" + t == t;
      assert c1.open.value.fields == map["type" := Str("thinking"), "thinking" := Str(t)];
    }
  }

  ghost function RebuiltAll(content: seq<Value>): seq<Value> {
    seq(|content|, i requires 0 <= i < |content| => Rebuilt(content[i]))
  }

  predicate AllKnown(content: seq<Value>) {
    forall b <- content :: TypeOf(b) in KNOWN_TYPES
  }

  /** Known blocks all arrive; from the first unknown one on, the list stays short of it or the
      stream is refused. */
  lemma {:induction false} BodyReceived(content: seq<Value>)
    ensures Arrived(ReceiveAll(Some(FRESH_CLIENT), BodyEvents(content)), content)
    decreases |content|
  {
    if content == [] {
      assert RebuiltAll(content) == [];
    } else {
      var init, last, n := content[..|content| - 1], content[|content| - 1], |content| - 1;
      BodyReceived(init);
      var before := ReceiveAll(Some(FRESH_CLIENT), BodyEvents(init));
      ReceiveAppend(Some(FRESH_CLIENT), BodyEvents(init), BlockEvents(n, last));
      assert content == init + [last];
      BlockArrived(before, init, last);
    }
  }

  /** All of `content` arrived if all of it is known, otherwise less than all. */
  ghost predicate Arrived(r: Option<Client>, content: seq<Value>) {
    if AllKnown(content) then r == Some(Client(RebuiltAll(content), None, ""))
    else r.Some? ==> |r.value.done| < |content| && r.value.open.None? && r.value.partial == ""
  }

  lemma {:induction false} BlockArrived(before: Option<Client>, init: seq<Value>, last: Value)
    requires Arrived(before, init)
    ensures Arrived(ReceiveAll(before, BlockEvents(|init|, last)), init + [last])
  {
    assert AllKnown(init + [last]) <==> AllKnown(init) && TypeOf(last) in KNOWN_TYPES by {
      KnownSnoc(init, last);
    }
    if TypeOf(last) in KNOWN_TYPES {
      if AllKnown(init) {
        BlockReceived(RebuiltAll(init), last);
        assert RebuiltAll(init + [last]) == RebuiltAll(init) + [Rebuilt(last)];
      } else if before.Some? {
        GapRefused(before.value, |init|, last);
      }
    }
  }

  lemma KnownSnoc(init: seq<Value>, last: Value)
    ensures AllKnown(init + [last]) <==> AllKnown(init) && TypeOf(last) in KNOWN_TYPES
  {
    assert last in init + [last];
    assert forall b :: b in init + [last] <==> b in init || b == last;
  }

  lemma {:induction false} GapRefused(c: Client, index: int, block: Value)
    requires TypeOf(block) in KNOWN_TYPES && index != |c.done|
    ensures ReceiveAll(Some(c), BlockEvents(index, block)).None?
  {
  }

  lemma FramedReplay(model: string, content: seq<Value>, stopReason: string, usage: Usage)
    ensures Replay(Events(model, content, stopReason, usage)) ==
            match ReceiveAll(Some(FRESH_CLIENT), BodyEvents(content))
            case Some(c) => if c.open.Some? then None else Some(Reply(model, c.done, stopReason, usage))
            case None => None
  {
    var events := Events(model, content, stopReason, usage);
    assert events[1..|events| - 2] == BodyEvents(content);
  }

  /** A strict client rebuilds exactly the content it was sent, with stop reason and usage, if
      and only if every block is streamable. */
  lemma ReplayRestoresContent(model: string, content: seq<Value>, stopReason: string, usage: Usage)
    ensures Replay(Events(model, content, stopReason, usage)) == Some(Reply(model, content, stopReason, usage)) <==>
            AllStreamable(content)
  {
    hide Replay, Events, ReceiveAll, Rebuilt;
    FramedReplay(model, content, stopReason, usage);
    BodyReceived(content);
    if AllKnown(content) {
      forall i | 0 <= i < |content|
        ensures RebuiltAll(content)[i] == content[i] <==> Streamable(content[i])
      {
        assert content[i] in content;
        if Streamable(content[i]) {
          StreamableIsRebuilt(content[i]);
        } else if Rebuilt(content[i]) == content[i] {
          RebuiltIsStreamable(content[i]);
        }
      }
      if forall b <- content :: Streamable(b) {
        assert RebuiltAll(content) == content;
      }
      if RebuiltAll(content) == content {
        forall b | b in content
          ensures Streamable(b)
        {
          var i :| 0 <= i < |content| && content[i] == b;
        }
      }
    } else {
      var b :| b in content && TypeOf(b) !in KNOWN_TYPES;
      assert !Streamable(b);
    }
  }

  /** The blocks of a web-search reply are all streamable. */
  lemma {:induction false} PresentationStreamable(uses: seq<W.DecodedToolUse>, found: seq<W.SearchReply>)
    requires |found| == |uses| && forall f <- found :: f.Found?
    ensures AllStreamable(W.PresentationBlocks(uses, found))
    decreases |uses|
  {
    if uses != [] {
      var n := |uses| - 1;
      assert found[n] in found;
      PresentationStreamable(uses[..n], found[..n]);
      SearchBlocksStreamable(found[n].serverId, W.Query(uses[n]), found[n].results);
    }
  }

  lemma SearchBlocksStreamable(id: string, query: string, results: seq<Value>)
    ensures Streamable(W.ServerToolUseBlock(id, query)) && Streamable(W.SearchResultBlock(results))
  {
  }

  lemma {:induction false} ToolUsesStreamable(uses: seq<W.DecodedToolUse>)
    requires forall u <- uses :: JsonText.WellFormed(u.input)
    ensures AllStreamable(W.ToolUseBlocks(uses))
    decreases |uses|
  {
    if uses != [] {
      var n := |uses| - 1;
      assert uses[n] in uses;
      ToolUsesStreamable(uses[..n]);
      assert W.ToolUseBlock(uses[n]).fields.Keys == {"type", "id", "name", "input"};
    }
  }

  lemma AssistantBlocksStreamable(round: W.RoundOutcome, thinking: bool)
    requires forall u <- round.toolUses :: JsonText.WellFormed(u.input)
    ensures AllStreamable(W.AssistantBlocks(round, thinking))
  {
    ToolUsesStreamable(round.toolUses);
    assert Streamable(W.ThinkingBlock(round.reasoning)) by {
      assert W.ThinkingBlock(round.reasoning).fields.Keys == {"type", "thinking", "signature"};
    }
    assert Streamable(W.RedactedBlock(round.redactedReasoning)) by {
      assert W.RedactedBlock(round.redactedReasoning).fields.Keys == {"type", "data"};
    }
    assert Streamable(W.TextBlock(round.text)) by {
      assert W.TextBlock(round.text).fields.Keys == {"type", "text"};
    }
  }

  predicate ReplyStreamable(end: W.End) {
    end.reply.Some? ==> AllStreamable(end.reply.value.content)
  }

  /** Tool arguments decoded from the upstream are proper JSON values. */
  ghost predicate ProperWorld(world: W.World) {
    forall round: nat, msgs ::
      world.round(round, msgs).Answered? ==>
        forall u <- world.round(round, msgs).outcome.toolUses :: JsonText.WellFormed(u.input)
  }

  /** Whatever the loop replies can be streamed to the client without loss. */
  lemma {:induction false} LoopReplyIsStreamable(
    round: nat, st: W.LoopState, world: W.World, fallback: int, thinking: bool, end: W.End)
    requires round <= W.MAX_WEB_SEARCH_ROUNDS && ProperWorld(world)
    requires AllStreamable(st.presentation)
    requires end == W.RunFrom(round, st, world, fallback, thinking)
    ensures ReplyStreamable(end)
    decreases W.MAX_WEB_SEARCH_ROUNDS - round
  {
    var next, rest := StepStreamable(round, st, world, fallback, thinking, end);
    if next.Some? {
      LoopReplyIsStreamable(round + 1, next.value, world, fallback, thinking, rest);
    }
  }

  lemma StepStreamable(round: nat, st: W.LoopState, world: W.World, fallback: int, thinking: bool, end: W.End)
    returns (next: Option<W.LoopState>, rest: W.End)
    requires round <= W.MAX_WEB_SEARCH_ROUNDS && ProperWorld(world) && AllStreamable(st.presentation)
    requires end == W.RunFrom(round, st, world, fallback, thinking)
    ensures next.None? ==> ReplyStreamable(end)
    ensures next.Some? ==>
              && round < W.MAX_WEB_SEARCH_ROUNDS
              && AllStreamable(next.value.presentation)
              && rest == W.RunFrom(round + 1, next.value, world, fallback, thinking)
              && rest.reply == end.reply
  {
    var pass := W.PassOf(round, st, world, fallback, thinking);
    PassStreamable(round, st, world, fallback, thinking);
    rest := W.RunFromStep(round, st, world, fallback, thinking, pass);
    next := if pass.GoOn? then Some(pass.next) else None;
  }

  /** The whole way: what the loop replies, streamed and replayed, is what it replied. */
  lemma LoopReplyReplays(
    msgs: seq<Types.Message>, world: W.World, fallback: int, thinking: bool, model: string, usage: Usage)
    requires ProperWorld(world)
    ensures var reply := W.Loop(msgs, world, fallback, thinking).reply;
            reply.Some? ==>
              Replay(Events(model, reply.value.content, reply.value.stopReason, usage)) ==
              Some(Reply(model, reply.value.content, reply.value.stopReason, usage))
  {
    var end := W.Loop(msgs, world, fallback, thinking);
    LoopReplyIsStreamable(W.FIRST_ROUND, W.Start(msgs), world, fallback, thinking, end);
    if end.reply.Some? {
      ReplayRestoresContent(model, end.reply.value.content, end.reply.value.stopReason, usage);
    }
  }

  lemma PassStreamable(round: nat, st: W.LoopState, world: W.World, fallback: int, thinking: bool)
    requires ProperWorld(world)
    requires AllStreamable(st.presentation)
    ensures match W.PassOf(round, st, world, fallback, thinking)
            case Stop(end) => ReplyStreamable(end)
            case GoOn(next) => AllStreamable(next.presentation)
  {
    var up := world.round(round, st.msgs);
    if up.Answered? {
      AssistantBlocksStreamable(up.outcome, thinking);
      W.SearchesFound(world, round, |up.outcome.toolUses|);
      match W.Searches(world, round, |up.outcome.toolUses|) {
        case Some(found) => PresentationStreamable(up.outcome.toolUses, found);
        case None =>
      }
    }
  }
}
