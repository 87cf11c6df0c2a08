/** Cutting a request into its chain of cacheable prefixes (`extract_segments`), in the order
    tools, system, messages. */
module CacheSegments {
  import opened Basics
  import opened Wrappers
  import opened Strings
  import opened Types
  import opened CacheTable
  import Json
  import JsonText

  const DEFAULT_TTL_SECS := 300

  /** The token estimators, which this model does not look into. */
  datatype Estimators = Estimators(text: string -> int, image: (string, string) -> nat)

  function SaturatingAdd(a: nat, b: nat): nat {
    if a + b <= U32_MAX then a + b else U32_MAX
  }

  /** Tokens of a text; the empty text costs nothing and a negative estimate counts as zero. */
  function TextTokens(est: Estimators, text: string): nat {
    if text == "" || est.text(text) < 0 then 0 else est.text(text)
  }

  // ----- Time to live -----

  function ParseTtl(ttl: Option<string>): int {
    if ttl.Some? && EqIgnoreAsciiCase(ttl.value, "1h") then 3600
    else if ttl.Some? && EqIgnoreAsciiCase(ttl.value, "5m") then 300
    else DEFAULT_TTL_SECS
  }

  predicate ControlWantsHour(cc: Option<CacheControl>) {
    cc.Some? && ParseTtl(cc.value.ttl) == 3600
  }

  function BlockTtl(block: Json.Value): Option<string> {
    match Json.Get(block, "cache_control")
    case Some(cc) => Json.AsStr(Json.Get(cc, "ttl"))
    case None => None
  }

  predicate MessageWantsHour(msg: Message) {
    msg.content.Arr? && exists b <- msg.content.items :: BlockTtl(b).Some? && ParseTtl(BlockTtl(b)) == 3600
  }

  /** Some cache control of the request asks for the one-hour time to live. */
  predicate WantsHour(req: MessagesRequest) {
    || (req.tools.Some? && exists t <- req.tools.value :: ControlWantsHour(t.cacheControl))
    || (req.system.Some? && exists s <- req.system.value :: ControlWantsHour(s.cacheControl))
    || exists m <- req.messages :: MessageWantsHour(m)
  }

  function RequestTtl(req: MessagesRequest): int {
    if WantsHour(req) then 3600 else 300
  }

  method DetectMaxTtl(req: MessagesRequest) returns (ttl: int)
    ensures ttl == RequestTtl(req)
  {
    ttl := DEFAULT_TTL_SECS;
    if req.tools.Some? {
      var tools := req.tools.value;
      for i := 0 to |tools|
        invariant ttl == if exists t <- tools[..i] :: ControlWantsHour(t.cacheControl) then 3600 else 300
      {
        assert tools[..i + 1] == tools[..i] + [tools[i]];
        if tools[i].cacheControl.Some? {
          ttl := Max(ttl, ParseTtl(tools[i].cacheControl.value.ttl));
        }
      }
      assert tools[..|tools|] == tools;
    }
    ghost var toolTtl := ttl;
    if req.system.Some? {
      var systems := req.system.value;
      for i := 0 to |systems|
        invariant ttl == if toolTtl == 3600 || exists s <- systems[..i] :: ControlWantsHour(s.cacheControl)
                         then 3600 else 300
      {
        assert systems[..i + 1] == systems[..i] + [systems[i]];
        if systems[i].cacheControl.Some? {
          ttl := Max(ttl, ParseTtl(systems[i].cacheControl.value.ttl));
        }
      }
      assert systems[..|systems|] == systems;
    }
    ghost var headTtl := ttl;
    for i := 0 to |req.messages|
      invariant ttl == if headTtl == 3600 || exists m <- req.messages[..i] :: MessageWantsHour(m) then 3600 else 300
    {
      assert req.messages[..i + 1] == req.messages[..i] + [req.messages[i]];
      ttl := MessageTtl(req.messages[i], ttl);
    }
    assert req.messages[..|req.messages|] == req.messages;
  }

  method MessageTtl(msg: Message, start: int) returns (ttl: int)
    requires start == 300 || start == 3600
    ensures ttl == if start == 3600 || MessageWantsHour(msg) then 3600 else 300
  {
    ttl := start;
    if msg.content.Arr? {
      var arr := msg.content.items;
      for i := 0 to |arr|
        invariant ttl == if start == 3600 || exists b <- arr[..i] :: BlockTtl(b).Some? && ParseTtl(BlockTtl(b)) == 3600
                         then 3600 else 300
      {
        assert arr[..i + 1] == arr[..i] + [arr[i]];
        if BlockTtl(arr[i]).Some? {
          ttl := Max(ttl, ParseTtl(BlockTtl(arr[i])));
        }
      }
      assert arr[..|arr|] == arr;
    }
  }

  // ----- Isolation seed -----

  function ExtractSessionId(userId: string): Option<string> {
    match SplitOnce(userId, "_session_")
    case Some(parts) => if Trim(parts.1) == "" then None else Some(Trim(parts.1))
    case None => None
  }

  /** The session of the metadata, else the client key; the master key alone has no seed and
      turns caching off. */
  function IsolationSeed(req: MessagesRequest, keyId: nat): Option<string> {
    var session := if req.userId.Some? then ExtractSessionId(req.userId.value) else None;
    if session.Some? then Some("sess:" + session.value)
    else if keyId == 0 then None
    else Some("key:" + JsonText.Digits(keyId))
  }

  // ----- Signatures and token texts -----

  function SchemaText(t: Tool): string {
    JsonText.Text(Json.Obj(t.inputSchema))
  }

  function ToolSignature(t: Tool): string {
    "tool:" + t.name + "|" + t.description + "|" + SchemaText(t)
  }

  function ToolTokenText(t: Tool): string {
    t.name + " " + t.description + " " + SchemaText(t)
  }

  function SystemSignature(s: SystemMessage): string {
    "sys:" + s.text
  }

  function CanonicalOr(v: Option<Json.Value>): string {
    match v case Some(x) => JsonText.Text(x) case None => ""
  }

  function IsErrorText(v: Json.Value): string {
    if Json.Get(v, "is_error") == Some(Json.Bool(true)) then "true" else "false"
  }

  function SourceField(v: Json.Value, key: string): string {
    match Json.Get(v, "source") case Some(src) => Json.StrField(src, key) case None => ""
  }

  function ImageSignature(v: Json.Value): string {
    var data := SourceField(v, "data");
    "block:image|" + SourceField(v, "media_type") + "|" + if data == "" then JsonText.Text(v) else data
  }

  /** What of a block takes part in the prefix digest: the ids of tool calls and tool results do not. */
  function BlockSignature(v: Json.Value): string {
    match Json.StrField(v, "type")
    case "text" => "block:text|" + Json.StrField(v, "text")
    case "thinking" => "block:thinking|" + Json.StrField(v, "thinking")
    case "redacted_thinking" => "block:redacted_thinking|" + Json.StrField(v, "data")
    case "tool_use" => "block:tool_use|" + Json.StrField(v, "name") + "|" + CanonicalOr(Json.Get(v, "input"))
    case "tool_result" => "block:tool_result|" + IsErrorText(v) + "|" + CanonicalOr(Json.Get(v, "content"))
    case "image" => ImageSignature(v)
    case other => "block:" + other + "|" + JsonText.Text(v)
  }

  function BlockTokenText(v: Json.Value): string
    decreases v, 1, 0
  {
    match Json.StrField(v, "type")
    case "text" => Json.StrField(v, "text")
    case "thinking" => Json.StrField(v, "thinking")
    case "redacted_thinking" => Json.StrField(v, "data")
    case "tool_use" =>
      var input := CanonicalOr(Json.Get(v, "input"));
      if Json.StrField(v, "name") == "" then input else Json.StrField(v, "name") + " " + input
    case "tool_result" =>
      (match Json.Get(v, "content") case Some(c) => ContentTokenText(c) case None => "")
    case "image" => ""
    case _ => JsonText.Text(v)
  }

  function ContentTokenText(v: Json.Value): string
    decreases v, 1, 1
  {
    match v
    case Str(s) => s
    case Arr(items) => Join(ItemTexts(v, 0), " ")
    case _ => JsonText.Text(v)
  }

  /** The non-empty texts of the array's items from `i` on; images cost no text. */
  function ItemTexts(v: Json.Value, i: nat): seq<string>
    requires v.Arr? && i <= |v.items|
    decreases v, 0, |v.items| - i
  {
    if i == |v.items| then [] else
      var text := if Json.Get(v.items[i], "type") == Some(Json.Str("image")) then "" else BlockTokenText(v.items[i]);
      (if text == "" then [] else [text]) + ItemTexts(v, i + 1)
  }

  // ----- The request as a list of digest operations -----

  /** `Feed` extends the digest and costs tokens, `Uncached` only costs tokens, `Mark` is a
      possible end of a cacheable prefix. */
  datatype Op = Feed(text: string, tokens: nat) | Uncached(tokens: nat) | Mark

  function ToolOps(tools: seq<Tool>, est: Estimators): seq<Op> {
    seq(|tools|, i requires 0 <= i < |tools| => Feed(ToolSignature(tools[i]), TextTokens(est, ToolTokenText(tools[i]))))
  }

  /** The number of system blocks before the first one with a cache control, or none. */
  function SkipUntil(systems: seq<SystemMessage>): nat {
    if exists s <- systems :: s.cacheControl.Some? then FirstControl(systems) else 0
  }

  function FirstControl(systems: seq<SystemMessage>): nat {
    if systems == [] || systems[0].cacheControl.Some? then 0 else 1 + FirstControl(systems[1..])
  }

  function SystemOp(systems: seq<SystemMessage>, i: nat, est: Estimators): Op
    requires i < |systems|
  {
    if i < SkipUntil(systems) then Uncached(TextTokens(est, systems[i].text))
    else Feed(SystemSignature(systems[i]), TextTokens(est, systems[i].text))
  }

  function SystemOps(systems: seq<SystemMessage>, est: Estimators): seq<Op> {
    seq(|systems|, i requires 0 <= i < |systems| => SystemOp(systems, i, est))
  }

  function HeadOps(req: MessagesRequest, est: Estimators): seq<Op> {
    ToolOps(req.tools.GetOr([]), est) + SystemOps(req.system.GetOr([]), est) + [Mark]
  }

  function BlockOp(v: Json.Value, est: Estimators): Op {
    if Json.Get(v, "type") == Some(Json.Str("image"))
    then Feed(ImageSignature(v), est.image(SourceField(v, "media_type"), SourceField(v, "data")))
    else Feed(BlockSignature(v), TextTokens(est, BlockTokenText(v)))
  }

  function BlockOps(blocks: seq<Json.Value>, est: Estimators): seq<Op> {
    if blocks == [] then [] else
      var last := blocks[|blocks| - 1];
      BlockOps(blocks[..|blocks| - 1], est) + [BlockOp(last, est)] +
      if Json.Get(last, "cache_control").Some? then [Mark] else []
  }

  function MessageOps(msg: Message, est: Estimators): seq<Op> {
    [Feed(msg.role, 0)] +
    match msg.content
    case Str(s) => [Feed(s, TextTokens(est, s))]
    case Arr(blocks) => BlockOps(blocks, est)
    case _ => []
  }

  /** Every boundary between two messages is marked; the end of the last message is not. */
  function ConversationOps(messages: seq<Message>, est: Estimators): seq<Op> {
    var n := |messages|;
    if n == 0 then []
    else ConversationOps(messages[..n - 1], est) + (if n == 1 then [] else [Mark]) + MessageOps(messages[n - 1], est)
  }

  function RequestOps(req: MessagesRequest, est: Estimators): seq<Op> {
    HeadOps(req, est) + ConversationOps(req.messages, est)
  }

  // ----- Running the operations -----

  datatype Meter = Meter(text: string, cacheTokens: nat, promptTokens: nat, segs: seq<Segment>)

  function Commit(m: Meter, ttl: int): Meter {
    var n := |m.segs|;
    if m.cacheTokens == 0 then m
    else if n > 0 && m.segs[n - 1].key == m.text && m.segs[n - 1].tokens == m.cacheTokens then
      m.(segs := m.segs[n - 1 := m.segs[n - 1].(ttl := Max(m.segs[n - 1].ttl, ttl))])
    else m.(segs := m.segs + [Segment(m.text, m.cacheTokens, ttl)])
  }

  /** One operation; without an isolation seed (`enabled` false) nothing is hashed or marked. */
  function Apply(m: Meter, op: Op, enabled: bool, ttl: int): Meter {
    match op
    case Feed(text, tokens) =>
      var paid := m.(promptTokens := SaturatingAdd(m.promptTokens, tokens));
      if enabled then paid.(text := m.text + text, cacheTokens := SaturatingAdd(m.cacheTokens, tokens)) else paid
    case Uncached(tokens) => m.(promptTokens := SaturatingAdd(m.promptTokens, tokens))
    case Mark => if enabled then Commit(m, ttl) else m
  }

  function RunOps(m: Meter, ops: seq<Op>, enabled: bool, ttl: int): Meter {
    if ops == [] then m
    else Apply(RunOps(m, ops[..|ops| - 1], enabled, ttl), ops[|ops| - 1], enabled, ttl)
  }

  lemma {:induction false} RunOpsAppend(m: Meter, a: seq<Op>, b: seq<Op>, enabled: bool, ttl: int)
    ensures RunOps(m, a + b, enabled, ttl) == RunOps(RunOps(m, a, enabled, ttl), b, enabled, ttl)
    decreases |b|
  {
    if b == [] {
      assert a + b == a;
    } else {
      var init := b[..|b| - 1];
      assert (a + b)[..|a + b| - 1] == a + init;
      RunOpsAppend(m, a, init, enabled, ttl);
    }
  }

  lemma RunOpsSnoc(m: Meter, ops: seq<Op>, op: Op, enabled: bool, ttl: int)
    ensures RunOps(m, ops + [op], enabled, ttl) == Apply(RunOps(m, ops, enabled, ttl), op, enabled, ttl)
  {
    assert (ops + [op])[..|ops|] == ops;
  }

  function StartMeter(req: MessagesRequest, keyId: nat): Meter {
    Meter(IsolationSeed(req, keyId).GetOr("uncacheable:key:0"), 0, 0, [])
  }

  /** The specification of the extraction: the segments and the prompt estimate. */
  function FinalMeter(req: MessagesRequest, keyId: nat, est: Estimators): Meter {
    RunOps(StartMeter(req, keyId), RequestOps(req, est), IsolationSeed(req, keyId).Some?, RequestTtl(req))
  }

  function Segments(req: MessagesRequest, keyId: nat, est: Estimators): seq<Segment> {
    FinalMeter(req, keyId, est).segs
  }

  // ----- The loop form -----

  method ExtractSegments(req: MessagesRequest, keyId: nat, est: Estimators)
    returns (segs: seq<Segment>, promptTokens: nat, enabled: bool)
    ensures segs == Segments(req, keyId, est)
    ensures promptTokens == FinalMeter(req, keyId, est).promptTokens
    ensures enabled <==> IsolationSeed(req, keyId).Some?
  {
    enabled := IsolationSeed(req, keyId).Some?;
    var ttl := DetectMaxTtl(req);
    var m := StartMeter(req, keyId);
    RunOpsAppend(m, HeadOps(req, est), ConversationOps(req.messages, est), enabled, ttl);
    m := FeedHead(m, req, est, enabled, ttl);
    m := FeedConversation(m, req.messages, est, enabled, ttl);
    segs, promptTokens := m.segs, m.promptTokens;
  }

  method FeedConversation(start: Meter, messages: seq<Message>, est: Estimators, enabled: bool, ttl: int)
    returns (m: Meter)
    ensures m == RunOps(start, ConversationOps(messages, est), enabled, ttl)
  {
    m := start;
    for i := 0 to |messages|
      invariant m == RunOps(start, OpsThrough(messages, i, est), enabled, ttl)
    {
      ConversationStep(start, messages, i, est, enabled, ttl);
      m := FeedMessage(m, messages[i], est, enabled, ttl);
      if i != |messages| - 1 {
        m := Apply(m, Mark, enabled, ttl);
      }
    }
    assert messages[..|messages|] == messages;
    assert OpsThrough(messages, |messages|, est) == ConversationOps(messages, est);
  }

  /** The operations done after `i` messages of the loop. */
  function OpsThrough(messages: seq<Message>, i: nat, est: Estimators): seq<Op>
    requires i <= |messages|
  {
    ConversationOps(messages[..i], est) + if 0 < i < |messages| then [Mark] else []
  }

  lemma ConversationStep(head: Meter, messages: seq<Message>, i: nat, est: Estimators, enabled: bool, ttl: int)
    requires i < |messages|
    ensures var m := RunOps(RunOps(head, OpsThrough(messages, i, est), enabled, ttl),
                            MessageOps(messages[i], est), enabled, ttl);
            RunOps(head, OpsThrough(messages, i + 1, est), enabled, ttl) ==
            if i + 1 < |messages| then Apply(m, Mark, enabled, ttl) else m
  {
    var before, here := OpsThrough(messages, i, est), MessageOps(messages[i], est);
    RunOpsAppend(head, before, here, enabled, ttl);
    RunOpsSnoc(head, before + here, Mark, enabled, ttl);
    assert messages[..i + 1][..i] == messages[..i];
    assert ConversationOps(messages[..i + 1], est) == before + here;
    assert before + here + [] == before + here;
  }

  method FeedHead(start: Meter, req: MessagesRequest, est: Estimators, enabled: bool, ttl: int) returns (m: Meter)
    ensures m == RunOps(start, HeadOps(req, est), enabled, ttl)
  {
    var tools, systems := req.tools.GetOr([]), req.system.GetOr([]);
    ghost var a, b := ToolOps(tools, est), SystemOps(systems, est);
    RunOpsAppend(start, a, b, enabled, ttl);
    RunOpsSnoc(start, a + b, Mark, enabled, ttl);
    m := FeedTools(start, tools, est, enabled, ttl);
    m := FeedSystems(m, systems, est, enabled, ttl);
    m := Apply(m, Mark, enabled, ttl);
  }

  method FeedTools(start: Meter, tools: seq<Tool>, est: Estimators, enabled: bool, ttl: int) returns (m: Meter)
    ensures m == RunOps(start, ToolOps(tools, est), enabled, ttl)
  {
    m := start;
    ghost var ops := ToolOps(tools, est);
    for i := 0 to |tools|
      invariant m == RunOps(start, ops[..i], enabled, ttl)
    {
      var op := Feed(ToolSignature(tools[i]), TextTokens(est, ToolTokenText(tools[i])));
      assert ops[..i + 1] == ops[..i] + [op];
      RunOpsSnoc(start, ops[..i], op, enabled, ttl);
      m := Apply(m, op, enabled, ttl);
    }
    assert ops[..|tools|] == ops;
  }

  method FeedSystems(start: Meter, systems: seq<SystemMessage>, est: Estimators, enabled: bool, ttl: int)
    returns (m: Meter)
    ensures m == RunOps(start, SystemOps(systems, est), enabled, ttl)
  {
    m := start;
    ghost var ops := SystemOps(systems, est);
    var skipUntil := SkipUntil(systems);
    for i := 0 to |systems|
      invariant m == RunOps(start, ops[..i], enabled, ttl)
    {
      var op;
      if i < skipUntil {
        op := Uncached(TextTokens(est, systems[i].text));
      } else {
        op := Feed(SystemSignature(systems[i]), TextTokens(est, systems[i].text));
      }
      assert ops[..i + 1] == ops[..i] + [op];
      RunOpsSnoc(start, ops[..i], op, enabled, ttl);
      m := Apply(m, op, enabled, ttl);
    }
    assert ops[..|systems|] == ops;
  }

  method FeedMessage(start: Meter, msg: Message, est: Estimators, enabled: bool, ttl: int) returns (m: Meter)
    ensures m == RunOps(start, MessageOps(msg, est), enabled, ttl)
  {
    ghost var role := [Feed(msg.role, 0)];
    m := Apply(start, Feed(msg.role, 0), enabled, ttl);
    RunOpsSnoc(start, [], Feed(msg.role, 0), enabled, ttl);
    assert [] + role == role;
    match msg.content {
      case Str(s) =>
        RunOpsSnoc(start, role, Feed(s, TextTokens(est, s)), enabled, ttl);
        m := Apply(m, Feed(s, TextTokens(est, s)), enabled, ttl);
      case Arr(blocks) =>
        RunOpsAppend(start, role, BlockOps(blocks, est), enabled, ttl);
        m := FeedBlocks(m, blocks, est, enabled, ttl);
      case _ =>
        assert MessageOps(msg, est) == role;
    }
  }

  method FeedBlocks(start: Meter, blocks: seq<Json.Value>, est: Estimators, enabled: bool, ttl: int) returns (m: Meter)
    ensures m == RunOps(start, BlockOps(blocks, est), enabled, ttl)
  {
    m := start;
    for i := 0 to |blocks|
      invariant m == RunOps(start, BlockOps(blocks[..i], est), enabled, ttl)
    {
      BlocksStep(start, blocks, i, est, enabled, ttl);
      m := Apply(m, BlockOp(blocks[i], est), enabled, ttl);
      if Json.Get(blocks[i], "cache_control").Some? {
        m := Apply(m, Mark, enabled, ttl);
      }
    }
    assert blocks[..|blocks|] == blocks;
  }

  lemma BlocksStep(start: Meter, blocks: seq<Json.Value>, i: nat, est: Estimators, enabled: bool, ttl: int)
    requires i < |blocks|
    ensures var before := RunOps(start, BlockOps(blocks[..i], est), enabled, ttl);
            var m := Apply(before, BlockOp(blocks[i], est), enabled, ttl);
            RunOps(start, BlockOps(blocks[..i + 1], est), enabled, ttl) ==
            if Json.Get(blocks[i], "cache_control").Some? then Apply(m, Mark, enabled, ttl) else m
  {
    var done, op := BlockOps(blocks[..i], est), BlockOp(blocks[i], est);
    assert blocks[..i + 1][..i] == blocks[..i];
    RunOpsSnoc(start, done, op, enabled, ttl);
    RunOpsSnoc(start, done + [op], Mark, enabled, ttl);
    assert done + [op] + [] == done + [op];
  }
}
