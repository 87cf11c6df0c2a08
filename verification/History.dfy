/** Grouping of the client's messages into Kiro's history (`build_history`). */
module History {
  import opened Basics
  import opened Wrappers
  import opened Types
  import opened ToolMap
  import opened ToolNames
  import Json
  import JsonText
  import Strings

  datatype ConversionError =
    | EmptyMessages
    | UnsupportedToolMapping(message: string)
    | InvalidImage(message: string)

  datatype ImageSource = ImageSource(mediaType: string, data: string)

  datatype KiroImage = KiroImage(format: string, data: string)

  datatype ToolResult = ToolResult(toolUseId: string, content: string, isError: bool)

  datatype ToolUseEntry = ToolUseEntry(toolUseId: string, name: string, input: Json.Value)

  datatype HistoryMessage =
    | User(content: string, images: seq<KiroImage>, toolResults: seq<ToolResult>)
    | Assistant(content: string, toolUses: Option<seq<ToolUseEntry>>)

  /** What the conversion calls but this model does not look into: the digest of long tool
      names and the image shrinker. */
  datatype Env = Env(
    mode: Mode,
    digest: string -> string,
    shrink: (string, string) -> Result<KiroImage, string>)

  // ----- Content blocks -----

  datatype ContentBlock = ContentBlock(
    blockType: string,
    text: Option<string>,
    toolUseId: Option<string>,
    content: Option<Json.Value>,
    name: Option<string>,
    input: Option<Json.Value>,
    id: Option<string>,
    isError: Option<bool>,
    source: Option<ImageSource>)

  /** An optional field: absent and null are the same. */
  function Present(v: Json.Value, key: string): Option<Json.Value> {
    match Json.Get(v, key)
    case Some(x) => if x.Null? then None else Some(x)
    case None => None
  }

  predicate OptionalString(v: Json.Value, key: string) {
    Present(v, key).None? || Present(v, key).value.Str?
  }

  predicate HasStrings(v: Json.Value, keys: seq<string>) {
    forall k <- keys :: Json.AsStr(Json.Get(v, k)).Some?
  }

  predicate ValidSource(v: Json.Value) {
    Present(v, "source").None? || HasStrings(Present(v, "source").value, ["type", "media_type", "data"])
  }

  predicate ValidControl(v: Json.Value) {
    Present(v, "cache_control").None? ||
    var cc := Present(v, "cache_control").value;
    HasStrings(cc, ["type"]) && OptionalString(cc, "ttl")
  }

  predicate ValidBlock(v: Json.Value) {
    && v.Obj? && HasStrings(v, ["type"])
    && OptionalString(v, "text") && OptionalString(v, "thinking") && OptionalString(v, "tool_use_id")
    && OptionalString(v, "name") && OptionalString(v, "id")
    && (Present(v, "is_error").None? || Present(v, "is_error").value.Bool?)
    && ValidSource(v) && ValidControl(v)
  }

  /** A block that does not deserialize is skipped. */
  function ParseBlock(v: Json.Value): Option<ContentBlock> {
    if !ValidBlock(v) then None
    else
      var source := Present(v, "source");
      var isError := Present(v, "is_error");
      Some(ContentBlock(
             Json.StrField(v, "type"),
             Json.AsStr(Present(v, "text")),
             Json.AsStr(Present(v, "tool_use_id")),
             Present(v, "content"),
             Json.AsStr(Present(v, "name")),
             Present(v, "input"),
             Json.AsStr(Present(v, "id")),
             if isError.Some? && isError.value.Bool? then Some(isError.value.b) else None,
             if source.None? then None
             else Some(ImageSource(Json.StrField(source.value, "media_type"), Json.StrField(source.value, "data")))))
  }

  // ----- User content -----

  /** What has been collected from user content so far.  `seen` holds the images met in the
      history; without it images are not deduplicated. */
  datatype UserParts = UserParts(
    texts: seq<string>,
    images: seq<KiroImage>,
    results: seq<ToolResult>,
    seen: Option<set<string>>)

  function ImageFormat(mediaType: string): Option<string> {
    match mediaType
    case "image/jpeg" => Some("jpeg")
    case "image/png" => Some("png")
    case "image/gif" => Some("gif")
    case "image/webp" => Some("webp")
    case _ => None
  }

  const IMAGE_OMITTED := "[image omitted: identical to an earlier screenshot]"

  /** Lifts an image to the message, or yields a placeholder for one seen before. */
  function LiftImage(source: ImageSource, acc: UserParts, env: Env)
    : Result<(Option<string>, UserParts), ConversionError>
  {
    match ImageFormat(source.mediaType)
    case None => Success((None, acc))
    case Some(format) =>
      if acc.seen.Some? && source.data in acc.seen.value then Success((Some(IMAGE_OMITTED), acc))
      else
        var seen := if acc.seen.Some? then Some(acc.seen.value + {source.data}) else None;
        match env.shrink(format, source.data)
        case Success(image) => Success((None, acc.(images := acc.images + [image], seen := seen)))
        case Failure(e) => Failure(InvalidImage(e))
  }

  datatype ResultContent = ResultContent(parts: seq<string>, hadImage: bool, acc: UserParts)

  function ResultItem(v: Json.Value, rc: ResultContent, env: Env): Result<ResultContent, ConversionError> {
    var text := Json.AsStr(Json.Get(v, "text"));
    if text.Some? then Success(rc.(parts := rc.parts + [text.value]))
    else if Json.Get(v, "type") == Some(Json.Str("image")) && ParseBlock(v).Some? && ParseBlock(v).value.source.Some?
    then
      var lifted :- LiftImage(ParseBlock(v).value.source.value, rc.acc, env);
      Success(ResultContent(rc.parts + (if lifted.0.Some? then [lifted.0.value] else []), true, lifted.1))
    else Success(rc)
  }

  function ResultItems(items: seq<Json.Value>, rc: ResultContent, env: Env): Result<ResultContent, ConversionError> {
    if items == [] then Success(rc)
    else
      var before :- ResultItems(items[..|items| - 1], rc, env);
      ResultItem(items[|items| - 1], before, env)
  }

  function ToolResultContent(content: Option<Json.Value>, acc: UserParts, env: Env)
    : Result<(string, UserParts), ConversionError>
  {
    match content
    case None => Success(("", acc))
    case Some(Str(s)) => Success((s, acc))
    case Some(Arr(items)) =>
      var rc :- ResultItems(items, ResultContent([], false, acc), env);
      Success((if rc.parts == [] && rc.hadImage then "[image attached]" else Strings.Join(rc.parts, "\n"), rc.acc))
    case Some(v) => Success((JsonText.Text(v), acc))
  }

  function UserBlock(v: Json.Value, acc: UserParts, env: Env): Result<UserParts, ConversionError> {
    match ParseBlock(v)
    case None => Success(acc)
    case Some(b) =>
      match b.blockType
      case "text" => Success(if b.text.Some? then acc.(texts := acc.texts + [b.text.value]) else acc)
      case "image" =>
        if b.source.None? then Success(acc)
        else
          var lifted :- LiftImage(b.source.value, acc, env);
          Success(lifted.1.(texts := lifted.1.texts + if lifted.0.Some? then [lifted.0.value] else []))
      case "tool_result" =>
        if b.toolUseId.None? then Success(acc)
        else
          var content :- ToolResultContent(b.content, acc, env);
          var result := ToolResult(b.toolUseId.value, content.0, b.isError.GetOr(false));
          Success(content.1.(results := content.1.results + [result]))
      case _ => Success(acc)
  }

  function UserBlocks(items: seq<Json.Value>, acc: UserParts, env: Env): Result<UserParts, ConversionError> {
    if items == [] then Success(acc)
    else
      var before :- UserBlocks(items[..|items| - 1], acc, env);
      UserBlock(items[|items| - 1], before, env)
  }

  function UserContent(content: Json.Value, seen: Option<set<string>>, env: Env): Result<UserParts, ConversionError> {
    var start := UserParts([], [], [], seen);
    match content
    case Str(s) => Success(start.(texts := [s]))
    case Arr(items) => UserBlocks(items, start, env)
    case _ => Success(start)
  }

  method ProcessMessageContent(content: Json.Value, seen: Option<set<string>>, env: Env)
    returns (r: Result<UserParts, ConversionError>)
    ensures r == UserContent(content, seen, env)
  {
    var acc := UserParts([], [], [], seen);
    match content {
      case Str(s) => acc := acc.(texts := [s]);
      case Arr(items) =>
        r := ProcessBlocks(items, acc, env);
        return;
      case _ =>
    }
    r := Success(acc);
  }

  method ProcessBlocks(items: seq<Json.Value>, start: UserParts, env: Env)
    returns (r: Result<UserParts, ConversionError>)
    ensures r == UserBlocks(items, start, env)
  {
    var acc := start;
    for i := 0 to |items|
      invariant UserBlocks(items[..i], start, env) == Success(acc)
    {
      assert items[..i + 1][..i] == items[..i];
      var step := UserBlock(items[i], acc, env);
      if step.Failure? {
        FailureStays(items, i + 1, start, env);
        return Failure(step.error);
      }
      acc := step.value;
    }
    assert items[..|items|] == items;
    r := Success(acc);
  }

  lemma {:induction false} FailureStays(items: seq<Json.Value>, i: nat, acc: UserParts, env: Env)
    requires i <= |items| && UserBlocks(items[..i], acc, env).Failure?
    ensures UserBlocks(items, acc, env) == UserBlocks(items[..i], acc, env)
    decreases |items|
  {
    if i == |items| {
      assert items[..i] == items;
    } else {
      var init := items[..|items| - 1];
      assert init[..i] == items[..i];
      FailureStays(init, i, acc, env);
    }
  }

  /** User messages merged into one history message; the set of seen images goes on. */
  datatype Merged = Merged(texts: seq<string>, images: seq<KiroImage>, results: seq<ToolResult>, seen: set<string>)

  function MergeUsers(msgs: seq<Message>, seen: set<string>, env: Env): Result<Merged, ConversionError> {
    if msgs == [] then Success(Merged([], [], [], seen))
    else
      var before :- MergeUsers(msgs[..|msgs| - 1], seen, env);
      var here :- UserContent(msgs[|msgs| - 1].content, Some(before.seen), env);
      var text := Strings.Join(here.texts, "\n");
      Success(Merged(before.texts + (if text == "" then [] else [text]), before.images + here.images,
                     before.results + here.results, here.seen.GetOr(before.seen)))
  }

  function MergedUser(m: Merged): HistoryMessage {
    User(Strings.Join(m.texts, "\n"), m.images, m.results)
  }

  // ----- Assistant content -----

  /** A tool call with both id and name becomes an entry in Kiro's vocabulary. */
  function UseOf(v: Json.Value, env: Env): Result<seq<ToolUseEntry>, ConversionError> {
    match ParseBlock(v)
    case None => Success([])
    case Some(b) =>
      if b.blockType == "tool_use" && b.id.Some? && b.name.Some? then
        match InputToKiro(b.name.value, b.input.GetOr(Json.Obj(map[])), env.mode)
        case Success(input) =>
          Success([ToolUseEntry(b.id.value, KiroName(b.name.value, env.mode, env.digest), input)])
        case Failure(e) => Failure(UnsupportedToolMapping(e))
      else Success([])
  }

  function UsesIn(items: seq<Json.Value>, env: Env): Result<seq<ToolUseEntry>, ConversionError> {
    if items == [] then Success([])
    else
      var before :- UsesIn(items[..|items| - 1], env);
      var here :- UseOf(items[|items| - 1], env);
      Success(before + here)
  }

  lemma UsesInSnoc(items: seq<Json.Value>, v: Json.Value, env: Env, x: seq<ToolUseEntry>, y: seq<ToolUseEntry>)
    requires UsesIn(items, env) == Success(x) && UseOf(v, env) == Success(y)
    ensures UsesIn(items + [v], env) == Success(x + y)
  {
    assert (items + [v])[..|items|] == items;
  }

  /** The entry of a parsed call. */
  lemma UseOfParsed(v: Json.Value, env: Env, b: ContentBlock, input: Json.Value)
    requires ParseBlock(v) == Some(b) && b.blockType == "tool_use" && b.id.Some? && b.name.Some?
    requires InputToKiro(b.name.value, b.input.GetOr(Json.Obj(map[])), env.mode) == Success(input)
    ensures UseOf(v, env) == Success([ToolUseEntry(b.id.value, KiroName(b.name.value, env.mode, env.digest), input)])
  {
  }

  function MessageUses(msg: Message, env: Env): Result<seq<ToolUseEntry>, ConversionError> {
    if msg.content.Arr? then UsesIn(msg.content.items, env) else Success([])
  }

  /** The client name of a tool call with both id and name. */
  function CallNameOf(v: Json.Value): seq<string> {
    match ParseBlock(v)
    case Some(b) => if b.blockType == "tool_use" && b.id.Some? && b.name.Some? then [b.name.value] else []
    case None => []
  }

  function CallNamesIn(items: seq<Json.Value>): seq<string> {
    if items == [] then [] else CallNamesIn(items[..|items| - 1]) + CallNameOf(items[|items| - 1])
  }

  function MessageCallNames(msg: Message): seq<string> {
    if msg.content.Arr? then CallNamesIn(msg.content.items) else []
  }

  /** The client names of all tool calls of assistant messages, in order. */
  function CallNames(msgs: seq<Message>): seq<string> {
    if msgs == [] then []
    else
      var last := msgs[|msgs| - 1];
      CallNames(msgs[..|msgs| - 1]) + if last.role == "assistant" then MessageCallNames(last) else []
  }

  lemma CallNamesSnoc(msgs: seq<Message>, m: Message)
    ensures CallNames(msgs + [m]) == CallNames(msgs) + if m.role == "assistant" then MessageCallNames(m) else []
  {
    assert (msgs + [m])[..|msgs|] == msgs;
  }

  /** The names of one message's calls are recorded as the calls are converted. */
  method RecordCalls(msg: Message, start: NameMap, env: Env) returns (m: NameMap)
    ensures m == RecordAll(start, MessageCallNames(msg), env.mode, env.digest)
  {
    hide Record, KiroName, ParseBlock;
    m := start;
    if msg.content.Arr? {
      var items := msg.content.items;
      for i := 0 to |items|
        invariant m == RecordAll(start, CallNamesIn(items[..i]), env.mode, env.digest)
      {
        assert items[..i + 1][..i] == items[..i];
        var b := ParseBlock(items[i]);
        if b.Some? && b.value.blockType == "tool_use" && b.value.id.Some? && b.value.name.Some? {
          RecordAllSnoc(start, CallNamesIn(items[..i]), b.value.name.value, env.mode, env.digest);
          var _, recorded := MapName(b.value.name.value, m, env.mode, env.digest);
          m := recorded;
        } else {
          assert CallNamesIn(items[..i]) + [] == CallNamesIn(items[..i]);
        }
      }
      assert items[..|items|] == items;
    }
  }

  method RecordMerged(msgs: seq<Message>, start: NameMap, env: Env) returns (m: NameMap)
    requires AllRole(msgs, "assistant")
    ensures m == RecordAll(start, CallNames(msgs), env.mode, env.digest)
  {
    m := start;
    for i := 0 to |msgs|
      invariant m == RecordAll(start, CallNames(msgs[..i]), env.mode, env.digest)
    {
      assert msgs[..i + 1] == msgs[..i] + [msgs[i]];
      assert msgs[i] in msgs;
      CallNamesSnoc(msgs[..i], msgs[i]);
      RecordAllAppend(start, CallNames(msgs[..i]), MessageCallNames(msgs[i]), env.mode, env.digest);
      m := RecordCalls(msgs[i], m, env);
    }
    assert msgs[..|msgs|] == msgs;
  }

  function TextIn(items: seq<Json.Value>): string {
    if items == [] then ""
    else
      var b := ParseBlock(items[|items| - 1]);
      TextIn(items[..|items| - 1]) +
      if b.Some? && b.value.blockType == "text" then b.value.text.GetOr("") else ""
  }

  function MessageText(msg: Message): string {
    match msg.content
    case Str(s) => s
    case Arr(items) => TextIn(items)
    case _ => ""
  }

  function AssistantOf(text: string, uses: seq<ToolUseEntry>): HistoryMessage {
    Assistant(if text == "" && uses != [] then " " else text, if uses == [] then None else Some(uses))
  }

  function ConvertAssistant(msg: Message, env: Env): Result<HistoryMessage, ConversionError> {
    var uses :- MessageUses(msg, env);
    Success(AssistantOf(MessageText(msg), uses))
  }

  datatype MergedAssistant = MergedAssistant(texts: seq<string>, uses: seq<ToolUseEntry>)

  function MergeAssistantParts(msgs: seq<Message>, env: Env): Result<MergedAssistant, ConversionError> {
    if msgs == [] then Success(MergedAssistant([], []))
    else
      var before :- MergeAssistantParts(msgs[..|msgs| - 1], env);
      var here :- ConvertAssistant(msgs[|msgs| - 1], env);
      Success(MergedAssistant(
                before.texts + (if Strings.Trim(here.content) == "" then [] else [here.content]),
                before.uses + (if here.Assistant? then here.toolUses.GetOr([]) else [])))
  }

  function MergeAssistants(msgs: seq<Message>, env: Env): Result<HistoryMessage, ConversionError>
    requires msgs != []
  {
    if |msgs| == 1 then ConvertAssistant(msgs[0], env)
    else
      var m :- MergeAssistantParts(msgs, env);
      Success(Assistant(if m.texts == [] && m.uses != [] then " " else Strings.Join(m.texts, "\n\n"),
                        if m.uses == [] then None else Some(m.uses)))
  }

  // ----- The grouping loop -----

  /** Pending messages of one role, and the history so far. */
  datatype Builder = Builder(
    history: seq<HistoryMessage>,
    users: seq<Message>,
    assistants: seq<Message>,
    seen: set<string>)

  function FlushAssistants(b: Builder, env: Env): Result<Builder, ConversionError> {
    if b.assistants == [] then Success(b)
    else
      var merged :- MergeAssistants(b.assistants, env);
      Success(b.(history := b.history + [merged], assistants := []))
  }

  function FlushUsers(b: Builder, env: Env): Result<Builder, ConversionError> {
    if b.users == [] then Success(b)
    else
      var merged :- MergeUsers(b.users, b.seen, env);
      Success(b.(history := b.history + [MergedUser(merged)], users := [], seen := merged.seen))
  }

  function Accept(b: Builder, msg: Message, env: Env): Result<Builder, ConversionError> {
    if msg.role == "user" then
      var flushed :- FlushAssistants(b, env);
      Success(flushed.(users := flushed.users + [msg]))
    else if msg.role == "assistant" then
      var flushed :- FlushUsers(b, env);
      Success(flushed.(assistants := flushed.assistants + [msg]))
    else Success(b)
  }

  function AcceptAll(b: Builder, msgs: seq<Message>, env: Env): Result<Builder, ConversionError> {
    if msgs == [] then Success(b)
    else
      var before :- AcceptAll(b, msgs[..|msgs| - 1], env);
      Accept(before, msgs[|msgs| - 1], env)
  }

  /** Pending assistant messages are flushed; pending user messages get an automatic answer. */
  function Finish(b: Builder, env: Env): Result<seq<HistoryMessage>, ConversionError> {
    var b1 :- FlushAssistants(b, env);
    var b2 :- FlushUsers(b1, env);
    Success(b2.history + if b1.users == [] then [] else [Assistant("OK", None)])
  }

  const INSTRUCTIONS_REPLY := "I will follow these instructions."

  predicate HasThinkingTags(s: string) {
    || Strings.SplitOnce(s, "<thinking_mode>").Some?
    || Strings.SplitOnce(s, "<max_thinking_length>").Some?
  }

  /** The system text, followed by the chunking policy and preceded by the thinking tags if
      they apply, as a user/assistant pair. */
  function Prologue(system: Option<seq<SystemMessage>>, thinking: Option<string>, policy: string): seq<HistoryMessage> {
    var pair := (text: string) => [User(text, [], []), Assistant(INSTRUCTIONS_REPLY, None)];
    match system
    case Some(blocks) =>
      var joined := Strings.Join(seq(|blocks|, i requires 0 <= i < |blocks| => blocks[i].text), "\n");
      if joined == "" then []
      else
        var content := joined + "\n" + policy;
        pair(if thinking.Some? && !HasThinkingTags(content) then thinking.value + "\n" + content else content)
    case None => if thinking.Some? then pair(thinking.value) else []
  }

  /** The history of all messages but the last. */
  function HistoryOf(prologue: seq<HistoryMessage>, msgs: seq<Message>, env: Env)
    : Result<seq<HistoryMessage>, ConversionError>
  {
    var built :- AcceptAll(Builder(prologue, [], [], {}), if msgs == [] then [] else msgs[..|msgs| - 1], env);
    Finish(built, env)
  }

  /** The names recorded so far are those of the messages so far, the pending ones aside. */
  predicate RecordedSoFar(
    names: NameMap, start: NameMap, done: seq<string>, assistants: seq<Message>, msgs: seq<Message>, env: Env)
  {
    && AllRole(assistants, "assistant")
    && names == RecordAll(start, done, env.mode, env.digest)
    && done + CallNames(assistants) == CallNames(msgs)
  }

  lemma RecordsFlushed(
    names: NameMap, start: NameMap, done: seq<string>, assistants: seq<Message>, msgs: seq<Message>, env: Env,
    flushed: NameMap)
    requires RecordedSoFar(names, start, done, assistants, msgs, env)
    requires flushed == RecordAll(names, CallNames(assistants), env.mode, env.digest)
    ensures RecordedSoFar(flushed, start, CallNames(msgs), [], msgs, env)
  {
    RecordAllAppend(start, done, CallNames(assistants), env.mode, env.digest);
    Assoc(CallNames(msgs), [], []);
  }

  lemma RecordsMore(
    names: NameMap, start: NameMap, done: seq<string>, assistants: seq<Message>, msgs: seq<Message>, msg: Message,
    env: Env)
    requires RecordedSoFar(names, start, done, assistants, msgs, env)
    ensures msg.role == "assistant" ==> RecordedSoFar(names, start, done, assistants + [msg], msgs + [msg], env)
    ensures msg.role != "assistant" ==> RecordedSoFar(names, start, done, assistants, msgs + [msg], env)
  {
    CallNamesSnoc(msgs, msg);
    CallNamesSnoc(assistants, msg);
    Assoc(done, CallNames(assistants), MessageCallNames(msg));
    Assoc(CallNames(msgs), [], []);
  }

  /** `names` is the map of renamed tools, which the conversion of assistant messages adds to. */
  method BuildHistory(prologue: seq<HistoryMessage>, msgs: seq<Message>, env: Env, start: NameMap)
    returns (r: Result<seq<HistoryMessage>, ConversionError>, names: NameMap)
    ensures r == HistoryOf(prologue, msgs, env)
    ensures r.Success? ==>
              var prefix := if msgs == [] then [] else msgs[..|msgs| - 1];
              names == RecordAll(start, CallNames(prefix), env.mode, env.digest)
  {
    hide MergeUsers, MergeAssistants, MergedUser, Finish, RecordedSoFar, RecordAll, CallNames;
    var history := prologue;
    names := start;
    var users: seq<Message>, assistants: seq<Message>, seen := [], [], {};
    var end := if |msgs| == 0 then 0 else |msgs| - 1;
    ghost var empty, prefix := Builder(prologue, [], [], {}), msgs[..end];
    ghost var done: seq<string> := [];
    NothingRecorded(start, env);
    assert prefix == if msgs == [] then [] else msgs[..|msgs| - 1];
    for i := 0 to end
      invariant AcceptAll(empty, prefix[..i], env) == Success(Builder(history, users, assistants, seen))
      invariant RecordedSoFar(names, start, done, assistants, prefix[..i], env)
    {
      var msg := msgs[i];
      assert prefix[..i + 1][..i] == prefix[..i] && prefix[..i + 1] == prefix[..i] + [msg];
      if msg.role == "user" {
        if assistants != [] {
          var merged := MergeAssistants(assistants, env);
          if merged.Failure? {
            AcceptFailureStays(prefix, i + 1, empty, env);
            return Failure(merged.error), names;
          }
          PendingRole(names, start, done, assistants, prefix[..i], env);
          var flushed := RecordMerged(assistants, names, env);
          RecordsFlushed(names, start, done, assistants, prefix[..i], env, flushed);
          names, done := flushed, CallNames(prefix[..i]);
          history, assistants := history + [merged.value], [];
        }
        users := users + [msg];
      } else if msg.role == "assistant" {
        if users != [] {
          var merged := MergeUsers(users, seen, env);
          if merged.Failure? {
            AcceptFailureStays(prefix, i + 1, empty, env);
            return Failure(merged.error), names;
          }
          history, users, seen := history + [MergedUser(merged.value)], [], merged.value.seen;
        }
      }
      RecordsMore(names, start, done, assistants, prefix[..i], msg, env);
      if msg.role == "assistant" {
        assistants := assistants + [msg];
      }
    }
    assert prefix[..end] == prefix;
    PendingRole(names, start, done, assistants, prefix, env);
    var flushed := RecordMerged(assistants, names, env);
    RecordsFlushed(names, start, done, assistants, prefix, env, flushed);
    AllRecorded(flushed, start, prefix, env);
    names := flushed;
    r := FinishHistory(Builder(history, users, assistants, seen), env);
  }

  lemma NothingRecorded(start: NameMap, env: Env)
    ensures RecordedSoFar(start, start, [], [], [], env)
  {
  }

  lemma PendingRole(
    names: NameMap, start: NameMap, done: seq<string>, assistants: seq<Message>, msgs: seq<Message>, env: Env)
    requires RecordedSoFar(names, start, done, assistants, msgs, env)
    ensures AllRole(assistants, "assistant")
  {
  }

  lemma AllRecorded(names: NameMap, start: NameMap, msgs: seq<Message>, env: Env)
    requires RecordedSoFar(names, start, CallNames(msgs), [], msgs, env)
    ensures names == RecordAll(start, CallNames(msgs), env.mode, env.digest)
  {
  }

  method FinishHistory(b: Builder, env: Env) returns (r: Result<seq<HistoryMessage>, ConversionError>)
    ensures r == Finish(b, env)
  {
    hide MergeUsers, MergeAssistants, MergedUser;
    var history := b.history;
    if b.assistants != [] {
      var merged := MergeAssistants(b.assistants, env);
      if merged.Failure? {
        return Failure(merged.error);
      }
      history := history + [merged.value];
    }
    if b.users != [] {
      var merged := MergeUsers(b.users, b.seen, env);
      if merged.Failure? {
        return Failure(merged.error);
      }
      history := history + [MergedUser(merged.value)];
      history := history + [Assistant("OK", None)];
    }
    assert history + [] == history;
    r := Success(history);
  }

  lemma AcceptAllStep(start: Builder, msgs: seq<Message>, env: Env) returns (before: Builder)
    requires msgs != [] && AcceptAll(start, msgs, env).Success?
    ensures AcceptAll(start, msgs[..|msgs| - 1], env) == Success(before)
    ensures Accept(before, msgs[|msgs| - 1], env) == AcceptAll(start, msgs, env)
  {
    before := AcceptAll(start, msgs[..|msgs| - 1], env).value;
  }

  lemma {:induction false} AcceptFailureStays(msgs: seq<Message>, i: nat, b: Builder, env: Env)
    requires i <= |msgs| && AcceptAll(b, msgs[..i], env).Failure?
    ensures AcceptAll(b, msgs, env) == AcceptAll(b, msgs[..i], env)
    decreases |msgs|
  {
    if i == |msgs| {
      assert msgs[..i] == msgs;
    } else {
      assert msgs[..|msgs| - 1][..i] == msgs[..i];
      AcceptFailureStays(msgs[..|msgs| - 1], i, b, env);
    }
  }

  // ----- Alternation -----

  predicate SameKind(a: HistoryMessage, b: HistoryMessage) {
    a.User? <==> b.User?
  }

  predicate Alternates(h: seq<HistoryMessage>) {
    forall i | 0 < i < |h| :: !SameKind(h[i - 1], h[i])
  }

  predicate NoAdjacentUsers(h: seq<HistoryMessage>) {
    forall i | 0 < i < |h| :: !(h[i - 1].User? && h[i].User?)
  }

  predicate EndsInAssistant(h: seq<HistoryMessage>) {
    h != [] ==> h[|h| - 1].Assistant?
  }

  /** The role of the first message with a known role. */
  function FirstRole(msgs: seq<Message>): string {
    if msgs == [] then ""
    else if FirstRole(msgs[..|msgs| - 1]) != "" then FirstRole(msgs[..|msgs| - 1])
    else if msgs[|msgs| - 1].role in ["user", "assistant"] then msgs[|msgs| - 1].role
    else ""
  }

  /** What the loop keeps: the part after the prologue alternates, starts with the first role,
      and a pending run is of the other role than the last entry. */
  ghost predicate Grouped(b: Builder, prologue: seq<HistoryMessage>, first: string) {
    && prologue <= b.history
    && var body := b.history[|prologue|..];
    && Alternates(body)
    && (b.users == [] || b.assistants == [])
    && (body != [] ==> first == if body[0].User? then "user" else "assistant")
    && (body != [] && b.users != [] ==> body[|body| - 1].Assistant?)
    && (body != [] && b.assistants != [] ==> body[|body| - 1].User?)
    && (body == [] && b.users != [] ==> first == "user")
    && (body == [] && b.assistants != [] ==> first == "assistant")
    && (b.users == [] && b.assistants == [] ==> body == [] && first == "")
  }

  lemma MergedKinds(b: Builder, env: Env)
    ensures b.assistants != [] && MergeAssistants(b.assistants, env).Success? ==>
              MergeAssistants(b.assistants, env).value.Assistant?
  {
  }

  lemma AlternatesSnoc(h: seq<HistoryMessage>, m: HistoryMessage)
    requires Alternates(h) && (h == [] || !SameKind(h[|h| - 1], m))
    ensures Alternates(h + [m])
  {
  }

  lemma FlushedGrouped(b: Builder, prologue: seq<HistoryMessage>, first: string, m: HistoryMessage)
    requires Grouped(b, prologue, first)
    requires if m.User? then b.users != [] else b.assistants != []
    ensures prologue <= b.history + [m]
    ensures var body := (b.history + [m])[|prologue|..];
            body == b.history[|prologue|..] + [m] && Alternates(body) &&
            first == if body[0].User? then "user" else "assistant"
  {
    AlternatesSnoc(b.history[|prologue|..], m);
  }

  predicate Extends(h: seq<HistoryMessage>, h': seq<HistoryMessage>) {
    |h'| == |h| + 1 && h' == h + [h'[|h|]]
  }

  /** What a step does to the builder: a pending run of the other role is flushed as one entry. */
  ghost predicate StepShape(b: Builder, msg: Message, b': Builder) {
    if msg.role == "user" then
      && b'.users == b.users + [msg] && b'.assistants == []
      && if b.assistants == [] then b'.history == b.history
         else Extends(b.history, b'.history) && b'.history[|b.history|].Assistant?
    else if msg.role == "assistant" then
      && b'.assistants == b.assistants + [msg] && b'.users == []
      && if b.users == [] then b'.history == b.history
         else Extends(b.history, b'.history) && b'.history[|b.history|].User?
    else b' == b
  }

  lemma AcceptShape(b: Builder, msg: Message, env: Env, b': Builder)
    requires Accept(b, msg, env) == Success(b')
    ensures StepShape(b, msg, b')
  {
    hide MergeUsers, MergeAssistants;
    MergedKinds(b, env);
  }

  lemma StepKeepsGrouped(b: Builder, prologue: seq<HistoryMessage>, first: string, msg: Message, b': Builder)
    requires Grouped(b, prologue, first) && StepShape(b, msg, b')
    ensures Grouped(b', prologue,
                    if first != "" then first else if msg.role in ["user", "assistant"] then msg.role else "")
  {
    if b'.history != b.history {
      FlushedGrouped(b, prologue, first, b'.history[|b.history|]);
    }
  }

  lemma {:induction false} LoopGroups(prologue: seq<HistoryMessage>, msgs: seq<Message>, env: Env, b: Builder)
    requires AcceptAll(Builder(prologue, [], [], {}), msgs, env) == Success(b)
    ensures Grouped(b, prologue, FirstRole(msgs))
    decreases |msgs|
  {
    if msgs != [] {
      var init := msgs[..|msgs| - 1];
      var before := AcceptAllStep(Builder(prologue, [], [], {}), msgs, env);
      LoopGroups(prologue, init, env, before);
      AcceptShape(before, msgs[|msgs| - 1], env, b);
      StepKeepsGrouped(before, prologue, FirstRole(init), msgs[|msgs| - 1], b);
    }
  }

  /** The part after the prologue, once the pending run is flushed. */
  lemma FinishGroups(b: Builder, prologue: seq<HistoryMessage>, first: string, env: Env)
    requires Grouped(b, prologue, first) && Finish(b, env).Success?
    ensures prologue <= Finish(b, env).value
    ensures var body := Finish(b, env).value[|prologue|..];
            && Alternates(body) && EndsInAssistant(body)
            && (body == [] <==> first == "")
            && (body != [] ==> first == if body[0].User? then "user" else "assistant")
  {
    hide MergeUsers, MergeAssistants;
    MergedKinds(b, env);
    var h := Finish(b, env).value;
    if b.assistants != [] {
      var m := MergeAssistants(b.assistants, env).value;
      FlushedGrouped(b, prologue, first, m);
      assert h == b.history + [m];
    } else if b.users != [] {
      FinishUserGroup(b, prologue, first, MergedUser(MergeUsers(b.users, b.seen, env).value), h);
    }
  }

  lemma FinishUserGroup(
    b: Builder, prologue: seq<HistoryMessage>, first: string, m: HistoryMessage, h: seq<HistoryMessage>)
    requires Grouped(b, prologue, first) && b.assistants == [] && b.users != [] && m.User?
    requires h == b.history + [m] + [Assistant("OK", None)]
    ensures prologue <= h
    ensures var body := h[|prologue|..];
            && Alternates(body) && EndsInAssistant(body) && first != "" && body != []
            && first == if body[0].User? then "user" else "assistant"
  {
    FlushedGrouped(b, prologue, first, m);
    var flushed := (b.history + [m])[|prologue|..];
    assert h[|prologue|..] == flushed + [Assistant("OK", None)];
    AlternatesSnoc(flushed, Assistant("OK", None));
  }

  predicate IsPrologue(p: seq<HistoryMessage>) {
    p == [] || (|p| == 2 && p[0].User? && p[1].Assistant?)
  }

  lemma PrologueShape(system: Option<seq<SystemMessage>>, thinking: Option<string>, policy: string)
    ensures IsPrologue(Prologue(system, thinking, policy))
  {
  }

  /** Every history ends in an assistant and has no two adjacent user messages.  It alternates
      strictly unless a prologue is followed by an assistant message first, and starts with a
      user message unless there is no prologue and an assistant message comes first. */
  lemma HistoryShape(prologue: seq<HistoryMessage>, msgs: seq<Message>, env: Env)
    requires IsPrologue(prologue) && HistoryOf(prologue, msgs, env).Success?
    ensures var h := HistoryOf(prologue, msgs, env).value;
            var first := FirstRole(if msgs == [] then [] else msgs[..|msgs| - 1]);
            && EndsInAssistant(h)
            && NoAdjacentUsers(h)
            && (Alternates(h) <==> !(prologue != [] && first == "assistant"))
            && (h != [] ==> (h[0].User? <==> prologue != [] || first == "user"))
            && (h == [] <==> prologue == [] && first == "")
  {
    hide AcceptAll, Finish, NoAdjacentUsers, Alternates, EndsInAssistant;
    var prefix := if msgs == [] then [] else msgs[..|msgs| - 1];
    var b := AcceptAll(Builder(prologue, [], [], {}), prefix, env).value;
    LoopGroups(prologue, prefix, env, b);
    FinishGroups(b, prologue, FirstRole(prefix), env);
    var h := HistoryOf(prologue, msgs, env).value;
    assert h == prologue + h[|prologue|..];
    AfterPrologue(prologue, h[|prologue|..]);
  }

  lemma AfterPrologue(p: seq<HistoryMessage>, body: seq<HistoryMessage>)
    requires IsPrologue(p) && Alternates(body) && EndsInAssistant(body)
    ensures EndsInAssistant(p + body) && NoAdjacentUsers(p + body)
    ensures Alternates(p + body) <==> !(p != [] && body != [] && body[0].Assistant?)
    ensures p + body != [] ==> ((p + body)[0].User? <==> p != [] || body[0].User?)
  {
    hide Alternates, NoAdjacentUsers;
    if p == [] {
      assert p + body == body;
      AlternatingUsersApart(body);
    } else {
      PairThenBody(p, body);
      assert (p + body)[0] == p[0];
      assert body == [] ==> p + body == p;
      assert body != [] ==> (p + body)[|p + body| - 1] == body[|body| - 1];
    }
  }

  lemma AlternatingUsersApart(h: seq<HistoryMessage>)
    requires Alternates(h)
    ensures NoAdjacentUsers(h)
  {
    forall i | 0 < i < |h|
      ensures !(h[i - 1].User? && h[i].User?)
    {
      assert !SameKind(h[i - 1], h[i]);
    }
  }

  lemma PairThenBody(p: seq<HistoryMessage>, body: seq<HistoryMessage>)
    requires |p| == 2 && p[0].User? && p[1].Assistant? && Alternates(body)
    ensures Alternates(p + body) <==> !(body != [] && body[0].Assistant?)
    ensures NoAdjacentUsers(p + body)
  {
    var h := p + body;
    forall i | 0 < i < |h|
      ensures SameKind(h[i - 1], h[i]) ==> i == 2 && body[0].Assistant? && h[1].Assistant?
    {
      PairThenBodyAt(p, body, i);
    }
    if body != [] && body[0].Assistant? {
      assert SameKind(h[2 - 1], h[2]);
    }
  }

  lemma PairThenBodyAt(p: seq<HistoryMessage>, body: seq<HistoryMessage>, i: nat)
    requires |p| == 2 && p[0].User? && p[1].Assistant? && Alternates(body) && 0 < i < |p + body|
    ensures SameKind((p + body)[i - 1], (p + body)[i]) ==> i == 2 && body[0].Assistant? && (p + body)[1].Assistant?
  {
    if i > 2 {
      assert !SameKind(body[i - 2 - 1], body[i - 2]);
    }
  }

  // ----- Nothing is lost or duplicated -----

  /** All tool calls of a history, in order. */
  function HistoryUses(h: seq<HistoryMessage>): seq<ToolUseEntry> {
    if h == [] then []
    else
      var last := h[|h| - 1];
      HistoryUses(h[..|h| - 1]) + if last.Assistant? then last.toolUses.GetOr([]) else []
  }

  function Ids(results: seq<ToolResult>): seq<string> {
    seq(|results|, i requires 0 <= i < |results| => results[i].toolUseId)
  }

  /** The ids of all tool results of a history, in order. */
  function HistoryResultIds(h: seq<HistoryMessage>): seq<string> {
    if h == [] then []
    else
      var last := h[|h| - 1];
      HistoryResultIds(h[..|h| - 1]) + if last.User? then Ids(last.toolResults) else []
  }

  /** All tool calls of the client's assistant messages, in order. */
  function ClientUses(msgs: seq<Message>, env: Env): seq<ToolUseEntry> {
    if msgs == [] then []
    else
      var last := msgs[|msgs| - 1];
      ClientUses(msgs[..|msgs| - 1], env) +
      if last.role == "assistant" && MessageUses(last, env).Success? then MessageUses(last, env).value else []
  }

  function ResultIdOf(v: Json.Value): seq<string> {
    match ParseBlock(v)
    case Some(b) => if b.blockType == "tool_result" && b.toolUseId.Some? then [b.toolUseId.value] else []
    case None => []
  }

  function ResultIdsIn(items: seq<Json.Value>): seq<string> {
    if items == [] then [] else ResultIdsIn(items[..|items| - 1]) + ResultIdOf(items[|items| - 1])
  }

  function MessageResultIds(msg: Message): seq<string> {
    if msg.content.Arr? then ResultIdsIn(msg.content.items) else []
  }

  /** The ids of all tool results of the client's user messages, in order. */
  function ClientResultIds(msgs: seq<Message>): seq<string> {
    if msgs == [] then []
    else
      var last := msgs[|msgs| - 1];
      ClientResultIds(msgs[..|msgs| - 1]) + if last.role == "user" then MessageResultIds(last) else []
  }

  lemma LiftKeepsResults(source: ImageSource, acc: UserParts, env: Env)
    ensures LiftImage(source, acc, env).Success? ==> LiftImage(source, acc, env).value.1.results == acc.results
    ensures LiftImage(source, acc, env).Success? ==>
              (LiftImage(source, acc, env).value.1.seen.Some? <==> acc.seen.Some?)
  {
  }

  lemma {:induction false} ResultItemsKeepResults(items: seq<Json.Value>, rc: ResultContent, env: Env)
    ensures ResultItems(items, rc, env).Success? ==> ResultItems(items, rc, env).value.acc.results == rc.acc.results
    ensures ResultItems(items, rc, env).Success? ==>
              (ResultItems(items, rc, env).value.acc.seen.Some? <==> rc.acc.seen.Some?)
    decreases |items|
  {
    if items != [] {
      ResultItemsKeepResults(items[..|items| - 1], rc, env);
      var before := ResultItems(items[..|items| - 1], rc, env);
      var last := items[|items| - 1];
      if before.Success? && ParseBlock(last).Some? && ParseBlock(last).value.source.Some? {
        LiftKeepsResults(ParseBlock(last).value.source.value, before.value.acc, env);
      }
    }
  }

  lemma IdsSnoc(results: seq<ToolResult>, r: ToolResult)
    ensures Ids(results + [r]) == Ids(results) + [r.toolUseId]
  {
  }

  lemma UserBlockResults(v: Json.Value, acc: UserParts, env: Env)
    requires UserBlock(v, acc, env).Success?
    ensures Ids(UserBlock(v, acc, env).value.results) == Ids(acc.results) + ResultIdOf(v)
  {
    match ParseBlock(v) {
      case None =>
        assert Ids(acc.results) + [] == Ids(acc.results);
      case Some(b) =>
        assert Ids(acc.results) + [] == Ids(acc.results);
        if b.blockType == "image" && b.source.Some? {
          LiftKeepsResults(b.source.value, acc, env);
        } else if b.blockType == "tool_result" && b.toolUseId.Some? {
          if b.content.Some? && b.content.value.Arr? {
            ResultItemsKeepResults(b.content.value.items, ResultContent([], false, acc), env);
          }
          var content := ToolResultContent(b.content, acc, env).value;
          IdsSnoc(acc.results, ToolResult(b.toolUseId.value, content.0, b.isError.GetOr(false)));
        }
    }
  }

  lemma {:induction false} UserBlocksResults(items: seq<Json.Value>, acc: UserParts, env: Env)
    requires UserBlocks(items, acc, env).Success?
    ensures Ids(UserBlocks(items, acc, env).value.results) == Ids(acc.results) + ResultIdsIn(items)
    decreases |items|
  {
    if items == [] {
      assert Ids(acc.results) + [] == Ids(acc.results);
    } else {
      UserBlocksResults(items[..|items| - 1], acc, env);
      UserBlockResults(items[|items| - 1], UserBlocks(items[..|items| - 1], acc, env).value, env);
    }
  }

  lemma UserContentResults(msg: Message, seen: Option<set<string>>, env: Env)
    requires UserContent(msg.content, seen, env).Success?
    ensures Ids(UserContent(msg.content, seen, env).value.results) == MessageResultIds(msg)
  {
    if msg.content.Arr? {
      UserBlocksResults(msg.content.items, UserParts([], [], [], seen), env);
      assert Ids([]) == [];
    }
  }

  lemma IdsAppend(a: seq<ToolResult>, b: seq<ToolResult>)
    ensures Ids(a + b) == Ids(a) + Ids(b)
  {
  }

  predicate AllRole(msgs: seq<Message>, role: string) {
    forall m <- msgs :: m.role == role
  }

  lemma {:induction false} MergeUsersResults(msgs: seq<Message>, seen: set<string>, env: Env)
    requires AllRole(msgs, "user") && MergeUsers(msgs, seen, env).Success?
    ensures Ids(MergeUsers(msgs, seen, env).value.results) == ClientResultIds(msgs)
    ensures ClientUses(msgs, env) == []
    decreases |msgs|
  {
    if msgs != [] {
      var init, last := msgs[..|msgs| - 1], msgs[|msgs| - 1];
      MergeUsersResults(init, seen, env);
      var before := MergeUsers(init, seen, env).value;
      UserContentResults(last, Some(before.seen), env);
      IdsAppend(before.results, UserContent(last.content, Some(before.seen), env).value.results);
    }
  }

  lemma {:induction false} MergePartsUses(msgs: seq<Message>, env: Env)
    requires AllRole(msgs, "assistant") && MergeAssistantParts(msgs, env).Success?
    ensures MergeAssistantParts(msgs, env).value.uses == ClientUses(msgs, env)
    ensures ClientResultIds(msgs) == []
    decreases |msgs|
  {
    if msgs != [] {
      MergePartsUses(msgs[..|msgs| - 1], env);
    }
  }

  lemma MergeAssistantsUses(msgs: seq<Message>, env: Env)
    requires msgs != [] && AllRole(msgs, "assistant") && MergeAssistants(msgs, env).Success?
    ensures MergeAssistants(msgs, env).value.Assistant?
    ensures MergeAssistants(msgs, env).value.toolUses.GetOr([]) == ClientUses(msgs, env)
    ensures ClientResultIds(msgs) == []
  {
    if |msgs| == 1 {
      assert msgs[..0] == [];
      assert ClientUses(msgs[..0], env) == [] && ClientResultIds(msgs[..0]) == [];
    } else {
      MergePartsUses(msgs, env);
    }
  }

  /** History and pending messages together hold everything the client sent. */
  ghost predicate Complete(b: Builder, prologue: seq<HistoryMessage>, msgs: seq<Message>, env: Env) {
    && AllRole(b.users, "user") && AllRole(b.assistants, "assistant")
    && (b.users == [] || b.assistants == [])
    && HistoryUses(b.history) + ClientUses(b.assistants, env) == HistoryUses(prologue) + ClientUses(msgs, env)
    && HistoryResultIds(b.history) + ClientResultIds(b.users) == HistoryResultIds(prologue) + ClientResultIds(msgs)
  }

  lemma HistorySnoc(h: seq<HistoryMessage>, m: HistoryMessage)
    ensures HistoryUses(h + [m]) == HistoryUses(h) + if m.Assistant? then m.toolUses.GetOr([]) else []
    ensures HistoryResultIds(h + [m]) == HistoryResultIds(h) + if m.User? then Ids(m.toolResults) else []
  {
    assert (h + [m])[..|h|] == h;
  }

  lemma ClientSnoc(msgs: seq<Message>, m: Message, env: Env)
    ensures ClientUses(msgs + [m], env) == ClientUses(msgs, env) +
            if m.role == "assistant" && MessageUses(m, env).Success? then MessageUses(m, env).value else []
    ensures ClientResultIds(msgs + [m]) == ClientResultIds(msgs) + if m.role == "user" then MessageResultIds(m) else []
  {
    assert (msgs + [m])[..|msgs|] == msgs;
  }

  lemma FlushAssistantsComplete(b: Builder, prologue: seq<HistoryMessage>, msgs: seq<Message>, env: Env)
    requires Complete(b, prologue, msgs, env) && FlushAssistants(b, env).Success?
    ensures Complete(FlushAssistants(b, env).value, prologue, msgs, env)
    ensures FlushAssistants(b, env).value.assistants == []
  {
    if b.assistants != [] {
      MergeAssistantsUses(b.assistants, env);
      HistorySnoc(b.history, MergeAssistants(b.assistants, env).value);
      assert HistoryUses(FlushAssistants(b, env).value.history) + [] ==
             HistoryUses(b.history) + ClientUses(b.assistants, env);
      assert HistoryResultIds(b.history) + [] == HistoryResultIds(b.history);
    }
  }

  lemma FlushUsersComplete(b: Builder, prologue: seq<HistoryMessage>, msgs: seq<Message>, env: Env)
    requires Complete(b, prologue, msgs, env) && FlushUsers(b, env).Success?
    ensures Complete(FlushUsers(b, env).value, prologue, msgs, env)
    ensures FlushUsers(b, env).value.users == []
  {
    if b.users != [] {
      MergeUsersResults(b.users, b.seen, env);
      HistorySnoc(b.history, MergedUser(MergeUsers(b.users, b.seen, env).value));
      assert HistoryResultIds(FlushUsers(b, env).value.history) + [] ==
             HistoryResultIds(b.history) + ClientResultIds(b.users);
      assert HistoryUses(b.history) + [] == HistoryUses(b.history);
    }
  }

  lemma UserKeepsComplete(f: Builder, prologue: seq<HistoryMessage>, msgs: seq<Message>, msg: Message, env: Env)
    requires Complete(f, prologue, msgs, env) && f.assistants == [] && msg.role == "user"
    ensures Complete(f.(users := f.users + [msg]), prologue, msgs + [msg], env)
  {
    ClientSnoc(msgs, msg, env);
    ClientSnoc(f.users, msg, env);
    Assoc(HistoryResultIds(f.history), ClientResultIds(f.users), MessageResultIds(msg));
    Assoc(HistoryResultIds(prologue), ClientResultIds(msgs), MessageResultIds(msg));
    Assoc(ClientUses(msgs, env), [], []);
  }

  lemma AssistantKeepsComplete(f: Builder, prologue: seq<HistoryMessage>, msgs: seq<Message>, msg: Message, env: Env)
    requires Complete(f, prologue, msgs, env) && f.users == [] && msg.role == "assistant"
    ensures Complete(f.(assistants := f.assistants + [msg]), prologue, msgs + [msg], env)
  {
    var here := if MessageUses(msg, env).Success? then MessageUses(msg, env).value else [];
    ClientSnoc(msgs, msg, env);
    ClientSnoc(f.assistants, msg, env);
    Assoc(HistoryUses(f.history), ClientUses(f.assistants, env), here);
    Assoc(HistoryUses(prologue), ClientUses(msgs, env), here);
    Assoc(ClientResultIds(msgs), [], []);
  }

  lemma AcceptKeepsComplete(
    b: Builder, prologue: seq<HistoryMessage>, msgs: seq<Message>, msg: Message, env: Env, b': Builder)
    requires Complete(b, prologue, msgs, env) && Accept(b, msg, env) == Success(b')
    ensures Complete(b', prologue, msgs + [msg], env)
  {
    hide FlushAssistants, FlushUsers;
    if msg.role == "user" {
      FlushAssistantsComplete(b, prologue, msgs, env);
      UserKeepsComplete(FlushAssistants(b, env).value, prologue, msgs, msg, env);
    } else if msg.role == "assistant" {
      FlushUsersComplete(b, prologue, msgs, env);
      AssistantKeepsComplete(FlushUsers(b, env).value, prologue, msgs, msg, env);
    } else {
      ClientSnoc(msgs, msg, env);
      Assoc(ClientUses(msgs, env), [], []);
      Assoc(ClientResultIds(msgs), [], []);
    }
  }

  lemma StartIsComplete(prologue: seq<HistoryMessage>, env: Env)
    ensures Complete(Builder(prologue, [], [], {}), prologue, [], env)
  {
  }

  lemma {:induction false} LoopIsComplete(prologue: seq<HistoryMessage>, msgs: seq<Message>, env: Env, b: Builder)
    requires AcceptAll(Builder(prologue, [], [], {}), msgs, env) == Success(b)
    ensures Complete(b, prologue, msgs, env)
    decreases |msgs|
  {
    if msgs == [] {
      StartIsComplete(prologue, env);
    } else {
      var init, last := msgs[..|msgs| - 1], msgs[|msgs| - 1];
      assert init + [last] == msgs;
      var before := AcceptAllStep(Builder(prologue, [], [], {}), msgs, env);
      LoopIsComplete(prologue, init, env, before);
      AcceptKeepsComplete(before, prologue, init, last, env, b);
    }
  }

  /** The history holds exactly the tool calls and the tool-result ids of the client's messages
      before the last one, in order: none lost, none duplicated. */
  lemma HistoryIsComplete(prologue: seq<HistoryMessage>, msgs: seq<Message>, env: Env)
    requires IsPrologue(prologue) && HistoryUses(prologue) == [] && HistoryResultIds(prologue) == []
    requires HistoryOf(prologue, msgs, env).Success?
    ensures var h, prefix := HistoryOf(prologue, msgs, env).value, if msgs == [] then [] else msgs[..|msgs| - 1];
            HistoryUses(h) == ClientUses(prefix, env) && HistoryResultIds(h) == ClientResultIds(prefix)
  {
    hide AcceptAll, Finish, HistoryUses, HistoryResultIds, ClientUses, ClientResultIds, Complete;
    var prefix := if msgs == [] then [] else msgs[..|msgs| - 1];
    var b := AcceptAll(Builder(prologue, [], [], {}), prefix, env).value;
    LoopIsComplete(prologue, prefix, env, b);
    FinishIsComplete(b, prologue, prefix, env, HistoryOf(prologue, msgs, env).value);
  }

  lemma FinishIsComplete(
    b: Builder, prologue: seq<HistoryMessage>, msgs: seq<Message>, env: Env, h: seq<HistoryMessage>)
    requires Complete(b, prologue, msgs, env)
    requires HistoryUses(prologue) == [] && HistoryResultIds(prologue) == []
    requires Finish(b, env) == Success(h)
    ensures HistoryUses(h) == ClientUses(msgs, env) && HistoryResultIds(h) == ClientResultIds(msgs)
  {
    var b1, b2 := FinishSteps(b, env, h);
    hide Finish, FlushAssistants, FlushUsers;
    FlushAssistantsComplete(b, prologue, msgs, env);
    FlushUsersComplete(b1, prologue, msgs, env);
    AutomaticAnswer(b2.history);
    Assoc(b2.history, [], []);
    NothingPending(b2, prologue, msgs, env);
  }

  lemma FinishSteps(b: Builder, env: Env, h: seq<HistoryMessage>) returns (b1: Builder, b2: Builder)
    requires Finish(b, env) == Success(h)
    ensures FlushAssistants(b, env) == Success(b1) && FlushUsers(b1, env) == Success(b2)
    ensures b2.assistants == b1.assistants
    ensures h == b2.history + if b1.users == [] then [] else [Assistant("OK", None)]
  {
    hide MergeUsers, MergeAssistants;
    b1 := FlushAssistants(b, env).value;
    b2 := FlushUsers(b1, env).value;
  }

  lemma AutomaticAnswer(h: seq<HistoryMessage>)
    ensures HistoryUses(h + [Assistant("OK", None)]) == HistoryUses(h)
    ensures HistoryResultIds(h + [Assistant("OK", None)]) == HistoryResultIds(h)
  {
    HistorySnoc(h, Assistant("OK", None));
    Assoc(HistoryUses(h), [], []);
    Assoc(HistoryResultIds(h), [], []);
  }

  lemma NothingPending(b: Builder, prologue: seq<HistoryMessage>, msgs: seq<Message>, env: Env)
    requires Complete(b, prologue, msgs, env) && b.users == [] && b.assistants == []
    requires HistoryUses(prologue) == [] && HistoryResultIds(prologue) == []
    ensures HistoryUses(b.history) == ClientUses(msgs, env) && HistoryResultIds(b.history) == ClientResultIds(msgs)
  {
    Assoc(HistoryUses(b.history), [], []);
    Assoc(HistoryResultIds(b.history), [], []);
    assert [] + ClientUses(msgs, env) == ClientUses(msgs, env);
    assert [] + ClientResultIds(msgs) == ClientResultIds(msgs);
  }

  lemma PrologueHasNoTools(system: Option<seq<SystemMessage>>, thinking: Option<string>, policy: string)
    ensures HistoryUses(Prologue(system, thinking, policy)) == []
    ensures HistoryResultIds(Prologue(system, thinking, policy)) == []
  {
    var p := Prologue(system, thinking, policy);
    if p != [] {
      assert p == [p[0]] + [p[1]];
      HistorySnoc([], p[0]);
      HistorySnoc([p[0]], p[1]);
      assert [] + [p[0]] == [p[0]];
    }
  }
}
