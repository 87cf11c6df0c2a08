/** A conversation in plain text blocks arrives as it is. */
module PlainChat {
  import opened Basics
  import opened Wrappers
  import opened Types
  import opened History
  import opened Pairing
  import opened ClientContent
  import opened ConvertedContent
  import opened ConversionSuccess
  import Json
  import Strings

  // ----- Blocks as clients write them -----

  function PlainBlock(text: string): Json.Value {
    Json.Obj(map["type" := Json.Str("text"), "text" := Json.Str(text)])
  }

  function PlainImage(mediaType: string, data: string): Json.Value {
    Json.Obj(map["type" := Json.Str("image"),
                 "source" := Json.Obj(map["type" := Json.Str("base64"), "media_type" := Json.Str(mediaType),
                                          "data" := Json.Str(data)])])
  }

  function PlainResult(id: string, content: Json.Value, isError: bool): Json.Value {
    Json.Obj(map["type" := Json.Str("tool_result"), "tool_use_id" := Json.Str(id), "content" := content,
                 "is_error" := Json.Bool(isError)])
  }

  function PlainCall(id: string, name: string, input: Json.Value): Json.Value {
    Json.Obj(map["type" := Json.Str("tool_use"), "id" := Json.Str(id), "name" := Json.Str(name), "input" := input])
  }

  lemma PlainTextIsRead(text: string)
    ensures TextOf(PlainBlock(text)) == Some(text)
    ensures ImageOf(PlainBlock(text)).None? && !IsResult(PlainBlock(text)) && !IsCall(PlainBlock(text))
  {
    assert PlainBlock(text).fields.Keys == {"type", "text"};
  }

  lemma PlainImageIsRead(mediaType: string, data: string)
    ensures ImageOf(PlainImage(mediaType, data)) == Some(ImageSource(mediaType, data))
    ensures TextOf(PlainImage(mediaType, data)).None? && !IsResult(PlainImage(mediaType, data))
  {
    var v := PlainImage(mediaType, data);
    assert v.fields.Keys == {"type", "source"};
    assert v.fields["source"].fields.Keys == {"type", "media_type", "data"};
  }

  /** A tool result without content is empty, whether it is an error or not. */
  lemma PlainResultIsRead(id: string, content: Json.Value, isError: bool, before: Option<set<string>>)
    ensures ResultOf(PlainResult(id, content, isError), before) ==
            [ToolResult(id, ResultText(if content.Null? then None else Some(content), before), isError)]
  {
    hide ResultText;
    assert PlainResult(id, content, isError).fields.Keys == {"type", "tool_use_id", "content", "is_error"};
  }

  lemma PlainCallIsRead(id: string, name: string, input: Json.Value)
    ensures var v := PlainCall(id, name, input);
            IsCall(v) && StringAt(v, "id") == Some(id) && StringAt(v, "name") == Some(name)
            && GivenAt(v, "input") == (if input.Null? then None else Some(input))
  {
    assert PlainCall(id, name, input).fields.Keys == {"type", "id", "name", "input"};
  }

  // ----- A plain conversation -----

  function PlainBlocks(texts: seq<string>): seq<Json.Value> {
    if texts == [] then [] else PlainBlocks(texts[..|texts| - 1]) + [PlainBlock(texts[|texts| - 1])]
  }

  function Turn(role: string, texts: seq<string>): Message {
    Message(role, Json.Arr(PlainBlocks(texts)))
  }

  datatype Exchange = Exchange(question: seq<string>, answer: seq<string>)

  function Chat(es: seq<Exchange>): seq<Message> {
    if es == [] then []
    else
      var e := es[|es| - 1];
      Chat(es[..|es| - 1]) + [Turn("user", e.question), Turn("assistant", e.answer)]
  }

  function Concat(texts: seq<string>): string {
    if texts == [] then "" else Concat(texts[..|texts| - 1]) + texts[|texts| - 1]
  }

  /** The two history entries of an exchange. */
  function Heard(e: Exchange): seq<HistoryMessage> {
    [User(Strings.Join(e.question, "\n"), [], []), Assistant(Concat(e.answer), None)]
  }

  function ChatHistory(es: seq<Exchange>): seq<HistoryMessage> {
    if es == [] then [] else ChatHistory(es[..|es| - 1]) + Heard(es[|es| - 1])
  }

  lemma PlainSnoc(items: seq<Json.Value>, text: string, before: Option<set<string>>)
    ensures var all := items + [PlainBlock(text)];
            && TextBlocks(all) == TextBlocks(items) + [text]
            && ImagesOfBlocks(all) == ImagesOfBlocks(items)
            && ResultsOfBlocks(all, before) == ResultsOfBlocks(items, before)
  {
    PlainTextIsRead(text);
    var v := PlainBlock(text);
    hide TextOf, ImageOf, IsResult, Met, PlainBlock;
    assert (items + [v])[..|items|] == items;
    assert ImagesOfBlocks(items) + [] == ImagesOfBlocks(items);
    assert ResultsOfBlocks(items, before) + [] == ResultsOfBlocks(items, before);
  }

  lemma SpokenSnoc(items: seq<Json.Value>, text: string, env: Env)
    ensures var all := items + [PlainBlock(text)];
            SpokenIn(all) == SpokenIn(items) + text && CallsIn(all, env) == CallsIn(items, env)
  {
    PlainTextIsRead(text);
    var v := PlainBlock(text);
    hide TextOf, IsCall, PlainBlock;
    assert (items + [v])[..|items|] == items;
    assert CallsIn(items, env) + [] == CallsIn(items, env);
  }

  lemma PlainIsMapped(text: string, env: Env)
    ensures Mapped(PlainBlock(text), env) && ImageOf(PlainBlock(text)).None?
  {
    PlainTextIsRead(text);
    hide IsCall, ImageOf;
  }

  lemma NoBlocks(before: Option<set<string>>, env: Env)
    ensures TextBlocks([]) == [] && ImagesOfBlocks([]) == [] && ResultsOfBlocks([], before) == []
    ensures SpokenIn([]) == "" && CallsIn([], env) == []
  {
  }

  lemma {:induction false} PlainBlocksAreRead(texts: seq<string>, before: Option<set<string>>, env: Env)
    ensures var items := PlainBlocks(texts);
            TextBlocks(items) == texts && ImagesOfBlocks(items) == [] && ResultsOfBlocks(items, before) == []
    decreases |texts|
  {
    hide TextBlocks, ImagesOfBlocks, ResultsOfBlocks, PlainBlock;
    NoBlocks(before, env);
    if texts != [] {
      var init, last := texts[..|texts| - 1], texts[|texts| - 1];
      PlainBlocksAreRead(init, before, env);
      PlainSnoc(PlainBlocks(init), last, before);
      assert init + [last] == texts;
    }
  }

  lemma {:induction false} PlainBlocksAreSpoken(texts: seq<string>, env: Env)
    ensures SpokenIn(PlainBlocks(texts)) == Concat(texts) && CallsIn(PlainBlocks(texts), env) == []
    decreases |texts|
  {
    hide SpokenIn, CallsIn, PlainBlock;
    NoBlocks(None, env);
    if texts != [] {
      PlainBlocksAreSpoken(texts[..|texts| - 1], env);
      SpokenSnoc(PlainBlocks(texts[..|texts| - 1]), texts[|texts| - 1], env);
    }
  }

  lemma {:induction false} PlainBlocksAreText(texts: seq<string>, env: Env)
    ensures forall v <- PlainBlocks(texts) :: Mapped(v, env) && ImageOf(v).None?
    decreases |texts|
  {
    if texts != [] {
      hide ImageOf, Mapped, PlainBlock;
      PlainBlocksAreText(texts[..|texts| - 1], env);
      PlainIsMapped(texts[|texts| - 1], env);
    }
  }

  lemma TurnIsRead(role: string, texts: seq<string>, before: Option<set<string>>, env: Env)
    ensures var m := Turn(role, texts);
            && MessageTexts(m.content, before) == texts && PlainTexts(m.content) == texts
            && MessageImages(m.content) == [] && MessageResults(m.content, before) == []
            && Spoken(m) == Concat(texts) && Calls(m, env) == [] && CallsMapped(m, env)
  {
    hide TextBlocks, SpokenIn, ImageOf, ImagesOfBlocks, ResultsOfBlocks, CallsIn, Mapped, PlainBlocks;
    PlainBlocksAreRead(texts, before, env);
    PlainBlocksAreSpoken(texts, env);
    PlainBlocksAreText(texts, env);
    TextsWithoutImages(Turn(role, texts).content, before);
  }

  /** The runs of a plain conversation. */
  function ChatRuns(es: seq<Exchange>): seq<Run> {
    if es == [] then [] else ChatRuns(es[..|es| - 1]) + [Asked(es[|es| - 1])] + [Answered(es[|es| - 1])]
  }

  function Asked(e: Exchange): Run {
    Run(true, [Turn("user", e.question)])
  }

  function Answered(e: Exchange): Run {
    Run(false, [Turn("assistant", e.answer)])
  }

  lemma {:induction false} RunsOfChat(es: seq<Exchange>)
    ensures Runs(Chat(es)) == ChatRuns(es)
    ensures es != [] ==> !ChatRuns(es)[|ChatRuns(es)| - 1].user
    decreases |es|
  {
    if es != [] {
      hide Runs;
      var init, e := es[..|es| - 1], es[|es| - 1];
      var asked, answered := Turn("user", e.question), Turn("assistant", e.answer);
      RunsOfChat(init);
      RunsSnoc(Chat(init), asked);
      RunsSnoc(Chat(init) + [asked], answered);
      assert Chat(es) == Chat(init) + [asked] + [answered];
      TurnsJoin(ChatRuns(init), e);
      hide Joined, Chat;
      assert init == [] ==> ChatRuns(init) == [];
    } else {
      assert Runs(Chat(es)) == [];
    }
  }

  lemma TurnsJoin(runs: seq<Run>, e: Exchange)
    requires runs == [] || !runs[|runs| - 1].user
    ensures Joined(Joined(runs, Turn("user", e.question)), Turn("assistant", e.answer)) ==
            runs + [Asked(e)] + [Answered(e)]
  {
    hide PlainBlocks;
  }

  lemma OneUser(texts: seq<string>, before: set<string>, env: Env)
    ensures EntryOf(Run(true, [Turn("user", texts)]), before, env) == User(Strings.Join(texts, "\n"), [], [])
    ensures ImagesOfMessages([Turn("user", texts)]) == []
  {
    hide MessageTexts, MessageImages, MessageResults, Turn;
    var m := Turn("user", texts);
    var seen := Met(Some(before), []);
    TurnIsRead("user", texts, seen, env);
    NothingLifted(Some(before), env);
    hide Lifted, Met;
    assert [m][..0] == [];
    assert ImagesOfMessages([]) == [] && UserLines([], Some(before)) == [] && ResultsOfMessages([], Some(before)) == [];
    assert ImagesOfMessages([m]) == [] + [];
    var text := Strings.Join(texts, "\n");
    assert UserLines([m], Some(before)) == [] + if text == "" then [] else [text];
    assert ResultsOfMessages([m], Some(before)) == [] + [];
    assert [] + [text] == [text];
  }

  lemma OneAssistant(texts: seq<string>, before: set<string>, env: Env)
    ensures EntryOf(Run(false, [Turn("assistant", texts)]), before, env) == Assistant(Concat(texts), None)
  {
    hide Spoken, Calls, Turn;
    var m := Turn("assistant", texts);
    TurnIsRead("assistant", texts, None, env);
    assert [m][..0] == [];
    assert CallsOfMessages([m], env) == [] + [];
  }

  lemma EntriesGrow(runs: seq<Run>, e: Exchange, env: Env)
    requires ImagesOfRuns(runs) == []
    ensures Entries(runs + [Asked(e)] + [Answered(e)], env) == Entries(runs, env) + Heard(e)
    ensures ImagesOfRuns(runs + [Asked(e)] + [Answered(e)]) == []
  {
    OneUser(e.question, Data([]), env);
    OneAssistant(e.answer, Data([]), env);
    EntriesSnoc(runs, Asked(e), env);
    EntriesSnoc(runs + [Asked(e)], Answered(e), env);
    hide Entries, ImagesOfRuns, EntryOf, Turn, ImagesOfMessages, Data, Concat, Strings.Join;
    assert [] + ImagesOfMessages([Turn("user", e.question)]) == [];
  }

  lemma {:induction false} EntriesOfChat(es: seq<Exchange>, env: Env)
    ensures Entries(ChatRuns(es), env) == ChatHistory(es) && ImagesOfRuns(ChatRuns(es)) == []
    decreases |es|
  {
    if es != [] {
      hide Asked, Answered, Heard, Entries, ImagesOfRuns;
      EntriesOfChat(es[..|es| - 1], env);
      EntriesGrow(ChatRuns(es[..|es| - 1]), es[|es| - 1], env);
    }
  }

  lemma {:induction false} ChatIsMapped(es: seq<Exchange>, env: Env)
    ensures forall m <- Chat(es) | m.role == "assistant" :: CallsMapped(m, env)
    decreases |es|
  {
    hide CallsMapped;
    if es != [] {
      ChatIsMapped(es[..|es| - 1], env);
      TurnIsRead("assistant", es[|es| - 1].answer, None, env);
    }
  }

  /** A history without tool calls and tool results. */
  predicate NoTools(h: seq<HistoryMessage>) {
    HistoryUses(h) == [] && HistoryResultIds(h) == []
  }

  lemma NoToolsMore(h: seq<HistoryMessage>, e: Exchange)
    requires NoTools(h)
    ensures NoTools(h + Heard(e))
  {
    hide Concat, Strings.Join, HistoryUses, HistoryResultIds;
    HistorySnoc(h, Heard(e)[0]);
    HistorySnoc(h + [Heard(e)[0]], Heard(e)[1]);
    assert h + Heard(e) == h + [Heard(e)[0]] + [Heard(e)[1]];
  }

  lemma {:induction false} ChatHasNoTools(prologue: seq<HistoryMessage>, es: seq<Exchange>)
    requires NoTools(prologue)
    ensures NoTools(prologue + ChatHistory(es))
    decreases |es|
  {
    hide NoTools, Heard;
    if es == [] {
      assert prologue + [] == prologue;
    } else {
      ChatHasNoTools(prologue, es[..|es| - 1]);
      NoToolsMore(prologue + ChatHistory(es[..|es| - 1]), es[|es| - 1]);
      Assoc(prologue, ChatHistory(es[..|es| - 1]), Heard(es[|es| - 1]));
    }
  }


  lemma NothingDropped(msgs: seq<Message>, last: Message)
    requires last.role == "user"
    ensures var all := msgs + [last]; DropPrefill(all) == all && all[..|all| - 1] == msgs
  {
  }

  lemma ChatConverts(
    prologue: seq<HistoryMessage>, es: seq<Exchange>, question: seq<string>, tools: seq<string>,
    lower: string -> string, env: Env)
    ensures var all := Chat(es) + [Turn("user", question)];
            && DropPrefill(all) == all && all[..|all| - 1] == Chat(es)
            && Convert(prologue, all, tools, lower, env).Success?
  {
    hide Chat, Convert, CallsMapped, DropPrefill;
    var all := Chat(es) + [Turn("user", question)];
    NothingDropped(Chat(es), Turn("user", question));
    TurnIsRead("user", question, None, env);
    RunsOfChat(es);
    EntriesOfChat(es, env);
    ChatIsMapped(es, env);
    ConvertsIff(prologue, all, tools, lower, env);
    hide Runs, Turn, ChatRuns, ImagesOfRuns, MessageImages;
    assert AllShrink([], None, env) && AllShrink([], Some({}), env);
  }

  lemma SaidInChat(prologue: seq<HistoryMessage>, es: seq<Exchange>, env: Env)
    ensures Said(prologue, Chat(es), env) == prologue + ChatHistory(es)
  {
    hide Chat, Runs, Entries, ChatHistory;
    RunsOfChat(es);
    EntriesOfChat(es, env);
    assert es == [] ==> ChatRuns(es) == [];
    hide ChatRuns;
    assert prologue + ChatHistory(es) + [] == prologue + ChatHistory(es);
  }

  lemma NothingOpen(h: seq<HistoryMessage>, tools: seq<string>, lower: string -> string)
    requires NoTools(h)
    ensures Called(h) == {} && WithPlaceholders(tools, UsedNames(HistoryUses(h)), lower) == tools
  {
  }

  /** Questions and answers in plain text blocks, of any number, arrive in order and in full: the last question as the
      current message, the others with their answers as the history after the prologue. */
  lemma ChatArrives(
    prologue: seq<HistoryMessage>, es: seq<Exchange>, question: seq<string>, tools: seq<string>,
    lower: string -> string, env: Env)
    requires NoTools(prologue)
    ensures Convert(prologue, Chat(es) + [Turn("user", question)], tools, lower, env) ==
            Success(Conversion(Strings.Join(question, "\n"), [], [], prologue + ChatHistory(es), tools))
  {
    hide Chat, ChatHistory, Turn, Convert, Said, Strings.Join, NoTools, PlainTexts, MessageImages, MessageResults;
    var all, said := Chat(es) + [Turn("user", question)], prologue + ChatHistory(es);
    ChatConverts(prologue, es, question, tools, lower, env);
    hide DropPrefill;
    TurnIsRead("user", question, None, env);
    SaidInChat(prologue, es, env);
    ChatHasNoTools(prologue, es);
    NothingOpen(said, tools, lower);
    NothingLifted(None, env);
    hide Lifted, WithPlaceholders, UsedNames, HistoryUses, Called, Answered;
    ConversionReads(prologue, all, tools, lower, env, Convert(prologue, all, tools, lower, env).value);
  }
}
