/** What the upstream gets to read: the converted request, entry by entry, in terms of what the client's JSON says. */
module ConvertedContent {
  import opened Basics
  import opened Wrappers
  import opened Types
  import opened ToolMap
  import opened ToolNames
  import opened History
  import opened Pairing
  import opened ClientContent
  import Json
  import Strings

  // ----- User messages in a row -----

  function ImagesOfMessages(msgs: seq<Message>): seq<ImageSource> {
    if msgs == [] then []
    else ImagesOfMessages(msgs[..|msgs| - 1]) + MessageImages(msgs[|msgs| - 1].content)
  }

  /** The text of each message, its texts line by line; empty ones are left out. */
  function UserLines(msgs: seq<Message>, before: Option<set<string>>): seq<string> {
    if msgs == [] then []
    else
      var init := msgs[..|msgs| - 1];
      var text := Strings.Join(MessageTexts(msgs[|msgs| - 1].content, Met(before, ImagesOfMessages(init))), "\n");
      UserLines(init, before) + if text == "" then [] else [text]
  }

  function ResultsOfMessages(msgs: seq<Message>, before: Option<set<string>>): seq<ToolResult> {
    if msgs == [] then []
    else
      var init := msgs[..|msgs| - 1];
      ResultsOfMessages(init, before) + MessageResults(msgs[|msgs| - 1].content, Met(before, ImagesOfMessages(init)))
  }

  lemma {:induction false} UsersRead(msgs: seq<Message>, seen: set<string>, env: Env)
    requires MergeUsers(msgs, seen, env).Success?
    ensures Met(Some(seen), ImagesOfMessages(msgs)).Some?
    ensures MergeUsers(msgs, seen, env).value ==
            Merged(UserLines(msgs, Some(seen)), Lifted(ImagesOfMessages(msgs), Some(seen), env),
                   ResultsOfMessages(msgs, Some(seen)), Met(Some(seen), ImagesOfMessages(msgs)).value)
    decreases |msgs|
  {
    hide UserContent, MessageTexts, MessageImages, MessageResults, Lifted, Strings.Join;
    NothingLifted(Some(seen), env);
    if msgs != [] {
      var init, last := msgs[..|msgs| - 1], msgs[|msgs| - 1];
      UsersRead(init, seen, env);
      var before := MergeUsers(init, seen, env).value;
      ContentIsRead(last.content, Some(before.seen), env);
      LiftedAppend(ImagesOfMessages(init), MessageImages(last.content), Some(seen), env);
      MetAppend(Some(seen), ImagesOfMessages(init), MessageImages(last.content));
    }
  }

  // ----- Assistant messages in a row -----

  /** The texts of the blocks, one after the other. */
  function SpokenIn(items: seq<Json.Value>): string {
    if items == [] then "" else SpokenIn(items[..|items| - 1]) + TextOf(items[|items| - 1]).GetOr("")
  }

  function Spoken(msg: Message): string {
    match msg.content
    case Str(s) => s
    case Arr(items) => SpokenIn(items)
    case _ => ""
  }

  /** A call under its id and Kiro name, with its arguments in Kiro's vocabulary. */
  function CallOf(v: Json.Value, env: Env): seq<ToolUseEntry> {
    if !IsCall(v) then []
    else
      var id, name := StringAt(v, "id").value, StringAt(v, "name").value;
      match InputToKiro(name, GivenAt(v, "input").GetOr(Json.Obj(map[])), env.mode)
      case Success(input) => [ToolUseEntry(id, KiroName(name, env.mode, env.digest), input)]
      case Failure(_) => []
  }

  function CallsIn(items: seq<Json.Value>, env: Env): seq<ToolUseEntry> {
    if items == [] then [] else CallsIn(items[..|items| - 1], env) + CallOf(items[|items| - 1], env)
  }

  function Calls(msg: Message, env: Env): seq<ToolUseEntry> {
    if msg.content.Arr? then CallsIn(msg.content.items, env) else []
  }

  function CallsOfMessages(msgs: seq<Message>, env: Env): seq<ToolUseEntry> {
    if msgs == [] then [] else CallsOfMessages(msgs[..|msgs| - 1], env) + Calls(msgs[|msgs| - 1], env)
  }

  /** The texts that are not blank. */
  function AssistantLines(msgs: seq<Message>): seq<string> {
    if msgs == [] then []
    else
      var text := Spoken(msgs[|msgs| - 1]);
      AssistantLines(msgs[..|msgs| - 1]) + if Strings.Trim(text) == "" then [] else [text]
  }

  /** One message keeps its text, several are separated by blank lines; calls alone get a blank. */
  function AssistantText(msgs: seq<Message>, env: Env): string {
    var calls := CallsOfMessages(msgs, env) != [];
    if |msgs| == 1 then (if Spoken(msgs[0]) == "" && calls then " " else Spoken(msgs[0]))
    else if AssistantLines(msgs) == [] && calls then " "
    else Strings.Join(AssistantLines(msgs), "\n\n")
  }

  lemma {:induction false} SpokenIsRead(items: seq<Json.Value>)
    ensures TextIn(items) == SpokenIn(items)
    decreases |items|
  {
    if items != [] {
      ParsedBlock(items[|items| - 1]);
      hide ParseBlock, ValidBlock;
      SpokenIsRead(items[..|items| - 1]);
    }
  }

  lemma CallIsRead(v: Json.Value, env: Env)
    requires UseOf(v, env).Success?
    ensures UseOf(v, env).value == CallOf(v, env)
  {
    ParsedBlock(v);
    hide ParseBlock, ValidBlock, InputToKiro, KiroName;
  }

  lemma {:induction false} CallsAreRead(items: seq<Json.Value>, env: Env)
    requires UsesIn(items, env).Success?
    ensures UsesIn(items, env).value == CallsIn(items, env)
    decreases |items|
  {
    hide UseOf, CallOf;
    if items != [] {
      CallsAreRead(items[..|items| - 1], env);
      CallIsRead(items[|items| - 1], env);
    }
  }

  lemma AssistantIsRead(msg: Message, env: Env)
    requires ConvertAssistant(msg, env).Success?
    ensures ConvertAssistant(msg, env).value == AssistantOf(Spoken(msg), Calls(msg, env))
  {
    hide TextIn, SpokenIn, UsesIn, CallsIn, AssistantOf;
    if msg.content.Arr? {
      SpokenIsRead(msg.content.items);
      CallsAreRead(msg.content.items, env);
    }
  }

  lemma BlankIsTrimmed()
    ensures Strings.Trim(" ") == "" && Strings.Trim("") == ""
  {
  }

  lemma {:induction false} PartsAreRead(msgs: seq<Message>, env: Env)
    requires MergeAssistantParts(msgs, env).Success?
    ensures MergeAssistantParts(msgs, env).value == MergedAssistant(AssistantLines(msgs), CallsOfMessages(msgs, env))
    decreases |msgs|
  {
    hide ConvertAssistant, Spoken, Calls, Strings.Trim;
    BlankIsTrimmed();
    if msgs != [] {
      PartsAreRead(msgs[..|msgs| - 1], env);
      AssistantIsRead(msgs[|msgs| - 1], env);
    }
  }

  lemma AssistantsRead(msgs: seq<Message>, env: Env)
    requires msgs != [] && MergeAssistants(msgs, env).Success?
    ensures MergeAssistants(msgs, env).value ==
            Assistant(AssistantText(msgs, env),
                      if CallsOfMessages(msgs, env) == [] then None else Some(CallsOfMessages(msgs, env)))
  {
    hide ConvertAssistant, Spoken, Calls, Strings.Trim, Strings.Join;
    if |msgs| == 1 {
      AssistantIsRead(msgs[0], env);
      assert msgs[..0] == [] && CallsOfMessages(msgs[..0], env) == [];
      assert [] + Calls(msgs[0], env) == Calls(msgs[0], env);
    } else {
      PartsAreRead(msgs, env);
    }
  }

  // ----- The history -----

  /** Messages of one role in a row. */
  datatype Run = Run(user: bool, msgs: seq<Message>)

  /** A message joins the last run if it has the role of that run. */
  function Joined(runs: seq<Run>, m: Message): seq<Run> {
    var n, user := |runs|, m.role == "user";
    if !user && m.role != "assistant" then runs
    else if n > 0 && runs[n - 1].user == user then runs[..n - 1] + [Run(user, runs[n - 1].msgs + [m])]
    else runs + [Run(user, [m])]
  }

  /** The client's messages, one run after the other; messages of other roles are left out. */
  function Runs(msgs: seq<Message>): seq<Run> {
    if msgs == [] then [] else Joined(Runs(msgs[..|msgs| - 1]), msgs[|msgs| - 1])
  }

  function ImagesOfRuns(runs: seq<Run>): seq<ImageSource> {
    if runs == [] then []
    else
      var last := runs[|runs| - 1];
      ImagesOfRuns(runs[..|runs| - 1]) + if last.user then ImagesOfMessages(last.msgs) else []
  }

  /** The history entry of a run, after images with the data `before`. */
  function EntryOf(run: Run, before: set<string>, env: Env): HistoryMessage {
    if run.user then
      User(Strings.Join(UserLines(run.msgs, Some(before)), "\n"),
           Lifted(ImagesOfMessages(run.msgs), Some(before), env), ResultsOfMessages(run.msgs, Some(before)))
    else
      Assistant(AssistantText(run.msgs, env),
                if CallsOfMessages(run.msgs, env) == [] then None else Some(CallsOfMessages(run.msgs, env)))
  }

  function Entries(runs: seq<Run>, env: Env): seq<HistoryMessage> {
    if runs == [] then []
    else
      var init := runs[..|runs| - 1];
      Entries(init, env) + [EntryOf(runs[|runs| - 1], Data(ImagesOfRuns(init)), env)]
  }

  lemma RunsSnoc(msgs: seq<Message>, m: Message)
    ensures Runs(msgs + [m]) == Joined(Runs(msgs), m)
  {
    hide Joined;
    assert (msgs + [m])[..|msgs|] == msgs;
  }

  /** All messages of a known role, in order. */
  function Flattened(runs: seq<Run>): seq<Message> {
    if runs == [] then [] else Flattened(runs[..|runs| - 1]) + runs[|runs| - 1].msgs
  }

  function WithRole(msgs: seq<Message>): seq<Message> {
    if msgs == [] then []
    else
      var m := msgs[|msgs| - 1];
      WithRole(msgs[..|msgs| - 1]) + if m.role == "user" || m.role == "assistant" then [m] else []
  }

  predicate OfOneRole(run: Run) {
    run.msgs != [] && AllRole(run.msgs, if run.user then "user" else "assistant")
  }

  lemma FlattenedSnoc(runs: seq<Run>, run: Run)
    ensures Flattened(runs + [run]) == Flattened(runs) + run.msgs
  {
    assert (runs + [run])[..|runs|] == runs;
  }

  /** Neighbouring runs are of different roles. */
  predicate Apart(runs: seq<Run>) {
    forall k | 0 < k < |runs| :: runs[k - 1].user != runs[k].user
  }

  lemma JoinedFlattens(runs: seq<Run>, m: Message)
    ensures Flattened(Joined(runs, m)) == Flattened(runs) + WithRole([m])
  {
    hide Flattened;
    OneWithRole(m);
    hide WithRole;
    var n, user := |runs|, m.role == "user";
    assert Flattened(runs) + [] == Flattened(runs);
    if n > 0 && runs[n - 1].user == user {
      var init, last := runs[..n - 1], runs[n - 1];
      assert runs == init + [last];
      FlattenedSnoc(init, last);
      FlattenedSnoc(init, Run(user, last.msgs + [m]));
      Assoc(Flattened(init), last.msgs, [m]);
    } else {
      FlattenedSnoc(runs, Run(user, [m]));
    }
  }

  lemma OneWithRole(m: Message)
    ensures WithRole([m]) == if m.role == "user" || m.role == "assistant" then [m] else []
  {
    assert [m][..0] == [];
  }

  lemma WithRoleSnoc(msgs: seq<Message>, m: Message)
    ensures WithRole(msgs + [m]) == WithRole(msgs) + WithRole([m])
  {
    OneWithRole(m);
    assert (msgs + [m])[..|msgs|] == msgs;
  }

  lemma JoinedRoles(runs: seq<Run>, m: Message)
    requires (forall r <- runs :: OfOneRole(r)) && Apart(runs)
    ensures (forall r <- Joined(runs, m) :: OfOneRole(r)) && Apart(Joined(runs, m))
  {
    var n, user := |runs|, m.role == "user";
    if user || m.role == "assistant" {
      NewRun(m);
      if n > 0 && runs[n - 1].user == user {
        assert runs[n - 1] in runs;
        RunGrows(runs[n - 1], m);
      }
    }
    hide OfOneRole;
    assert forall k | 0 <= k < n - 1 :: Joined(runs, m)[k] == runs[k];
  }

  lemma NewRun(m: Message)
    requires m.role == "user" || m.role == "assistant"
    ensures OfOneRole(Run(m.role == "user", [m]))
  {
  }

  lemma RunGrows(run: Run, m: Message)
    requires OfOneRole(run) && m.role == if run.user then "user" else "assistant"
    ensures OfOneRole(Run(run.user, run.msgs + [m]))
  {
  }

  /** Runs are what they say: together the messages, in order; each of one role and not empty; neighbours differ. */
  lemma {:induction false} RunsSpec(msgs: seq<Message>)
    ensures Flattened(Runs(msgs)) == WithRole(msgs)
    ensures (forall r <- Runs(msgs) :: OfOneRole(r)) && Apart(Runs(msgs))
    decreases |msgs|
  {
    hide Joined, OfOneRole;
    if msgs != [] {
      var init, m := msgs[..|msgs| - 1], msgs[|msgs| - 1];
      assert msgs == init + [m];
      RunsSpec(init);
      RunsSnoc(init, m);
      JoinedFlattens(Runs(init), m);
      WithRoleSnoc(init, m);
      JoinedRoles(Runs(init), m);
    }
  }

  // ----- The loop builds the entries -----

  /** Builder and runs: all runs but the last are entries, the last one is pending. */
  ghost predicate Built(b: Builder, prologue: seq<HistoryMessage>, runs: seq<Run>, env: Env) {
    if runs == [] then b == Builder(prologue, [], [], {})
    else
      var init, last := runs[..|runs| - 1], runs[|runs| - 1];
      b == Builder(prologue + Entries(init, env), if last.user then last.msgs else [],
                   if last.user then [] else last.msgs, Data(ImagesOfRuns(init)))
  }

  lemma MetData(before: set<string>, ss: seq<ImageSource>)
    ensures Met(Some(before), ss) == Some(before + Data(ss))
  {
  }

  lemma DataAppend(a: seq<ImageSource>, b: seq<ImageSource>)
    ensures Data(a + b) == Data(a) + Data(b)
  {
  }

  lemma EntriesSnoc(runs: seq<Run>, run: Run, env: Env)
    ensures Entries(runs + [run], env) == Entries(runs, env) + [EntryOf(run, Data(ImagesOfRuns(runs)), env)]
    ensures ImagesOfRuns(runs + [run]) == ImagesOfRuns(runs) + if run.user then ImagesOfMessages(run.msgs) else []
  {
    hide EntryOf;
    assert (runs + [run])[..|runs|] == runs;
  }

  lemma UsersEntry(run: Run, seen: set<string>, env: Env)
    requires run.user && MergeUsers(run.msgs, seen, env).Success?
    ensures MergedUser(MergeUsers(run.msgs, seen, env).value) == EntryOf(run, seen, env)
    ensures MergeUsers(run.msgs, seen, env).value.seen == seen + Data(ImagesOfMessages(run.msgs))
  {
    hide MergeUsers, Lifted, UserLines, ResultsOfMessages, ImagesOfMessages, Strings.Join, Data;
    UsersRead(run.msgs, seen, env);
    MetData(seen, ImagesOfMessages(run.msgs));
  }

  /** The pending run is flushed as its entry. */
  lemma FlushedUsers(b: Builder, prologue: seq<HistoryMessage>, runs: seq<Run>, env: Env)
    requires Built(b, prologue, runs, env) && runs != [] && runs[|runs| - 1].user && runs[|runs| - 1].msgs != []
    requires FlushUsers(b, env).Success?
    ensures FlushUsers(b, env).value == Builder(prologue + Entries(runs, env), [], [], Data(ImagesOfRuns(runs)))
  {
    hide MergeUsers, Entries, ImagesOfRuns, EntryOf, Data, ImagesOfMessages;
    var init, last := runs[..|runs| - 1], runs[|runs| - 1];
    assert runs == init + [last];
    UsersEntry(last, b.seen, env);
    hide MergedUser;
    EntriesSnoc(init, last, env);
    DataAppend(ImagesOfRuns(init), ImagesOfMessages(last.msgs));
    Assoc(prologue, Entries(init, env), [EntryOf(last, b.seen, env)]);
  }

  lemma AssistantsEntry(run: Run, seen: set<string>, env: Env)
    requires !run.user && run.msgs != [] && MergeAssistants(run.msgs, env).Success?
    ensures MergeAssistants(run.msgs, env).value == EntryOf(run, seen, env)
  {
    AssistantsRead(run.msgs, env);
  }

  lemma FlushedAssistants(b: Builder, prologue: seq<HistoryMessage>, runs: seq<Run>, env: Env)
    requires Built(b, prologue, runs, env) && runs != [] && !runs[|runs| - 1].user && runs[|runs| - 1].msgs != []
    requires FlushAssistants(b, env).Success?
    ensures FlushAssistants(b, env).value ==
            Builder(prologue + Entries(runs, env), [], [], Data(ImagesOfRuns(runs)))
  {
    hide MergeAssistants, Entries, ImagesOfRuns, EntryOf, Data;
    var init, last := runs[..|runs| - 1], runs[|runs| - 1];
    assert runs == init + [last];
    AssistantsEntry(last, b.seen, env);
    EntriesSnoc(init, last, env);
    assert ImagesOfRuns(init) + [] == ImagesOfRuns(init);
    Assoc(prologue, Entries(init, env), [EntryOf(last, b.seen, env)]);
  }

  lemma BuiltNew(
    b: Builder, prologue: seq<HistoryMessage>, runs: seq<Run>, m: Message, env: Env, b': Builder, user: bool)
    requires b == Builder(prologue + Entries(runs, env), [], [], Data(ImagesOfRuns(runs)))
    requires b' == if user then b.(users := [m]) else b.(assistants := [m])
    ensures Built(b', prologue, runs + [Run(user, [m])], env)
  {
    var all := runs + [Run(user, [m])];
    assert all[..|all| - 1] == runs;
  }

  lemma BuiltGrown(
    b: Builder, prologue: seq<HistoryMessage>, runs: seq<Run>, m: Message, env: Env, b': Builder)
    requires Built(b, prologue, runs, env) && runs != []
    requires var last := runs[|runs| - 1];
             b' == if last.user then b.(users := b.users + [m]) else b.(assistants := b.assistants + [m])
    ensures var n := |runs| - 1;
            Built(b', prologue, runs[..n] + [Run(runs[n].user, runs[n].msgs + [m])], env)
  {
    var n := |runs| - 1;
    var all := runs[..n] + [Run(runs[n].user, runs[n].msgs + [m])];
    assert all[..|all| - 1] == runs[..n];
  }

  lemma AcceptBuilds(
    b: Builder, prologue: seq<HistoryMessage>, msgs: seq<Message>, m: Message, env: Env, b': Builder)
    requires Built(b, prologue, Runs(msgs), env) && Accept(b, m, env) == Success(b')
    ensures Built(b', prologue, Runs(msgs + [m]), env)
  {
    hide FlushUsers, FlushAssistants, Runs, Entries, ImagesOfRuns;
    var runs := Runs(msgs);
    RunsSpec(msgs);
    RunsSnoc(msgs, m);
    if m.role == "user" || m.role == "assistant" {
      FlushNothing(b, env);
      if runs == [] {
        NoEntries(prologue, env);
        BuiltNew(b, prologue, [], m, env, b', m.role == "user");
        assert [] + [Run(m.role == "user", [m])] == [Run(m.role == "user", [m])];
      } else {
        var last := runs[|runs| - 1];
        assert last in runs;
        if last.user == (m.role == "user") {
          BuiltGrown(b, prologue, runs, m, env, b');
        } else if last.user {
          FlushedUsers(b, prologue, runs, env);
          BuiltNew(FlushUsers(b, env).value, prologue, runs, m, env, b', false);
        } else {
          FlushedAssistants(b, prologue, runs, env);
          BuiltNew(FlushAssistants(b, env).value, prologue, runs, m, env, b', true);
        }
      }
    }
  }

  lemma FlushNothing(b: Builder, env: Env)
    ensures b.users == [] ==> FlushUsers(b, env) == Success(b)
    ensures b.assistants == [] ==> FlushAssistants(b, env) == Success(b)
  {
  }

  lemma NoEntries(prologue: seq<HistoryMessage>, env: Env)
    ensures Builder(prologue, [], [], {}) == Builder(prologue + Entries([], env), [], [], Data(ImagesOfRuns([])))
  {
    assert Data([]) == {} && prologue + [] == prologue;
  }

  lemma {:induction false} LoopBuilds(prologue: seq<HistoryMessage>, msgs: seq<Message>, env: Env, b: Builder)
    requires AcceptAll(Builder(prologue, [], [], {}), msgs, env) == Success(b)
    ensures Built(b, prologue, Runs(msgs), env)
    decreases |msgs|
  {
    hide Accept, Entries, ImagesOfRuns;
    if msgs != [] {
      var init, last := msgs[..|msgs| - 1], msgs[|msgs| - 1];
      assert init + [last] == msgs;
      var before := AcceptAllStep(Builder(prologue, [], [], {}), msgs, env);
      LoopBuilds(prologue, init, env, before);
      AcceptBuilds(before, prologue, init, last, env, b);
    }
  }

  /** An automatic answer follows a trailing user message. */
  function Answer(runs: seq<Run>): seq<HistoryMessage> {
    if runs != [] && runs[|runs| - 1].user then [Assistant("OK", None)] else []
  }

  lemma FinishBuilds(b: Builder, prologue: seq<HistoryMessage>, runs: seq<Run>, env: Env, h: seq<HistoryMessage>)
    requires Built(b, prologue, runs, env) && Finish(b, env) == Success(h)
    requires forall r <- runs :: OfOneRole(r)
    ensures h == prologue + Entries(runs, env) + Answer(runs)
  {
    hide Entries, ImagesOfRuns;
    var b1, b2 := FinishSteps(b, env, h);
    FlushNothing(b, env);
    FlushNothing(b1, env);
    hide Finish, FlushUsers, FlushAssistants;
    if runs == [] {
      NoEntries(prologue, env);
      assert prologue + [] == prologue;
    } else {
      assert runs[|runs| - 1] in runs;
      if runs[|runs| - 1].user {
        FlushedUsers(b, prologue, runs, env);
      } else {
        FlushedAssistants(b, prologue, runs, env);
      }
    }
  }

  /** The history is the prologue, one entry for each run of the client's messages before the last one, and the
      automatic answer. */
  lemma HistoryReads(prologue: seq<HistoryMessage>, msgs: seq<Message>, env: Env)
    requires HistoryOf(prologue, msgs, env).Success?
    ensures var runs := Runs(if msgs == [] then [] else msgs[..|msgs| - 1]);
            HistoryOf(prologue, msgs, env).value == prologue + Entries(runs, env) + Answer(runs)
  {
    hide AcceptAll, Finish, Entries, Runs, Built;
    var prefix := if msgs == [] then [] else msgs[..|msgs| - 1];
    var b := AcceptAll(Builder(prologue, [], [], {}), prefix, env).value;
    LoopBuilds(prologue, prefix, env, b);
    RunsSpec(prefix);
    FinishBuilds(b, prologue, Runs(prefix), env, HistoryOf(prologue, msgs, env).value);
  }

  // ----- The whole request -----

  /** What the client says before its current message, as a history: nothing is repaired yet. */
  function Said(prologue: seq<HistoryMessage>, msgs: seq<Message>, env: Env): seq<HistoryMessage> {
    prologue + Entries(Runs(msgs), env) + Answer(Runs(msgs))
  }

  /** Nothing but the orphaned calls is taken out of a history. */
  predicate SameButCalls(said: seq<HistoryMessage>, sent: seq<HistoryMessage>, orphans: set<string>) {
    && |sent| == |said| && (orphans == {} ==> sent == said)
    && forall i | 0 <= i < |said| ::
         if said[i].User? then sent[i] == said[i]
         else
           && sent[i].Assistant? && sent[i].content == said[i].content
           && sent[i].toolUses.GetOr([]) == KeepUses(said[i].toolUses.GetOr([]), orphans)
  }

  lemma RemovedIsSame(h: seq<HistoryMessage>, orphans: set<string>)
    ensures SameButCalls(h, Removed(h, orphans), orphans)
  {
    hide KeepUses;
    NothingRemoved(h);
    forall i | 0 <= i < |h| && h[i].Assistant?
      ensures var m := Removed(h, orphans)[i];
              && m.Assistant? && m.content == h[i].content
              && m.toolUses.GetOr([]) == KeepUses(h[i].toolUses.GetOr([]), orphans)
    {
      KeepNothingOut(h[i].toolUses.GetOr([]));
      KeepNone(orphans);
    }
  }

  lemma KeepNone(orphans: set<string>)
    ensures KeepUses([], orphans) == []
  {
  }

  /** The upstream gets the text, the images and the tool results of the client's current message, and everything
      said before it: of this only the calls that nothing answers are missing, and of the results those that answer
      no open call. */
  lemma ConversionReads(
    prologue: seq<HistoryMessage>, all: seq<Message>, tools: seq<string>, lower: string -> string, env: Env,
    c: Conversion)
    requires Convert(prologue, all, tools, lower, env) == Success(c)
    ensures DropPrefill(all) != []
    ensures var n := |DropPrefill(all)| - 1;
            var last, said := DropPrefill(all)[n].content, Said(prologue, DropPrefill(all)[..n], env);
            var results := MessageResults(last, None);
            && c.text == Strings.Join(PlainTexts(last), "\n")
            && c.images == Lifted(MessageImages(last), None, env)
            && c.toolResults == Filter(results, Called(said) - Answered(said)).0
            && (forall r <- c.toolResults :: r in results)
            && SameButCalls(said, c.history, Called(said) - Answered(said) - ResultIdSet(results))
            && c.toolNames == WithPlaceholders(tools, UsedNames(HistoryUses(c.history)), lower)
  {
    hide HistoryOf, UserContent, WithPlaceholders, UsedNames, HistoryUses;
    hide Runs, Entries, Answer, Lifted, PlainTexts, MessageTexts, MessageResults, MessageImages, Strings.Join;
    var n := |DropPrefill(all)| - 1;
    var last := DropPrefill(all)[n].content;
    HistoryReads(prologue, DropPrefill(all), env);
    ContentIsRead(last, None, env);
    CurrentTexts(last);
    hide Filter, Called, Answered, ResultIdSet;
    var said := HistoryOf(prologue, DropPrefill(all), env).value;
    RepairedIsPaired(said, MessageResults(last, None));
    RemovedIsSame(said, Validated(said, MessageResults(last, None)).1);
  }
}
