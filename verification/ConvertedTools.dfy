/** The tool calls and tool results that reach the upstream, all together and in order, as the client's JSON says. */
module ConvertedTools {
  import opened Wrappers
  import opened Types
  import opened History
  import opened Pairing
  import opened ClientContent
  import opened ConvertedContent
  import Strings

  // ----- What the client sends -----

  function UserImages(msgs: seq<Message>): seq<ImageSource> {
    if msgs == [] then []
    else
      var m := msgs[|msgs| - 1];
      UserImages(msgs[..|msgs| - 1]) + if m.role == "user" then MessageImages(m.content) else []
  }

  /** All tool results of user messages; an image is a repetition if any message before has it. */
  function ClientResults(msgs: seq<Message>): seq<ToolResult> {
    if msgs == [] then []
    else
      var init, m := msgs[..|msgs| - 1], msgs[|msgs| - 1];
      ClientResults(init) +
      if m.role == "user" then MessageResults(m.content, Some(Data(UserImages(init)))) else []
  }

  /** All tool calls of assistant messages. */
  function ClientCalls(msgs: seq<Message>, env: Env): seq<ToolUseEntry> {
    if msgs == [] then []
    else
      var m := msgs[|msgs| - 1];
      ClientCalls(msgs[..|msgs| - 1], env) + if m.role == "assistant" then Calls(m, env) else []
  }

  lemma ClientResultsSnoc(msgs: seq<Message>, m: Message)
    ensures ClientResults(msgs + [m]) == ClientResults(msgs) +
            if m.role == "user" then MessageResults(m.content, Some(Data(UserImages(msgs)))) else []
    ensures UserImages(msgs + [m]) == UserImages(msgs) + if m.role == "user" then MessageImages(m.content) else []
  {
    hide MessageResults, MessageImages, Data;
    assert (msgs + [m])[..|msgs|] == msgs;
  }

  lemma ClientCallsSnoc(msgs: seq<Message>, m: Message, env: Env)
    ensures ClientCalls(msgs + [m], env) == ClientCalls(msgs, env) + if m.role == "assistant" then Calls(m, env) else []
  {
    hide Calls;
    assert (msgs + [m])[..|msgs|] == msgs;
  }

  // ----- What a history holds -----

  function HistoryResults(h: seq<HistoryMessage>): seq<ToolResult> {
    if h == [] then []
    else
      var m := h[|h| - 1];
      HistoryResults(h[..|h| - 1]) + if m.User? then m.toolResults else []
  }

  lemma HistoryResultsSnoc(h: seq<HistoryMessage>, m: HistoryMessage)
    ensures HistoryResults(h + [m]) == HistoryResults(h) + if m.User? then m.toolResults else []
  {
    assert (h + [m])[..|h|] == h;
  }

  lemma {:induction false} HistoryResultsAppend(a: seq<HistoryMessage>, b: seq<HistoryMessage>)
    ensures HistoryResults(a + b) == HistoryResults(a) + HistoryResults(b)
    ensures HistoryUses(a + b) == HistoryUses(a) + HistoryUses(b)
    decreases |b|
  {
    if b == [] {
      assert a + b == a;
    } else {
      var init, m := b[..|b| - 1], b[|b| - 1];
      assert a + b == (a + init) + [m] && b == init + [m];
      HistoryResultsAppend(a, init);
      hide HistoryResults, HistoryUses;
      HistoryResultsSnoc(a + init, m);
      HistoryResultsSnoc(init, m);
      HistorySnoc(a + init, m);
      HistorySnoc(init, m);
    }
  }

  lemma {:induction false} ResultIdsAre(h: seq<HistoryMessage>)
    ensures HistoryResultIds(h) == Ids(HistoryResults(h))
    decreases |h|
  {
    if h != [] {
      ResultIdsAre(h[..|h| - 1]);
      var m := h[|h| - 1];
      IdsAppend(HistoryResults(h[..|h| - 1]), if m.User? then m.toolResults else []);
    }
  }

  lemma IdsAppend(a: seq<ToolResult>, b: seq<ToolResult>)
    ensures Ids(a + b) == Ids(a) + Ids(b)
  {
  }

  lemma AnsweredAre(h: seq<HistoryMessage>)
    ensures Answered(h) == ResultIdSet(HistoryResults(h))
  {
    ResultIdsAre(h);
    IdsSet(HistoryResults(h));
  }

  // ----- Runs -----

  function ResultsOfRuns(runs: seq<Run>): seq<ToolResult> {
    if runs == [] then []
    else
      var init, last := runs[..|runs| - 1], runs[|runs| - 1];
      ResultsOfRuns(init) + if last.user then ResultsOfMessages(last.msgs, Some(Data(ImagesOfRuns(init)))) else []
  }

  function CallsOfRuns(runs: seq<Run>, env: Env): seq<ToolUseEntry> {
    if runs == [] then []
    else
      var last := runs[|runs| - 1];
      CallsOfRuns(runs[..|runs| - 1], env) + if last.user then [] else CallsOfMessages(last.msgs, env)
  }

  lemma RunsOfSnoc(runs: seq<Run>, run: Run, env: Env)
    ensures ResultsOfRuns(runs + [run]) == ResultsOfRuns(runs) +
            if run.user then ResultsOfMessages(run.msgs, Some(Data(ImagesOfRuns(runs)))) else []
    ensures CallsOfRuns(runs + [run], env) == CallsOfRuns(runs, env) +
            if run.user then [] else CallsOfMessages(run.msgs, env)
    ensures ImagesOfRuns(runs + [run]) == ImagesOfRuns(runs) + if run.user then ImagesOfMessages(run.msgs) else []
  {
    hide ResultsOfMessages, CallsOfMessages, ImagesOfMessages, Data;
    assert (runs + [run])[..|runs|] == runs;
  }

  lemma MessagesSnoc(msgs: seq<Message>, m: Message, before: Option<set<string>>, env: Env)
    ensures ResultsOfMessages(msgs + [m], before) ==
            ResultsOfMessages(msgs, before) + MessageResults(m.content, Met(before, ImagesOfMessages(msgs)))
    ensures CallsOfMessages(msgs + [m], env) == CallsOfMessages(msgs, env) + Calls(m, env)
    ensures ImagesOfMessages(msgs + [m]) == ImagesOfMessages(msgs) + MessageImages(m.content)
  {
    hide MessageResults, Calls, MessageImages, Met;
    assert (msgs + [m])[..|msgs|] == msgs;
  }

  lemma OneMessage(m: Message, before: set<string>, env: Env)
    ensures ResultsOfMessages([m], Some(before)) == MessageResults(m.content, Some(before))
    ensures CallsOfMessages([m], env) == Calls(m, env)
    ensures ImagesOfMessages([m]) == MessageImages(m.content)
  {
    MessagesSnoc([], m, Some(before), env);
    assert ResultsOfMessages([], Some(before)) == [] && CallsOfMessages([], env) == [] && ImagesOfMessages([]) == [];
    assert [] + [m] == [m];
    NothingLifted(Some(before), env);
    hide MessageResults, Calls, MessageImages, Met, ResultsOfMessages, CallsOfMessages, ImagesOfMessages;
  }

  /** The first message of a run. */
  lemma JoinedNew(runs: seq<Run>, m: Message, env: Env)
    ensures var user, all := m.role == "user", runs + [Run(m.role == "user", [m])];
            && ResultsOfRuns(all) == ResultsOfRuns(runs) +
               (if user then MessageResults(m.content, Some(Data(ImagesOfRuns(runs)))) else [])
            && CallsOfRuns(all, env) == CallsOfRuns(runs, env) + (if user then [] else Calls(m, env))
            && ImagesOfRuns(all) == ImagesOfRuns(runs) + if user then MessageImages(m.content) else []
  {
    RunsOfSnoc(runs, Run(m.role == "user", [m]), env);
    OneMessage(m, Data(ImagesOfRuns(runs)), env);
    hide ResultsOfRuns, CallsOfRuns, ImagesOfRuns, MessageResults, Calls, MessageImages, Data;
    hide ResultsOfMessages, CallsOfMessages, ImagesOfMessages;
  }

  /** A further message of the last run. */
  lemma JoinedLast(init: seq<Run>, last: Run, m: Message, env: Env)
    ensures var runs, all := init + [last], init + [Run(last.user, last.msgs + [m])];
            && ResultsOfRuns(all) == ResultsOfRuns(runs) +
               (if last.user then MessageResults(m.content, Some(Data(ImagesOfRuns(runs)))) else [])
            && CallsOfRuns(all, env) == CallsOfRuns(runs, env) + (if last.user then [] else Calls(m, env))
            && ImagesOfRuns(all) == ImagesOfRuns(runs) + if last.user then MessageImages(m.content) else []
  {
    RunsOfSnoc(init, last, env);
    RunsOfSnoc(init, Run(last.user, last.msgs + [m]), env);
    MessagesSnoc(last.msgs, m, Some(Data(ImagesOfRuns(init))), env);
    MetData(Data(ImagesOfRuns(init)), ImagesOfMessages(last.msgs));
    DataAppend(ImagesOfRuns(init), ImagesOfMessages(last.msgs));
    hide ResultsOfRuns, CallsOfRuns, ImagesOfRuns, MessageResults, Calls, MessageImages, Data, Met;
    hide ResultsOfMessages, CallsOfMessages, ImagesOfMessages;
  }

  lemma JoinedGives(runs: seq<Run>, m: Message, env: Env)
    ensures var all := Joined(runs, m);
            && ResultsOfRuns(all) == ResultsOfRuns(runs) +
               (if m.role == "user" then MessageResults(m.content, Some(Data(ImagesOfRuns(runs)))) else [])
            && CallsOfRuns(all, env) ==
               CallsOfRuns(runs, env) + (if m.role == "assistant" then Calls(m, env) else [])
            && ImagesOfRuns(all) == ImagesOfRuns(runs) + if m.role == "user" then MessageImages(m.content) else []
  {
    hide ResultsOfRuns, CallsOfRuns, ImagesOfRuns, MessageResults, Calls, MessageImages, Data;
    var n, user := |runs|, m.role == "user";
    if user || m.role == "assistant" {
      if n > 0 && runs[n - 1].user == user {
        assert runs == runs[..n - 1] + [runs[n - 1]];
        JoinedLast(runs[..n - 1], runs[n - 1], m, env);
      } else {
        JoinedNew(runs, m, env);
      }
    }
  }

  lemma {:induction false} RunsGive(msgs: seq<Message>, env: Env)
    ensures ResultsOfRuns(Runs(msgs)) == ClientResults(msgs)
    ensures CallsOfRuns(Runs(msgs), env) == ClientCalls(msgs, env)
    ensures ImagesOfRuns(Runs(msgs)) == UserImages(msgs)
    decreases |msgs|
  {
    hide ResultsOfRuns, CallsOfRuns, ImagesOfRuns, ClientResults, ClientCalls, UserImages, Joined;
    hide MessageResults, Calls, MessageImages, Data;
    if msgs == [] {
      NoMessages(env);
    } else {
      var init, m := msgs[..|msgs| - 1], msgs[|msgs| - 1];
      assert msgs == init + [m];
      RunsGive(init, env);
      ClientResultsSnoc(init, m);
      ClientCallsSnoc(init, m, env);
      JoinedGives(Runs(init), m, env);
    }
  }

  lemma NoMessages(env: Env)
    ensures ClientResults([]) == [] && ClientCalls([], env) == [] && UserImages([]) == []
    ensures ResultsOfRuns([]) == [] && CallsOfRuns([], env) == [] && ImagesOfRuns([]) == []
  {
  }

  lemma {:induction false} EntriesHold(runs: seq<Run>, env: Env)
    ensures HistoryResults(Entries(runs, env)) == ResultsOfRuns(runs)
    ensures HistoryUses(Entries(runs, env)) == CallsOfRuns(runs, env)
    decreases |runs|
  {
    if runs != [] {
      var init, last := runs[..|runs| - 1], runs[|runs| - 1];
      assert runs == init + [last];
      EntriesHold(init, env);
      var before := Data(ImagesOfRuns(init));
      EntryHolds(last, before, env);
      EntriesSnoc(init, last, env);
      RunsOfSnoc(init, last, env);
      HistoryResultsSnoc(Entries(init, env), EntryOf(last, before, env));
      HistorySnoc(Entries(init, env), EntryOf(last, before, env));
      hide HistoryResults, HistoryUses, Entries, EntryOf, ResultsOfRuns, CallsOfRuns, ImagesOfRuns, Data;
      hide ResultsOfMessages, CallsOfMessages;
    } else {
      assert Entries(runs, env) == [];
    }
  }

  lemma EntryHolds(run: Run, before: set<string>, env: Env)
    ensures var m := EntryOf(run, before, env);
            && (m.User? <==> run.user)
            && (m.User? ==> m.toolResults == ResultsOfMessages(run.msgs, Some(before)))
            && (m.Assistant? ==> m.toolUses.GetOr([]) == CallsOfMessages(run.msgs, env))
  {
    hide ResultsOfMessages, CallsOfMessages, UserLines, Lifted, AssistantText, Strings.Join;
  }

  lemma AnswerHolds(runs: seq<Run>)
    ensures HistoryResults(Answer(runs)) == [] && HistoryUses(Answer(runs)) == []
  {
    HistoryResultsSnoc([], Assistant("OK", None));
    HistorySnoc([], Assistant("OK", None));
    assert [] + [Assistant("OK", None)] == [Assistant("OK", None)];
  }

  lemma SaidHolds(prologue: seq<HistoryMessage>, msgs: seq<Message>, env: Env)
    requires HistoryUses(prologue) == [] && HistoryResultIds(prologue) == []
    ensures HistoryResults(Said(prologue, msgs, env)) == ClientResults(msgs)
    ensures HistoryUses(Said(prologue, msgs, env)) == ClientCalls(msgs, env)
  {
    var entries := Entries(Runs(msgs), env);
    HistoryResultsAppend(prologue, entries);
    HistoryResultsAppend(prologue + entries, Answer(Runs(msgs)));
    EntriesHold(Runs(msgs), env);
    AnswerHolds(Runs(msgs));
    RunsGive(msgs, env);
    ResultIdsAre(prologue);
    assert |HistoryResultIds(prologue)| == |HistoryResults(prologue)|;
    hide Entries, Runs, Answer, HistoryResults, HistoryUses, ClientResults, ClientCalls, ResultsOfRuns, CallsOfRuns;
    assert [] + ClientResults(msgs) + [] == ClientResults(msgs);
    assert [] + ClientCalls(msgs, env) + [] == ClientCalls(msgs, env);
  }

  // ----- The converted request -----

  /** Calls nobody answers, neither before the current message nor in it. */
  function Orphans(prefix: seq<Message>, results: seq<ToolResult>, env: Env): set<string> {
    UseIds(ClientCalls(prefix, env)) - ResultIdSet(ClientResults(prefix)) - ResultIdSet(results)
  }

  /** The upstream gets all tool results said before the current message; of the results of the current message the
      first one for each call that is still open; and all calls that any message answers. */
  lemma ToolsArrive(
    prologue: seq<HistoryMessage>, all: seq<Message>, tools: seq<string>, lower: string -> string, env: Env,
    c: Conversion)
    requires HistoryUses(prologue) == [] && HistoryResultIds(prologue) == []
    requires Convert(prologue, all, tools, lower, env) == Success(c)
    ensures DropPrefill(all) != []
    ensures var n := |DropPrefill(all)| - 1;
            var prefix, results := DropPrefill(all)[..n], MessageResults(DropPrefill(all)[n].content, None);
            && HistoryResults(c.history) == ClientResults(prefix)
            && HistoryUses(c.history) == KeepUses(ClientCalls(prefix, env), Orphans(prefix, results, env))
            && c.toolResults ==
               Filter(results, UseIds(ClientCalls(prefix, env)) - ResultIdSet(ClientResults(prefix))).0
  {
    hide Convert, Said, HistoryUses, HistoryResults, HistoryResultIds, ClientResults, ClientCalls, MessageResults;
    hide ResultIdSet, KeepUses, Filter;
    ConversionReads(prologue, all, tools, lower, env, c);
    var n := |DropPrefill(all)| - 1;
    var prefix, results := DropPrefill(all)[..n], MessageResults(DropPrefill(all)[n].content, None);
    var said := Said(prologue, prefix, env);
    SaidHolds(prologue, prefix, env);
    AnsweredAre(said);
    SameHolds(said, c.history, Orphans(prefix, results, env));
  }

  lemma {:induction false} SameHolds(said: seq<HistoryMessage>, sent: seq<HistoryMessage>, orphans: set<string>)
    requires SameButCalls(said, sent, orphans)
    ensures HistoryResults(sent) == HistoryResults(said)
    ensures HistoryUses(sent) == KeepUses(HistoryUses(said), orphans)
    decreases |said|
  {
    hide KeepUses;
    KeepNone(orphans);
    if said != [] {
      var n := |said| - 1;
      SameBefore(said, sent, orphans);
      SameHolds(said[..n], sent[..n], orphans);
      KeepUsesAppend(HistoryUses(said[..n]), if said[n].Assistant? then said[n].toolUses.GetOr([]) else [], orphans);
    }
  }

  lemma SameBefore(said: seq<HistoryMessage>, sent: seq<HistoryMessage>, orphans: set<string>)
    requires SameButCalls(said, sent, orphans) && said != []
    ensures SameButCalls(said[..|said| - 1], sent[..|said| - 1], orphans)
  {
    hide KeepUses;
  }
}
