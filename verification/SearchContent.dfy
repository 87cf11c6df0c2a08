/** What the upstream and the client get to see of the rounds of the web-search loop. */
module SearchContent {
  import opened Basics
  import opened Wrappers
  import opened Types
  import opened History
  import opened Pairing
  import opened ClientContent
  import opened ConvertedContent
  import opened ConvertedTools
  import Json
  import N = ToolNames
  import T = ToolMap
  import W = WebSearch

  /** A round and its replies. */
  datatype Round = Round(outcome: W.RoundOutcome, found: seq<W.SearchReply>)

  predicate AllFound(r: Round) {
    && |r.found| == |r.outcome.toolUses| && (forall f <- r.found :: f.Found?)
    && forall u <- r.outcome.toolUses :: u.name == "web_search"
  }

  const SILENT := W.RoundOutcome("", "", "", [], None, 0.0, None, false, false)

  /** A round that searched: a reply was found for each of its calls. */
  type Searched = r: Round | AllFound(r) witness Round(SILENT, [])

  /** Each result has the id of its call and the summary of what was found, and is no error. */
  function RoundResults(uses: seq<W.DecodedToolUse>, found: seq<W.SearchReply>): seq<ToolResult>
    requires |found| == |uses| && forall f <- found :: f.Found?
  {
    seq(|uses|, i requires 0 <= i < |uses| =>
      assert found[i] in found;
      ToolResult(uses[i].id, found[i].summary, false))
  }

  function RoundCalls(uses: seq<W.DecodedToolUse>): seq<ToolUseEntry> {
    seq(|uses|, i requires 0 <= i < |uses| =>
      ToolUseEntry(uses[i].id, "web_search", if uses[i].input.Null? then Json.Obj(map[]) else uses[i].input))
  }

  function SearchResults(s: Searched): seq<ToolResult> {
    RoundResults(s.outcome.toolUses, s.found)
  }

  function SearchCalls(s: Searched): seq<ToolUseEntry> {
    RoundCalls(s.outcome.toolUses)
  }

  // ----- One round -----

  lemma ResultBlockIsRead(u: W.DecodedToolUse, summary: string, before: Option<set<string>>)
    ensures ResultOf(W.ToolResultBlock(u, summary), before) == [ToolResult(u.id, summary, false)]
  {
    var v := W.ToolResultBlock(u, summary);
    assert v.fields.Keys == {"type", "tool_use_id", "content"};
  }

  lemma ResultBlocksSnoc(items: seq<Json.Value>, u: W.DecodedToolUse, summary: string, before: Option<set<string>>)
    ensures ResultsOfBlocks(items + [W.ToolResultBlock(u, summary)], before) ==
            ResultsOfBlocks(items, before) + [ToolResult(u.id, summary, false)]
  {
    hide ResultOf, Met, ImagesOfBlocks, W.ToolResultBlock;
    ResultBlockIsRead(u, summary, Met(before, ImagesOfBlocks(items)));
    assert (items + [W.ToolResultBlock(u, summary)])[..|items|] == items;
  }

  lemma NoResultBlocks(before: Option<set<string>>)
    ensures ResultsOfBlocks([], before) == []
  {
  }

  lemma {:induction false} ResultBlocksAreRead(
    uses: seq<W.DecodedToolUse>, found: seq<W.SearchReply>, before: Option<set<string>>)
    requires |found| == |uses| && forall f <- found :: f.Found?
    ensures ResultsOfBlocks(W.ResultBlocks(uses, found), before) == RoundResults(uses, found)
    decreases |uses|
  {
    hide ResultsOfBlocks, W.ToolResultBlock;
    NoResultBlocks(before);
    if uses != [] {
      var n := |uses| - 1;
      assert found[n] in found;
      ResultBlocksAreRead(uses[..n], found[..n], before);
      ResultBlocksSnoc(W.ResultBlocks(uses[..n], found[..n]), uses[n], found[n].summary, before);
      RoundResultsSnoc(uses, found);
    }
  }

  lemma RoundResultsSnoc(uses: seq<W.DecodedToolUse>, found: seq<W.SearchReply>)
    requires |found| == |uses| > 0 && forall f <- found :: f.Found?
    ensures var n := |uses| - 1;
            && found[n].Found? && (forall f <- found[..n] :: f.Found?)
            && RoundResults(uses, found) ==
               RoundResults(uses[..n], found[..n]) + [ToolResult(uses[n].id, found[n].summary, false)]
  {
    var n := |uses| - 1;
    assert found[n] in found;
  }

  lemma SearchKeepsItsName(mode: T.Mode, digest: string -> string)
    ensures N.KiroName("web_search", mode, digest) == "web_search"
  {
  }

  lemma CallBlockFields(u: W.DecodedToolUse)
    ensures var v := W.ToolUseBlock(u);
            IsCall(v) && StringAt(v, "id") == Some(u.id) && StringAt(v, "name") == Some(u.name)
            && GivenAt(v, "input").GetOr(Json.Obj(map[])) == if u.input.Null? then Json.Obj(map[]) else u.input
  {
    assert W.ToolUseBlock(u).fields.Keys == {"type", "id", "name", "input"};
  }

  lemma CallBlockIsRead(u: W.DecodedToolUse, env: Env)
    requires u.name == "web_search"
    ensures CallOf(W.ToolUseBlock(u), env) == RoundCalls([u])
  {
    CallBlockFields(u);
    SearchKeepsItsName(env.mode, env.digest);
    W.SearchInputPasses(if u.input.Null? then Json.Obj(map[]) else u.input, env.mode);
    hide IsCall, StringAt, GivenAt, W.ToolUseBlock, T.InputToKiro, N.KiroName;
  }

  lemma SpokenBlockIsNoCall(v: Json.Value, env: Env)
    requires Json.StrField(v, "type") != "tool_use"
    ensures CallOf(v, env) == []
  {
    hide ValidBlock, T.InputToKiro, N.KiroName;
  }

  lemma {:induction false} SpokenBlocksAreNoCalls(spoken: seq<Json.Value>, env: Env)
    requires forall v <- spoken :: Json.StrField(v, "type") != "tool_use"
    ensures CallsIn(spoken, env) == []
    decreases |spoken|
  {
    hide CallOf, Json.StrField;
    if spoken != [] {
      SpokenBlocksAreNoCalls(spoken[..|spoken| - 1], env);
      SpokenBlockIsNoCall(spoken[|spoken| - 1], env);
    }
  }

  lemma {:induction false} CallBlocksAreRead(spoken: seq<Json.Value>, uses: seq<W.DecodedToolUse>, env: Env)
    requires forall v <- spoken :: Json.StrField(v, "type") != "tool_use"
    requires forall u <- uses :: u.name == "web_search"
    ensures CallsIn(spoken + W.ToolUseBlocks(uses), env) == RoundCalls(uses)
    decreases |uses|
  {
    hide CallOf, CallsIn, RoundCalls, Json.StrField, W.ToolUseBlock;
    if uses == [] {
      assert spoken + [] == spoken;
      SpokenBlocksAreNoCalls(spoken, env);
      NoCalls();
    } else {
      var n := |uses| - 1;
      CallBlocksAreRead(spoken, uses[..n], env);
      CallBlockIsRead(uses[n], env);
      W.BlocksSnoc(spoken, uses);
      CallsSnoc(spoken + W.ToolUseBlocks(uses[..n]), W.ToolUseBlock(uses[n]), env);
      RoundCallsSnoc(uses);
    }
  }

  lemma NoCalls()
    ensures RoundCalls([]) == []
  {
  }

  lemma CallsSnoc(items: seq<Json.Value>, v: Json.Value, env: Env)
    ensures CallsIn(items + [v], env) == CallsIn(items, env) + CallOf(v, env)
  {
    hide CallOf;
    assert (items + [v])[..|items|] == items;
  }

  lemma RoundCallsSnoc(uses: seq<W.DecodedToolUse>)
    requires uses != []
    ensures RoundCalls(uses) == RoundCalls(uses[..|uses| - 1]) + RoundCalls([uses[|uses| - 1]])
  {
  }

  /** The two messages a search round adds. */
  function Turns(s: Searched, thinking: bool): (Message, Message)
  {
    (Message("assistant", Json.Arr(W.AssistantBlocks(s.outcome, thinking))),
     Message("user", Json.Arr(W.ResultBlocks(s.outcome.toolUses, s.found))))
  }

  lemma TurnsAreRead(s: Searched, thinking: bool, before: Option<set<string>>, env: Env)
    ensures Calls(Turns(s, thinking).0, env) == SearchCalls(s)
    ensures MessageResults(Turns(s, thinking).1.content, before) == SearchResults(s)
  {
    hide CallsIn, ResultsOfBlocks, RoundCalls, RoundResults, W.ToolUseBlocks, W.ResultBlocks;
    var spoken := W.SpokenBlocks(s.outcome, thinking);
    forall v | v in spoken
      ensures Json.StrField(v, "type") != "tool_use"
    {
    }
    CallBlocksAreRead(spoken, s.outcome.toolUses, env);
    ResultBlocksAreRead(s.outcome.toolUses, s.found, before);
  }

  // ----- All rounds -----

  /** The list after the rounds. */
  function AfterRounds(msgs: seq<Message>, rounds: seq<Searched>, thinking: bool): seq<Message>
  {
    if rounds == [] then msgs
    else
      var n := |rounds| - 1;
      W.Appended(AfterRounds(msgs, rounds[..n], thinking), rounds[n].outcome, rounds[n].found, thinking)
  }

  function AllResults(rounds: seq<Searched>): seq<ToolResult>
  {
    if rounds == [] then []
    else
      var n := |rounds| - 1;
      AllResults(rounds[..n]) + SearchResults(rounds[n])
  }

  function AllCalls(rounds: seq<Searched>): seq<ToolUseEntry> {
    if rounds == [] then [] else AllCalls(rounds[..|rounds| - 1]) + SearchCalls(rounds[|rounds| - 1])
  }

  /** The blocks shown to the client for the rounds. */
  function Shown(rounds: seq<Searched>): seq<Json.Value>
  {
    if rounds == [] then []
    else
      var n := |rounds| - 1;
      Shown(rounds[..n]) + W.PresentationBlocks(rounds[n].outcome.toolUses, rounds[n].found)
  }

  lemma AppendedTurns(msgs: seq<Message>, s: Searched, thinking: bool)
    ensures W.Appended(msgs, s.outcome, s.found, thinking) == msgs + [Turns(s, thinking).0] + [Turns(s, thinking).1]
  {
    hide W.AssistantBlocks, W.ResultBlocks;
  }

  lemma RoundAdds(msgs: seq<Message>, s: Searched, thinking: bool, env: Env)
    ensures var r := W.Appended(msgs, s.outcome, s.found, thinking);
            && ClientResults(r) == ClientResults(msgs) + SearchResults(s)
            && ClientResults(r[..|r| - 1]) == ClientResults(msgs)
            && ClientCalls(r, env) == ClientCalls(r[..|r| - 1], env)
            && ClientCalls(r, env) == ClientCalls(msgs, env) + SearchCalls(s)
  {
    var (a, u) := Turns(s, thinking);
    AppendedTurns(msgs, s, thinking);
    TurnsAreRead(s, thinking, Some(Data(UserImages(msgs + [a]))), env);
    ClientResultsSnoc(msgs, a);
    ClientResultsSnoc(msgs + [a], u);
    ClientCallsSnoc(msgs, a, env);
    ClientCallsSnoc(msgs + [a], u, env);
    hide ClientResults, ClientCalls, SearchResults, SearchCalls, MessageResults, Calls, UserImages, Data, W.Appended;
    var r := msgs + [a] + [u];
    assert r[..|r| - 1] == msgs + [a];
    assert ClientResults(msgs) + [] == ClientResults(msgs);
    assert ClientCalls(msgs + [a], env) + [] == ClientCalls(msgs + [a], env);
  }

  lemma {:induction false} RoundsAdd(msgs: seq<Message>, rounds: seq<Searched>, thinking: bool, env: Env)
    ensures ClientResults(AfterRounds(msgs, rounds, thinking)) == ClientResults(msgs) + AllResults(rounds)
    ensures ClientCalls(AfterRounds(msgs, rounds, thinking), env) == ClientCalls(msgs, env) + AllCalls(rounds)
    decreases |rounds|
  {
    hide ClientResults, ClientCalls, AllFound, SearchResults, SearchCalls, W.Appended;
    if rounds == [] {
      Assoc(ClientResults(msgs), [], []);
      Assoc(ClientCalls(msgs, env), [], []);
    } else {
      var n := |rounds| - 1;
      RoundsAdd(msgs, rounds[..n], thinking, env);
      RoundAdds(AfterRounds(msgs, rounds[..n], thinking), rounds[n], thinking, env);
      Assoc(ClientResults(msgs), AllResults(rounds[..n]), SearchResults(rounds[n]));
      Assoc(ClientCalls(msgs, env), AllCalls(rounds[..n]), SearchCalls(rounds[n]));
    }
  }

  // ----- What the upstream sees -----

  lemma CallIdsAre(s: Searched)
    ensures UseIds(SearchCalls(s)) == ResultIdSet(SearchResults(s))
  {
    var calls, results := SearchCalls(s), SearchResults(s);
    forall id
      ensures id in UseIds(calls) <==> id in ResultIdSet(results)
    {
      if id in UseIds(calls) {
        var i :| 0 <= i < |calls| && calls[i].toolUseId == id;
        assert results[i] in results;
      }
      if id in ResultIdSet(results) {
        var i :| 0 <= i < |results| && results[i].toolUseId == id;
        assert calls[i] in calls;
      }
    }
  }

  lemma IdsOfSums(a: seq<ToolUseEntry>, b: seq<ToolUseEntry>, x: seq<ToolResult>, y: seq<ToolResult>)
    ensures UseIds(a + b) == UseIds(a) + UseIds(b) && ResultIdSet(x + y) == ResultIdSet(x) + ResultIdSet(y)
  {
    forall id
      ensures id in UseIds(a + b) <==> id in UseIds(a) || id in UseIds(b)
    {
      assert forall u :: u in a + b <==> u in a || u in b;
    }
    forall id
      ensures id in ResultIdSet(x + y) <==> id in ResultIdSet(x) || id in ResultIdSet(y)
    {
      assert forall r :: r in x + y <==> r in x || r in y;
    }
  }

  lemma {:induction false} AllCallIdsAre(rounds: seq<Searched>)
    ensures UseIds(AllCalls(rounds)) == ResultIdSet(AllResults(rounds))
    decreases |rounds|
  {
    if rounds != [] {
      hide SearchCalls, SearchResults, UseIds, ResultIdSet;
      var init, last := rounds[..|rounds| - 1], rounds[|rounds| - 1];
      AllCallIdsAre(init);
      CallIdsAre(last);
      IdsOfSums(AllCalls(init), SearchCalls(last), AllResults(init), SearchResults(last));
    }
  }

  /** Every id of the round is used once in it and answered nowhere before. */
  predicate FreshIds(s: Searched, before: seq<ToolResult>) {
    W.Distinct(W.UseIds(s.outcome.toolUses)) && forall u <- s.outcome.toolUses :: u.id !in ResultIdSet(before)
  }

  lemma FreshAreKept(s: Searched, before: seq<ToolResult>, called: set<string>)
    requires FreshIds(s, before) && UseIds(SearchCalls(s)) <= called
    ensures Filter(SearchResults(s), called - ResultIdSet(before)).0 == SearchResults(s)
  {
    var results, ids := SearchResults(s), W.UseIds(s.outcome.toolUses);
    assert forall i | 0 <= i < |results| :: results[i].toolUseId == ids[i] == s.outcome.toolUses[i].id;
    CallIdsAre(s);
    forall id | id in ResultIdSet(results)
      ensures id !in ResultIdSet(before)
    {
      var i :| 0 <= i < |results| && results[i].toolUseId == id;
      assert s.outcome.toolUses[i] in s.outcome.toolUses;
    }
    FilterAll(results, called - ResultIdSet(before));
  }

  lemma KeepAnswered(a: seq<ToolUseEntry>, b: seq<ToolUseEntry>, orphans: set<string>)
    requires orphans !! UseIds(b)
    ensures KeepUses(a + b, orphans) == KeepUses(a, orphans) + b
  {
    KeepUsesAppend(a, b, orphans);
    KeepUsesSpec(b, orphans);
  }

  lemma LastTurn(msgs: seq<Message>, s: Searched, thinking: bool, env: Env)
    ensures var r := W.Appended(msgs, s.outcome, s.found, thinking);
            && r != [] && DropPrefill(r) == r
            && MessageResults(r[|r| - 1].content, None) == SearchResults(s)
  {
    AppendedTurns(msgs, s, thinking);
    TurnsAreRead(s, thinking, None, env);
    hide W.Appended, MessageResults, SearchResults;
  }

  /** After any number of search rounds the upstream sees all of them: in its history the results of the rounds before
      the last one and the calls of all rounds, and as the results of the current message those of the last round:
      each with the summary of what its search found, in order. */
  lemma EveryRoundIsSeen(
    prologue: seq<HistoryMessage>, msgs: seq<Message>, rounds: seq<Searched>, thinking: bool, tools: seq<string>,
    lower: string -> string, env: Env, c: Conversion)
    returns (orphans: set<string>)
    requires HistoryUses(prologue) == [] && HistoryResultIds(prologue) == [] && rounds != []
    requires Convert(prologue, AfterRounds(msgs, rounds, thinking), tools, lower, env) == Success(c)
    ensures var n := |rounds| - 1;
            var before := ClientResults(msgs) + AllResults(rounds[..n]);
            && HistoryResults(c.history) == before
            && HistoryUses(c.history) == KeepUses(ClientCalls(msgs, env), orphans) + AllCalls(rounds)
            && (FreshIds(rounds[n], before) ==> c.toolResults == SearchResults(rounds[n]))
  {
    hide HistoryUses, HistoryResults, HistoryResultIds, Convert, ClientResults, ClientCalls, MessageResults;
    hide SearchResults, SearchCalls, AllCalls, AllResults, KeepUses, Filter, ResultIdSet, UseIds, FreshIds;
    hide W.Appended, DropPrefill;
    var all, n := AfterRounds(msgs, rounds, thinking), |rounds| - 1;
    var earlier := AfterRounds(msgs, rounds[..n], thinking);
    LastTurn(earlier, rounds[n], thinking, env);
    RoundAdds(earlier, rounds[n], thinking, env);
    RoundsAdd(msgs, rounds[..n], thinking, env);
    RoundsAdd(msgs, rounds, thinking, env);
    ToolsArrive(prologue, all, tools, lower, env, c);
    orphans := Orphans(all[..|all| - 1], SearchResults(rounds[n]), env);
    AnsweredInRounds(ClientCalls(msgs, env), ClientResults(msgs), rounds);
    KeepAnswered(ClientCalls(msgs, env), AllCalls(rounds), orphans);
    if FreshIds(rounds[n], ClientResults(msgs) + AllResults(rounds[..n])) {
      FreshAreKept(rounds[n], ClientResults(msgs) + AllResults(rounds[..n]), UseIds(ClientCalls(all, env)));
    }
  }

  lemma AnsweredInRounds(calls: seq<ToolUseEntry>, results: seq<ToolResult>, rounds: seq<Searched>)
    requires rounds != []
    ensures var n := |rounds| - 1;
            var all := UseIds(calls + AllCalls(rounds));
            && all - ResultIdSet(results + AllResults(rounds[..n])) - ResultIdSet(SearchResults(rounds[n])) !!
               UseIds(AllCalls(rounds))
            && UseIds(SearchCalls(rounds[n])) <= all
  {
    hide SearchResults, SearchCalls, ResultIdSet, UseIds;
    var n := |rounds| - 1;
    AllCallIdsAre(rounds);
    IdsOfSums(calls, AllCalls(rounds), results, AllResults(rounds[..n]));
    IdsOfSums(AllCalls(rounds[..n]), SearchCalls(rounds[n]), AllResults(rounds[..n]), SearchResults(rounds[n]));
  }

  // ----- The rounds of the loop -----

  /** The round asked the upstream with this list, and its replies are those of its own searches. */
  predicate RoundOfWorld(round: nat, msgs: seq<Message>, s: Searched, world: W.World) {
    var up := world.round(round, msgs);
    && up.Answered? && up.outcome == s.outcome
    && forall j | 0 <= j < |s.found| :: s.found[j] == world.search(round, j)
  }

  /** The rounds from number `first` on: each asks with the list the rounds before it left. */
  predicate RoundsOfWorld(
    first: nat, msgs: seq<Message>, rounds: seq<Searched>, world: W.World, thinking: bool)
  {
    rounds == [] ||
    var n := |rounds| - 1;
    RoundsOfWorld(first, msgs, rounds[..n], world, thinking) &&
    RoundOfWorld(first + n, AfterRounds(msgs, rounds[..n], thinking), rounds[n], world)
  }

  function After(msgs: seq<Message>, s: Searched, thinking: bool): seq<Message> {
    W.Appended(msgs, s.outcome, s.found, thinking)
  }

  function ShownFor(s: Searched): seq<Json.Value> {
    W.PresentationBlocks(s.outcome.toolUses, s.found)
  }

  lemma {:induction false} RoundsCons(
    first: nat, msgs: seq<Message>, s: Searched, rest: seq<Searched>, world: W.World, thinking: bool)
    requires RoundOfWorld(first, msgs, s, world)
    requires RoundsOfWorld(first + 1, After(msgs, s, thinking), rest, world, thinking)
    ensures RoundsOfWorld(first, msgs, [s] + rest, world, thinking)
    ensures AfterRounds(msgs, [s] + rest, thinking) == AfterRounds(After(msgs, s, thinking), rest, thinking)
    ensures Shown([s] + rest) == ShownFor(s) + Shown(rest)
    decreases |rest|
  {
    hide RoundOfWorld, W.Appended, W.PresentationBlocks;
    var all := [s] + rest;
    if rest == [] {
      assert all == [s] && [s][..0] == [];
      assert AfterRounds(msgs, [], thinking) == msgs && RoundsOfWorld(first, msgs, [], world, thinking);
      assert Shown([s]) == [] + ShownFor(s) && ShownFor(s) + [] == ShownFor(s);
    } else {
      var n := |rest| - 1;
      RoundsCons(first, msgs, s, rest[..n], world, thinking);
      assert all[..n + 1] == [s] + rest[..n];
      Assoc(ShownFor(s), Shown(rest[..n]), ShownFor(rest[n]));
    }
  }

  lemma {:induction false} SearchesAre(world: W.World, round: nat, n: nat)
    requires W.Searches(world, round, n).Some?
    ensures var found := W.Searches(world, round, n).value;
            |found| == n && forall j | 0 <= j < n :: found[j] == world.search(round, j)
  {
    W.SearchesFound(world, round, n);
    if n > 0 {
      SearchesAre(world, round, n - 1);
    }
  }

  // ----- Bookkeeping over the rounds -----

  function Credits(rounds: seq<Searched>): real {
    if rounds == [] then 0.0 else Credits(rounds[..|rounds| - 1]) + rounds[|rounds| - 1].outcome.credits
  }

  /** The size of the context last told by any round. */
  function Context(before: Option<int>, rounds: seq<Searched>): Option<int> {
    if rounds == [] then before
    else
      var here := rounds[|rounds| - 1].outcome.contextInputTokens;
      if here.Some? then here else Context(before, rounds[..|rounds| - 1])
  }

  /** What a loop that began in `st` and ended after `rounds` with `last` owes: the credits of all its rounds, on the
      account of the last one.  A reply tells the context last known; a failed round is not charged. */
  predicate Booked(st: W.LoopState, rounds: seq<Searched>, last: W.Upstream, end: W.End, fallback: int) {
    match end.reply
    case Some(reply) =>
      && last.Answered?
      && end.entry == W.UsageEntry(last.credentialId, st.credits + Credits(rounds) + last.outcome.credits, W.Ok)
      && reply.inputTokens ==
         last.outcome.contextInputTokens.GetOr(Context(st.contextInput, rounds).GetOr(fallback))
      && reply.stopReason ==
         last.outcome.stopReasonOverride.GetOr(if last.outcome.toolUses == [] then "end_turn" else "tool_use")
    case None =>
      || end.entry == W.UsageEntry(0, 0.0, W.Error)
      || (last.Answered? && end.entry ==
          W.UsageEntry(last.credentialId, st.credits + Credits(rounds) + last.outcome.credits, W.Error))
  }

  lemma {:induction false} SumsCons(s: Searched, rest: seq<Searched>, before: Option<int>)
    ensures Credits([s] + rest) == s.outcome.credits + Credits(rest)
    ensures var here := s.outcome.contextInputTokens;
            Context(before, [s] + rest) == Context(if here.Some? then here else before, rest)
    decreases |rest|
  {
    var all := [s] + rest;
    if rest == [] {
      assert all == [s] && [s][..0] == [];
      assert Credits([]) == 0.0 && Context(before, []) == before;
    } else {
      var n := |rest| - 1;
      SumsCons(s, rest[..n], before);
      assert all[..n + 1] == [s] + rest[..n] && all[n + 1] == rest[n];
    }
  }

  lemma BookedCons(
    st: W.LoopState, next: W.LoopState, s: Searched, rest: seq<Searched>, last: W.Upstream, end: W.End, later: W.End,
    fallback: int)
    requires Booked(next, rest, last, later, fallback)
    requires end.reply == later.reply && end.entry == later.entry
    requires next.credits == st.credits + s.outcome.credits
    requires var here := s.outcome.contextInputTokens; next.contextInput == if here.Some? then here else st.contextInput
    ensures Booked(st, [s] + rest, last, end, fallback)
  {
    SumsCons(s, rest, st.contextInput);
    hide Credits, Context;
  }

  /** A pass that goes on is a search round. */
  lemma PassSearches(
    round: nat, st: W.LoopState, world: W.World, fallback: int, thinking: bool, next: W.LoopState)
    returns (s: Searched)
    requires W.PassOf(round, st, world, fallback, thinking) == W.GoOn(next)
    ensures RoundOfWorld(round, st.msgs, s, world)
    ensures next.msgs == After(st.msgs, s, thinking)
    ensures next.presentation == st.presentation + ShownFor(s)
    ensures next.credits == st.credits + s.outcome.credits
    ensures var here := s.outcome.contextInputTokens; next.contextInput == if here.Some? then here else st.contextInput
  {
    hide W.Appended, W.PresentationBlocks, W.Searches;
    var outcome := world.round(round, st.msgs).outcome;
    var n := |outcome.toolUses|;
    W.SearchesFound(world, round, n);
    SearchesAre(world, round, n);
    s := Round(outcome, W.Searches(world, round, n).value);
  }

  /** A pass that stops with a reply shows what was found before, then the last answer. */
  lemma PassAnswers(round: nat, st: W.LoopState, world: W.World, fallback: int, thinking: bool, end: W.End)
    requires W.PassOf(round, st, world, fallback, thinking) == W.Stop(end)
    ensures end.msgs == st.msgs && end.searches == 0
    ensures Booked(st, [], world.round(round, st.msgs), end, fallback)
    ensures end.reply.Some? ==>
              && world.round(round, st.msgs).Answered?
              && end.reply.value.content ==
                 st.presentation + W.AssistantBlocks(world.round(round, st.msgs).outcome, thinking)
  {
    hide W.Searches, W.AssistantBlocks;
    assert Credits([]) == 0.0 && Context(st.contextInput, []) == st.contextInput;
  }

  lemma NoRounds(round: nat, msgs: seq<Message>, world: W.World, thinking: bool)
    ensures AfterRounds(msgs, [], thinking) == msgs && Shown([]) == []
    ensures RoundsOfWorld(round, msgs, [], world, thinking)
  {
  }

  /** The loop is its search rounds, in order, and the last answer after them. */
  lemma {:induction false} LoopIsRounds(
    round: nat, st: W.LoopState, world: W.World, fallback: int, thinking: bool, end: W.End)
    returns (rounds: seq<Searched>)
    requires round <= W.MAX_WEB_SEARCH_ROUNDS
    requires end == W.RunFrom(round, st, world, fallback, thinking)
    ensures |rounds| == end.searches && RoundsOfWorld(round, st.msgs, rounds, world, thinking)
    ensures end.msgs == AfterRounds(st.msgs, rounds, thinking)
    ensures Booked(st, rounds, world.round(round + |rounds|, end.msgs), end, fallback)
    ensures end.reply.Some? ==>
              && world.round(round + |rounds|, end.msgs).Answered?
              && end.reply.value.content == st.presentation + Shown(rounds) +
                 W.AssistantBlocks(world.round(round + |rounds|, end.msgs).outcome, thinking)
    decreases W.MAX_WEB_SEARCH_ROUNDS - round
  {
    hide W.RunFrom, W.PassOf, W.AssistantBlocks, RoundOfWorld, After, ShownFor, Booked;
    hide RoundsOfWorld, AfterRounds, Shown;
    NoRounds(round, st.msgs, world, thinking);
    var pass := W.PassOf(round, st, world, fallback, thinking);
    var later := W.RunFromStep(round, st, world, fallback, thinking, pass);
    match pass {
      case Stop(_) =>
        rounds := [];
        PassAnswers(round, st, world, fallback, thinking, end);
        assert st.presentation + [] == st.presentation;
      case GoOn(next) =>
        var s := PassSearches(round, st, world, fallback, thinking, next);
        var rest := LoopIsRounds(round + 1, next, world, fallback, thinking, later);
        rounds := [s] + rest;
        RoundsCons(round, st.msgs, s, rest, world, thinking);
        BookedCons(st, next, s, rest, world.round(round + |rounds|, end.msgs), end, later, fallback);
        Assoc(st.presentation, ShownFor(s), Shown(rest));
    }
  }

  /** After the whole loop the upstream has seen every round of it, and the client's reply shows them all before the
      last answer. */
  lemma LoopIsSeen(
    prologue: seq<HistoryMessage>, msgs: seq<Message>, world: W.World, fallback: int, thinking: bool,
    tools: seq<string>, lower: string -> string, env: Env, end: W.End, c: Conversion)
    returns (rounds: seq<Searched>, orphans: set<string>)
    requires HistoryUses(prologue) == [] && HistoryResultIds(prologue) == []
    requires end == W.Loop(msgs, world, fallback, thinking) && end.searches > 0
    requires Convert(prologue, end.msgs, tools, lower, env) == Success(c)
    ensures |rounds| == end.searches && RoundsOfWorld(W.FIRST_ROUND, msgs, rounds, world, thinking)
    ensures end.msgs == AfterRounds(msgs, rounds, thinking)
    ensures var n := |rounds| - 1;
            var before := ClientResults(msgs) + AllResults(rounds[..n]);
            && HistoryResults(c.history) == before
            && HistoryUses(c.history) == KeepUses(ClientCalls(msgs, env), orphans) + AllCalls(rounds)
            && (FreshIds(rounds[n], before) ==> c.toolResults == SearchResults(rounds[n]))
    ensures Booked(W.Start(msgs), rounds, world.round(|rounds|, end.msgs), end, fallback)
    ensures end.reply.Some? ==>
              var last := world.round(|rounds|, end.msgs);
              && last.Answered?
              && end.reply.value.content == Shown(rounds) + W.AssistantBlocks(last.outcome, thinking)
  {
    hide W.RunFrom, Convert, AfterRounds, Shown, RoundsOfWorld, HistoryUses, HistoryResults, HistoryResultIds;
    hide ClientResults, ClientCalls, KeepUses, AllCalls, AllResults, FreshIds, SearchResults, W.AssistantBlocks, Booked;
    rounds := LoopIsRounds(W.FIRST_ROUND, W.Start(msgs), world, fallback, thinking, end);
    orphans := EveryRoundIsSeen(prologue, msgs, rounds, thinking, tools, lower, env, c);
    assert [] + Shown(rounds) == Shown(rounds);
  }

  // ----- What the client sees -----

  /** The blocks shown for a round: for each call its query, and after it the results found for it. */
  lemma {:induction false} QueriesAndResultsAreShown(s: Searched, j: nat)
    requires j < |s.found|
    ensures var shown, u := ShownFor(s), s.outcome.toolUses[j];
            && |shown| == 2 * |s.found|
            && StringAt(shown[2 * j], "type") == Some("server_tool_use")
            && StringAt(shown[2 * j], "name") == Some("web_search")
            && StringAt(shown[2 * j], "id") == Some(s.found[j].serverId)
            && Json.Get(shown[2 * j], "input").Some?
            && StringAt(Json.Get(shown[2 * j], "input").value, "query") == Some(Json.StrField(u.input, "query"))
            && StringAt(shown[2 * j + 1], "type") == Some("web_search_tool_result")
            && Json.Get(shown[2 * j + 1], "content") == Some(Json.Arr(s.found[j].results))
  {
    BlocksOfCall(s.outcome.toolUses, s.found, j);
    QueryBlockIsRead(s.found[j].serverId, W.Query(s.outcome.toolUses[j]));
    ResultsBlockIsRead(s.found[j].results);
    hide W.PresentationBlocks, W.ServerToolUseBlock, W.SearchResultBlock;
  }

  lemma {:induction false} BlocksOfCall(uses: seq<W.DecodedToolUse>, found: seq<W.SearchReply>, j: nat)
    requires |found| == |uses| && (forall f <- found :: f.Found?) && j < |uses|
    ensures found[j].Found?
    ensures var shown := W.PresentationBlocks(uses, found);
            && |shown| == 2 * |uses|
            && shown[2 * j] == W.ServerToolUseBlock(found[j].serverId, W.Query(uses[j]))
            && shown[2 * j + 1] == W.SearchResultBlock(found[j].results)
    decreases |uses|
  {
    hide W.ServerToolUseBlock, W.SearchResultBlock, W.Query;
    var n := |uses| - 1;
    assert found[n] in found && found[j] in found;
    if n > 0 {
      BlocksOfCall(uses[..n], found[..n], if j < n then j else 0);
    }
  }

  lemma QueryBlockIsRead(id: string, query: string)
    ensures var v := W.ServerToolUseBlock(id, query);
            && StringAt(v, "type") == Some("server_tool_use") && StringAt(v, "name") == Some("web_search")
            && StringAt(v, "id") == Some(id) && Json.Get(v, "input").Some?
            && StringAt(Json.Get(v, "input").value, "query") == Some(query)
  {
  }

  lemma ResultsBlockIsRead(results: seq<Json.Value>)
    ensures var v := W.SearchResultBlock(results);
            StringAt(v, "type") == Some("web_search_tool_result") && Json.Get(v, "content") == Some(Json.Arr(results))
  {
  }

  /** The strings under `key` of the blocks of one type, in order. */
  function Fields(items: seq<Json.Value>, blockType: string, key: string): seq<string> {
    if items == [] then []
    else Fields(items[..|items| - 1], blockType, key) + FieldOf(items[|items| - 1], blockType, key)
  }

  function FieldOf(v: Json.Value, blockType: string, key: string): seq<string> {
    if StringAt(v, "type") == Some(blockType) && StringAt(v, key).Some? then [StringAt(v, key).value] else []
  }

  lemma FieldsSnoc(items: seq<Json.Value>, v: Json.Value, blockType: string, key: string)
    ensures Fields(items + [v], blockType, key) == Fields(items, blockType, key) + FieldOf(v, blockType, key)
  {
    hide FieldOf;
    assert (items + [v])[..|items|] == items;
  }

  lemma FieldsMaybe(items: seq<Json.Value>, there: bool, v: Json.Value, blockType: string, key: string)
    ensures Fields(items + (if there then [v] else []), blockType, key) ==
            Fields(items, blockType, key) + if there then FieldOf(v, blockType, key) else []
  {
    hide FieldOf;
    FieldsSnoc(items, v, blockType, key);
    assert items + [] == items;
  }

  /** The fields of the spoken blocks are those of the blocks that are there. */
  lemma SpokenFields(round: W.RoundOutcome, thinking: bool, blockType: string, key: string)
    ensures Fields(W.SpokenBlocks(round, thinking), blockType, key) ==
            (if thinking && round.reasoning != ""
             then FieldOf(W.ThinkingBlock(round.reasoning), blockType, key) else [])
            + (if thinking && round.redactedReasoning != ""
               then FieldOf(W.RedactedBlock(round.redactedReasoning), blockType, key) else [])
            + if round.text != "" then FieldOf(W.TextBlock(round.text), blockType, key) else []
  {
    hide FieldOf, Fields, W.ThinkingBlock, W.RedactedBlock, W.TextBlock;
    var thought, redacted := W.ThinkingBlock(round.reasoning), W.RedactedBlock(round.redactedReasoning);
    var first := if thinking && round.reasoning != "" then [thought] else [];
    FieldsMaybe([], thinking && round.reasoning != "", thought, blockType, key);
    NoFields(blockType, key);
    assert [] + first == first;
    FieldsMaybe(first, thinking && round.redactedReasoning != "", redacted, blockType, key);
    FieldsMaybe(first + if thinking && round.redactedReasoning != "" then [redacted] else [],
                round.text != "", W.TextBlock(round.text), blockType, key);
  }

  lemma NoFields(blockType: string, key: string)
    ensures Fields([], blockType, key) == []
  {
  }

  lemma CallBlockIsNoOther(u: W.DecodedToolUse, blockType: string, key: string)
    requires blockType != "tool_use"
    ensures FieldOf(W.ToolUseBlock(u), blockType, key) == []
  {
  }

  lemma {:induction false} CallFields(
    spoken: seq<Json.Value>, uses: seq<W.DecodedToolUse>, blockType: string, key: string)
    requires blockType != "tool_use"
    ensures Fields(spoken + W.ToolUseBlocks(uses), blockType, key) == Fields(spoken, blockType, key)
    decreases |uses|
  {
    hide Fields, FieldOf, W.ToolUseBlock;
    if uses == [] {
      assert spoken + [] == spoken;
    } else {
      var n := |uses| - 1;
      CallFields(spoken, uses[..n], blockType, key);
      CallBlockIsNoOther(uses[n], blockType, key);
      W.BlocksSnoc(spoken, uses);
      FieldsSnoc(spoken + W.ToolUseBlocks(uses[..n]), W.ToolUseBlock(uses[n]), blockType, key);
      Assoc(Fields(spoken, blockType, key), [], []);
    }
  }

  lemma {:induction false} CallBlockAt(uses: seq<W.DecodedToolUse>, k: nat)
    requires k < |uses|
    ensures |W.ToolUseBlocks(uses)| == |uses| && W.ToolUseBlocks(uses)[k] == W.ToolUseBlock(uses[k])
    decreases |uses|
  {
    hide W.ToolUseBlock;
    var n := |uses| - 1;
    if n > 0 {
      CallBlockAt(uses[..n], if k < n then k else 0);
    }
  }

  lemma BlocksTellTheirText(text: string)
    ensures FieldOf(W.ThinkingBlock(text), "thinking", "thinking") == [text]
    ensures FieldOf(W.RedactedBlock(text), "redacted_thinking", "data") == [text]
    ensures FieldOf(W.TextBlock(text), "text", "text") == [text]
  {
  }

  lemma BlocksAreOfOneType(text: string, key: string)
    ensures FieldOf(W.ThinkingBlock(text), "redacted_thinking", key) == []
    ensures FieldOf(W.ThinkingBlock(text), "text", key) == []
    ensures FieldOf(W.RedactedBlock(text), "thinking", key) == []
    ensures FieldOf(W.RedactedBlock(text), "text", key) == []
    ensures FieldOf(W.TextBlock(text), "thinking", key) == []
    ensures FieldOf(W.TextBlock(text), "redacted_thinking", key) == []
  {
  }

  /** The blocks of an answer tell its thinking, if that is on, and its text. */
  lemma AnswerIsShown(round: W.RoundOutcome, thinking: bool)
    ensures var blocks := W.AssistantBlocks(round, thinking);
            && Fields(blocks, "thinking", "thinking") ==
               (if thinking && round.reasoning != "" then [round.reasoning] else [])
            && Fields(blocks, "redacted_thinking", "data") ==
               (if thinking && round.redactedReasoning != "" then [round.redactedReasoning] else [])
            && Fields(blocks, "text", "text") == if round.text != "" then [round.text] else []
  {
    hide Fields, FieldOf, W.SpokenBlocks, W.ToolUseBlocks, W.ThinkingBlock, W.RedactedBlock, W.TextBlock;
    BlocksTellTheirText(round.reasoning);
    BlocksTellTheirText(round.redactedReasoning);
    BlocksTellTheirText(round.text);
    AnswerFields(round, thinking, "thinking", "thinking");
    AnswerFields(round, thinking, "redacted_thinking", "data");
    AnswerFields(round, thinking, "text", "text");
  }

  lemma AnswerFields(round: W.RoundOutcome, thinking: bool, blockType: string, key: string)
    requires blockType in ["thinking", "redacted_thinking", "text"]
    ensures Fields(W.AssistantBlocks(round, thinking), blockType, key) ==
            match blockType
            case "thinking" =>
              if thinking && round.reasoning != ""
              then FieldOf(W.ThinkingBlock(round.reasoning), blockType, key) else []
            case "redacted_thinking" =>
              if thinking && round.redactedReasoning != ""
              then FieldOf(W.RedactedBlock(round.redactedReasoning), blockType, key) else []
            case _ => if round.text != "" then FieldOf(W.TextBlock(round.text), blockType, key) else []
  {
    hide Fields, FieldOf, W.SpokenBlocks, W.ToolUseBlocks, W.ThinkingBlock, W.RedactedBlock, W.TextBlock;
    CallFields(W.SpokenBlocks(round, thinking), round.toolUses, blockType, key);
    SpokenFields(round, thinking, blockType, key);
    BlocksAreOfOneType(round.reasoning, key);
    BlocksAreOfOneType(round.redactedReasoning, key);
    BlocksAreOfOneType(round.text, key);
  }

  /** The last blocks of an answer are its calls, in order. */
  lemma AnswerCallsAreShown(round: W.RoundOutcome, thinking: bool, k: nat)
    requires k < |round.toolUses|
    ensures var blocks, u := W.AssistantBlocks(round, thinking), round.toolUses[k];
            && |blocks| >= |round.toolUses|
            && var v := blocks[|blocks| - |round.toolUses| + k];
               && IsCall(v) && StringAt(v, "id") == Some(u.id) && StringAt(v, "name") == Some(u.name)
               && Json.Get(v, "input") == Some(u.input)
  {
    CallBlockAt(round.toolUses, k);
    CallBlockFields(round.toolUses[k]);
    hide W.ToolUseBlocks, W.SpokenBlocks, IsCall;
  }
}
