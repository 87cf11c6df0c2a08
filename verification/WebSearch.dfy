/** The local web-search loop: upstream rounds and search rounds, their bookkeeping, and the
    messages fed back (`run_web_search_loop_inner`, `run_round`, `append_search_round`). */
module WebSearch {
  import opened Basics
  import opened Wrappers
  import opened Types
  import Json
  import H = History
  import P = Pairing
  import N = ToolNames
  import T = ToolMap

  const MAX_WEB_SEARCH_ROUNDS := 5
  const SIGNATURE := "kiro-rs-thinking-signature"

  datatype DecodedToolUse = DecodedToolUse(id: string, name: string, input: Json.Value)

  datatype RoundOutcome = RoundOutcome(
    text: string,
    reasoning: string,
    redactedReasoning: string,
    toolUses: seq<DecodedToolUse>,
    contextInputTokens: Option<int>,
    credits: real,
    stopReasonOverride: Option<string>,
    streamError: bool,
    toolJsonError: bool)

  // ----- The outside world -----

  /** What one upstream round comes to. */
  datatype Upstream =
    | ConversionFailed
    | SerializationFailed
    | CallFailed
    | Answered(outcome: RoundOutcome, credentialId: nat)

  /** What one search comes to: the summary shown upstream, and the blocks shown to the client. */
  datatype SearchReply = Found(summary: string, serverId: string, results: seq<Json.Value>) | SearchFailed

  /** All replies, by round, and within a round by search. */
  datatype World = World(round: (nat, seq<Message>) -> Upstream, search: (nat, nat) -> SearchReply)

  // ----- Bookkeeping -----

  datatype Status = Ok | Error | Interrupted

  datatype UsageEntry = UsageEntry(credentialId: nat, credits: real, status: Status)

  /** Usage records, trace conclusions, cache commits, and calls made. */
  class Books {
    var usage: seq<UsageEntry>
    var conclusions: seq<Status>
    var commits: nat
    var upstreamCalls: nat
    var searchRounds: nat

    constructor ()
      ensures usage == [] && conclusions == [] && commits == 0 && upstreamCalls == 0 && searchRounds == 0
    {
      usage, conclusions, commits, upstreamCalls, searchRounds := [], [], 0, 0, 0;
    }

    method Conclude(entry: UsageEntry, status: Status)
      modifies this`usage, this`conclusions
      ensures usage == old(usage) + [entry] && conclusions == old(conclusions) + [status]
    {
      usage := usage + [entry];
      conclusions := conclusions + [status];
    }
  }

  // ----- Pure pieces -----

  /** Search on when every tool call is a web search, there is one, and rounds are left. */
  predicate ShouldSearch(round: nat, uses: seq<DecodedToolUse>) {
    uses != [] && (forall u <- uses :: u.name == "web_search") && round < MAX_WEB_SEARCH_ROUNDS
  }

  function Query(u: DecodedToolUse): string {
    Json.StrField(u.input, "query")
  }

  function ToolUseBlock(u: DecodedToolUse): Json.Value {
    Json.Obj(map["type" := Json.Str("tool_use"), "id" := Json.Str(u.id), "name" := Json.Str(u.name),
                 "input" := u.input])
  }

  function ToolResultBlock(u: DecodedToolUse, summary: string): Json.Value {
    Json.Obj(map["type" := Json.Str("tool_result"), "tool_use_id" := Json.Str(u.id), "content" := Json.Str(summary)])
  }

  function TextBlock(text: string): Json.Value {
    Json.Obj(map["type" := Json.Str("text"), "text" := Json.Str(text)])
  }

  function ThinkingBlock(text: string): Json.Value {
    Json.Obj(map["type" := Json.Str("thinking"), "thinking" := Json.Str(text), "signature" := Json.Str(SIGNATURE)])
  }

  function RedactedBlock(data: string): Json.Value {
    Json.Obj(map["type" := Json.Str("redacted_thinking"), "data" := Json.Str(data)])
  }

  function ServerToolUseBlock(id: string, query: string): Json.Value {
    Json.Obj(map["type" := Json.Str("server_tool_use"), "id" := Json.Str(id), "name" := Json.Str("web_search"),
                 "input" := Json.Obj(map["query" := Json.Str(query)])])
  }

  function SearchResultBlock(results: seq<Json.Value>): Json.Value {
    Json.Obj(map["type" := Json.Str("web_search_tool_result"), "content" := Json.Arr(results)])
  }

  function ToolUseBlocks(uses: seq<DecodedToolUse>): seq<Json.Value> {
    if uses == [] then [] else ToolUseBlocks(uses[..|uses| - 1]) + [ToolUseBlock(uses[|uses| - 1])]
  }

  /** Thinking, redacted thinking and text of a round, as far as present. */
  function SpokenBlocks(round: RoundOutcome, thinking: bool): seq<Json.Value> {
    (if thinking && round.reasoning != "" then [ThinkingBlock(round.reasoning)] else []) +
    (if thinking && round.redactedReasoning != "" then [RedactedBlock(round.redactedReasoning)] else []) +
    (if round.text != "" then [TextBlock(round.text)] else [])
  }

  function AssistantBlocks(round: RoundOutcome, thinking: bool): seq<Json.Value> {
    SpokenBlocks(round, thinking) + ToolUseBlocks(round.toolUses)
  }

  function ResultBlocks(uses: seq<DecodedToolUse>, found: seq<SearchReply>): seq<Json.Value>
    requires |found| == |uses| && forall f <- found :: f.Found?
  {
    if uses == [] then []
    else
      var n := |uses| - 1;
      assert found[n] in found;
      ResultBlocks(uses[..n], found[..n]) + [ToolResultBlock(uses[n], found[n].summary)]
  }

  function PresentationBlocks(uses: seq<DecodedToolUse>, found: seq<SearchReply>): seq<Json.Value>
    requires |found| == |uses| && forall f <- found :: f.Found?
  {
    if uses == [] then []
    else
      var n := |uses| - 1;
      assert found[n] in found;
      PresentationBlocks(uses[..n], found[..n]) +
      [ServerToolUseBlock(found[n].serverId, Query(uses[n])), SearchResultBlock(found[n].results)]
  }

  /** The list after a search round: the assistant's turn, then the results as a user turn. */
  function Appended(msgs: seq<Message>, round: RoundOutcome, found: seq<SearchReply>, thinking: bool): seq<Message>
    requires |found| == |round.toolUses| && forall f <- found :: f.Found?
  {
    msgs + [Message("assistant", Json.Arr(AssistantBlocks(round, thinking))),
            Message("user", Json.Arr(ResultBlocks(round.toolUses, found)))]
  }

  /** The searches of a round, in order, or none if one of them fails. */
  function Searches(world: World, round: nat, n: nat): Option<seq<SearchReply>> {
    if n == 0 then Some([])
    else
      match Searches(world, round, n - 1)
      case None => None
      case Some(before) =>
        if world.search(round, n - 1).SearchFailed? then None else Some(before + [world.search(round, n - 1)])
  }

  lemma {:induction false} SearchesFound(world: World, round: nat, n: nat)
    ensures Searches(world, round, n).Some? ==>
              |Searches(world, round, n).value| == n && forall f <- Searches(world, round, n).value :: f.Found?
  {
    if n > 0 {
      SearchesFound(world, round, n - 1);
    }
  }

  // ----- The loop as a function -----

  datatype LoopState = LoopState(
    msgs: seq<Message>,
    presentation: seq<Json.Value>,
    credentialId: nat,
    contextInput: Option<int>,
    credits: real)

  datatype LoopSuccess = LoopSuccess(content: seq<Json.Value>, stopReason: string, inputTokens: int)

  /** How a loop ends: its reply if it succeeds, its bookkeeping, the messages at the end, and
      the upstream calls and search rounds made. */
  datatype End = End(
    reply: Option<LoopSuccess>,
    entry: UsageEntry,
    status: Status,
    msgs: seq<Message>,
    calls: nat,
    searches: nat)

  function StopReason(round: RoundOutcome): string {
    round.stopReasonOverride.GetOr(if round.toolUses == [] then "end_turn" else "tool_use")
  }

  function Failed(credentialId: nat, credits: real, status: Status, msgs: seq<Message>, calls: nat): End {
    End(None, UsageEntry(credentialId, credits, Error), status, msgs, calls, 0)
  }

  function NextState(st: LoopState, up: Upstream): LoopState
    requires up.Answered?
  {
    st.(credentialId := up.credentialId,
        contextInput := if up.outcome.contextInputTokens.Some? then up.outcome.contextInputTokens else st.contextInput,
        credits := st.credits + up.outcome.credits)
  }

  function Flushed(st: LoopState, round: RoundOutcome, fallback: int, thinking: bool): End {
    End(Some(LoopSuccess(st.presentation + AssistantBlocks(round, thinking), StopReason(round),
                         st.contextInput.GetOr(fallback))),
        UsageEntry(st.credentialId, st.credits, Ok), Ok, st.msgs, 1, 0)
  }

  /** One pass of the loop: it stops, or it searches and goes on. */
  datatype Pass = Stop(end: End) | GoOn(next: LoopState)

  function AfterSearch(st: LoopState, round: RoundOutcome, found: seq<SearchReply>, thinking: bool): LoopState
    requires |found| == |round.toolUses| && forall f <- found :: f.Found?
  {
    st.(msgs := Appended(st.msgs, round, found, thinking),
        presentation := st.presentation + PresentationBlocks(round.toolUses, found))
  }

  function PassOf(round: nat, st: LoopState, world: World, fallback: int, thinking: bool): Pass {
    match world.round(round, st.msgs)
    case ConversionFailed => Stop(Failed(0, 0.0, Error, st.msgs, 0))
    case SerializationFailed => Stop(Failed(0, 0.0, Error, st.msgs, 0))
    case CallFailed => Stop(Failed(0, 0.0, Error, st.msgs, 1))
    case Answered(outcome, credentialId) =>
      if outcome.toolJsonError then Stop(Failed(0, 0.0, Error, st.msgs, 1))
      else if outcome.streamError then Stop(Failed(0, 0.0, Interrupted, st.msgs, 1))
      else
        var st' := NextState(st, world.round(round, st.msgs));
        if !ShouldSearch(round, outcome.toolUses) then Stop(Flushed(st', outcome, fallback, thinking))
        else
          match Searches(world, round, |outcome.toolUses|)
          case None => Stop(Failed(st'.credentialId, st'.credits, Error, st.msgs, 1))
          case Some(found) =>
            SearchesFound(world, round, |outcome.toolUses|);
            GoOn(AfterSearch(st', outcome, found, thinking))
  }

  function RunFrom(round: nat, st: LoopState, world: World, fallback: int, thinking: bool): End
    requires round <= MAX_WEB_SEARCH_ROUNDS
    decreases MAX_WEB_SEARCH_ROUNDS - round
  {
    match PassOf(round, st, world, fallback, thinking)
    case Stop(end) => end
    case GoOn(next) =>
      if round == MAX_WEB_SEARCH_ROUNDS then Failed(0, 0.0, Error, st.msgs, 1)
      else
        var end := RunFrom(round + 1, next, world, fallback, thinking);
        end.(calls := end.calls + 1, searches := end.searches + 1)
  }

  /** The last round never searches: the branch after it is not taken. */
  lemma LastRoundStops(st: LoopState, world: World, fallback: int, thinking: bool)
    ensures PassOf(MAX_WEB_SEARCH_ROUNDS, st, world, fallback, thinking).Stop?
  {
  }

  /** The whole loop. */
  function Loop(msgs: seq<Message>, world: World, fallback: int, thinking: bool): End {
    RunFrom(FIRST_ROUND, Start(msgs), world, fallback, thinking)
  }

  const FIRST_ROUND: nat := 0

  function Start(msgs: seq<Message>): LoopState {
    LoopState(msgs, [], 0, None, 0.0)
  }

  // ----- The loop -----

  /** How a failed round is concluded, and whether the upstream was called. */
  datatype RoundFailure = RoundFailure(status: Status, calls: nat)

  /** One upstream round; a failed round does its own bookkeeping. */
  method RunRound(books: Books, world: World, round: nat, msgs: seq<Message>)
    returns (r: Result<(RoundOutcome, nat), RoundFailure>)
    modifies books
    ensures var up := world.round(round, msgs);
            && (r.Success? <==> up.Answered? && !up.outcome.toolJsonError && !up.outcome.streamError)
            && (r.Success? ==> r.value == (up.outcome, up.credentialId))
            && (r.Success? ==> books.usage == old(books.usage) && books.conclusions == old(books.conclusions))
            && (r.Failure? ==>
                  && books.usage == old(books.usage) + [UsageEntry(0, 0.0, Error)]
                  && books.conclusions == old(books.conclusions) + [r.error.status]
                  && r.error.status == (if up.Answered? && !up.outcome.toolJsonError then Interrupted else Error)
                  && r.error.calls == (if up.CallFailed? || up.Answered? then 1 else 0))
            && books.upstreamCalls == old(books.upstreamCalls) + (if up.CallFailed? || up.Answered? then 1 else 0)
            && books.commits == old(books.commits) && books.searchRounds == old(books.searchRounds)
  {
    var up := world.round(round, msgs);
    var failed := UsageEntry(0, 0.0, Error);
    if up.ConversionFailed? || up.SerializationFailed? {
      books.Conclude(failed, Error);
      return Failure(RoundFailure(Error, 0));
    }
    books.upstreamCalls := books.upstreamCalls + 1;
    if up.CallFailed? || up.outcome.toolJsonError {
      books.Conclude(failed, Error);
      return Failure(RoundFailure(Error, 1));
    }
    if up.outcome.streamError {
      books.Conclude(failed, Interrupted);
      return Failure(RoundFailure(Interrupted, 1));
    }
    r := Success((up.outcome, up.credentialId));
  }

  /** Runs the searches of a round in order and stops at the first failure. */
  method SearchAll(world: World, round: nat, n: nat) returns (found: Option<seq<SearchReply>>)
    ensures found == Searches(world, round, n)
  {
    var replies: seq<SearchReply> := [];
    for i := 0 to n
      invariant Searches(world, round, i) == Some(replies)
    {
      var reply := world.search(round, i);
      if reply.SearchFailed? {
        FailedSearchStays(world, round, i + 1, n);
        return None;
      }
      replies := replies + [reply];
    }
    found := Some(replies);
  }

  lemma {:induction false} FailedSearchStays(world: World, round: nat, i: nat, n: nat)
    requires i <= n && Searches(world, round, i).None?
    ensures Searches(world, round, n).None?
    decreases n
  {
    if i < n {
      FailedSearchStays(world, round, i, n - 1);
    }
  }

  /** One pass of the loop body: a pass that stops does its bookkeeping. */
  method RunPass(books: Books, world: World, round: nat, st: LoopState, fallback: int, thinking: bool)
    returns (pass: Pass)
    modifies books
    ensures pass == PassOf(round, st, world, fallback, thinking)
    ensures pass.Stop? ==>
              && books.usage == old(books.usage) + [pass.end.entry]
              && books.conclusions == old(books.conclusions) + [pass.end.status]
              && books.commits == old(books.commits) + (if pass.end.reply.Some? then 1 else 0)
              && books.upstreamCalls == old(books.upstreamCalls) + pass.end.calls
              && books.searchRounds == old(books.searchRounds)
    ensures pass.GoOn? ==>
              && books.usage == old(books.usage) && books.conclusions == old(books.conclusions)
              && books.commits == old(books.commits)
              && books.upstreamCalls == old(books.upstreamCalls) + 1
              && books.searchRounds == old(books.searchRounds) + 1
  {
    var r := RunRound(books, world, round, st.msgs);
    if r.Failure? {
      return Stop(Failed(0, 0.0, r.error.status, st.msgs, r.error.calls));
    }
    var (outcome, credentialId) := r.value;
    var st' := NextState(st, Answered(outcome, credentialId));
    if !ShouldSearch(round, outcome.toolUses) {
      pass := Stop(Flushed(st', outcome, fallback, thinking));
      books.Conclude(pass.end.entry, Ok);
      books.commits := books.commits + 1;
      return;
    }
    var found := SearchAll(world, round, |outcome.toolUses|);
    if found.None? {
      pass := Stop(Failed(st'.credentialId, st'.credits, Error, st.msgs, 1));
      books.Conclude(pass.end.entry, Error);
      return;
    }
    SearchesFound(world, round, |outcome.toolUses|);
    books.searchRounds := books.searchRounds + 1;
    pass := GoOn(AfterSearch(st', outcome, found.value, thinking));
  }

  /** On every exit: one usage record, one trace conclusion, and a cache commit on success only;
      at most six upstream calls and five search rounds; the code after the loop is not reached. */
  method RunWebSearchLoop(books: Books, world: World, msgs: seq<Message>, fallback: int, thinking: bool)
    returns (reply: Option<LoopSuccess>, ghost end: End)
    modifies books
    ensures end == Loop(msgs, world, fallback, thinking)
    ensures reply == end.reply
    ensures books.usage == old(books.usage) + [end.entry]
    ensures books.conclusions == old(books.conclusions) + [end.status]
    ensures books.commits == old(books.commits) + if reply.Some? then 1 else 0
    ensures books.upstreamCalls == old(books.upstreamCalls) + end.calls <= old(books.upstreamCalls) + 6
    ensures books.searchRounds == old(books.searchRounds) + end.searches <= old(books.searchRounds) + 5
  {
    end := Loop(msgs, world, fallback, thinking);
    LoopIsBounded(FIRST_ROUND, Start(msgs), world, fallback, thinking, end);
    reply := RunRounds(books, world, FIRST_ROUND, Start(msgs), fallback, thinking, end);
  }

  /** The loop over the rounds from `first` on. */
  method RunRounds(
    books: Books, world: World, first: nat, start: LoopState, fallback: int, thinking: bool, ghost end: End)
    returns (reply: Option<LoopSuccess>)
    requires first <= MAX_WEB_SEARCH_ROUNDS
    requires end == RunFrom(first, start, world, fallback, thinking)
    modifies books
    ensures reply == end.reply
    ensures books.usage == old(books.usage) + [end.entry]
    ensures books.conclusions == old(books.conclusions) + [end.status]
    ensures books.commits == old(books.commits) + if reply.Some? then 1 else 0
    ensures books.upstreamCalls == old(books.upstreamCalls) + end.calls
    ensures books.searchRounds == old(books.searchRounds) + end.searches
  {
    hide RunFrom, PassOf;
    var st := start;
    ghost var rest := end;
    for round := first to MAX_WEB_SEARCH_ROUNDS + 1
      invariant round <= MAX_WEB_SEARCH_ROUNDS
      invariant rest == RunFrom(round, st, world, fallback, thinking)
      invariant Tallied(end, rest, round - first)
      invariant books.usage == old(books.usage) && books.conclusions == old(books.conclusions)
      invariant books.commits == old(books.commits)
      invariant books.upstreamCalls == old(books.upstreamCalls) + round - first
      invariant books.searchRounds == old(books.searchRounds) + round - first
    {
      var pass, later := RunOne(books, world, round, st, fallback, thinking, rest);
      match pass {
        case Stop(last) => return last.reply;
        case GoOn(next) => st := next;
      }
      rest := later;
    }
    assert false;
  }

  /** One pass, seen as the beginning of the run `rest`. */
  method RunOne(
    books: Books, world: World, round: nat, st: LoopState, fallback: int, thinking: bool, ghost rest: End)
    returns (pass: Pass, ghost later: End)
    requires round <= MAX_WEB_SEARCH_ROUNDS && rest == RunFrom(round, st, world, fallback, thinking)
    modifies books
    ensures pass.Stop? ==>
              && pass.end == rest
              && books.usage == old(books.usage) + [rest.entry]
              && books.conclusions == old(books.conclusions) + [rest.status]
              && books.commits == old(books.commits) + (if rest.reply.Some? then 1 else 0)
              && books.upstreamCalls == old(books.upstreamCalls) + rest.calls
              && books.searchRounds == old(books.searchRounds) + rest.searches
    ensures pass.GoOn? ==>
              && round < MAX_WEB_SEARCH_ROUNDS
              && later == RunFrom(round + 1, pass.next, world, fallback, thinking)
              && Tallied(rest, later, 1)
              && books.usage == old(books.usage) && books.conclusions == old(books.conclusions)
              && books.commits == old(books.commits)
              && books.upstreamCalls == old(books.upstreamCalls) + 1
              && books.searchRounds == old(books.searchRounds) + 1
  {
    pass := RunPass(books, world, round, st, fallback, thinking);
    PassFacts(round, st, world, fallback, thinking);
    later := RunFromStep(round, st, world, fallback, thinking, pass);
  }

  /** The end of the loop, seen from a later round. */
  predicate Tallied(end: End, rest: End, rounds: nat) {
    end == rest.(calls := rest.calls + rounds, searches := rest.searches + rounds)
  }

  lemma RunFromStep(round: nat, st: LoopState, world: World, fallback: int, thinking: bool, pass: Pass)
    returns (rest: End)
    requires round <= MAX_WEB_SEARCH_ROUNDS && pass == PassOf(round, st, world, fallback, thinking)
    ensures pass.Stop? ==> rest == pass.end == RunFrom(round, st, world, fallback, thinking)
    ensures pass.GoOn? ==>
              && round < MAX_WEB_SEARCH_ROUNDS
              && rest == RunFrom(round + 1, pass.next, world, fallback, thinking)
              && Tallied(RunFrom(round, st, world, fallback, thinking), rest, 1)
  {
    LastRoundStops(st, world, fallback, thinking);
    rest := if pass.Stop? then pass.end else RunFrom(round + 1, pass.next, world, fallback, thinking);
  }

  // ----- Bounds and messages -----

  /** From round `round` on: at most the remaining rounds, success and its record go together. */
  lemma {:induction false} LoopIsBounded(
    round: nat, st: LoopState, world: World, fallback: int, thinking: bool, end: End)
    requires round <= MAX_WEB_SEARCH_ROUNDS
    requires end == RunFrom(round, st, world, fallback, thinking)
    ensures end.calls <= MAX_WEB_SEARCH_ROUNDS + 1 - round
    ensures end.searches <= MAX_WEB_SEARCH_ROUNDS - round
    ensures end.searches <= end.calls <= end.searches + 1
    ensures end.reply.Some? <==> end.status == Ok
    ensures end.entry.status == Ok <==> end.status == Ok
    decreases MAX_WEB_SEARCH_ROUNDS - round
  {
    hide RunFrom, PassOf;
    var next, later := Unroll(round, st, world, fallback, thinking, end);
    if next.Some? {
      LoopIsBounded(round + 1, next.value, world, fallback, thinking, later);
    }
  }

  /** The list grows at its end by two messages per search round, the second one a user turn. */
  lemma {:induction false} LoopExtends(
    round: nat, st: LoopState, world: World, fallback: int, thinking: bool, end: End)
    requires round <= MAX_WEB_SEARCH_ROUNDS
    requires end == RunFrom(round, st, world, fallback, thinking)
    ensures st.msgs <= end.msgs && |end.msgs| == |st.msgs| + 2 * end.searches
    ensures end.msgs == st.msgs || EndsInUser(end.msgs)
    decreases MAX_WEB_SEARCH_ROUNDS - round
  {
    hide RunFrom, PassOf;
    var next, later := UnrollMessages(round, st, world, fallback, thinking, end);
    if next.Some? {
      LoopExtends(round + 1, next.value, world, fallback, thinking, later);
      PrefixesCompose(st.msgs, next.value.msgs, end.msgs);
    }
  }

  lemma PrefixesCompose(a: seq<Message>, b: seq<Message>, c: seq<Message>)
    requires a <= b <= c
    ensures a <= c
  {
  }

  predicate EndsInUser(msgs: seq<Message>) {
    msgs != [] && msgs[|msgs| - 1].role == "user"
  }

  /** One pass of a run: the run ends here, or goes on. */
  lemma Unroll(round: nat, st: LoopState, world: World, fallback: int, thinking: bool, end: End)
    returns (next: Option<LoopState>, later: End)
    requires round <= MAX_WEB_SEARCH_ROUNDS
    requires end == RunFrom(round, st, world, fallback, thinking)
    ensures next.None? ==>
              && end.calls <= 1 && end.searches == 0
              && (end.reply.Some? <==> end.status == Ok) && (end.entry.status == Ok <==> end.status == Ok)
    ensures next.Some? ==>
              && round < MAX_WEB_SEARCH_ROUNDS
              && later == RunFrom(round + 1, next.value, world, fallback, thinking)
              && Tallied(end, later, 1)
  {
    var pass := PassOf(round, st, world, fallback, thinking);
    PassFacts(round, st, world, fallback, thinking);
    later := RunFromStep(round, st, world, fallback, thinking, pass);
    next := if pass.GoOn? then Some(pass.next) else None;
  }

  /** The same for the messages. */
  lemma UnrollMessages(round: nat, st: LoopState, world: World, fallback: int, thinking: bool, end: End)
    returns (next: Option<LoopState>, later: End)
    requires round <= MAX_WEB_SEARCH_ROUNDS
    requires end == RunFrom(round, st, world, fallback, thinking)
    ensures next.None? ==> end.msgs == st.msgs && end.searches == 0
    ensures next.Some? ==>
              && round < MAX_WEB_SEARCH_ROUNDS
              && later == RunFrom(round + 1, next.value, world, fallback, thinking)
              && later.msgs == end.msgs && end.searches == later.searches + 1
              && |next.value.msgs| == |st.msgs| + 2 && st.msgs <= next.value.msgs && EndsInUser(next.value.msgs)
  {
    var pass := PassOf(round, st, world, fallback, thinking);
    PassFacts(round, st, world, fallback, thinking);
    later := RunFromStep(round, st, world, fallback, thinking, pass);
    next := if pass.GoOn? then Some(pass.next) else None;
  }

  /** What one pass does to the counts and to the messages. */
  lemma PassFacts(round: nat, st: LoopState, world: World, fallback: int, thinking: bool)
    requires round <= MAX_WEB_SEARCH_ROUNDS
    ensures match PassOf(round, st, world, fallback, thinking)
            case Stop(end) =>
              && end.calls <= 1 && end.searches == 0 && end.msgs == st.msgs
              && (end.reply.Some? <==> end.status == Ok) && (end.entry.status == Ok <==> end.status == Ok)
            case GoOn(next) =>
              && round < MAX_WEB_SEARCH_ROUNDS
              && |next.msgs| == |st.msgs| + 2 && st.msgs <= next.msgs && EndsInUser(next.msgs)
  {
    LastRoundStops(st, world, fallback, thinking);
  }

  function UseIds(uses: seq<DecodedToolUse>): seq<string> {
    seq(|uses|, i requires 0 <= i < |uses| => uses[i].id)
  }

  lemma ToolResultBlockId(u: DecodedToolUse, summary: string)
    ensures H.ResultIdOf(ToolResultBlock(u, summary)) == [u.id]
  {
    var b := ToolResultBlock(u, summary);
    assert b.fields.Keys == {"type", "tool_use_id", "content"};
  }

  lemma {:induction false} ResultBlocksIds(uses: seq<DecodedToolUse>, found: seq<SearchReply>)
    requires |found| == |uses| && forall f <- found :: f.Found?
    ensures H.ResultIdsIn(ResultBlocks(uses, found)) == UseIds(uses)
    decreases |uses|
  {
    if uses != [] {
      var n := |uses| - 1;
      assert found[n] in found;
      ResultBlocksIds(uses[..n], found[..n]);
      ResultIdsSnoc(ResultBlocks(uses[..n], found[..n]), uses[n], found[n].summary, UseIds(uses[..n]));
      UseIdsSnoc(uses);
    }
  }

  lemma UseIdsSnoc(uses: seq<DecodedToolUse>)
    requires uses != []
    ensures UseIds(uses) == UseIds(uses[..|uses| - 1]) + [uses[|uses| - 1].id]
  {
  }

  lemma ResultIdsSnoc(items: seq<Json.Value>, u: DecodedToolUse, summary: string, ids: seq<string>)
    requires H.ResultIdsIn(items) == ids
    ensures H.ResultIdsIn(items + [ToolResultBlock(u, summary)]) == ids + [u.id]
  {
    var v := ToolResultBlock(u, summary);
    ToolResultBlockId(u, summary);
    assert (items + [v])[..|items|] == items;
  }

  function EntryIds(uses: seq<H.ToolUseEntry>): seq<string> {
    seq(|uses|, i requires 0 <= i < |uses| => uses[i].toolUseId)
  }

  /** A web-search call of the upstream converts to one entry with its id. */
  lemma ToolUseBlockEntry(u: DecodedToolUse, env: H.Env) returns (entry: H.ToolUseEntry)
    requires u.name == "web_search"
    ensures H.UseOf(ToolUseBlock(u), env) == Success([entry]) && entry.toolUseId == u.id
  {
    ToolUseBlockParses(u);
    var b := H.ParseBlock(ToolUseBlock(u)).value;
    var input := b.input.GetOr(Json.Obj(map[]));
    SearchInputPasses(input, env.mode);
    H.UseOfParsed(ToolUseBlock(u), env, b, input);
    entry := H.ToolUseEntry(u.id, N.KiroName(u.name, env.mode, env.digest), input);
  }

  lemma SearchInputPasses(input: Json.Value, mode: T.Mode)
    ensures T.InputToKiro("web_search", input, mode) == Success(input)
  {
  }

  lemma ToolUseBlockParses(u: DecodedToolUse)
    ensures var b := H.ParseBlock(ToolUseBlock(u));
            b.Some? && b.value.blockType == "tool_use" && b.value.id == Some(u.id) && b.value.name == Some(u.name)
  {
    var b := ToolUseBlock(u);
    assert b.fields.Keys == {"type", "id", "name", "input"};
  }

  lemma SpokenBlockHasNoUse(v: Json.Value, env: H.Env)
    requires Json.StrField(v, "type") != "tool_use"
    ensures H.UseOf(v, env) == Success([])
  {
  }

  lemma {:induction false} SpokenHaveNoUses(spoken: seq<Json.Value>, env: H.Env)
    requires forall v <- spoken :: Json.StrField(v, "type") != "tool_use"
    ensures H.UsesIn(spoken, env) == Success([])
    decreases |spoken|
  {
    if spoken != [] {
      var m := |spoken| - 1;
      assert spoken[m] in spoken && spoken == spoken[..m] + [spoken[m]];
      SpokenHaveNoUses(spoken[..m], env);
      SpokenBlockHasNoUse(spoken[m], env);
      H.UsesInSnoc(spoken[..m], spoken[m], env, [], []);
      var none: seq<H.ToolUseEntry> := [];
      assert none + none == none;
    }
  }

  lemma {:induction false} BlocksEntries(spoken: seq<Json.Value>, uses: seq<DecodedToolUse>, env: H.Env)
    returns (entries: seq<H.ToolUseEntry>)
    requires forall v <- spoken :: Json.StrField(v, "type") != "tool_use"
    requires forall u <- uses :: u.name == "web_search"
    ensures H.UsesIn(spoken + ToolUseBlocks(uses), env) == Success(entries) && EntryIds(entries) == UseIds(uses)
    decreases |uses|
  {
    if uses == [] {
      SpokenHaveNoUses(spoken, env);
      assert spoken + [] == spoken;
      entries := [];
    } else {
      var n := |uses| - 1;
      assert uses[n] in uses;
      var before := BlocksEntries(spoken, uses[..n], env);
      var entry := ToolUseBlockEntry(uses[n], env);
      H.UsesInSnoc(spoken + ToolUseBlocks(uses[..n]), ToolUseBlock(uses[n]), env, before, [entry]);
      BlocksSnoc(spoken, uses);
      EntryIdsAppend(before, [entry]);
      UseIdsSnoc(uses);
      entries := before + [entry];
    }
  }

  lemma BlocksSnoc(spoken: seq<Json.Value>, uses: seq<DecodedToolUse>)
    requires uses != []
    ensures var n := |uses| - 1;
            spoken + ToolUseBlocks(uses) == spoken + ToolUseBlocks(uses[..n]) + [ToolUseBlock(uses[n])]
  {
    var n := |uses| - 1;
    Assoc(spoken, ToolUseBlocks(uses[..n]), [ToolUseBlock(uses[n])]);
  }

  lemma EntryIdsAppend(a: seq<H.ToolUseEntry>, b: seq<H.ToolUseEntry>)
    ensures EntryIds(a + b) == EntryIds(a) + EntryIds(b)
  {
  }

  /** After a search round the list ends in an assistant turn with the round's calls and a user
      turn whose results answer them one to one, in order. */
  lemma SearchRoundIsPaired(
    msgs: seq<Message>, round: RoundOutcome, found: seq<SearchReply>, thinking: bool, env: H.Env)
    requires |found| == |round.toolUses| && forall f <- found :: f.Found?
    requires forall u <- round.toolUses :: u.name == "web_search"
    ensures var r := Appended(msgs, round, found, thinking);
            && |r| == |msgs| + 2 && msgs <= r
            && r[|msgs|].role == "assistant" && r[|msgs| + 1].role == "user"
            && H.MessageUses(r[|msgs|], env).Success?
            && EntryIds(H.MessageUses(r[|msgs|], env).value) == UseIds(round.toolUses)
            && H.MessageResultIds(r[|msgs| + 1]) == UseIds(round.toolUses)
  {
    var spoken := SpokenBlocks(round, thinking);
    forall v | v in spoken
      ensures Json.StrField(v, "type") != "tool_use"
    {
    }
    var entries := BlocksEntries(spoken, round.toolUses, env);
    ResultBlocksIds(round.toolUses, found);
  }

  /** A search round adds the same ids to the calls and to the results of the list. */
  lemma SearchRoundBalances(
    msgs: seq<Message>, round: RoundOutcome, found: seq<SearchReply>, thinking: bool, env: H.Env)
    requires |found| == |round.toolUses| && forall f <- found :: f.Found?
    requires forall u <- round.toolUses :: u.name == "web_search"
    ensures var r, ids := Appended(msgs, round, found, thinking), UseIds(round.toolUses);
            && EntryIds(H.ClientUses(r, env)) == EntryIds(H.ClientUses(msgs, env)) + ids
            && H.ClientResultIds(r) == H.ClientResultIds(msgs) + ids
  {
    var r := Appended(msgs, round, found, thinking);
    SearchRoundIsPaired(msgs, round, found, thinking, env);
    var a, u := r[|msgs|], r[|msgs| + 1];
    assert r == msgs + [a] + [u];
    H.ClientSnoc(msgs, a, env);
    H.ClientSnoc(msgs + [a], u, env);
    EntryIdsAppend(H.ClientUses(msgs, env), H.MessageUses(a, env).value);
    Assoc(H.ClientUses(msgs + [a], env), [], []);
    Assoc(H.ClientResultIds(msgs), [], []);
  }

  /** `ids` is what the list gains, in calls and in results alike. */
  predicate Gains(before: seq<Message>, after: seq<Message>, ids: seq<string>, env: H.Env) {
    && EntryIds(H.ClientUses(after, env)) == EntryIds(H.ClientUses(before, env)) + ids
    && H.ClientResultIds(after) == H.ClientResultIds(before) + ids
  }

  lemma GainsNothing(msgs: seq<Message>, env: H.Env)
    ensures Gains(msgs, msgs, [], env)
  {
    assert EntryIds(H.ClientUses(msgs, env)) + [] == EntryIds(H.ClientUses(msgs, env));
    assert H.ClientResultIds(msgs) + [] == H.ClientResultIds(msgs);
  }

  lemma GainsJoin(a: seq<Message>, b: seq<Message>, c: seq<Message>, x: seq<string>, y: seq<string>, env: H.Env)
    requires Gains(a, b, x, env) && Gains(b, c, y, env)
    ensures Gains(a, c, x + y, env)
  {
    Assoc(EntryIds(H.ClientUses(a, env)), x, y);
    Assoc(H.ClientResultIds(a), x, y);
  }

  /** Over the whole loop, what the list gains in calls it gains in results. */
  lemma {:induction false} LoopBalances(
    round: nat, st: LoopState, world: World, fallback: int, thinking: bool, env: H.Env, end: End)
    returns (ids: seq<string>)
    requires round <= MAX_WEB_SEARCH_ROUNDS
    requires end == RunFrom(round, st, world, fallback, thinking)
    ensures Gains(st.msgs, end.msgs, ids, env)
    decreases MAX_WEB_SEARCH_ROUNDS - round
  {
    var next, here, later := StepBalances(round, st, world, fallback, thinking, env, end);
    if next.None? {
      ids := [];
      GainsNothing(st.msgs, env);
    } else {
      var rest := LoopBalances(round + 1, next.value, world, fallback, thinking, env, later);
      ids := here + rest;
      GainsJoin(st.msgs, next.value.msgs, end.msgs, here, rest, env);
    }
  }

  lemma StepBalances(
    round: nat, st: LoopState, world: World, fallback: int, thinking: bool, env: H.Env, end: End)
    returns (next: Option<LoopState>, ids: seq<string>, later: End)
    requires round <= MAX_WEB_SEARCH_ROUNDS
    requires end == RunFrom(round, st, world, fallback, thinking)
    ensures next.None? ==> end.msgs == st.msgs
    ensures next.Some? ==>
              && round < MAX_WEB_SEARCH_ROUNDS
              && later == RunFrom(round + 1, next.value, world, fallback, thinking)
              && later.msgs == end.msgs
              && Gains(st.msgs, next.value.msgs, ids, env)
  {
    var pass := PassOf(round, st, world, fallback, thinking);
    later := RunFromStep(round, st, world, fallback, thinking, pass);
    PassFacts(round, st, world, fallback, thinking);
    match pass {
      case Stop(_) =>
        next, ids := None, [];
      case GoOn(after) =>
        next := Some(after);
        ids := PassBalances(round, st, world, fallback, thinking, env, after);
    }
  }

  lemma PassBalances(
    round: nat, st: LoopState, world: World, fallback: int, thinking: bool, env: H.Env, next: LoopState)
    returns (ids: seq<string>)
    requires PassOf(round, st, world, fallback, thinking) == GoOn(next)
    ensures Gains(st.msgs, next.msgs, ids, env)
  {
    var outcome := world.round(round, st.msgs).outcome;
    var found := Searches(world, round, |outcome.toolUses|).value;
    SearchesFound(world, round, |outcome.toolUses|);
    SearchRoundBalances(st.msgs, outcome, found, thinking, env);
    ids := UseIds(outcome.toolUses);
  }

  predicate Distinct(ids: seq<string>) {
    forall i, j | 0 <= i < j < |ids| :: ids[i] != ids[j]
  }

  /** With fresh, distinct ids, converting the list after a search round keeps every result of
      the round, in order, and orphans none of its calls. */
  lemma SearchRoundSurvivesConversion(
    prologue: seq<H.HistoryMessage>, msgs: seq<Message>, round: RoundOutcome, found: seq<SearchReply>, thinking: bool,
    tools: seq<string>, lower: string -> string, env: H.Env)
    requires H.IsPrologue(prologue) && H.HistoryUses(prologue) == [] && H.HistoryResultIds(prologue) == []
    requires |found| == |round.toolUses| && forall f <- found :: f.Found?
    requires forall u <- round.toolUses :: u.name == "web_search"
    requires Distinct(UseIds(round.toolUses))
    requires forall u <- round.toolUses :: u.id !in H.ClientResultIds(msgs)
    requires P.Convert(prologue, Appended(msgs, round, found, thinking), tools, lower, env).Success?
    ensures var c := P.Convert(prologue, Appended(msgs, round, found, thinking), tools, lower, env).value;
            && H.Ids(c.toolResults) == UseIds(round.toolUses)
            && forall u <- round.toolUses :: u.id in P.Called(c.history)
  {
    hide H.ClientUses, H.ClientResultIds, H.HistoryOf, H.UserContent, P.WithPlaceholders, P.UsedNames, Distinct;
    var all := Appended(msgs, round, found, thinking);
    SearchRoundIsPaired(msgs, round, found, thinking, env);
    var a, last := all[|msgs|], all[|msgs| + 1];
    assert all[..|all| - 1] == msgs + [a];
    assert P.DropPrefill(all) == all;
    var current := H.UserContent(last.content, None, env).value;
    H.UserContentResults(last, None, env);
    var history := H.HistoryOf(prologue, all, env).value;
    H.HistoryIsComplete(prologue, all, env);
    H.ClientSnoc(msgs, a, env);
    Assoc(H.ClientResultIds(msgs), [], []);
    OpenCalls(history, current.results, round.toolUses, H.ClientUses(msgs, env), H.MessageUses(a, env).value);
    P.FilterAll(current.results, P.Called(history) - P.Answered(history));
    P.RepairedIsPaired(history, current.results);
    forall u | u in round.toolUses
      ensures u.id in P.ResultIdSet(current.results)
    {
      ResultHasId(current.results, round.toolUses, u);
    }
  }

  lemma EndOfSum(ids: seq<string>, a: seq<string>, x: seq<string>, y: seq<string>)
    requires a + ids == x + y
    ensures forall id <- ids :: id in x || id in y
  {
    forall id | id in ids
      ensures id in x || id in y
    {
      var i :| 0 <= i < |ids| && ids[i] == id;
      assert (x + y)[|a| + i] == (a + ids)[|a| + i] == id;
      assert id in x + y;
    }
  }

  lemma UserAddsResults(prefix: seq<Message>, last: Message, env: H.Env)
    requires last.role == "user"
    ensures H.ClientUses(prefix + [last], env) == H.ClientUses(prefix, env)
    ensures H.ClientResultIds(prefix + [last]) == H.ClientResultIds(prefix) + H.MessageResultIds(last)
  {
    H.ClientSnoc(prefix, last, env);
    Assoc(H.ClientUses(prefix, env), [], []);
  }

  /** The gained calls are answered in the list, so the conversion keeps all of them. */
  lemma GainedCallsAreKept(before: seq<Message>, after: seq<Message>, ids: seq<string>, env: H.Env)
    returns (earlier: seq<string>)
    requires Gains(before, after, ids, env) && EndsInUser(after)
    ensures EntryIds(P.AnsweredCalls(after, env)) == earlier + ids
  {
    hide H.ClientUses, H.ClientResultIds, H.MessageResultIds, P.KeepUses, P.AnsweredCalls;
    var prefix, last := after[..|after| - 1], after[|after| - 1];
    assert after == prefix + [last];
    UserAddsResults(prefix, last, env);
    var uses, x, y := H.ClientUses(prefix, env), H.ClientResultIds(prefix), H.MessageResultIds(last);
    EndOfSum(ids, H.ClientResultIds(before), x, y);
    var orphans := P.UseIds(uses) - P.IdSet(x) - P.IdSet(y);
    P.AnsweredCallsOf(prefix, last, env, orphans);
    earlier := TailIsKept(uses, ids, orphans, EntryIds(H.ClientUses(before, env)));
  }

  lemma TailIsKept(uses: seq<H.ToolUseEntry>, ids: seq<string>, orphans: set<string>, front: seq<string>)
    returns (earlier: seq<string>)
    requires EntryIds(uses) == front + ids
    requires forall id <- ids :: id !in orphans
    ensures EntryIds(P.KeepUses(uses, orphans)) == earlier + ids
  {
    var n := |front|;
    assert |EntryIds(uses)| == |uses|;
    var a, b := uses[..n], uses[n..];
    assert uses == a + b;
    assert EntryIds(b) == ids by {
      assert EntryIds(b) == EntryIds(uses)[n..];
    }
    forall u | u in b
      ensures u.toolUseId in ids
    {
      var i :| 0 <= i < |b| && b[i] == u;
      assert EntryIds(b)[i] == u.toolUseId;
    }
    P.KeepUsesAppend(a, b, orphans);
    P.KeepUsesSpec(b, orphans);
    earlier := EntryIds(P.KeepUses(a, orphans));
    EntryIdsAppend(P.KeepUses(a, orphans), b);
  }

  /** After the whole loop, converting the list orphans none of the calls the loop gained: they end
      the calls of the converted history, in order, and every one is answered. */
  lemma LoopSurvivesConversion(
    prologue: seq<H.HistoryMessage>, msgs: seq<Message>, world: World, fallback: int, thinking: bool,
    tools: seq<string>, lower: string -> string, env: H.Env, end: End, c: P.Conversion)
    returns (ids: seq<string>, earlier: seq<string>)
    requires H.IsPrologue(prologue) && H.HistoryUses(prologue) == [] && H.HistoryResultIds(prologue) == []
    requires end == Loop(msgs, world, fallback, thinking)
    requires P.Convert(prologue, end.msgs, tools, lower, env) == Success(c)
    ensures Gains(msgs, end.msgs, ids, env)
    ensures EntryIds(H.HistoryUses(c.history)) == earlier + ids
    ensures forall id <- ids :: id in P.Called(c.history) && id in P.Answered(c.history) + P.ResultIdSet(c.toolResults)
  {
    hide P.Convert, P.AnsweredCalls, H.HistoryUses, P.WithPlaceholders;
    ids := LoopBalances(FIRST_ROUND, Start(msgs), world, fallback, thinking, env, end);
    LoopExtends(FIRST_ROUND, Start(msgs), world, fallback, thinking, end);
    P.ConversionKeepsAnsweredCalls(prologue, end.msgs, tools, lower, env);
    P.ConversionIsSound(prologue, end.msgs, tools, lower, env);
    if end.msgs == msgs {
      NothingGained(msgs, ids, env);
      earlier := EntryIds(H.HistoryUses(c.history));
      assert earlier + [] == earlier;
    } else {
      earlier := GainedCallsAreKept(msgs, end.msgs, ids, env);
    }
    CalledHasIds(c.history, earlier, ids);
  }

  lemma NothingGained(msgs: seq<Message>, ids: seq<string>, env: H.Env)
    requires Gains(msgs, msgs, ids, env)
    ensures ids == []
  {
    assert |H.ClientResultIds(msgs)| == |H.ClientResultIds(msgs)| + |ids|;
  }

  lemma CalledHasIds(h: seq<H.HistoryMessage>, earlier: seq<string>, ids: seq<string>)
    requires EntryIds(H.HistoryUses(h)) == earlier + ids
    ensures forall id <- ids :: id in P.Called(h)
  {
    var uses := H.HistoryUses(h);
    forall id | id in ids
      ensures id in P.Called(h)
    {
      var i :| 0 <= i < |ids| && ids[i] == id;
      assert EntryIds(uses)[|earlier| + i] == id;
      assert uses[|earlier| + i] in uses;
    }
  }

  lemma ResultHasId(results: seq<H.ToolResult>, uses: seq<DecodedToolUse>, u: DecodedToolUse)
    requires H.Ids(results) == UseIds(uses) && u in uses
    ensures u.id in P.ResultIdSet(results)
  {
    var i :| 0 <= i < |uses| && uses[i] == u;
    assert |H.Ids(results)| == |results| && |UseIds(uses)| == |uses|;
    assert H.Ids(results)[i] == UseIds(uses)[i];
    assert results[i] in results;
  }

  /** The calls of the round are open, and its results answer them with distinct ids. */
  lemma OpenCalls(
    history: seq<H.HistoryMessage>, results: seq<H.ToolResult>, uses: seq<DecodedToolUse>,
    before: seq<H.ToolUseEntry>, entries: seq<H.ToolUseEntry>)
    requires H.HistoryUses(history) == before + entries
    requires EntryIds(entries) == UseIds(uses) && H.Ids(results) == UseIds(uses)
    requires Distinct(UseIds(uses))
    requires forall u <- uses :: u.id !in H.HistoryResultIds(history)
    ensures P.DistinctIds(results)
    ensures P.ResultIdSet(results) <= P.Called(history) - P.Answered(history)
  {
    assert |EntryIds(entries)| == |entries| && |H.Ids(results)| == |results| && |UseIds(uses)| == |uses|;
    forall i | 0 <= i < |results|
      ensures results[i].toolUseId == UseIds(uses)[i] == uses[i].id == entries[i].toolUseId
    {
      assert H.Ids(results)[i] == UseIds(uses)[i] && EntryIds(entries)[i] == UseIds(uses)[i];
    }
    forall id | id in P.ResultIdSet(results)
      ensures id in P.Called(history) && id !in P.Answered(history)
    {
      var r :| r in results && r.toolUseId == id;
      var i :| 0 <= i < |results| && results[i] == r;
      assert uses[i] in uses;
      assert entries[i] in H.HistoryUses(history);
    }
  }
}
