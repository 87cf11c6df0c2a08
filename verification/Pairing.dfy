/** Repair of tool calls and tool results (`validate_tool_pairing`, `remove_orphaned_tool_uses`),
    placeholder tools, and the conversion that applies them. */
module Pairing {
  import opened Wrappers
  import opened ToolNames
  import opened Types
  import opened History
  import Strings

  // ----- Ids -----

  function UseIds(uses: seq<ToolUseEntry>): set<string> {
    set u | u in uses :: u.toolUseId
  }

  /** Ids of the tool calls of a history. */
  function Called(h: seq<HistoryMessage>): set<string> {
    UseIds(HistoryUses(h))
  }

  /** Ids that a history answers. */
  function Answered(h: seq<HistoryMessage>): set<string> {
    set id | id in HistoryResultIds(h)
  }

  function ResultIdSet(results: seq<ToolResult>): set<string> {
    set r | r in results :: r.toolUseId
  }

  // ----- Pairing -----

  /** The results kept of the current message, and the ids still open after them: each open
      call takes the first result that answers it. */
  function Filter(results: seq<ToolResult>, open: set<string>): (seq<ToolResult>, set<string>) {
    if results == [] then ([], open)
    else
      var before := Filter(results[..|results| - 1], open);
      var last := results[|results| - 1];
      if last.toolUseId in before.1 then (before.0 + [last], before.1 - {last.toolUseId}) else before
  }

  function Validated(h: seq<HistoryMessage>, results: seq<ToolResult>): (seq<ToolResult>, set<string>) {
    Filter(results, Called(h) - Answered(h))
  }

  lemma SetsSnoc(h: seq<HistoryMessage>, m: HistoryMessage)
    ensures Called(h + [m]) == Called(h) + if m.Assistant? then UseIds(m.toolUses.GetOr([])) else {}
    ensures Answered(h + [m]) == Answered(h) + if m.User? then ResultIdSet(m.toolResults) else {}
  {
    HistorySnoc(h, m);
    if m.User? {
      IdsSet(m.toolResults);
      CalledFrom(h + [m], HistoryUses(h), []);
      AnsweredFrom(h + [m], HistoryResultIds(h), Ids(m.toolResults));
    } else {
      CalledFrom(h + [m], HistoryUses(h), m.toolUses.GetOr([]));
      AnsweredFrom(h + [m], HistoryResultIds(h), []);
    }
  }

  lemma NothingYet()
    ensures Called([]) == {} && Answered([]) == {}
  {
  }

  lemma CalledFrom(h: seq<HistoryMessage>, a: seq<ToolUseEntry>, b: seq<ToolUseEntry>)
    requires HistoryUses(h) == a + b
    ensures Called(h) == UseIds(a) + UseIds(b)
  {
  }

  lemma AnsweredFrom(h: seq<HistoryMessage>, a: seq<string>, b: seq<string>)
    requires HistoryResultIds(h) == a + b
    ensures Answered(h) == (set id | id in a) + (set id | id in b)
  {
  }

  lemma IdsSet(results: seq<ToolResult>)
    ensures (set id | id in Ids(results)) == ResultIdSet(results)
  {
    forall id
      ensures id in Ids(results) <==> id in ResultIdSet(results)
    {
      if id in Ids(results) {
        var i :| 0 <= i < |results| && Ids(results)[i] == id;
        assert results[i] in results;
      }
      if id in ResultIdSet(results) {
        var r :| r in results && r.toolUseId == id;
        var i :| 0 <= i < |results| && results[i] == r;
        assert Ids(results)[i] == id;
      }
    }
  }

  method ValidateToolPairing(h: seq<HistoryMessage>, results: seq<ToolResult>)
    returns (kept: seq<ToolResult>, orphans: set<string>)
    ensures (kept, orphans) == Validated(h, results)
  {
    hide HistoryUses, HistoryResultIds, Called, Answered, ResultIdSet;
    var called, answered := {}, {};
    NothingYet();
    for i := 0 to |h|
      invariant called == Called(h[..i]) && answered == Answered(h[..i])
    {
      SetsSnoc(h[..i], h[i]);
      assert h[..i + 1] == h[..i] + [h[i]];
      match h[i] {
        case Assistant(_, toolUses) =>
          if toolUses.Some? {
            called := called + UseIds(toolUses.value);
          }
        case User(_, _, toolResults) =>
          answered := answered + ResultIdSet(toolResults);
      }
    }
    assert h[..|h|] == h;
    orphans := called - answered;
    kept := [];
    ghost var open := orphans;
    for i := 0 to |results|
      invariant (kept, orphans) == Filter(results[..i], open)
    {
      assert results[..i + 1][..i] == results[..i];
      if results[i].toolUseId in orphans {
        kept := kept + [results[i]];
        orphans := orphans - {results[i].toolUseId};
      }
    }
    assert results[..|results|] == results;
  }

  // ----- Removal -----

  function KeepUses(uses: seq<ToolUseEntry>, orphans: set<string>): seq<ToolUseEntry> {
    if uses == [] then []
    else
      KeepUses(uses[..|uses| - 1], orphans) +
      if uses[|uses| - 1].toolUseId in orphans then [] else [uses[|uses| - 1]]
  }

  function Repaired(m: HistoryMessage, orphans: set<string>): HistoryMessage {
    if orphans == {} || m.User? || m.toolUses.None? then m
    else
      var kept := KeepUses(m.toolUses.value, orphans);
      Assistant(m.content, if kept == [] then None else Some(kept))
  }

  function Removed(h: seq<HistoryMessage>, orphans: set<string>): seq<HistoryMessage> {
    seq(|h|, i requires 0 <= i < |h| => Repaired(h[i], orphans))
  }

  method RemoveOrphanedToolUses(history: array<HistoryMessage>, orphans: set<string>)
    modifies history
    ensures history[..] == Removed(old(history[..]), orphans)
  {
    if orphans == {} {
      return;
    }
    ghost var was := history[..];
    for i := 0 to history.Length
      invariant forall j | 0 <= j < i :: history[j] == Repaired(was[j], orphans)
      invariant forall j | i <= j < history.Length :: history[j] == was[j]
    {
      match history[i] {
        case Assistant(content, Some(uses)) =>
          var kept := RetainUses(uses, orphans);
          history[i] := Assistant(content, if kept == [] then None else Some(kept));
        case _ =>
      }
    }
  }

  method RetainUses(uses: seq<ToolUseEntry>, orphans: set<string>) returns (kept: seq<ToolUseEntry>)
    ensures kept == KeepUses(uses, orphans)
  {
    kept := [];
    for i := 0 to |uses|
      invariant kept == KeepUses(uses[..i], orphans)
    {
      assert uses[..i + 1][..i] == uses[..i];
      if uses[i].toolUseId !in orphans {
        kept := kept + [uses[i]];
      }
    }
    assert uses[..|uses|] == uses;
  }

  // ----- What the repair achieves -----

  predicate DistinctIds(results: seq<ToolResult>) {
    forall i, j | 0 <= i < j < |results| :: results[i].toolUseId != results[j].toolUseId
  }

  /** Kept results have distinct ids, and they answer exactly those open calls that the message
      answers at all; the open ids left are the others. */
  lemma {:induction false} FilterSpec(results: seq<ToolResult>, open: set<string>)
    ensures var (kept, left) := Filter(results, open);
            && DistinctIds(kept)
            && (forall r <- kept :: r in results)
            && ResultIdSet(kept) == open * ResultIdSet(results)
            && left == open - ResultIdSet(results)
    decreases |results|
  {
    if results != [] {
      var init, last := results[..|results| - 1], results[|results| - 1];
      FilterSpec(init, open);
      assert results == init + [last];
      ResultIdSetSnoc(init, last);
      var before := Filter(init, open);
      ResultIdSetSnoc(before.0, last);
      forall i | 0 <= i < |before.0|
        ensures before.0[i].toolUseId in ResultIdSet(before.0)
      {
        assert before.0[i] in before.0;
      }
    }
  }

  lemma ResultIdSetSnoc(a: seq<ToolResult>, r: ToolResult)
    ensures ResultIdSet(a + [r]) == ResultIdSet(a) + {r.toolUseId}
  {
    assert r in a + [r];
    assert forall x :: x in a + [r] <==> x in a || x == r;
  }

  lemma NewId(results: seq<ToolResult>, id: string)
    requires forall j | 0 <= j < |results| :: results[j].toolUseId != id
    ensures id !in ResultIdSet(results)
  {
    forall r | r in results
      ensures r.toolUseId != id
    {
      var j :| 0 <= j < |results| && results[j] == r;
    }
  }

  /** The first result of the message that answers an open call is the one kept. */
  lemma {:induction false} FilterKeepsFirst(results: seq<ToolResult>, open: set<string>, i: nat)
    requires i < |results|
    requires results[i].toolUseId in open
    requires forall j | 0 <= j < i :: results[j].toolUseId != results[i].toolUseId
    ensures results[i] in Filter(results, open).0
    decreases |results|
  {
    var init, last := results[..|results| - 1], results[|results| - 1];
    if i < |results| - 1 {
      FilterKeepsFirst(init, open, i);
    } else {
      FilterSpec(init, open);
      NewId(init, last.toolUseId);
    }
  }

  lemma {:induction false} KeepUsesSpec(uses: seq<ToolUseEntry>, orphans: set<string>)
    ensures forall u :: u in KeepUses(uses, orphans) <==> u in uses && u.toolUseId !in orphans
    ensures orphans !! UseIds(uses) ==> KeepUses(uses, orphans) == uses
    decreases |uses|
  {
    if uses != [] {
      var init, last := uses[..|uses| - 1], uses[|uses| - 1];
      assert uses == init + [last];
      KeepUsesSpec(init, orphans);
      assert last.toolUseId in UseIds(uses);
      assert UseIds(init) <= UseIds(uses);
    }
  }

  lemma {:induction false} KeepUsesAppend(a: seq<ToolUseEntry>, b: seq<ToolUseEntry>, orphans: set<string>)
    ensures KeepUses(a + b, orphans) == KeepUses(a, orphans) + KeepUses(b, orphans)
    decreases |b|
  {
    if b == [] {
      assert a + b == a;
    } else {
      assert (a + b)[..|a + b| - 1] == a + b[..|b| - 1];
      KeepUsesAppend(a, b[..|b| - 1], orphans);
    }
  }

  lemma RemovedSnoc(h: seq<HistoryMessage>, m: HistoryMessage, orphans: set<string>)
    ensures Removed(h + [m], orphans) == Removed(h, orphans) + [Repaired(m, orphans)]
  {
  }

  lemma KeepNothingOut(uses: seq<ToolUseEntry>)
    ensures KeepUses(uses, {}) == uses
  {
    KeepUsesSpec(uses, {});
  }

  /** Removal takes out the orphaned calls and nothing else: the other calls keep their order,
      results stay, and so do roles and texts. */
  lemma {:induction false} RemovedSpec(h: seq<HistoryMessage>, orphans: set<string>)
    ensures HistoryUses(Removed(h, orphans)) == KeepUses(HistoryUses(h), orphans)
    ensures HistoryResultIds(Removed(h, orphans)) == HistoryResultIds(h)
    ensures forall i | 0 <= i < |h| ::
              SameKind(Removed(h, orphans)[i], h[i]) && Removed(h, orphans)[i].content == h[i].content
    decreases |h|
  {
    if h != [] {
      var init, m := h[..|h| - 1], h[|h| - 1];
      assert h == init + [m];
      RemovedSpec(init, orphans);
      RemovedSnoc(init, m, orphans);
      RepairedSnoc(init, Removed(init, orphans), m, orphans);
    }
  }

  lemma RepairedSnoc(h: seq<HistoryMessage>, h': seq<HistoryMessage>, m: HistoryMessage, orphans: set<string>)
    requires HistoryUses(h') == KeepUses(HistoryUses(h), orphans) && HistoryResultIds(h') == HistoryResultIds(h)
    ensures HistoryUses(h' + [Repaired(m, orphans)]) == KeepUses(HistoryUses(h + [m]), orphans)
    ensures HistoryResultIds(h' + [Repaired(m, orphans)]) == HistoryResultIds(h + [m])
  {
    HistorySnoc(h, m);
    HistorySnoc(h', Repaired(m, orphans));
    var uses := if m.Assistant? then m.toolUses.GetOr([]) else [];
    KeepUsesAppend(HistoryUses(h), uses, orphans);
    KeepNothingOut(uses);
  }

  /** After the repair every call left in history is answered in history or by a kept result;
      kept results have distinct ids and answer calls that history left open. */
  lemma RepairedIsPaired(h: seq<HistoryMessage>, results: seq<ToolResult>)
    ensures var (kept, orphans) := Validated(h, results);
            var h' := Removed(h, orphans);
            && Called(h') <= Answered(h') + ResultIdSet(kept)
            && DistinctIds(kept)
            && ResultIdSet(kept) <= Called(h') - Answered(h')
            && (forall r <- kept :: r in results)
            && Called(h') == Called(h) - orphans
            && orphans == Called(h) - Answered(h) - ResultIdSet(results)
  {
    var open := Called(h) - Answered(h);
    var (kept, orphans) := Validated(h, results);
    FilterSpec(results, open);
    RemovedSpec(h, orphans);
    KeepUsesSpec(HistoryUses(h), orphans);
    var h' := Removed(h, orphans);
    assert Answered(h') == Answered(h);
    forall id
      ensures id in Called(h') <==> id in Called(h) && id !in orphans
    {
      if id in Called(h) && id !in orphans {
        var u :| u in HistoryUses(h) && u.toolUseId == id;
        assert u in HistoryUses(h');
      }
      if id in Called(h') {
        var u :| u in HistoryUses(h') && u.toolUseId == id;
        assert u in HistoryUses(h);
      }
    }
  }

  lemma {:induction false} FilterAgain(results: seq<ToolResult>, open: set<string>, open': set<string>)
    requires open' <= open && open * ResultIdSet(results) <= open'
    ensures Filter(results, open').0 == Filter(results, open).0
    ensures Filter(results, open').1 == open' - ResultIdSet(results)
    decreases |results|
  {
    FilterSpec(results, open');
    if results != [] {
      var init, last := results[..|results| - 1], results[|results| - 1];
      assert results == init + [last];
      ResultIdSetSnoc(init, last);
      FilterAgain(init, open, open');
      FilterSpec(init, open);
      FilterSpec(init, open');
    }
  }

  /** Running both steps again, on the same results or on the kept ones, changes nothing. */
  lemma RepairIsIdempotent(h: seq<HistoryMessage>, results: seq<ToolResult>)
    ensures var (kept, orphans) := Validated(h, results);
            var h' := Removed(h, orphans);
            && Validated(h', results) == (kept, {})
            && Validated(h', kept) == (kept, {})
            && Removed(h', {}) == h'
  {
    var open := Called(h) - Answered(h);
    var (kept, orphans) := Validated(h, results);
    var h' := Removed(h, orphans);
    RepairedIsPaired(h, results);
    RemovedSpec(h, orphans);
    var open' := Called(h') - Answered(h');
    assert open' == open * ResultIdSet(results);
    FilterTwice(results, open);
    NothingRemoved(h');
  }

  lemma FilterTwice(results: seq<ToolResult>, open: set<string>)
    ensures var kept, open' := Filter(results, open).0, open * ResultIdSet(results);
            Filter(results, open') == (kept, {}) && Filter(kept, open') == (kept, {})
  {
    var kept, open' := Filter(results, open).0, open * ResultIdSet(results);
    FilterSpec(results, open);
    FilterAgain(results, open, open');
    FilterAll(kept, open');
    assert open' - ResultIdSet(results) == {} && open' - ResultIdSet(kept) == {};
  }

  lemma NothingRemoved(h: seq<HistoryMessage>)
    ensures Removed(h, {}) == h
  {
  }

  /** Distinct results that are all open are all kept. */
  lemma {:induction false} FilterAll(results: seq<ToolResult>, open: set<string>)
    requires DistinctIds(results) && ResultIdSet(results) <= open
    ensures Filter(results, open) == (results, open - ResultIdSet(results))
    decreases |results|
  {
    FilterSpec(results, open);
    if results != [] {
      var init, last := results[..|results| - 1], results[|results| - 1];
      assert results == init + [last];
      ResultIdSetSnoc(init, last);
      NewId(init, last.toolUseId);
      FilterAll(init, open);
    }
  }

  // ----- Declared tools -----

  /** Names of tools used in history, each once, in order of first use. */
  function UsedNames(uses: seq<ToolUseEntry>): seq<string> {
    if uses == [] then []
    else
      var before := UsedNames(uses[..|uses| - 1]);
      if uses[|uses| - 1].name in before then before else before + [uses[|uses| - 1].name]
  }

  lemma {:induction false} UsedNamesSpec(uses: seq<ToolUseEntry>)
    ensures forall n :: n in UsedNames(uses) <==> exists u <- uses :: u.name == n
    ensures forall i, j | 0 <= i < j < |UsedNames(uses)| :: UsedNames(uses)[i] != UsedNames(uses)[j]
    decreases |uses|
  {
    if uses != [] {
      var init, last := uses[..|uses| - 1], uses[|uses| - 1];
      assert uses == init + [last];
      UsedNamesSpec(init);
      forall n
        ensures n in UsedNames(uses) <==> exists u <- uses :: u.name == n
      {
        if n in UsedNames(init) {
          var u :| u in init && u.name == n;
          assert u in uses;
        }
        if n == last.name {
          assert last in uses;
        }
      }
    }
  }

  predicate Declared(tools: seq<string>, name: string, lower: string -> string) {
    exists t <- tools :: lower(t) == lower(name)
  }

  /** A placeholder for each used name not among the declared ones, ignoring case; the declared
      names are taken once, before the loop. */
  function WithPlaceholders(tools: seq<string>, names: seq<string>, lower: string -> string): seq<string> {
    if names == [] then tools
    else
      WithPlaceholders(tools, names[..|names| - 1], lower) +
      if Declared(tools, names[|names| - 1], lower) then [] else [names[|names| - 1]]
  }

  method AddPlaceholders(tools: seq<string>, names: seq<string>, lower: string -> string) returns (r: seq<string>)
    ensures r == WithPlaceholders(tools, names, lower)
  {
    var existing := set t | t in tools :: lower(t);
    r := tools;
    for i := 0 to |names|
      invariant r == WithPlaceholders(tools, names[..i], lower)
    {
      assert names[..i + 1][..i] == names[..i];
      if lower(names[i]) !in existing {
        r := r + [names[i]];
      }
    }
    assert names[..|names|] == names;
  }

  lemma {:induction false} PlaceholdersDeclareAll(tools: seq<string>, names: seq<string>, lower: string -> string)
    ensures tools <= WithPlaceholders(tools, names, lower)
    ensures forall n <- names :: Declared(WithPlaceholders(tools, names, lower), n, lower)
    decreases |names|
  {
    if names != [] {
      var init, last := names[..|names| - 1], names[|names| - 1];
      assert names == init + [last];
      PlaceholdersDeclareAll(tools, init, lower);
      var before, r := WithPlaceholders(tools, init, lower), WithPlaceholders(tools, names, lower);
      assert before <= r && tools <= r;
      forall n | n in names
        ensures Declared(r, n, lower)
      {
        if n in init {
          var t :| t in before && lower(t) == lower(n);
          assert t in r;
        } else if Declared(tools, n, lower) {
          var t :| t in tools && lower(t) == lower(n);
          assert t in r;
        } else {
          assert n in r;
        }
      }
    }
  }

  // ----- The conversion -----

  /** The messages up to the last user message: a trailing prefill is dropped. */
  function DropPrefill(msgs: seq<Message>): seq<Message> {
    if msgs == [] || msgs[|msgs| - 1].role == "user" then msgs else DropPrefill(msgs[..|msgs| - 1])
  }

  lemma {:induction false} DropPrefillSpec(msgs: seq<Message>)
    ensures DropPrefill(msgs) <= msgs
    ensures DropPrefill(msgs) != [] ==> DropPrefill(msgs)[|DropPrefill(msgs)| - 1].role == "user"
    ensures forall i | |DropPrefill(msgs)| <= i < |msgs| :: msgs[i].role != "user"
  {
    if msgs != [] && msgs[|msgs| - 1].role != "user" {
      DropPrefillSpec(msgs[..|msgs| - 1]);
    }
  }

  /** What of a converted request the repair is about. */
  datatype Conversion = Conversion(
    text: string,
    images: seq<KiroImage>,
    toolResults: seq<ToolResult>,
    history: seq<HistoryMessage>,
    toolNames: seq<string>)

  function Convert(
    prologue: seq<HistoryMessage>, all: seq<Message>, tools: seq<string>, lower: string -> string, env: Env)
    : Result<Conversion, ConversionError>
  {
    var msgs := DropPrefill(all);
    if msgs == [] then Failure(EmptyMessages)
    else
      var current :- UserContent(msgs[|msgs| - 1].content, None, env);
      var history :- HistoryOf(prologue, msgs, env);
      var (kept, orphans) := Validated(history, current.results);
      var repaired := Removed(history, orphans);
      Success(Conversion(Strings.Join(current.texts, "\n"), current.images, kept, repaired,
                         WithPlaceholders(tools, UsedNames(HistoryUses(repaired)), lower)))
  }

  method UpToLastUser(all: seq<Message>) returns (msgs: seq<Message>)
    ensures msgs == DropPrefill(all) <= all
    ensures msgs != [] ==> msgs[|msgs| - 1].role == "user"
    ensures forall i | |msgs| <= i < |all| :: all[i].role != "user"
  {
    DropPrefillSpec(all);
    var n := |all|;
    assert all[..n] == all;
    while n > 0 && all[n - 1].role != "user"
      invariant 0 <= n <= |all|
      invariant DropPrefill(all) == DropPrefill(all[..n])
    {
      assert all[..n][..n - 1] == all[..n - 1];
      n := n - 1;
    }
    msgs := all[..n];
  }

  /** The Kiro names under which a request's tools are offered. */
  function OfferedNames(tools: seq<string>, lower: string -> string, env: Env): seq<string> {
    KiroNames(Offered(tools, env.mode, env.digest, lower), env.mode, env.digest)
  }

  /** The client names a request records: of its tools, then of the calls before the current message. */
  function RequestNames(tools: seq<string>, all: seq<Message>, env: Env): seq<string> {
    var msgs := DropPrefill(all);
    Recorded(tools, CallNames(if msgs == [] then [] else msgs[..|msgs| - 1]), env.mode)
  }

  /** `tools` are the client's names; `names` is the map that leads from Kiro names back to them. */
  method ConvertRequest(
    prologue: seq<HistoryMessage>, all: seq<Message>, tools: seq<string>, lower: string -> string, env: Env)
    returns (r: Result<Conversion, ConversionError>, names: NameMap)
    ensures r == Convert(prologue, all, OfferedNames(tools, lower, env), lower, env)
    ensures r.Success? ==> names == RecordAll(map[], RequestNames(tools, all, env), env.mode, env.digest)
  {
    hide HistoryOf, UserContent, WithPlaceholders, UsedNames, HistoryUses;
    hide RecordAll, Visible, CallNames, Offered, KiroNames;
    var msgs := UpToLastUser(all);
    names := map[];
    if msgs == [] {
      return Failure(EmptyMessages), names;
    }
    var current :- ProcessMessageContent(msgs[|msgs| - 1].content, None, env);
    var offered, recorded := ConvertTools(tools, env.mode, env.digest, lower);
    var built, withCalls := BuildHistory(prologue, msgs, env, recorded);
    RecordAllAppend(map[], Visible(tools, env.mode), CallNames(msgs[..|msgs| - 1]), env.mode, env.digest);
    names := withCalls;
    var history :- built;
    var kept, orphans := ValidateToolPairing(history, current.results);
    var a := new HistoryMessage[|history|](i requires 0 <= i < |history| => history[i]);
    assert a[..] == history;
    RemoveOrphanedToolUses(a, orphans);
    var toolNames := AddPlaceholders(offered, UsedNames(HistoryUses(a[..])), lower);
    r := Success(Conversion(Strings.Join(current.texts, "\n"), current.images, kept, a[..], toolNames));
  }

  /** Every converted request is acceptable upstream: its history ends in an assistant and has no
      two adjacent user messages, every call left is answered, kept results are distinct and
      answer open calls, and every tool named in history is declared, ignoring case. */
  lemma ConversionIsSound(
    prologue: seq<HistoryMessage>, all: seq<Message>, tools: seq<string>, lower: string -> string, env: Env)
    requires IsPrologue(prologue)
    requires Convert(prologue, all, tools, lower, env).Success?
    ensures var c := Convert(prologue, all, tools, lower, env).value;
            && EndsInAssistant(c.history) && NoAdjacentUsers(c.history)
            && Called(c.history) <= Answered(c.history) + ResultIdSet(c.toolResults)
            && DistinctIds(c.toolResults)
            && ResultIdSet(c.toolResults) <= Called(c.history) - Answered(c.history)
            && forall u <- HistoryUses(c.history) :: Declared(c.toolNames, u.name, lower)
  {
    hide HistoryOf, UserContent, Filter, WithPlaceholders, UsedNames, HistoryUses;
    var msgs := DropPrefill(all);
    var current := UserContent(msgs[|msgs| - 1].content, None, env).value;
    var history := HistoryOf(prologue, msgs, env).value;
    var orphans := Validated(history, current.results).1;
    var repaired := Removed(history, orphans);
    HistoryShape(prologue, msgs, env);
    RepairedIsPaired(history, current.results);
    RemovedSpec(history, orphans);
    var names := UsedNames(HistoryUses(repaired));
    UsedNamesSpec(HistoryUses(repaired));
    PlaceholdersDeclareAll(tools, names, lower);
    forall i | 0 <= i < |history|
      ensures SameKind(repaired[i], history[i])
    {
    }
  }

  function IdSet(ids: seq<string>): set<string> {
    set id | id in ids
  }

  /** The client's calls before the current message, without those that no client message answers. */
  function AnsweredCalls(all: seq<Message>, env: Env): seq<ToolUseEntry> {
    var msgs := DropPrefill(all);
    if msgs == [] then []
    else
      var prefix, current := msgs[..|msgs| - 1], msgs[|msgs| - 1];
      var before, now := IdSet(ClientResultIds(prefix)), IdSet(MessageResultIds(current));
      KeepUses(ClientUses(prefix, env), UseIds(ClientUses(prefix, env)) - before - now)
  }

  lemma AnsweredCallsOf(prefix: seq<Message>, last: Message, env: Env, orphans: set<string>)
    requires last.role == "user"
    requires orphans == UseIds(ClientUses(prefix, env)) - IdSet(ClientResultIds(prefix)) - IdSet(MessageResultIds(last))
    ensures AnsweredCalls(prefix + [last], env) == KeepUses(ClientUses(prefix, env), orphans)
  {
    var all := prefix + [last];
    assert DropPrefill(all) == all && all[..|all| - 1] == prefix;
  }

  /** End to end, the calls of the converted history are the client's answered calls, in order. */
  lemma ConversionKeepsAnsweredCalls(
    prologue: seq<HistoryMessage>, all: seq<Message>, tools: seq<string>, lower: string -> string, env: Env)
    requires IsPrologue(prologue) && HistoryUses(prologue) == [] && HistoryResultIds(prologue) == []
    requires Convert(prologue, all, tools, lower, env).Success?
    ensures HistoryUses(Convert(prologue, all, tools, lower, env).value.history) == AnsweredCalls(all, env)
  {
    hide HistoryOf, UserContent, Filter, WithPlaceholders, UsedNames, HistoryUses, KeepUses;
    var msgs := DropPrefill(all);
    var last := msgs[|msgs| - 1];
    var current := UserContent(last.content, None, env).value;
    var history := HistoryOf(prologue, msgs, env).value;
    HistoryIsComplete(prologue, msgs, env);
    UserContentResults(last, None, env);
    IdsSet(current.results);
    RepairedIsPaired(history, current.results);
    RemovedSpec(history, Validated(history, current.results).1);
  }
}
