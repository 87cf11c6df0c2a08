/** Placeholder tools: when the names the conversion adds are distinct ignoring case.  The set of
    declared names is not extended while placeholders are added. */
module Placeholders {
  import opened Wrappers
  import opened Types
  import opened ToolMap
  import opened ToolNames
  import opened History
  import opened Pairing
  import Json

  predicate DistinctIgnoringCase(names: seq<string>, lower: string -> string) {
    forall i, j | 0 <= i < j < |names| :: lower(names[i]) != lower(names[j])
  }

  /** The placeholders alone. */
  function Added(tools: seq<string>, names: seq<string>, lower: string -> string): seq<string> {
    if names == [] then []
    else
      Added(tools, names[..|names| - 1], lower) +
      if Declared(tools, names[|names| - 1], lower) then [] else [names[|names| - 1]]
  }

  lemma {:induction false} PlaceholdersFollow(tools: seq<string>, names: seq<string>, lower: string -> string)
    ensures WithPlaceholders(tools, names, lower) == tools + Added(tools, names, lower)
    decreases |names|
  {
    if names == [] {
      assert tools + [] == tools;
    } else {
      PlaceholdersFollow(tools, names[..|names| - 1], lower);
    }
  }

  lemma {:induction false} AddedContents(tools: seq<string>, names: seq<string>, lower: string -> string)
    ensures forall n :: n in Added(tools, names, lower) <==> n in names && !Declared(tools, n, lower)
    decreases |names|
  {
    if names != [] {
      var init, last := names[..|names| - 1], names[|names| - 1];
      assert names == init + [last];
      AddedContents(tools, init, lower);
    }
  }

  /** No two undeclared names agree ignoring case. */
  predicate NoClash(tools: seq<string>, names: seq<string>, lower: string -> string) {
    forall i, j | 0 <= i < j < |names| ::
      !Declared(tools, names[i], lower) && !Declared(tools, names[j], lower) ==> lower(names[i]) != lower(names[j])
  }

  lemma DistinctSnoc(names: seq<string>, last: string, lower: string -> string)
    ensures DistinctIgnoringCase(names + [last], lower) <==>
            DistinctIgnoringCase(names, lower) && forall n <- names :: lower(n) != lower(last)
  {
    var all := names + [last];
    if DistinctIgnoringCase(all, lower) {
      forall i, j | 0 <= i < j < |names|
        ensures lower(names[i]) != lower(names[j])
      {
        assert all[i] == names[i] && all[j] == names[j];
      }
      forall n | n in names
        ensures lower(n) != lower(last)
      {
        var i :| 0 <= i < |names| && names[i] == n;
        assert all[i] == n && all[|names|] == last;
      }
    }
  }

  lemma NoClashSnoc(tools: seq<string>, names: seq<string>, last: string, lower: string -> string)
    ensures NoClash(tools, names + [last], lower) <==>
            NoClash(tools, names, lower) &&
            forall n <- names :: !Declared(tools, n, lower) && !Declared(tools, last, lower) ==> lower(n) != lower(last)
  {
    var all := names + [last];
    if NoClash(tools, all, lower) {
      forall i, j | 0 <= i < j < |names|
        ensures !Declared(tools, names[i], lower) && !Declared(tools, names[j], lower) ==>
                  lower(names[i]) != lower(names[j])
      {
        assert all[i] == names[i] && all[j] == names[j];
      }
      forall n | n in names
        ensures !Declared(tools, n, lower) && !Declared(tools, last, lower) ==> lower(n) != lower(last)
      {
        var i :| 0 <= i < |names| && names[i] == n;
        assert all[i] == n && all[|names|] == last;
      }
    }
  }

  /** The given tools stay in front, and the placeholders after them are distinct ignoring case if
      and only if no two undeclared names agree ignoring case. */
  lemma {:induction false} PlaceholdersDistinctIff(tools: seq<string>, names: seq<string>, lower: string -> string)
    ensures tools <= WithPlaceholders(tools, names, lower)
    ensures DistinctIgnoringCase(WithPlaceholders(tools, names, lower)[|tools|..], lower) <==>
            NoClash(tools, names, lower)
  {
    PlaceholdersFollow(tools, names, lower);
    assert (tools + Added(tools, names, lower))[|tools|..] == Added(tools, names, lower);
    AddedDistinctIff(tools, names, lower);
  }

  lemma {:induction false} AddedDistinctIff(tools: seq<string>, names: seq<string>, lower: string -> string)
    ensures DistinctIgnoringCase(Added(tools, names, lower), lower) <==> NoClash(tools, names, lower)
    decreases |names|
  {
    if names != [] {
      var init, last := names[..|names| - 1], names[|names| - 1];
      assert names == init + [last];
      AddedDistinctIff(tools, init, lower);
      AddedContents(tools, init, lower);
      NoClashSnoc(tools, init, last, lower);
      var added := Added(tools, init, lower);
      if Declared(tools, last, lower) {
        assert added + [] == added;
      } else {
        DistinctSnoc(added, last, lower);
        assert (forall n <- added :: lower(n) != lower(last)) <==>
               (forall n <- init :: !Declared(tools, n, lower) ==> lower(n) != lower(last));
      }
    }
  }

  /** No two calls of undeclared tools have different names that agree ignoring case. */
  predicate CallsDoNotClash(tools: seq<string>, uses: seq<ToolUseEntry>, lower: string -> string) {
    forall u <- uses, v <- uses ::
      u.name != v.name && !Declared(tools, u.name, lower) ==> lower(u.name) != lower(v.name)
  }

  lemma UsedNamesClash(tools: seq<string>, uses: seq<ToolUseEntry>, lower: string -> string)
    ensures NoClash(tools, UsedNames(uses), lower) <==> CallsDoNotClash(tools, uses, lower)
  {
    var names := UsedNames(uses);
    UsedNamesSpec(uses);
    if CallsDoNotClash(tools, uses, lower) {
      forall i, j | 0 <= i < j < |names|
        ensures !Declared(tools, names[i], lower) && !Declared(tools, names[j], lower) ==>
                  lower(names[i]) != lower(names[j])
      {
        assert names[i] in names && names[j] in names;
      }
    }
    if NoClash(tools, names, lower) {
      forall u, v | u in uses && v in uses && u.name != v.name && !Declared(tools, u.name, lower)
        ensures lower(u.name) != lower(v.name)
      {
        assert u.name in names && v.name in names;
        var i :| 0 <= i < |names| && names[i] == u.name;
        var j :| 0 <= j < |names| && names[j] == v.name;
        NamesDiffer(tools, names, lower, i, j);
      }
    }
  }

  lemma NamesDiffer(tools: seq<string>, names: seq<string>, lower: string -> string, i: nat, j: nat)
    requires NoClash(tools, names, lower) && i < |names| && j < |names| && i != j
    requires !Declared(tools, names[i], lower)
    ensures lower(names[i]) != lower(names[j])
  {
    if Declared(tools, names[j], lower) {
      var t :| t in tools && lower(t) == lower(names[j]);
      assert lower(t) != lower(names[i]);
    }
  }

  lemma ConvertedNames(
    prologue: seq<HistoryMessage>, all: seq<Message>, tools: seq<string>, lower: string -> string, env: Env,
    c: Conversion)
    requires Convert(prologue, all, tools, lower, env) == Success(c)
    ensures c.toolNames == WithPlaceholders(tools, UsedNames(HistoryUses(c.history)), lower)
  {
  }

  /** For every request that is converted: the placeholders are distinct ignoring case if and only
      if no two answered calls of undeclared tools have names that differ in case only. */
  lemma ConvertedPlaceholdersDistinctIff(
    prologue: seq<HistoryMessage>, all: seq<Message>, tools: seq<string>, lower: string -> string, env: Env,
    c: Conversion)
    requires IsPrologue(prologue) && HistoryUses(prologue) == [] && HistoryResultIds(prologue) == []
    requires Convert(prologue, all, tools, lower, env) == Success(c)
    ensures tools <= c.toolNames
    ensures DistinctIgnoringCase(c.toolNames[|tools|..], lower) <==>
            CallsDoNotClash(tools, AnsweredCalls(all, env), lower)
  {
    ConvertedNames(prologue, all, tools, lower, env, c);
    ConversionKeepsAnsweredCalls(prologue, all, tools, lower, env);
    var uses := AnsweredCalls(all, env);
    PlaceholdersDistinctIff(tools, UsedNames(uses), lower);
    UsedNamesClash(tools, uses, lower);
  }

  // ----- Requests for which they are not -----

  function CallBlock(id: string, name: string): Json.Value {
    Json.Obj(map["type" := Json.Str("tool_use"), "id" := Json.Str(id), "name" := Json.Str(name)])
  }

  function AnswerBlock(id: string): Json.Value {
    Json.Obj(map["type" := Json.Str("tool_result"), "tool_use_id" := Json.Str(id)])
  }

  /** An assistant message that calls two tools, and a user message that answers both calls. */
  function Turns(a: string, x: string, b: string, y: string): seq<Message> {
    [Message("assistant", Json.Arr([CallBlock(a, x), CallBlock(b, y)])),
     Message("user", Json.Arr([AnswerBlock(a), AnswerBlock(b)]))]
  }

  function Entry(id: string, name: string): ToolUseEntry {
    ToolUseEntry(id, name, Json.Obj(map[]))
  }

  /** A name that reaches the upstream as it is. */
  predicate PassesAsIs(name: string) {
    KiroBuiltin(name).None? && Utf8Len(name) <= TOOL_NAME_MAX_LEN
  }

  lemma CallBlockParses(id: string, name: string)
    ensures var b := ParseBlock(CallBlock(id, name));
            b.Some? && b.value.blockType == "tool_use" && b.value.id == Some(id) && b.value.name == Some(name) &&
            b.value.input == None
  {
    assert CallBlock(id, name).fields.Keys == {"type", "id", "name"};
  }

  lemma OtherInputPasses(name: string, input: Json.Value, mode: Mode)
    requires KiroBuiltin(name).None?
    ensures InputToKiro(name, input, mode) == Success(input)
  {
  }

  lemma CallParses(id: string, name: string, env: Env)
    requires PassesAsIs(name)
    ensures UseOf(CallBlock(id, name), env) == Success([Entry(id, name)])
  {
    CallBlockParses(id, name);
    OtherInputPasses(name, Json.Obj(map[]), env.mode);
    UseOfParsed(CallBlock(id, name), env, ParseBlock(CallBlock(id, name)).value, Json.Obj(map[]));
  }

  lemma AnswerBlockParses(id: string)
    ensures var b := ParseBlock(AnswerBlock(id));
            b.Some? && b.value.blockType == "tool_result" && b.value.toolUseId == Some(id) && b.value.content == None
  {
    assert AnswerBlock(id).fields.Keys == {"type", "tool_use_id"};
  }

  lemma AnswerParses(id: string, acc: UserParts, env: Env)
    ensures ResultIdOf(AnswerBlock(id)) == [id]
    ensures UserBlock(AnswerBlock(id), acc, env).Success?
  {
    hide ParseBlock, LiftImage, AnswerBlock;
    AnswerBlockParses(id);
  }

  lemma TwoCalls(v: Json.Value, w: Json.Value, env: Env, a: ToolUseEntry, b: ToolUseEntry)
    requires UseOf(v, env) == Success([a]) && UseOf(w, env) == Success([b])
    ensures UsesIn([v, w], env) == Success([a, b])
  {
    UsesInSnoc([], v, env, [], [a]);
    assert [] + [v] == [v] && [] + [a] == [a];
    UsesInSnoc([v], w, env, [a], [b]);
    assert [v] + [w] == [v, w] && [a] + [b] == [a, b];
  }

  lemma TwoAnswers(v: Json.Value, w: Json.Value, a: string, b: string)
    requires ResultIdOf(v) == [a] && ResultIdOf(w) == [b]
    ensures ResultIdsIn([v, w]) == [a, b]
  {
    assert [v, w][..1] == [v] && [v][..0] == [];
    assert ResultIdsIn([v]) == [] + [a];
    assert [a] + [b] == [a, b];
  }

  lemma AnswersProcess(v: Json.Value, w: Json.Value, env: Env)
    requires forall acc :: UserBlock(v, acc, env).Success? && UserBlock(w, acc, env).Success?
    ensures UserContent(Json.Arr([v, w]), None, env).Success?
  {
    var start := UserParts([], [], [], None);
    assert [v, w][..1] == [v] && [v][..0] == [];
    assert UserBlocks([v], start, env) == UserBlock(v, start, env);
  }

  lemma TurnsParse(a: string, x: string, b: string, y: string, env: Env)
    requires PassesAsIs(x) && PassesAsIs(y)
    ensures var msgs := Turns(a, x, b, y);
            && MessageUses(msgs[0], env) == Success([Entry(a, x), Entry(b, y)])
            && MessageResultIds(msgs[1]) == [a, b]
            && UserContent(msgs[1].content, None, env).Success?
  {
    CallParses(a, x, env);
    CallParses(b, y, env);
    TwoCalls(CallBlock(a, x), CallBlock(b, y), env, Entry(a, x), Entry(b, y));
    forall acc
      ensures UserBlock(AnswerBlock(a), acc, env).Success? && UserBlock(AnswerBlock(b), acc, env).Success?
    {
      AnswerParses(a, acc, env);
      AnswerParses(b, acc, env);
    }
    AnswersProcess(AnswerBlock(a), AnswerBlock(b), env);
    AnswerParses(a, UserParts([], [], [], None), env);
    AnswerParses(b, UserParts([], [], [], None), env);
    TwoAnswers(AnswerBlock(a), AnswerBlock(b), a, b);
  }

  lemma OneAssistantIsHistory(calls: Message, answers: Message, env: Env)
    requires calls.role == "assistant" && MessageUses(calls, env).Success?
    ensures HistoryOf([], [calls, answers], env).Success?
  {
    assert [calls, answers][..1] == [calls] && [calls][..0] == [];
    assert AcceptAll(Builder([], [], [], {}), [calls], env) == Success(Builder([], [], [] + [calls], {}));
    assert ConvertAssistant(calls, env).Success?;
  }

  lemma AllAnswered(calls: Message, answers: Message, uses: seq<ToolUseEntry>, env: Env)
    requires calls.role == "assistant" && answers.role == "user"
    requires MessageUses(calls, env) == Success(uses)
    requires forall id <- UseIds(uses) :: id in MessageResultIds(answers)
    ensures AnsweredCalls([calls, answers], env) == uses
  {
    OneCalls(calls, env, uses);
    var orphans := UseIds(uses) - IdSet(ClientResultIds([calls])) - IdSet(MessageResultIds(answers));
    assert [calls, answers] == [calls] + [answers];
    AnsweredCallsOf([calls], answers, env, orphans);
    KeepUsesSpec(uses, orphans);
  }

  lemma OneCalls(calls: Message, env: Env, uses: seq<ToolUseEntry>)
    requires calls.role == "assistant" && MessageUses(calls, env) == Success(uses)
    ensures ClientUses([calls], env) == uses
  {
    ClientSnoc([], calls, env);
    assert [] + [calls] == [calls] && [] + uses == uses;
  }

  /** Any two undeclared names that differ in case only, both called and answered, are both added. */
  lemma PlaceholdersMayRepeat(a: string, x: string, b: string, y: string, lower: string -> string, env: Env)
    requires PassesAsIs(x) && PassesAsIs(y) && x != y && lower(x) == lower(y)
    ensures var r := Convert([], Turns(a, x, b, y), [], lower, env);
            r.Success? && r.value.toolNames == [x, y] && !DistinctIgnoringCase(r.value.toolNames, lower)
  {
    hide Convert, AnsweredCalls;
    var calls, answers := Turns(a, x, b, y)[0], Turns(a, x, b, y)[1];
    assert Turns(a, x, b, y) == [calls, answers];
    TurnsParse(a, x, b, y, env);
    OneAssistantIsHistory(calls, answers, env);
    var uses := [Entry(a, x), Entry(b, y)];
    assert UseIds(uses) == {a, b};
    AllAnswered(calls, answers, uses, env);
    AssemblyAddsBoth(calls, answers, uses, lower, env);
    TwoNames(uses, x, y, lower);
    assert lower([x, y][0]) == lower([x, y][1]);
  }

  lemma AssemblyAddsBoth(
    calls: Message, answers: Message, uses: seq<ToolUseEntry>, lower: string -> string, env: Env)
    requires answers.role == "user" && UserContent(answers.content, None, env).Success?
    requires HistoryOf([], [calls, answers], env).Success?
    requires AnsweredCalls([calls, answers], env) == uses
    ensures var r := Convert([], [calls, answers], [], lower, env);
            r.Success? && r.value.toolNames == WithPlaceholders([], UsedNames(uses), lower)
  {
    hide HistoryOf, UserContent, AnsweredCalls, UsedNames, WithPlaceholders;
    var c := Convert([], [calls, answers], [], lower, env).value;
    ConversionKeepsAnsweredCalls([], [calls, answers], [], lower, env);
    ConvertedNames([], [calls, answers], [], lower, env, c);
  }

  lemma TwoNames(uses: seq<ToolUseEntry>, x: string, y: string, lower: string -> string)
    requires |uses| == 2 && uses[0].name == x && uses[1].name == y && x != y
    ensures UsedNames(uses) == [x, y]
    ensures WithPlaceholders([], [x, y], lower) == [x, y]
  {
    NothingDeclared(x, lower);
    NothingDeclared(y, lower);
    hide Declared;
    assert uses[..1][..0] == [] && uses[..1][0] == uses[0];
    assert UsedNames(uses[..1]) == [] + [x];
    assert [x, y][..1] == [x] && [x][..0] == [];
    assert WithPlaceholders([], [x], lower) == [] + [x];
  }

  lemma NothingDeclared(name: string, lower: string -> string)
    ensures !Declared([], name, lower)
  {
  }

  /** For instance `Foo` and `foo`. */
  lemma FooMayRepeat(lower: string -> string, env: Env)
    requires lower("Foo") == lower("foo")
    ensures var r := Convert([], Turns("a", "Foo", "b", "foo"), [], lower, env);
            r.Success? && r.value.toolNames == ["Foo", "foo"]
  {
    PlaceholdersMayRepeat("a", "Foo", "b", "foo", lower, env);
  }
}
