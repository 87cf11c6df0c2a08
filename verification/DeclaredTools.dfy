/** Whatever declared tool the upstream calls, the client gets a call of a tool of its own request. */
module DeclaredTools {
  import opened Wrappers
  import opened Types
  import opened ToolMap
  import opened ToolNames
  import opened History
  import opened Pairing
  import opened Placeholders
  import Json

  /** Each use has the Kiro name of one of the client names. */
  predicate NamedAfter(uses: seq<ToolUseEntry>, names: seq<string>, env: Env) {
    forall u <- uses :: exists n <- names :: KiroName(n, env.mode, env.digest) == u.name
  }

  lemma NamedAfterAppend(
    a: seq<ToolUseEntry>, x: seq<string>, b: seq<ToolUseEntry>, y: seq<string>, env: Env)
    requires NamedAfter(a, x, env) && NamedAfter(b, y, env)
    ensures NamedAfter(a + b, x + y, env)
  {
    forall u | u in a + b
      ensures exists n <- x + y :: KiroName(n, env.mode, env.digest) == u.name
    {
      if u in a {
        var n :| n in x && KiroName(n, env.mode, env.digest) == u.name;
        assert n in x + y;
      } else {
        var n :| n in y && KiroName(n, env.mode, env.digest) == u.name;
        assert n in x + y;
      }
    }
  }

  lemma UseNamedAfter(v: Json.Value, env: Env)
    requires UseOf(v, env).Success?
    ensures NamedAfter(UseOf(v, env).value, CallNameOf(v), env)
  {
    hide KiroName, ParseBlock;
  }

  lemma {:induction false} UsesNamedAfter(items: seq<Json.Value>, env: Env)
    requires UsesIn(items, env).Success?
    ensures NamedAfter(UsesIn(items, env).value, CallNamesIn(items), env)
    decreases |items|
  {
    if items != [] {
      var init, last := items[..|items| - 1], items[|items| - 1];
      UsesNamedAfter(init, env);
      UseNamedAfter(last, env);
      NamedAfterAppend(UsesIn(init, env).value, CallNamesIn(init), UseOf(last, env).value, CallNameOf(last), env);
    }
  }

  /** The calls of the client's messages have the Kiro names of what the conversion records. */
  lemma {:induction false} CallsNamedAfter(msgs: seq<Message>, env: Env)
    ensures NamedAfter(ClientUses(msgs, env), CallNames(msgs), env)
    decreases |msgs|
  {
    if msgs != [] {
      var init, last := msgs[..|msgs| - 1], msgs[|msgs| - 1];
      CallsNamedAfter(init, env);
      var uses := if last.role == "assistant" && MessageUses(last, env).Success? then MessageUses(last, env).value
                  else [];
      var names := if last.role == "assistant" then MessageCallNames(last) else [];
      if last.role == "assistant" && MessageUses(last, env).Success? && last.content.Arr? {
        UsesNamedAfter(last.content.items, env);
      }
      NamedAfterAppend(ClientUses(init, env), CallNames(init), uses, names, env);
    }
  }

  /** What is restored for a name's Kiro name is a name of the request that has it. */
  lemma RestoredIsNamed(names: seq<string>, n: string, mode: Mode, digest: string -> string)
    requires n in names
    ensures var k := KiroName(n, mode, digest);
            var restored := RestoreName(RecordAll(map[], names, mode, digest), k);
            restored in names && KiroName(restored, mode, digest) == k
  {
    hide RecordAll;
    RecordAllSpec(names, mode, digest);
  }

  /** A declared tool is an offered one or a placeholder for a call of the history. */
  lemma DeclaredIsNamed(
    prologue: seq<HistoryMessage>, all: seq<Message>, tools: seq<string>, lower: string -> string, env: Env,
    c: Conversion, k: string) returns (n: string)
    requires IsPrologue(prologue) && HistoryUses(prologue) == [] && HistoryResultIds(prologue) == []
    requires Convert(prologue, all, OfferedNames(tools, lower, env), lower, env) == Success(c) && k in c.toolNames
    ensures n in RequestNames(tools, all, env) && KiroName(n, env.mode, env.digest) == k
  {
    hide Convert, AnsweredCalls, UsedNames, Added, WithPlaceholders, HistoryUses, KiroName, CallNames;
    var offered := OfferedNames(tools, lower, env);
    var used, msgs := UsedNames(HistoryUses(c.history)), DropPrefill(all);
    ConvertedNames(prologue, all, offered, lower, env, c);
    ConversionKeepsAnsweredCalls(prologue, all, offered, lower, env);
    PlaceholdersFollow(offered, used, lower);
    if k in offered {
      n := OfferedOne(tools, lower, env, k);
      var calls := CallNames(if msgs == [] then [] else msgs[..|msgs| - 1]);
      OfferedIsRecorded(tools, calls, n, env.mode, env.digest, lower);
    } else {
      AddedContents(offered, used, lower);
      UsedNamesSpec(AnsweredCalls(all, env));
      var u :| u in AnsweredCalls(all, env) && u.name == k;
      n := AnsweredNamed(all, env, u);
    }
  }

  lemma OfferedOne(tools: seq<string>, lower: string -> string, env: Env, k: string) returns (n: string)
    requires k in OfferedNames(tools, lower, env)
    ensures n in Offered(tools, env.mode, env.digest, lower) && KiroName(n, env.mode, env.digest) == k
  {
    var offered := Offered(tools, env.mode, env.digest, lower);
    var i :| 0 <= i < |offered| && KiroNames(offered, env.mode, env.digest)[i] == k;
    n := offered[i];
  }

  lemma AnsweredNamed(all: seq<Message>, env: Env, u: ToolUseEntry) returns (n: string)
    requires u in AnsweredCalls(all, env)
    ensures var msgs := DropPrefill(all);
            msgs != [] && n in CallNames(msgs[..|msgs| - 1])
    ensures KiroName(n, env.mode, env.digest) == u.name
  {
    var msgs := DropPrefill(all);
    var prefix, current := msgs[..|msgs| - 1], msgs[|msgs| - 1];
    var orphans := UseIds(ClientUses(prefix, env)) - IdSet(ClientResultIds(prefix)) - IdSet(MessageResultIds(current));
    KeepUsesSpec(ClientUses(prefix, env), orphans);
    CallsNamedAfter(prefix, env);
    n :| n in CallNames(prefix) && KiroName(n, env.mode, env.digest) == u.name;
  }

  /** For every request that is converted, whatever declared tool the upstream calls, placeholders included: the
      name the client gets is one of its request, and has the Kiro name that was called. */
  lemma DeclaredNamesComeBack(
    prologue: seq<HistoryMessage>, all: seq<Message>, tools: seq<string>, lower: string -> string, env: Env,
    c: Conversion)
    requires IsPrologue(prologue) && HistoryUses(prologue) == [] && HistoryResultIds(prologue) == []
    requires Convert(prologue, all, OfferedNames(tools, lower, env), lower, env) == Success(c)
    ensures var names := RequestNames(tools, all, env);
            var m := RecordAll(map[], names, env.mode, env.digest);
            forall k <- c.toolNames ::
              RestoreName(m, k) in names && KiroName(RestoreName(m, k), env.mode, env.digest) == k
  {
    hide Convert, RequestNames, RecordAll, RestoreName;
    var names := RequestNames(tools, all, env);
    forall k | k in c.toolNames
      ensures var restored := RestoreName(RecordAll(map[], names, env.mode, env.digest), k);
              restored in names && KiroName(restored, env.mode, env.digest) == k
    {
      var n := DeclaredIsNamed(prologue, all, tools, lower, env, c, k);
      RestoredIsNamed(names, n, env.mode, env.digest);
    }
  }
}
