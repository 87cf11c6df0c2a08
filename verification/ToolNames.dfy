/** Tool names, from the client's vocabulary to Kiro's and back: which tools of a request are offered
    upstream (`convert_tools`), what is recorded of their names, and which names come back. */
module ToolNames {
  import opened Wrappers
  import opened Json
  import opened ToolMap

  const TOOL_NAME_MAX_LEN := 63

  function Utf8Len(s: string): nat {
    if s == [] then 0 else
      var c := s[0] as int;
      (if c < 0x80 then 1 else if c < 0x800 then 2 else if c < 0x10000 then 3 else 4) + Utf8Len(s[1..])
  }

  /** Names over the limit become a prefix of 54 characters, `_` and eight digits of a digest. */
  function ShortName(name: string, digest: string -> string): string {
    (if |name| > 54 then name[..54] else name) + "_" + digest(name)
  }

  function KiroName(name: string, mode: Mode, digest: string -> string): string {
    if mode == ClaudeCode && KiroBuiltin(name).Some? then KiroBuiltin(name).value
    else if Utf8Len(name) <= TOOL_NAME_MAX_LEN then name
    else ShortName(name, digest)
  }

  predicate Renamed(name: string, mode: Mode) {
    (mode == ClaudeCode && KiroBuiltin(name).Some?) || Utf8Len(name) > TOOL_NAME_MAX_LEN
  }

  type NameMap = map<string, string>

  /** A renamed tool is recorded: the first client name of a built-in stays, the last long name wins. */
  function Record(m: NameMap, name: string, mode: Mode, digest: string -> string): NameMap {
    var kiro := KiroName(name, mode, digest);
    if mode == ClaudeCode && KiroBuiltin(name).Some? then (if kiro in m then m else m[kiro := name])
    else if Utf8Len(name) <= TOOL_NAME_MAX_LEN then m
    else m[kiro := name]
  }

  function RecordAll(m: NameMap, names: seq<string>, mode: Mode, digest: string -> string): NameMap {
    if names == [] then m else
      Record(RecordAll(m, names[..|names| - 1], mode, digest), names[|names| - 1], mode, digest)
  }

  function RestoreName(m: NameMap, kiro: string): string {
    if kiro in m then m[kiro] else kiro
  }

  function RestoreToolUse(kiro: string, input: Value, m: NameMap): (string, Value) {
    var name := RestoreName(m, kiro);
    (name, InputFromKiro(name, input))
  }

  lemma RecordAllSnoc(m: NameMap, names: seq<string>, last: string, mode: Mode, digest: string -> string)
    ensures RecordAll(m, names + [last], mode, digest) == Record(RecordAll(m, names, mode, digest), last, mode, digest)
  {
    assert (names + [last])[..|names|] == names;
  }

  lemma {:induction false} RecordAllAppend(
    m: NameMap, a: seq<string>, b: seq<string>, mode: Mode, digest: string -> string)
    ensures RecordAll(RecordAll(m, a, mode, digest), b, mode, digest) == RecordAll(m, a + b, mode, digest)
    decreases |b|
  {
    hide Record;
    if b == [] {
      assert a + b == a;
    } else {
      var init, last := b[..|b| - 1], b[|b| - 1];
      RecordAllAppend(m, a, init, mode, digest);
      assert a + b == (a + init) + [last];
      RecordAllSnoc(m, a + init, last, mode, digest);
    }
  }

  /** `map_client_tool_name_to_kiro`: the Kiro name, and the map with the tool recorded. */
  method MapName(name: string, start: NameMap, mode: Mode, digest: string -> string) returns (kiro: string, m: NameMap)
    ensures kiro == KiroName(name, mode, digest) && m == Record(start, name, mode, digest)
  {
    m := start;
    if mode == ClaudeCode && KiroBuiltin(name).Some? {
      kiro := KiroBuiltin(name).value;
      if kiro !in m {
        m := m[kiro := name];
      }
      return;
    }
    if Utf8Len(name) <= TOOL_NAME_MAX_LEN {
      return name, m;
    }
    kiro := ShortName(name, digest);
    m := m[kiro := name];
  }

  // ----- Tools offered upstream -----

  predicate Hidden(name: string, mode: Mode) {
    mode == ClaudeCode && name == "fs_append"
  }

  /** The tools that are looked at: all but `fs_append`. */
  function Visible(tools: seq<string>, mode: Mode): seq<string> {
    if tools == [] then []
    else Visible(tools[..|tools| - 1], mode) + if Hidden(tools[|tools| - 1], mode) then [] else [tools[|tools| - 1]]
  }

  function KiroNames(names: seq<string>, mode: Mode, digest: string -> string): seq<string> {
    seq(|names|, i requires 0 <= i < |names| => KiroName(names[i], mode, digest))
  }

  /** What tells two Kiro names apart. */
  function Fold(name: string, mode: Mode, digest: string -> string, lower: string -> string): string {
    lower(KiroName(name, mode, digest))
  }

  function Folds(names: seq<string>, mode: Mode, digest: string -> string, lower: string -> string): set<string> {
    set n | n in names :: Fold(n, mode, digest, lower)
  }

  /** The tools of a request that are offered: a later tool with the same Kiro name, ignoring case, is skipped. */
  function Offered(tools: seq<string>, mode: Mode, digest: string -> string, lower: string -> string): seq<string> {
    if tools == [] then []
    else
      var before, last := Offered(tools[..|tools| - 1], mode, digest, lower), tools[|tools| - 1];
      if Hidden(last, mode) || Fold(last, mode, digest, lower) in Folds(before, mode, digest, lower) then before
      else before + [last]
  }

  lemma OfferedSnoc(
    names: seq<string>, last: string, mode: Mode, digest: string -> string, lower: string -> string)
    ensures Folds(names + [last], mode, digest, lower) ==
            Folds(names, mode, digest, lower) + {Fold(last, mode, digest, lower)}
    ensures KiroNames(names + [last], mode, digest) ==
            KiroNames(names, mode, digest) + [KiroName(last, mode, digest)]
  {
  }

  /** What one more tool does to the tools looked at and to those offered. */
  lemma OneMoreTool(tools: seq<string>, i: nat, mode: Mode, digest: string -> string, lower: string -> string)
    requires i < |tools|
    ensures var before, last := tools[..i], tools[i];
            && Visible(tools[..i + 1], mode) == Visible(before, mode) + (if Hidden(last, mode) then [] else [last])
            && Offered(tools[..i + 1], mode, digest, lower) ==
               if Hidden(last, mode) || Fold(last, mode, digest, lower)
                  in Folds(Offered(before, mode, digest, lower), mode, digest, lower)
               then Offered(before, mode, digest, lower) else Offered(before, mode, digest, lower) + [last]
  {
    hide Fold, Folds, Hidden;
    assert tools[..i + 1][..i] == tools[..i];
  }

  /** `convert_tools`, as far as names go: the Kiro names offered, and the names recorded. */
  method ConvertTools(tools: seq<string>, mode: Mode, digest: string -> string, lower: string -> string)
    returns (out: seq<string>, m: NameMap)
    ensures out == KiroNames(Offered(tools, mode, digest, lower), mode, digest)
    ensures m == RecordAll(map[], Visible(tools, mode), mode, digest)
  {
    hide Record, RecordAll, KiroName, Visible, Offered, Folds, KiroNames;
    out, m := [], map[];
    var seen := {};
    NoTools(mode, digest, lower);
    for i := 0 to |tools|
      invariant out == KiroNames(Offered(tools[..i], mode, digest, lower), mode, digest)
      invariant seen == Folds(Offered(tools[..i], mode, digest, lower), mode, digest, lower)
      invariant m == RecordAll(map[], Visible(tools[..i], mode), mode, digest)
    {
      OneMoreTool(tools, i, mode, digest, lower);
      ghost var before, visible := Offered(tools[..i], mode, digest, lower), Visible(tools[..i], mode);
      if mode == ClaudeCode && tools[i] == "fs_append" {
        assert visible + [] == visible;
        continue;
      }
      RecordAllSnoc(map[], visible, tools[i], mode, digest);
      OfferedSnoc(before, tools[i], mode, digest, lower);
      var kiro;
      kiro, m := MapName(tools[i], m, mode, digest);
      if lower(kiro) in seen {
        continue;
      }
      seen := seen + {lower(kiro)};
      out := out + [kiro];
    }
    assert tools[..|tools|] == tools;
  }

  lemma NoTools(mode: Mode, digest: string -> string, lower: string -> string)
    ensures Offered([], mode, digest, lower) == [] && Visible([], mode) == []
    ensures KiroNames([], mode, digest) == [] && Folds([], mode, digest, lower) == {}
    ensures RecordAll(map[], [], mode, digest) == map[]
  {
  }

  /** The tool at `i` is the first visible one of its Kiro name, ignoring case. */
  predicate FirstOfItsName(
    tools: seq<string>, i: nat, mode: Mode, digest: string -> string, lower: string -> string)
    requires i < |tools|
  {
    && !Hidden(tools[i], mode)
    && forall j | 0 <= j < i :: !Hidden(tools[j], mode) ==>
         Fold(tools[j], mode, digest, lower) != Fold(tools[i], mode, digest, lower)
  }

  lemma {:induction false} VisibleSpec(tools: seq<string>, mode: Mode)
    ensures forall n :: n in Visible(tools, mode) <==> n in tools && !Hidden(n, mode)
  {
    if tools != [] {
      VisibleSpec(tools[..|tools| - 1], mode);
      assert tools == tools[..|tools| - 1] + [tools[|tools| - 1]];
    }
  }

  lemma FirstMore(
    init: seq<string>, last: string, i: nat, mode: Mode, digest: string -> string, lower: string -> string)
    requires i < |init|
    ensures FirstOfItsName(init + [last], i, mode, digest, lower) <==>
            FirstOfItsName(init, i, mode, digest, lower)
  {
    var tools := init + [last];
    assert forall j | 0 <= j <= i :: tools[j] == init[j];
  }

  lemma LastIsFirst(init: seq<string>, last: string, mode: Mode, digest: string -> string, lower: string -> string)
    ensures FirstOfItsName(init + [last], |init|, mode, digest, lower) <==>
            !Hidden(last, mode) && Fold(last, mode, digest, lower) !in Folds(Visible(init, mode), mode, digest, lower)
  {
    var tools := init + [last];
    VisibleSpec(init, mode);
    forall j | 0 <= j < |init| && !Hidden(init[j], mode)
      ensures Fold(tools[j], mode, digest, lower) in Folds(Visible(init, mode), mode, digest, lower)
    {
      assert init[j] in Visible(init, mode) && tools[j] == init[j];
    }
    forall n | n in Visible(init, mode)
      ensures exists j :: 0 <= j < |init| && tools[j] == n && !Hidden(tools[j], mode)
    {
      var j :| 0 <= j < |init| && init[j] == n;
      assert tools[j] == n;
    }
  }

  /** Exactly the first visible tool of each Kiro name is offered, and every visible tool's name is among those
      of the offered ones, ignoring case. */
  lemma {:induction false} OfferedSpec(
    tools: seq<string>, mode: Mode, digest: string -> string, lower: string -> string)
    ensures forall n :: n in Offered(tools, mode, digest, lower) <==>
              exists i :: 0 <= i < |tools| && tools[i] == n && FirstOfItsName(tools, i, mode, digest, lower)
    ensures Folds(Offered(tools, mode, digest, lower), mode, digest, lower) ==
            Folds(Visible(tools, mode), mode, digest, lower)
  {
    hide KiroName;
    if tools != [] {
      var init, last := tools[..|tools| - 1], tools[|tools| - 1];
      assert tools == init + [last];
      OfferedSpec(init, mode, digest, lower);
      OfferedFolds(init, last, mode, digest, lower);
      LastIsFirst(init, last, mode, digest, lower);
      forall n
        ensures n in Offered(tools, mode, digest, lower) <==>
                  exists i :: 0 <= i < |tools| && tools[i] == n && FirstOfItsName(tools, i, mode, digest, lower)
      {
        if n in Offered(init, mode, digest, lower) {
          var i :| 0 <= i < |init| && init[i] == n && FirstOfItsName(init, i, mode, digest, lower);
          FirstMore(init, last, i, mode, digest, lower);
          assert tools[i] == n;
        }
        if i :| 0 <= i < |tools| && tools[i] == n && FirstOfItsName(tools, i, mode, digest, lower) {
          if i < |init| {
            FirstMore(init, last, i, mode, digest, lower);
            assert init[i] == n;
          }
        }
      }
    }
  }

  lemma OfferedFolds(init: seq<string>, last: string, mode: Mode, digest: string -> string, lower: string -> string)
    requires Folds(Offered(init, mode, digest, lower), mode, digest, lower) ==
             Folds(Visible(init, mode), mode, digest, lower)
    ensures Folds(Offered(init + [last], mode, digest, lower), mode, digest, lower) ==
            Folds(Visible(init + [last], mode), mode, digest, lower)
  {
    var tools, before, visible := init + [last], Offered(init, mode, digest, lower), Visible(init, mode);
    assert tools[..|tools| - 1] == init;
    OfferedSnoc(before, last, mode, digest, lower);
    OfferedSnoc(visible, last, mode, digest, lower);
    assert visible + [] == visible;
  }

  // ----- Which names come back -----

  /** Every entry leads from a Kiro name back to a renamed tool of the request that gets it. */
  predicate NamesWhatItSays(m: NameMap, names: seq<string>, mode: Mode, digest: string -> string) {
    forall k <- m :: m[k] in names && Renamed(m[k], mode) && KiroName(m[k], mode, digest) == k
  }

  lemma {:induction false} RecordAllSpec(names: seq<string>, mode: Mode, digest: string -> string)
    ensures var m := RecordAll(map[], names, mode, digest);
            && NamesWhatItSays(m, names, mode, digest)
            && forall n <- names :: Renamed(n, mode) ==> KiroName(n, mode, digest) in m
  {
    if names != [] {
      var init, last := names[..|names| - 1], names[|names| - 1];
      RecordAllSpec(init, mode, digest);
      RecordKeeps(RecordAll(map[], init, mode, digest), init, last, mode, digest);
      assert names == init + [last];
    }
  }

  lemma RecordKeeps(m: NameMap, names: seq<string>, last: string, mode: Mode, digest: string -> string)
    requires NamesWhatItSays(m, names, mode, digest)
    ensures var m' := Record(m, last, mode, digest);
            && m.Keys <= m'.Keys
            && NamesWhatItSays(m', names + [last], mode, digest)
            && (Renamed(last, mode) ==> KiroName(last, mode, digest) in m')
  {
    var m' := Record(m, last, mode, digest);
    forall k | k in m'
      ensures m'[k] in names + [last] && Renamed(m'[k], mode) && KiroName(m'[k], mode, digest) == k
    {
      assert (m'[k] == last && Renamed(last, mode)) || (k in m && m'[k] == m[k]);
    }
  }

  /** `n` is named, and nothing renamed that comes after it takes its Kiro name. */
  predicate NamedLast(names: seq<string>, n: string, mode: Mode, digest: string -> string) {
    exists j :: 0 <= j < |names| && names[j] == n && NotTakenAfter(names, j, mode, digest)
  }

  predicate NotTakenAfter(names: seq<string>, j: nat, mode: Mode, digest: string -> string)
    requires j < |names|
  {
    forall i | j < i < |names| ::
      Renamed(names[i], mode) && KiroName(names[i], mode, digest) == KiroName(names[j], mode, digest) ==>
        names[i] == names[j]
  }

  /** A tool keeps its name.  A tool that is passed on as it is does if no renamed tool gets that name; a renamed
      one does if no other one recorded after it gets the same. */
  predicate KeepsItsName(names: seq<string>, n: string, mode: Mode, digest: string -> string) {
    if Renamed(n, mode) then NamedLast(names, n, mode, digest)
    else forall r <- names :: Renamed(r, mode) ==> KiroName(r, mode, digest) != n
  }

  predicate IsLong(n: string, mode: Mode) {
    Utf8Len(n) > TOOL_NAME_MAX_LEN && !(mode == ClaudeCode && KiroBuiltin(n).Some?)
  }

  lemma {:induction false} CharsOfLongNames(s: string)
    ensures Utf8Len(s) <= 4 * |s|
  {
    if s != [] {
      CharsOfLongNames(s[1..]);
    }
  }

  /** A long name is never shortened to the Kiro name of a built-in. */
  lemma LongIsNoBuiltin(long: string, name: string, mode: Mode, digest: string -> string)
    requires IsLong(long, mode) && KiroBuiltin(name).Some?
    ensures KiroName(long, mode, digest) != KiroBuiltin(name).value
  {
    CharsOfLongNames(long);
    BuiltinsAreShort(name);
    assert |ShortName(long, digest)| >= 16;
  }

  lemma BuiltinsAreShort(name: string)
    requires KiroBuiltin(name).Some?
    ensures |KiroBuiltin(name).value| <= 14
  {
  }

  lemma BuiltinsDiffer(a: string, b: string)
    requires KiroBuiltin(a).Some? && KiroBuiltin(a) == KiroBuiltin(b)
    ensures a == b
  {
  }

  /** Of the long names with one short name, the last one recorded wins. */
  lemma {:induction false} LastLongWins(names: seq<string>, n: string, mode: Mode, digest: string -> string)
    requires IsLong(n, mode)
    ensures var m, k := RecordAll(map[], names, mode, digest), KiroName(n, mode, digest);
            k in m && m[k] == n <==> NamedLast(names, n, mode, digest)
  {
    if names != [] {
      var init, last, k := names[..|names| - 1], names[|names| - 1], KiroName(n, mode, digest);
      assert names == init + [last];
      LastLongWins(init, n, mode, digest);
      if Renamed(last, mode) && !IsLong(last, mode) {
        LongIsNoBuiltin(n, last, mode, digest);
      }
      NamedLastSnoc(init, last, n, mode, digest);
    }
  }

  lemma NamedLastSnoc(init: seq<string>, last: string, n: string, mode: Mode, digest: string -> string)
    ensures NamedLast(init + [last], n, mode, digest) <==>
            last == n || (NamedLast(init, n, mode, digest) &&
                          !(Renamed(last, mode) && KiroName(last, mode, digest) == KiroName(n, mode, digest)))
  {
    var names := init + [last];
    if last == n {
      assert names[|init|] == n && NotTakenAfter(names, |init|, mode, digest);
    } else {
      if j :| 0 <= j < |names| && names[j] == n && NotTakenAfter(names, j, mode, digest) {
        assert init[j] == n && names[|init|] == last;
        forall i | j < i < |init|
          ensures Renamed(init[i], mode) && KiroName(init[i], mode, digest) == KiroName(init[j], mode, digest) ==>
                    init[i] == init[j]
        {
          assert names[i] == init[i];
        }
        assert NotTakenAfter(init, j, mode, digest);
      }
      if j :| 0 <= j < |init| && init[j] == n && NotTakenAfter(init, j, mode, digest) {
        assert names[j] == n;
        if !(Renamed(last, mode) && KiroName(last, mode, digest) == KiroName(n, mode, digest)) {
          assert NotTakenAfter(names, j, mode, digest);
        }
      }
    }
  }

  /** A name that a request mentions is restored if and only if it keeps its name. */
  lemma NameComesBackIff(names: seq<string>, n: string, mode: Mode, digest: string -> string)
    requires n in names
    ensures RestoreName(RecordAll(map[], names, mode, digest), KiroName(n, mode, digest)) == n <==>
            KeepsItsName(names, n, mode, digest)
  {
    var m, k := RecordAll(map[], names, mode, digest), KiroName(n, mode, digest);
    RecordAllSpec(names, mode, digest);
    if IsLong(n, mode) {
      LastLongWins(names, n, mode, digest);
    } else if Renamed(n, mode) {
      BuiltinKeepsItsName(names, n, mode, digest);
      if IsLong(m[k], mode) {
        LongIsNoBuiltin(m[k], n, mode, digest);
      } else {
        BuiltinsDiffer(m[k], n);
      }
    }
  }

  lemma BuiltinKeepsItsName(names: seq<string>, n: string, mode: Mode, digest: string -> string)
    requires n in names && mode == ClaudeCode && KiroBuiltin(n).Some?
    ensures KeepsItsName(names, n, mode, digest)
  {
    var j :| 0 <= j < |names| && names[j] == n;
    forall i | j < i < |names| && Renamed(names[i], mode) &&
               KiroName(names[i], mode, digest) == KiroName(n, mode, digest)
      ensures names[i] == n
    {
      if IsLong(names[i], mode) {
        LongIsNoBuiltin(names[i], n, mode, digest);
      } else {
        BuiltinsDiffer(names[i], n);
      }
    }
    assert NotTakenAfter(names, j, mode, digest);
  }

  /** The names a request records, in order: of its tools, then of the calls in its history. */
  function Recorded(tools: seq<string>, calls: seq<string>, mode: Mode): seq<string> {
    Visible(tools, mode) + calls
  }

  lemma OfferedIsRecorded(
    tools: seq<string>, calls: seq<string>, n: string, mode: Mode, digest: string -> string, lower: string -> string)
    requires n in Offered(tools, mode, digest, lower)
    ensures n in Recorded(tools, calls, mode)
  {
    OfferedSpec(tools, mode, digest, lower);
    VisibleSpec(tools, mode);
  }

  /** A call of an offered tool reaches the client under the tool's own name if and only if the tool keeps it. */
  lemma OfferedComesBackIff(
    tools: seq<string>, calls: seq<string>, n: string, mode: Mode, digest: string -> string, lower: string -> string)
    requires n in Offered(tools, mode, digest, lower)
    ensures var names := Recorded(tools, calls, mode);
            RestoreName(RecordAll(map[], names, mode, digest), KiroName(n, mode, digest)) == n <==>
            KeepsItsName(names, n, mode, digest)
  {
    OfferedIsRecorded(tools, calls, n, mode, digest, lower);
    NameComesBackIff(Recorded(tools, calls, mode), n, mode, digest);
  }

  /** No two renamed names of the request get the same Kiro name. */
  predicate RenamedApart(names: seq<string>, mode: Mode, digest: string -> string) {
    forall a <- names, b <- names ::
      (Renamed(a, mode) && Renamed(b, mode) && KiroName(a, mode, digest) == KiroName(b, mode, digest)) ==> a == b
  }

  /** Unless two long names are shortened alike, every offered tool is restored if and only if no other, renamed
      name of the request has its Kiro name. */
  lemma NamesComeBack(
    tools: seq<string>, calls: seq<string>, mode: Mode, digest: string -> string, lower: string -> string)
    requires RenamedApart(Recorded(tools, calls, mode), mode, digest)
    ensures var names, offered := Recorded(tools, calls, mode), Offered(tools, mode, digest, lower);
            var m := RecordAll(map[], names, mode, digest);
            (forall n <- offered :: RestoreName(m, KiroName(n, mode, digest)) == n) <==>
            (forall n <- offered, r <- names :: r != n && Renamed(r, mode) ==>
               KiroName(r, mode, digest) != KiroName(n, mode, digest))
  {
    var names, offered := Recorded(tools, calls, mode), Offered(tools, mode, digest, lower);
    forall n | n in offered
      ensures KeepsItsName(names, n, mode, digest) <==>
                forall r <- names :: r != n && Renamed(r, mode) ==>
                  KiroName(r, mode, digest) != KiroName(n, mode, digest)
      ensures RestoreName(RecordAll(map[], names, mode, digest), KiroName(n, mode, digest)) == n <==>
                KeepsItsName(names, n, mode, digest)
    {
      OfferedComesBackIff(tools, calls, n, mode, digest, lower);
      OfferedIsRecorded(tools, calls, n, mode, digest, lower);
      ApartKeeps(names, n, mode, digest);
    }
  }

  lemma ApartKeeps(names: seq<string>, n: string, mode: Mode, digest: string -> string)
    requires RenamedApart(names, mode, digest) && n in names
    ensures KeepsItsName(names, n, mode, digest) <==>
            forall r <- names :: r != n && Renamed(r, mode) ==> KiroName(r, mode, digest) != KiroName(n, mode, digest)
  {
    if Renamed(n, mode) {
      var j :| 0 <= j < |names| && names[j] == n;
      assert forall i | j < i < |names| :: names[i] in names;
      assert NotTakenAfter(names, j, mode, digest);
    }
  }

  // ----- Tools that lose their name -----

  /** An own tool named like a Kiro built-in is lost as soon as the request mentions the built-in, after it in the
      tools or in the history: its calls reach the client as calls of the built-in. */
  lemma OwnToolIsLost(
    tools: seq<string>, calls: seq<string>, own: string, builtin: string, digest: string -> string,
    lower: string -> string)
    requires own in Offered(tools, ClaudeCode, digest, lower)
    requires KiroBuiltin(builtin) == Some(own) && builtin in Recorded(tools, calls, ClaudeCode)
    ensures var m := RecordAll(map[], Recorded(tools, calls, ClaudeCode), ClaudeCode, digest);
            KiroName(own, ClaudeCode, digest) == own && RestoreName(m, own) == builtin != own
  {
    var names := Recorded(tools, calls, ClaudeCode);
    BuiltinTargets(builtin);
    NameComesBackIff(names, builtin, ClaudeCode, digest);
    BuiltinKeepsItsName(names, builtin, ClaudeCode, digest);
  }

  lemma BuiltinTargets(name: string)
    requires KiroBuiltin(name).Some?
    ensures KiroBuiltin(KiroBuiltin(name).value).None? && name != KiroBuiltin(name).value
    ensures Utf8Len(KiroBuiltin(name).value) <= TOOL_NAME_MAX_LEN
  {
    hide Utf8Len, KiroBuiltin;
    BuiltinsAreShort(name);
    CharsOfLongNames(KiroBuiltin(name).value);
    TargetsStartLow(name);
    if KiroBuiltin(KiroBuiltin(name).value).Some? {
      TargetsStartLow(KiroBuiltin(name).value);
    }
  }

  lemma TargetsStartLow(name: string)
    requires KiroBuiltin(name).Some?
    ensures name != "" && 'A' <= name[0] <= 'Z'
    ensures KiroBuiltin(name).value != "" && 'a' <= KiroBuiltin(name).value[0] <= 'z'
  {
  }

  lemma TwoTools(a: string, b: string, mode: Mode, digest: string -> string, lower: string -> string)
    requires !Hidden(a, mode) && !Hidden(b, mode) && KiroName(a, mode, digest) == KiroName(b, mode, digest)
    ensures Offered([a, b], mode, digest, lower) == [a] && Visible([a, b], mode) == [a, b]
  {
    hide Utf8Len, ShortName, KiroBuiltin;
    assert [a, b][..1] == [a] && [a][..0] == [];
    assert Offered([a], mode, digest, lower) == [] + [a] && Visible([a], mode) == [] + [a];
  }

  /** For instance a client's own `fs_write`, offered before `Write` is skipped as a duplicate. */
  lemma FsWriteIsLost(digest: string -> string, lower: string -> string)
    ensures var m := RecordAll(map[], Visible(["fs_write", "Write"], ClaudeCode), ClaudeCode, digest);
            && Offered(["fs_write", "Write"], ClaudeCode, digest, lower) == ["fs_write"]
            && RestoreName(m, KiroName("fs_write", ClaudeCode, digest)) == "Write"
  {
    BuiltinTargets("Write");
    TwoTools("fs_write", "Write", ClaudeCode, digest, lower);
    OwnToolIsLost(["fs_write", "Write"], [], "fs_write", "Write", digest, lower);
    assert Visible(["fs_write", "Write"], ClaudeCode) + [] == Visible(["fs_write", "Write"], ClaudeCode);
  }

  /** In the other order `fs_write` is the one that is skipped, and nothing is lost. */
  lemma WriteFirstComesBack(digest: string -> string, lower: string -> string)
    ensures var m := RecordAll(map[], Visible(["Write", "fs_write"], ClaudeCode), ClaudeCode, digest);
            && Offered(["Write", "fs_write"], ClaudeCode, digest, lower) == ["Write"]
            && RestoreName(m, KiroName("Write", ClaudeCode, digest)) == "Write"
  {
    var names := Visible(["Write", "fs_write"], ClaudeCode);
    BuiltinTargets("Write");
    TwoTools("Write", "fs_write", ClaudeCode, digest, lower);
    assert names[0] == "Write";
    BuiltinKeepsItsName(names, "Write", ClaudeCode, digest);
    NameComesBackIff(names, "Write", ClaudeCode, digest);
  }

  /** A whole tool call, name and arguments, as the client gets it back in Claude Code mode. */
  lemma ToolUseComesBack(names: seq<string>, digest: string -> string, name: string, input: Value)
    requires name in names && InputToKiro(name, input, ClaudeCode).Success?
    ensures RestoreToolUse(KiroName(name, ClaudeCode, digest), InputToKiro(name, input, ClaudeCode).value,
                           RecordAll(map[], names, ClaudeCode, digest)) == (name, input)
            <==> && KeepsItsName(names, name, ClaudeCode, digest)
                 && (KiroBuiltin(name).Some? && input.Obj? ==> Canonical(name, input.fields))
  {
    NameComesBackIff(names, name, ClaudeCode, digest);
    if KiroBuiltin(name).Some? && input.Obj? {
      CanonicalComesBack(name, input.fields);
    }
  }

  // ----- The limit on names -----

  predicate AllAscii(s: string) {
    forall c <- s :: c as int < 0x80
  }

  lemma {:induction false} AsciiLength(s: string)
    ensures |s| <= Utf8Len(s)
    ensures Utf8Len(s) == |s| <==> AllAscii(s)
  {
    if s != [] {
      AsciiLength(s[1..]);
      assert s[0] in s && forall c :: c in s <==> c == s[0] || c in s[1..];
    }
  }

  lemma {:induction false} Utf8Append(a: string, b: string)
    ensures Utf8Len(a + b) == Utf8Len(a) + Utf8Len(b)
  {
    if a == [] {
      assert a + b == b;
    } else {
      Utf8Append(a[1..], b);
      assert (a + b)[1..] == a[1..] + b;
    }
  }

  /** The Kiro name of a tool keeps within 63 bytes for every name that needs no shortening, and for a longer one
      exactly when its first 54 characters exist and are ASCII: shortening counts characters, the limit bytes. */
  lemma NameFitsIff(name: string, mode: Mode, digest: string -> string)
    requires Utf8Len(digest(name)) == 8
    ensures Utf8Len(KiroName(name, mode, digest)) <= TOOL_NAME_MAX_LEN <==>
            !IsLong(name, mode) || (|name| > 54 && AllAscii(name[..54]))
  {
    if IsLong(name, mode) {
      var prefix := if |name| > 54 then name[..54] else name;
      hide Utf8Len;
      Utf8Append(prefix + "_", digest(name));
      Utf8Append(prefix, "_");
      AsciiLength("_");
      AsciiLength(prefix);
      assert KiroName(name, mode, digest) == prefix + "_" + digest(name);
    } else if mode == ClaudeCode && KiroBuiltin(name).Some? {
      CharsOfLongNames(KiroBuiltin(name).value);
      BuiltinsAreShort(name);
      hide Utf8Len;
    }
  }

  function Ideographs(n: nat): string {
    if n == 0 then "" else ['\U{4E2D}'] + Ideographs(n - 1)
  }

  lemma {:induction false} IdeographsLength(n: nat)
    ensures |Ideographs(n)| == n && Utf8Len(Ideographs(n)) == 3 * n
  {
    if n > 0 {
      IdeographsLength(n - 1);
      assert Ideographs(n)[1..] == Ideographs(n - 1);
    }
  }

  /** For instance the name of 22 ideographs, 66 bytes long, becomes longer still. */
  lemma ShorteningLengthens(digest: string -> string)
    requires Utf8Len(digest(Ideographs(22))) == 8
    ensures Utf8Len(KiroName(Ideographs(22), Raw, digest)) == 75
  {
    var name := Ideographs(22);
    IdeographsLength(22);
    hide Utf8Len, Ideographs;
    Utf8Append(name + "_", digest(name));
    Utf8Append(name, "_");
    AsciiLength("_");
  }
}
