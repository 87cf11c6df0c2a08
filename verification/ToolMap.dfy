/** Tool arguments, from the client's vocabulary to Kiro's and back. */
module ToolMap {
  import opened Wrappers
  import opened Json

  datatype Mode = Raw | ClaudeCode

  const I64_MIN := -0x8000_0000_0000_0000
  const I64_MAX := 0x7fff_ffff_ffff_ffff
  const U64_MAX := 0xffff_ffff_ffff_ffff

  /** Two's-complement wrap-around of 64-bit signed arithmetic. */
  function WrapI64(n: int): int {
    (n + 0x8000_0000_0000_0000) % 0x1_0000_0000_0000_0000 - 0x8000_0000_0000_0000
  }

  // ----- Arguments -----

  function KiroBuiltin(name: string): Option<string> {
    match name
    case "Write" => Some("fs_write")
    case "Edit" => Some("str_replace")
    case "Bash" => Some("execute_bash")
    case "Read" => Some("read_file")
    case "Glob" => Some("file_search")
    case "Grep" => Some("grep_search")
    case "LS" => Some("list_directory")
    case "WebSearch" => Some("web_search")
    case _ => None
  }

  type Fields = map<string, Value>

  /** `as_i64`, else `as_u64` cast to a signed integer. */
  function OptionalNumber(v: Option<Value>): Option<int> {
    if v.Some? && v.value.Int? && I64_MIN <= v.value.n <= U64_MAX then Some(WrapI64(v.value.n)) else None
  }

  function Field(obj: Fields, key: string): Option<Value> {
    if key in obj then Some(obj[key]) else None
  }

  function TakeFirst(obj: Fields, a: string, b: string): Option<Value> {
    if a in obj then Some(obj[a]) else Field(obj, b)
  }

  function MaybeInsert(out: Fields, key: string, value: Option<Value>): Fields {
    if value.Some? && !value.value.Null? then out[key := value.value] else out
  }

  function InsertNumber(out: Fields, key: string, value: Option<int>): Fields {
    if value.Some? then out[key := Int(value.value)] else out
  }

  function OrDefaultExplanation(out: Fields, tool: string): Fields {
    if "explanation" in out then out
    else out["explanation" := Str("Mapped from Claude Code " + tool + " tool.")]
  }

  function ReadToKiro(obj: Fields): Fields {
    var start, limit := OptionalNumber(Field(obj, "offset")), OptionalNumber(Field(obj, "limit"));
    var end :=
      if limit.None? then None
      else if start.Some? then Some(WrapI64(start.value + limit.value - 1)) else limit;
    var out := MaybeInsert(map[], "path", TakeFirst(obj, "file_path", "path"));
    var out := InsertNumber(InsertNumber(out, "start_line", start), "end_line", end);
    OrDefaultExplanation(MaybeInsert(out, "explanation", Field(obj, "explanation")), "Read")
  }

  function IncludeIgnored(v: Value): Value {
    if v == Bool(true) then Str("yes") else if v == Bool(false) then Str("no") else v
  }

  function GlobToKiro(obj: Fields): Fields {
    var out := MaybeInsert(map[], "query", TakeFirst(obj, "pattern", "query"));
    var out := MaybeInsert(out, "excludePattern", TakeFirst(obj, "excludePattern", "exclude"));
    var ignored := TakeFirst(obj, "includeIgnoredFiles", "include_ignored");
    var out := if ignored.Some? then out["includeIgnoredFiles" := IncludeIgnored(ignored.value)] else out;
    OrDefaultExplanation(MaybeInsert(out, "explanation", Field(obj, "explanation")), "Glob")
  }

  function GrepToKiro(obj: Fields): Fields {
    var out := MaybeInsert(map[], "query", TakeFirst(obj, "pattern", "query"));
    var out := MaybeInsert(out, "includePattern", TakeFirst(obj, "glob", "includePattern"));
    var out := MaybeInsert(out, "excludePattern", TakeFirst(obj, "excludePattern", "exclude"));
    var out := MaybeInsert(out, "caseSensitive", TakeFirst(obj, "caseSensitive", "case_sensitive"));
    MaybeInsert(out, "explanation", Field(obj, "explanation"))
  }

  function LsToKiro(obj: Fields): Fields {
    var out := MaybeInsert(MaybeInsert(map[], "path", Field(obj, "path")), "depth", Field(obj, "depth"));
    OrDefaultExplanation(MaybeInsert(out, "explanation", Field(obj, "explanation")), "LS")
  }

  /** The client's argument object of a built-in tool in Kiro's vocabulary. */
  function FieldsToKiro(name: string, obj: Fields): Result<Fields, string>
    requires KiroBuiltin(name).Some?
  {
    match name
    case "Write" =>
      Success(MaybeInsert(MaybeInsert(map[], "path", TakeFirst(obj, "file_path", "path")),
                          "text", TakeFirst(obj, "content", "text")))
    case "Edit" =>
      var out := MaybeInsert(map[], "path", TakeFirst(obj, "file_path", "path"));
      Success(MaybeInsert(MaybeInsert(out, "oldStr", TakeFirst(obj, "old_string", "oldStr")),
                          "newStr", TakeFirst(obj, "new_string", "newStr")))
    case "Bash" =>
      Success(MaybeInsert(MaybeInsert(map[], "command", Field(obj, "command")), "timeout", Field(obj, "timeout")))
    case "Read" =>
      if "pages" in obj && !obj["pages"].Null?
      then Failure("Claude Code Read.pages has no Kiro read_file equivalent")
      else Success(ReadToKiro(obj))
    case "Glob" => Success(GlobToKiro(obj))
    case "Grep" => Success(GrepToKiro(obj))
    case "LS" => Success(LsToKiro(obj))
    case _ => Success(MaybeInsert(map[], "query", Field(obj, "query")))
  }

  function ReadFromKiro(obj: Fields): Fields {
    var start, end := OptionalNumber(Field(obj, "start_line")), OptionalNumber(Field(obj, "end_line"));
    var limit :=
      if end.None? then None
      else if start.Some? then Some(WrapI64(end.value - start.value + 1)) else end;
    var out := InsertNumber(MaybeInsert(map[], "file_path", TakeFirst(obj, "path", "file_path")), "offset", start);
    if limit.Some? && limit.value > 0 then out["limit" := Int(limit.value)] else out
  }

  function FieldsFromKiro(name: string, obj: Fields): Fields
    requires KiroBuiltin(name).Some?
  {
    match name
    case "Write" =>
      MaybeInsert(MaybeInsert(map[], "file_path", TakeFirst(obj, "path", "file_path")),
                  "content", TakeFirst(obj, "text", "content"))
    case "Edit" =>
      var out := MaybeInsert(map[], "file_path", TakeFirst(obj, "path", "file_path"));
      MaybeInsert(MaybeInsert(out, "old_string", TakeFirst(obj, "oldStr", "old_string")),
                  "new_string", TakeFirst(obj, "newStr", "new_string"))
    case "Bash" =>
      MaybeInsert(MaybeInsert(map[], "command", Field(obj, "command")), "timeout", Field(obj, "timeout"))
    case "Read" => ReadFromKiro(obj)
    case "Glob" => MaybeInsert(map[], "pattern", TakeFirst(obj, "query", "pattern"))
    case "Grep" =>
      var out := MaybeInsert(map[], "pattern", TakeFirst(obj, "query", "pattern"));
      MaybeInsert(MaybeInsert(out, "glob", TakeFirst(obj, "includePattern", "glob")),
                  "case_sensitive", TakeFirst(obj, "caseSensitive", "case_sensitive"))
    case "LS" => MaybeInsert(map[], "path", Field(obj, "path"))
    case _ => MaybeInsert(map[], "query", Field(obj, "query"))
  }

  function InputToKiro(name: string, input: Value, mode: Mode): Result<Value, string> {
    if mode != ClaudeCode || KiroBuiltin(name).None? || !input.Obj? then Success(input)
    else
      var out :- FieldsToKiro(name, input.fields);
      Success(Obj(out))
  }

  /** The way back does not ask for the mode. */
  function InputFromKiro(name: string, input: Value): Value {
    if KiroBuiltin(name).None? || !input.Obj? then input else Obj(FieldsFromKiro(name, input.fields))
  }

  // ----- When arguments come back unchanged -----

  /** The arguments of a tool that Kiro can carry. */
  function CarriedKeys(name: string): set<string> {
    match name
    case "Write" => {"file_path", "content"}
    case "Edit" => {"file_path", "old_string", "new_string"}
    case "Bash" => {"command", "timeout"}
    case "Read" => {"file_path", "offset", "limit"}
    case "Glob" => {"pattern"}
    case "Grep" => {"pattern", "glob", "case_sensitive"}
    case "LS" => {"path"}
    case _ => {"query"}
  }

  predicate OnlyNonNull(obj: Fields, keys: set<string>) {
    forall k <- obj :: k in keys && !obj[k].Null?
  }

  predicate IsI64(v: Value) {
    v.Int? && I64_MIN <= v.n <= I64_MAX
  }

  /** Only carried arguments, none of them null; a line range in integers, of at least one line. */
  predicate Canonical(name: string, obj: Fields) {
    && OnlyNonNull(obj, CarriedKeys(name))
    && (name == "Read" ==>
          && ("offset" in obj ==> IsI64(obj["offset"]))
          && ("limit" in obj ==> IsI64(obj["limit"]) && obj["limit"].n >= 1))
  }

  predicate ComesBack(name: string, obj: Fields)
    requires KiroBuiltin(name).Some?
  {
    FieldsToKiro(name, obj).Success? && FieldsFromKiro(name, FieldsToKiro(name, obj).value) == obj
  }

  lemma WrapIsIdentity(n: int)
    ensures I64_MIN <= WrapI64(n) <= I64_MAX
    ensures I64_MIN <= n <= I64_MAX <==> WrapI64(n) == n
  {
  }

  /** Line ranges survive, wrap-around included. */
  lemma LineRangeComesBack(start: int, limit: int)
    requires I64_MIN <= limit <= I64_MAX
    ensures WrapI64(WrapI64(start + limit - 1) - start + 1) == limit
  {
  }

  /** A value that survives is there and not null. */
  function NonNull(v: Option<Value>): Option<Value> {
    if v == Some(Null) then None else v
  }

  lemma SameFields(a: Fields, b: Fields)
    requires forall k: string :: Field(a, k) == Field(b, k)
    ensures a == b
  {
    forall k: string
      ensures k in a <==> k in b
      ensures k in a ==> a[k] == b[k]
    {
      assert Field(a, k) == Field(b, k);
    }
  }

  /** If each carried key comes back as `got` says, arguments come back exactly when canonical. */
  lemma CarriedBack(obj: Fields, back: Fields, keys: set<string>)
    requires forall k <- back :: k in keys && !back[k].Null?
    requires OnlyNonNull(obj, keys) ==> forall k <- keys :: Field(back, k) == Field(obj, k)
    ensures back == obj <==> OnlyNonNull(obj, keys)
  {
    if OnlyNonNull(obj, keys) {
      forall k: string
        ensures Field(back, k) == Field(obj, k)
      {
        if k !in keys {
          assert k !in back && k !in obj;
        }
      }
      SameFields(back, obj);
    }
  }

  lemma WriteComesBack(obj: Fields)
    ensures ComesBack("Write", obj) <==> Canonical("Write", obj)
  {
    CarriedBack(obj, FieldsFromKiro("Write", FieldsToKiro("Write", obj).value), CarriedKeys("Write"));
  }

  lemma EditKiroFields(obj: Fields)
    ensures var kiro := FieldsToKiro("Edit", obj).value;
            && Field(kiro, "path") == NonNull(TakeFirst(obj, "file_path", "path"))
            && Field(kiro, "oldStr") == NonNull(TakeFirst(obj, "old_string", "oldStr"))
            && Field(kiro, "newStr") == NonNull(TakeFirst(obj, "new_string", "newStr"))
            && kiro.Keys <= {"path", "oldStr", "newStr"}
  {
  }

  lemma EditBackFields(kiro: Fields)
    requires kiro.Keys <= {"path", "oldStr", "newStr"}
    ensures var back := FieldsFromKiro("Edit", kiro);
            && (forall k <- back :: k in CarriedKeys("Edit") && !back[k].Null?)
            && Field(back, "file_path") == NonNull(Field(kiro, "path"))
            && Field(back, "old_string") == NonNull(Field(kiro, "oldStr"))
            && Field(back, "new_string") == NonNull(Field(kiro, "newStr"))
  {
  }

  lemma EditComesBack(obj: Fields)
    ensures ComesBack("Edit", obj) <==> Canonical("Edit", obj)
  {
    hide MaybeInsert;
    var kiro := FieldsToKiro("Edit", obj).value;
    EditKiroFields(obj);
    EditBackFields(kiro);
    CarriedBack(obj, FieldsFromKiro("Edit", kiro), CarriedKeys("Edit"));
  }

  lemma BashComesBack(obj: Fields)
    ensures ComesBack("Bash", obj) <==> Canonical("Bash", obj)
  {
    CarriedBack(obj, FieldsFromKiro("Bash", FieldsToKiro("Bash", obj).value), CarriedKeys("Bash"));
  }

  lemma GlobComesBack(obj: Fields)
    ensures ComesBack("Glob", obj) <==> Canonical("Glob", obj)
  {
    var kiro := GlobToKiro(obj);
    assert Field(kiro, "query") == NonNull(TakeFirst(obj, "pattern", "query"));
    assert "pattern" !in kiro;
    CarriedBack(obj, FieldsFromKiro("Glob", kiro), CarriedKeys("Glob"));
  }

  lemma GrepKiroKeys(obj: Fields)
    ensures GrepToKiro(obj).Keys <= {"query", "includePattern", "excludePattern", "caseSensitive", "explanation"}
  {
  }

  lemma GrepKiroFields(obj: Fields)
    ensures var kiro := GrepToKiro(obj);
            && Field(kiro, "query") == NonNull(TakeFirst(obj, "pattern", "query"))
            && Field(kiro, "includePattern") == NonNull(TakeFirst(obj, "glob", "includePattern"))
            && Field(kiro, "caseSensitive") == NonNull(TakeFirst(obj, "caseSensitive", "case_sensitive"))
            && "pattern" !in kiro && "glob" !in kiro && "case_sensitive" !in kiro
  {
    GrepKiroKeys(obj);
    hide TakeFirst;
  }

  /** The way back of a search, from what its Kiro form holds. */
  lemma GrepBackFields(kiro: Fields)
    requires "pattern" !in kiro && "glob" !in kiro && "case_sensitive" !in kiro
    ensures var back := FieldsFromKiro("Grep", kiro);
            && (forall k <- back :: k in CarriedKeys("Grep") && !back[k].Null?)
            && Field(back, "pattern") == NonNull(Field(kiro, "query"))
            && Field(back, "glob") == NonNull(Field(kiro, "includePattern"))
            && Field(back, "case_sensitive") == NonNull(Field(kiro, "caseSensitive"))
  {
  }

  lemma GrepComesBack(obj: Fields)
    ensures ComesBack("Grep", obj) <==> Canonical("Grep", obj)
  {
    hide GrepToKiro, MaybeInsert;
    GrepKiroFields(obj);
    GrepBackFields(GrepToKiro(obj));
    CarriedBack(obj, FieldsFromKiro("Grep", GrepToKiro(obj)), CarriedKeys("Grep"));
  }

  lemma LsComesBack(obj: Fields)
    ensures ComesBack("LS", obj) <==> Canonical("LS", obj)
  {
    var kiro := LsToKiro(obj);
    assert Field(kiro, "path") == NonNull(Field(obj, "path"));
    CarriedBack(obj, FieldsFromKiro("LS", kiro), CarriedKeys("LS"));
  }

  lemma WebSearchComesBack(obj: Fields)
    ensures ComesBack("WebSearch", obj) <==> Canonical("WebSearch", obj)
  {
    CarriedBack(obj, FieldsFromKiro("WebSearch", FieldsToKiro("WebSearch", obj).value), CarriedKeys("WebSearch"));
  }

  lemma ReadKiroFields(obj: Fields)
    ensures var kiro := ReadToKiro(obj);
            var start, limit := OptionalNumber(Field(obj, "offset")), OptionalNumber(Field(obj, "limit"));
            && Field(kiro, "path") == NonNull(TakeFirst(obj, "file_path", "path"))
            && "file_path" !in kiro
            && Field(kiro, "start_line") == (if start.Some? then Some(Int(start.value)) else None)
            && Field(kiro, "end_line") ==
               (if limit.None? then None
                else if start.Some? then Some(Int(WrapI64(start.value + limit.value - 1))) else Some(Int(limit.value)))
  {
  }

  /** The way back of a read request, from what its Kiro form holds. */
  lemma ReadBackFields(kiro: Fields)
    requires "file_path" !in kiro
    ensures var back := ReadFromKiro(kiro);
            var start, end := OptionalNumber(Field(kiro, "start_line")), OptionalNumber(Field(kiro, "end_line"));
            && (forall k <- back :: k in CarriedKeys("Read") && !back[k].Null?)
            && Field(back, "file_path") == NonNull(Field(kiro, "path"))
            && Field(back, "offset") == (if start.Some? then Some(Int(start.value)) else None)
            && Field(back, "limit") == LimitBack(start, end)
  {
  }

  function LimitBack(start: Option<int>, end: Option<int>): Option<Value> {
    var limit :=
      if end.None? then None
      else if start.Some? then Some(WrapI64(end.value - start.value + 1)) else end;
    if limit.Some? && limit.value > 0 then Some(Int(limit.value)) else None
  }

  function NumberField(v: Option<int>): Option<Value> {
    if v.Some? then Some(Int(v.value)) else None
  }

  lemma LineRangeBack(kiro: Fields, start: Option<int>, limit: Option<int>)
    requires "file_path" !in kiro
    requires start.Some? ==> I64_MIN <= start.value <= I64_MAX
    requires limit.Some? ==> I64_MIN <= limit.value <= I64_MAX
    requires Field(kiro, "start_line") == NumberField(start)
    requires Field(kiro, "end_line") ==
             (if limit.None? then None
              else if start.Some? then Some(Int(WrapI64(start.value + limit.value - 1))) else Some(Int(limit.value)))
    ensures Field(ReadFromKiro(kiro), "offset") == NumberField(start)
    ensures Field(ReadFromKiro(kiro), "limit") == (if limit.Some? && limit.value > 0 then NumberField(limit) else None)
  {
    hide ReadFromKiro, WrapI64;
    ReadBackFields(kiro);
    OptionalNumberIsI64(Field(kiro, "start_line"));
    OptionalNumberIsI64(Field(kiro, "end_line"));
    if start.Some? && limit.Some? {
      LineRangeComesBack(start.value, limit.value);
      WrapIsIdentity(start.value + limit.value - 1);
    }
  }

  /** What a read request looks like after the round trip. */
  lemma ReadBack(obj: Fields)
    ensures var back := ReadFromKiro(ReadToKiro(obj));
            var start, limit := OptionalNumber(Field(obj, "offset")), OptionalNumber(Field(obj, "limit"));
            && (forall k <- back :: k in CarriedKeys("Read") && !back[k].Null?)
            && Field(back, "file_path") == NonNull(TakeFirst(obj, "file_path", "path"))
            && Field(back, "offset") == NumberField(start)
            && Field(back, "limit") == (if limit.Some? && limit.value > 0 then NumberField(limit) else None)
  {
    hide ReadToKiro, ReadFromKiro, WrapI64, OptionalNumber;
    var kiro := ReadToKiro(obj);
    ReadKiroFields(obj);
    ReadBackFields(kiro);
    OptionalNumberIsI64(Field(obj, "offset"));
    OptionalNumberIsI64(Field(obj, "limit"));
    LineRangeBack(kiro, OptionalNumber(Field(obj, "offset")), OptionalNumber(Field(obj, "limit")));
  }

  lemma OptionalNumberIsI64(v: Option<Value>)
    ensures OptionalNumber(v).Some? ==> I64_MIN <= OptionalNumber(v).value <= I64_MAX
    ensures v.Some? && IsI64(v.value) <==> OptionalNumber(v).Some? && v == Some(Int(OptionalNumber(v).value))
    ensures OptionalNumber(v).Some? ==>
              OptionalNumber(Some(Int(OptionalNumber(v).value))) == OptionalNumber(v)
  {
    if v.Some? && v.value.Int? {
      WrapIsIdentity(v.value.n);
      WrapIsIdentity(WrapI64(v.value.n));
    }
  }

  /** If the numbers of a line range are proper, the three arguments come back as they are. */
  lemma CanonicalReadBack(obj: Fields)
    requires Canonical("Read", obj)
    ensures ReadFromKiro(ReadToKiro(obj)) == obj
  {
    hide ReadToKiro, ReadFromKiro, WrapI64;
    ReadBack(obj);
    OptionalNumberIsI64(Field(obj, "offset"));
    OptionalNumberIsI64(Field(obj, "limit"));
    CarriedBack(obj, ReadFromKiro(ReadToKiro(obj)), CarriedKeys("Read"));
  }

  lemma ReadBackIsCanonical(obj: Fields)
    requires ReadFromKiro(ReadToKiro(obj)) == obj
    ensures Canonical("Read", obj)
  {
    hide ReadToKiro, ReadFromKiro, WrapI64, OptionalNumber;
    ReadBack(obj);
    OptionalNumberIsI64(Field(obj, "offset"));
    OptionalNumberIsI64(Field(obj, "limit"));
  }

  lemma ReadComesBack(obj: Fields)
    ensures ComesBack("Read", obj) <==> Canonical("Read", obj)
  {
    hide ReadToKiro, ReadFromKiro, WrapI64, OptionalNumber;
    if ReadFromKiro(ReadToKiro(obj)) == obj {
      ReadBackIsCanonical(obj);
    }
    if Canonical("Read", obj) {
      CanonicalReadBack(obj);
    }
  }

  /** In Claude Code mode the arguments of a built-in tool come back unchanged exactly when
      they are canonical. */
  lemma CanonicalComesBack(name: string, obj: Fields)
    requires KiroBuiltin(name).Some?
    ensures ComesBack(name, obj) <==> Canonical(name, obj)
  {
    match name {
      case "Write" => WriteComesBack(obj);
      case "Edit" => EditComesBack(obj);
      case "Bash" => BashComesBack(obj);
      case "Read" => ReadComesBack(obj);
      case "Glob" => GlobComesBack(obj);
      case "Grep" => GrepComesBack(obj);
      case "LS" => LsComesBack(obj);
      case _ => WebSearchComesBack(obj);
    }
  }

  /** What an argument of a built-in tool is called: the client's name and Kiro's. */
  datatype Renaming = Renaming(client: string, kiro: string)

  function Renamings(name: string): set<Renaming> {
    match name
    case "Write" => {Renaming("file_path", "path"), Renaming("content", "text")}
    case "Edit" => {Renaming("file_path", "path"), Renaming("old_string", "oldStr"), Renaming("new_string", "newStr")}
    case "Bash" => {Renaming("command", "command"), Renaming("timeout", "timeout")}
    case "Read" => {Renaming("file_path", "path")}
    case "Glob" => {Renaming("pattern", "query")}
    case "Grep" =>
      {Renaming("pattern", "query"), Renaming("glob", "includePattern"), Renaming("case_sensitive", "caseSensitive")}
    case "LS" => {Renaming("path", "path")}
    case _ => {Renaming("query", "query")}
  }

  /** `a` has under `x` what `b` has under `y`, unless that is missing or null. */
  predicate Passes(a: Fields, x: string, b: Fields, y: string) {
    NonNull(Field(b, y)).Some? ==> Field(a, x) == Field(b, y)
  }

  /** Kiro gets every argument under its own name for it, and the client gets it back under the client's; only an
      argument that the client gives under Kiro's name too may be taken from there. */
  lemma ArgumentsAreRenamed(name: string, obj: Fields, r: Renaming)
    requires KiroBuiltin(name).Some? && r in Renamings(name)
    ensures FieldsToKiro(name, obj).Success? && r.client != "case_sensitive" ==>
              Passes(FieldsToKiro(name, obj).value, r.kiro, obj, r.client)
    ensures FieldsToKiro(name, obj).Success? && r.kiro !in obj ==>
              Passes(FieldsToKiro(name, obj).value, r.kiro, obj, r.client)
    ensures Passes(FieldsFromKiro(name, obj), r.client, obj, r.kiro)
  {
    hide MaybeInsert, Passes, ReadToKiro, GlobToKiro, GrepToKiro, LsToKiro, ReadFromKiro;
    match name {
      case "Write" => WriteIsRenamed(obj, r);
      case "Edit" => EditIsRenamed(obj, r);
      case "Glob" => GlobIsRenamed(obj, r);
      case "Grep" => GrepIsRenamed(obj, r);
      case "Read" => ReadIsRenamed(obj);
      case "Bash" => BashIsRenamed(obj, r);
      case "LS" => LsIsRenamed(obj);
      case _ => SearchIsRenamed(obj);
    }
  }

  lemma WriteIsRenamed(obj: Fields, r: Renaming)
    requires r in Renamings("Write")
    ensures Passes(FieldsToKiro("Write", obj).value, r.kiro, obj, r.client)
    ensures Passes(FieldsFromKiro("Write", obj), r.client, obj, r.kiro)
  {
  }

  lemma BashIsRenamed(obj: Fields, r: Renaming)
    requires r in Renamings("Bash")
    ensures Passes(FieldsToKiro("Bash", obj).value, r.kiro, obj, r.client)
    ensures Passes(FieldsFromKiro("Bash", obj), r.client, obj, r.kiro)
  {
  }

  lemma EditIsRenamed(obj: Fields, r: Renaming)
    requires r in Renamings("Edit")
    ensures Passes(FieldsToKiro("Edit", obj).value, r.kiro, obj, r.client)
    ensures Passes(FieldsFromKiro("Edit", obj), r.client, obj, r.kiro)
  {
    EditKiroFields(obj);
  }

  lemma ReadIsRenamed(obj: Fields)
    ensures Passes(ReadToKiro(obj), "path", obj, "file_path") && Passes(ReadFromKiro(obj), "file_path", obj, "path")
  {
    ReadKiroFields(obj);
  }

  lemma LsIsRenamed(obj: Fields)
    ensures Passes(LsToKiro(obj), "path", obj, "path") && Passes(FieldsFromKiro("LS", obj), "path", obj, "path")
  {
  }

  lemma SearchIsRenamed(obj: Fields)
    ensures Passes(FieldsToKiro("WebSearch", obj).value, "query", obj, "query")
    ensures Passes(FieldsFromKiro("WebSearch", obj), "query", obj, "query")
  {
  }

  lemma GlobIsRenamed(obj: Fields, r: Renaming)
    requires r in Renamings("Glob")
    ensures Passes(GlobToKiro(obj), r.kiro, obj, r.client) && Passes(FieldsFromKiro("Glob", obj), r.client, obj, r.kiro)
  {
    assert Field(GlobToKiro(obj), "query") == NonNull(TakeFirst(obj, "pattern", "query"));
  }

  lemma GrepIsRenamed(obj: Fields, r: Renaming)
    requires r in Renamings("Grep")
    ensures r.client != "case_sensitive" || r.kiro !in obj ==> Passes(GrepToKiro(obj), r.kiro, obj, r.client)
    ensures Passes(FieldsFromKiro("Grep", obj), r.client, obj, r.kiro)
  {
    GrepKiroFields(obj);
    hide GrepToKiro;
  }

  /** The explanation Kiro asks for is the client's, if it gave one. */
  lemma ExplanationIsGiven(obj: Fields)
    ensures forall kiro <- [ReadToKiro(obj), GlobToKiro(obj), LsToKiro(obj)] :: "explanation" in kiro
    ensures NonNull(Field(obj, "explanation")).Some? ==>
              forall kiro <- [ReadToKiro(obj), GlobToKiro(obj), GrepToKiro(obj), LsToKiro(obj)] ::
                Field(kiro, "explanation") == Field(obj, "explanation")
  {
  }

  /** The keys that the way back keeps under their own name. */
  function StableKeys(name: string): set<string> {
    if name == "Read" then {"file_path"} else CarriedKeys(name)
  }

  /** In raw mode arguments go out unchanged, but the way back still renames: they survive
      exactly when no Kiro name and nothing dropped is among them. */
  lemma RawModeSurvives(name: string, obj: Fields)
    requires KiroBuiltin(name).Some?
    ensures InputFromKiro(name, InputToKiro(name, Obj(obj), Raw).value) == Obj(obj) <==>
            OnlyNonNull(obj, StableKeys(name))
  {
    hide MaybeInsert;
    match name {
      case "Write" => RawWriteSurvives(obj);
      case "Edit" => RawEditSurvives(obj);
      case "Bash" => RawBashSurvives(obj);
      case "Read" => RawReadSurvives(obj);
      case "Glob" => RawSingleSurvives("Glob", obj);
      case "Grep" => RawGrepSurvives(obj);
      case "LS" => RawSingleSurvives("LS", obj);
      case _ => RawSingleSurvives("WebSearch", obj);
    }
  }

  lemma RawWriteSurvives(obj: Fields)
    ensures FieldsFromKiro("Write", obj) == obj <==> OnlyNonNull(obj, CarriedKeys("Write"))
  {
    CarriedBack(obj, FieldsFromKiro("Write", obj), CarriedKeys("Write"));
  }

  lemma RawBashSurvives(obj: Fields)
    ensures FieldsFromKiro("Bash", obj) == obj <==> OnlyNonNull(obj, CarriedKeys("Bash"))
  {
    CarriedBack(obj, FieldsFromKiro("Bash", obj), CarriedKeys("Bash"));
  }

  /** The tools with one carried argument. */
  lemma RawSingleSurvives(name: string, obj: Fields)
    requires name in ["Glob", "LS", "WebSearch"]
    ensures FieldsFromKiro(name, obj) == obj <==> OnlyNonNull(obj, CarriedKeys(name))
  {
    CarriedBack(obj, FieldsFromKiro(name, obj), CarriedKeys(name));
  }

  lemma RawEditSurvives(obj: Fields)
    ensures FieldsFromKiro("Edit", obj) == obj <==> OnlyNonNull(obj, CarriedKeys("Edit"))
  {
    CarriedBack(obj, FieldsFromKiro("Edit", obj), CarriedKeys("Edit"));
  }

  lemma RawGrepSurvives(obj: Fields)
    ensures FieldsFromKiro("Grep", obj) == obj <==> OnlyNonNull(obj, CarriedKeys("Grep"))
  {
    CarriedBack(obj, FieldsFromKiro("Grep", obj), CarriedKeys("Grep"));
  }

  lemma RawReadSurvives(obj: Fields)
    ensures ReadFromKiro(obj) == obj <==> OnlyNonNull(obj, {"file_path"})
  {
    var back := ReadFromKiro(obj);
    assert forall k <- back :: k in {"file_path", "offset", "limit"} && !back[k].Null?;
    if "offset" in back {
      assert "start_line" in obj && "start_line" !in back;
    }
    if "limit" in back {
      assert "end_line" in obj && "end_line" !in back;
    }
    if OnlyNonNull(obj, {"file_path"}) {
      CarriedBack(obj, back, {"file_path"});
    }
  }

  /** In raw mode a line range is lost on the way back. */
  lemma RawModeLosesLineRange()
    ensures var obj: Fields := map["file_path" := Str("a.rs"), "offset" := Int(3)];
            InputFromKiro("Read", InputToKiro("Read", Obj(obj), Raw).value) == Obj(map["file_path" := Str("a.rs")])
  {
    var obj: Fields := map["file_path" := Str("a.rs"), "offset" := Int(3)];
    assert FieldsFromKiro("Read", obj) == map["file_path" := Str("a.rs")];
  }
}
