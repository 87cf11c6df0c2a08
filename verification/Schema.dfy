/** Normalisation of tool input schemas (`normalize_json_schema`, `normalize_property_schema`).
    `fl` gives the number a printed float stands for; every statement holds for all of them. */
module Schema {
  import opened Wrappers
  import opened Json

  type FloatValue = string -> real

  const COMBINATORS := ["oneOf", "anyOf", "allOf"]
  const COPIED_KEYS := ["properties", "required", "additionalProperties", "description"]

  function AsF64(v: Value, fl: FloatValue): Option<real> {
    match v
    case Int(n) => Some(n as real)
    case Float(lit) => Some(fl(lit))
    case _ => None
  }

  predicate BeyondI32(x: real) {
    x > 2147483647.0 || x < -2147483648.0
  }

  // ----- Property schemas -----

  /** A keyword that normalisation removes. */
  predicate Dropped(k: string, v: Value, fl: FloatValue) {
    || k == "$schema"
    || (k in ["exclusiveMinimum", "exclusiveMaximum"] && AsF64(v, fl).Some?)
    || (k in ["minimum", "maximum"] && AsF64(v, fl).Some? && BeyondI32(AsF64(v, fl).value))
    || (k == "properties" && !v.Obj?)
  }

  /** The normalised schema, keyword by keyword. */
  function PropertySchema(s: Value, fl: FloatValue): Value
    decreases s, 1
  {
    match s
    case Obj(m) => Obj(map k | k in m && !Dropped(k, m[k], fl) ::
                         if k == "properties" then Obj(Properties(m[k], fl))
                         else if k == "items" then PropertySchema(m[k], fl)
                         else m[k])
    case _ => s
  }

  function Properties(props: Value, fl: FloatValue): map<string, Value>
    requires props.Obj?
    decreases props, 0
  {
    map p | p in props.fields :: PropertySchema(props.fields[p], fl)
  }

  /** The step-by-step form. */
  method NormalizePropertySchema(schema: Value, fl: FloatValue) returns (r: Value)
    ensures r == PropertySchema(schema, fl)
    decreases schema, 1
  {
    if !schema.Obj? {
      return schema;
    }
    var obj := ClearKeywords(schema.fields, fl);
    Reassembled(schema.fields, fl);
    obj := ReplaceProperties(schema, obj, fl);
    hide Cleared, Dropped, WithProperties, PropertySchema;
    if "items" in obj {
      var items := NormalizePropertySchema(obj["items"], fl);
      obj := obj["items" := items];
    }
    r := Obj(obj);
  }

  /** The `properties` of `schema` in `start`, normalised, or removed if they are no object. */
  method ReplaceProperties(ghost schema: Value, start: map<string, Value>, fl: FloatValue)
    returns (obj: map<string, Value>)
    requires schema.Obj?
    requires "properties" in start ==>
               "properties" in schema.fields && start["properties"] == schema.fields["properties"]
    ensures obj == WithProperties(start, fl)
    decreases schema, 0
  {
    hide PropertySchema, Properties;
    obj := start;
    if "properties" in obj {
      var props := obj["properties"];
      obj := obj - {"properties"};
      if props.Obj? {
        var normalized := NormalizeProperties(props, fl);
        obj := obj["properties" := Obj(normalized)];
      }
    }
  }

  function WithProperties(m: map<string, Value>, fl: FloatValue): map<string, Value> {
    if "properties" !in m then m
    else if m["properties"].Obj? then m["properties" := Obj(Properties(m["properties"], fl))]
    else m - {"properties"}
  }

  const KEYWORDS := ["exclusiveMinimum", "exclusiveMaximum", "maximum", "minimum"]

  /** A schema without its removable keywords, its children untouched. */
  function Cleared(m: map<string, Value>, fl: FloatValue): map<string, Value> {
    map k | k in m && !(k != "properties" && Dropped(k, m[k], fl)) :: m[k]
  }

  /** Only some of the keywords removed yet. */
  function Clearing(m: map<string, Value>, keys: seq<string>, fl: FloatValue): map<string, Value> {
    map k | k in m && !(k == "$schema" || (k in keys && Dropped(k, m[k], fl))) :: m[k]
  }

  lemma ClearingStep(m: map<string, Value>, keys: seq<string>, key: string, fl: FloatValue)
    requires key != "$schema" && key !in keys
    ensures var part := Clearing(m, keys, fl);
            Clearing(m, keys + [key], fl) == if key in part && Dropped(key, part[key], fl) then part - {key} else part
  {
    hide Dropped;
  }

  lemma ClearingAll(m: map<string, Value>, fl: FloatValue)
    ensures Clearing(m, KEYWORDS, fl) == Cleared(m, fl)
  {
  }

  method ClearKeywords(m: map<string, Value>, fl: FloatValue) returns (obj: map<string, Value>)
    ensures obj == Cleared(m, fl)
  {
    hide Cleared;
    obj := m - {"$schema"};
    for i := 0 to |KEYWORDS|
      invariant obj == Clearing(m, KEYWORDS[..i], fl)
    {
      var key := KEYWORDS[i];
      assert KEYWORDS[..i + 1] == KEYWORDS[..i] + [key];
      ClearingStep(m, KEYWORDS[..i], key, fl);
      // the first two go whenever they are numbers, the others when out of range
      if key in obj && AsF64(obj[key], fl).Some? && (i < 2 || BeyondI32(AsF64(obj[key], fl).value)) {
        obj := obj - {key};
      }
    }
    assert KEYWORDS[..|KEYWORDS|] == KEYWORDS;
    ClearingAll(m, fl);
  }

  lemma Reassembled(m: map<string, Value>, fl: FloatValue)
    ensures var a := Cleared(m, fl);
            var b := WithProperties(a, fl);
            var c := if "items" in b then b["items" := PropertySchema(b["items"], fl)] else b;
            PropertySchema(Obj(m), fl) == Obj(c)
  {
  }

  method NormalizeProperties(props: Value, fl: FloatValue) returns (r: map<string, Value>)
    requires props.Obj?
    ensures r == Properties(props, fl)
    decreases props, 0
  {
    r := map[];
    var rest := props.fields.Keys;
    while rest != {}
      invariant rest <= props.fields.Keys
      invariant r == map p | p in props.fields && p !in rest :: PropertySchema(props.fields[p], fl)
    {
      var p :| p in rest;
      var v := NormalizePropertySchema(props.fields[p], fl);
      r := r[p := v];
      rest := rest - {p};
    }
  }

  /** No removable keyword along the `properties` and `items` spine. */
  predicate SpineWf(s: Value, fl: FloatValue)
    decreases s
  {
    s.Obj? ==>
      && (forall k <- s.fields :: !Dropped(k, s.fields[k], fl))
      && ("properties" in s.fields && s.fields["properties"].Obj? ==>
            var props := s.fields["properties"];
            forall p <- props.fields :: SpineWf(props.fields[p], fl))
      && ("items" in s.fields ==> SpineWf(s.fields["items"], fl))
  }

  lemma {:induction false} PropertySchemaWf(s: Value, fl: FloatValue)
    ensures SpineWf(PropertySchema(s, fl), fl)
    decreases s
  {
    if s.Obj? {
      var r := PropertySchema(s, fl).fields;
      if "items" in s.fields {
        PropertySchemaWf(s.fields["items"], fl);
      }
      if "properties" in s.fields && s.fields["properties"].Obj? {
        var props := s.fields["properties"];
        forall p | p in props.fields
          ensures SpineWf(PropertySchema(props.fields[p], fl), fl)
        {
          PropertySchemaWf(props.fields[p], fl);
        }
      }
      forall k | k in r
        ensures !Dropped(k, r[k], fl)
      {
        assert k in s.fields && !Dropped(k, s.fields[k], fl);
      }
    }
  }

  /** Exactly the well-formed schemas are left as they are. */
  lemma {:induction false} PropertySchemaFixed(s: Value, fl: FloatValue)
    ensures PropertySchema(s, fl) == s <==> SpineWf(s, fl)
    decreases s
  {
    if PropertySchema(s, fl) == s {
      PropertySchemaWf(s, fl);
    }
    if SpineWf(s, fl) && s.Obj? {
      var r := PropertySchema(s, fl).fields;
      if "items" in s.fields {
        PropertySchemaFixed(s.fields["items"], fl);
      }
      if "properties" in s.fields {
        var props := s.fields["properties"];
        assert !Dropped("properties", props, fl);
        forall p | p in props.fields
          ensures PropertySchema(props.fields[p], fl) == props.fields[p]
        {
          PropertySchemaFixed(props.fields[p], fl);
        }
        assert Properties(props, fl) == props.fields;
      }
      assert r == s.fields;
    }
  }

  // ----- Normalisation only weakens -----

  /** Keywords not interpreted below: what remains of the schema, its property names, the value. */
  type Residual = (map<string, Value>, set<string>, Value) -> bool

  predicate Interpreted(k: string, v: Value, fl: FloatValue) {
    || k == "$schema"
    || (k in KEYWORDS && AsF64(v, fl).Some?)
    || k == "properties"
    || (k == "items" && (v.Obj? || v.Bool?))
  }

  function Rest(m: map<string, Value>, fl: FloatValue): map<string, Value> {
    map k | k in m && !Interpreted(k, m[k], fl) :: m[k]
  }

  function PropertyNames(m: map<string, Value>): set<string> {
    if "properties" in m && m["properties"].Obj? then m["properties"].fields.Keys else {}
  }

  function Bound(m: map<string, Value>, k: string, fl: FloatValue): Option<real> {
    if k in m then AsF64(m[k], fl) else None
  }

  /** Sections 6.2.2 to 6.2.5 of JSON Schema Validation, draft 2020-12. */
  predicate WithinBounds(m: map<string, Value>, v: Value, fl: FloatValue) {
    AsF64(v, fl).Some? ==>
      var x := AsF64(v, fl).value;
      && (Bound(m, "minimum", fl).Some? ==> x >= Bound(m, "minimum", fl).value)
      && (Bound(m, "maximum", fl).Some? ==> x <= Bound(m, "maximum", fl).value)
      && (Bound(m, "exclusiveMinimum", fl).Some? ==> x > Bound(m, "exclusiveMinimum", fl).value)
      && (Bound(m, "exclusiveMaximum", fl).Some? ==> x < Bound(m, "exclusiveMaximum", fl).value)
  }

  /** The values a schema accepts. */
  predicate Accepts(s: Value, v: Value, fl: FloatValue, other: Residual)
    decreases s
  {
    match s
    case Bool(b) => b
    case Obj(m) =>
      && WithinBounds(m, v, fl)
      && ("properties" in m && m["properties"].Obj? && v.Obj? ==>
            forall p <- m["properties"].fields ::
              p in v.fields ==> Accepts(m["properties"].fields[p], v.fields[p], fl, other))
      && ("items" in m && (m["items"].Obj? || m["items"].Bool?) && v.Arr? ==>
            forall x <- v.items :: Accepts(m["items"], x, fl, other))
      && other(Rest(m, fl), PropertyNames(m), v)
    case _ => true
  }

  lemma RestKept(s: Value, fl: FloatValue)
    requires s.Obj?
    ensures Rest(PropertySchema(s, fl).fields, fl) == Rest(s.fields, fl)
    ensures PropertyNames(PropertySchema(s, fl).fields) == PropertyNames(s.fields)
  {
    var m, r := s.fields, PropertySchema(s, fl).fields;
    forall k
      ensures k in Rest(r, fl) <==> k in Rest(m, fl)
      ensures k in Rest(m, fl) ==> Rest(r, fl)[k] == Rest(m, fl)[k]
    {
      RestKeptAt(s, fl, k);
    }
  }

  lemma RestKeptAt(s: Value, fl: FloatValue, k: string)
    requires s.Obj?
    ensures var m, r := s.fields, PropertySchema(s, fl).fields;
            && (k in Rest(r, fl) <==> k in Rest(m, fl))
            && (k in Rest(m, fl) ==> Rest(r, fl)[k] == Rest(m, fl)[k])
  {
    var m, r := s.fields, PropertySchema(s, fl).fields;
    if k in r && k != "properties" && k != "items" {
      assert r[k] == m[k];
    }
  }

  lemma BoundsKept(s: Value, fl: FloatValue, k: string)
    requires s.Obj? && k in KEYWORDS
    ensures Bound(PropertySchema(s, fl).fields, k, fl) ==
            if k in s.fields && Dropped(k, s.fields[k], fl) then None else Bound(s.fields, k, fl)
  {
  }

  /** Whatever the original schema accepts, the normalised one accepts. */
  lemma {:induction false} NormalisationWeakens(s: Value, v: Value, fl: FloatValue, other: Residual)
    requires Accepts(s, v, fl, other)
    ensures Accepts(PropertySchema(s, fl), v, fl, other)
    decreases s
  {
    if s.Obj? {
      var m, r := s.fields, PropertySchema(s, fl).fields;
      RestKept(s, fl);
      forall k | k in KEYWORDS
        ensures Bound(r, k, fl).Some? ==> Bound(r, k, fl) == Bound(m, k, fl)
      {
        BoundsKept(s, fl, k);
      }
      if "properties" in m && m["properties"].Obj? && v.Obj? {
        var props := m["properties"].fields;
        forall p | p in props && p in v.fields
          ensures Accepts(PropertySchema(props[p], fl), v.fields[p], fl, other)
        {
          NormalisationWeakens(props[p], v.fields[p], fl, other);
        }
      }
      if "items" in m && (m["items"].Obj? || m["items"].Bool?) && v.Arr? {
        forall x | x in v.items
          ensures Accepts(PropertySchema(m["items"], fl), x, fl, other)
        {
          NormalisationWeakens(m["items"], x, fl, other);
        }
      }
    }
  }

  /** No numeric bound is dropped anywhere along the spine. */
  predicate KeepsBounds(s: Value, fl: FloatValue)
    decreases s
  {
    s.Obj? ==>
      && (forall k <- s.fields :: k in KEYWORDS ==> !Dropped(k, s.fields[k], fl))
      && ("properties" in s.fields && s.fields["properties"].Obj? ==>
            var props := s.fields["properties"];
            forall p <- props.fields :: KeepsBounds(props.fields[p], fl))
      && ("items" in s.fields ==> KeepsBounds(s.fields["items"], fl))
  }

  /** What normalisation does to the two keywords that hold schemas. */
  lemma ChildrenNormalized(s: Value, fl: FloatValue)
    requires s.Obj?
    ensures var m, r := s.fields, PropertySchema(s, fl).fields;
            && ("properties" in r && r["properties"].Obj? <==> "properties" in m && m["properties"].Obj?)
            && ("properties" in m && m["properties"].Obj? ==>
                  r["properties"] == Obj(Properties(m["properties"], fl)))
            && ("items" in r <==> "items" in m)
            && ("items" in m ==> r["items"] == PropertySchema(m["items"], fl))
  {
  }

  lemma KindKept(s: Value, fl: FloatValue)
    ensures PropertySchema(s, fl).Obj? == s.Obj? && PropertySchema(s, fl).Bool? == s.Bool?
    ensures !s.Obj? ==> PropertySchema(s, fl) == s
  {
  }

  lemma BoundsWithin(s: Value, v: Value, fl: FloatValue)
    requires s.Obj? && forall k <- s.fields :: k in KEYWORDS ==> !Dropped(k, s.fields[k], fl)
    ensures WithinBounds(PropertySchema(s, fl).fields, v, fl) == WithinBounds(s.fields, v, fl)
  {
    var m, r := s.fields, PropertySchema(s, fl).fields;
    forall k | k in KEYWORDS
      ensures Bound(r, k, fl) == Bound(m, k, fl)
    {
      BoundsKept(s, fl, k);
    }
  }

  /** Where no bound is dropped, the meaning is exactly preserved. */
  lemma {:induction false} MeaningPreserved(s: Value, v: Value, fl: FloatValue, other: Residual)
    requires KeepsBounds(s, fl)
    ensures Accepts(PropertySchema(s, fl), v, fl, other) <==> Accepts(s, v, fl, other)
    decreases s
  {
    KindKept(s, fl);
    hide PropertySchema, WithinBounds, Rest, PropertyNames, Dropped;
    if s.Obj? {
      var m := s.fields;
      RestKept(s, fl);
      BoundsWithin(s, v, fl);
      ChildrenNormalized(s, fl);
      if "properties" in m && m["properties"].Obj? && v.Obj? {
        var props := m["properties"].fields;
        forall p | p in props && p in v.fields
          ensures Accepts(PropertySchema(props[p], fl), v.fields[p], fl, other) <==>
                  Accepts(props[p], v.fields[p], fl, other)
        {
          MeaningPreserved(props[p], v.fields[p], fl, other);
        }
      }
      if "items" in m && (m["items"].Obj? || m["items"].Bool?) {
        KindKept(m["items"], fl);
        if v.Arr? {
          forall x | x in v.items
            ensures Accepts(PropertySchema(m["items"], fl), x, fl, other) <==> Accepts(m["items"], x, fl, other)
          {
            MeaningPreserved(m["items"], x, fl, other);
          }
        }
      } else if "items" in m {
        KindKept(m["items"], fl);
      }
    }
  }

  // ----- The top level -----

  predicate IsObjectVariant(v: Value) {
    v.Obj? && Get(v, "type") == Some(Str("object"))
  }

  /** The first variant of a combinator that describes an object. */
  function FirstObjectVariant(variants: seq<Value>): Option<Value> {
    if variants == [] then None
    else if IsObjectVariant(variants[0]) then Some(variants[0])
    else FirstObjectVariant(variants[1..])
  }

  function BorrowKeys(obj: map<string, Value>, variant: map<string, Value>, keys: seq<string>): map<string, Value> {
    (map k | k in variant && k in keys :: variant[k]) + obj
  }

  lemma BorrowKeysStep(obj: map<string, Value>, m: map<string, Value>, keys: seq<string>, key: string)
    ensures var part := BorrowKeys(obj, m, keys);
            BorrowKeys(obj, m, keys + [key]) == if key in m && key !in part then part[key := m[key]] else part
  {
  }

  function Borrow(obj: map<string, Value>, variant: map<string, Value>): map<string, Value> {
    BorrowKeys(obj, variant, COPIED_KEYS)
  }

  /** One combinator removed; without `properties` of its own the schema borrows from a variant. */
  function StripOne(obj: map<string, Value>, combinator: string, hadProperties: bool): map<string, Value> {
    var rest := obj - {combinator};
    if combinator in obj && obj[combinator].Arr? && !hadProperties && "properties" !in rest then
      match FirstObjectVariant(obj[combinator].items)
      case Some(variant) => if variant.Obj? then Borrow(rest, variant.fields) else rest
      case None => rest
    else rest
  }

  /** `v` is the first variant that describes an object. */
  predicate IsFirstObject(variants: seq<Value>, v: Value) {
    exists i | 0 <= i < |variants| ::
      variants[i] == v && IsObjectVariant(v) && forall j | 0 <= j < i :: !IsObjectVariant(variants[j])
  }

  lemma {:induction false} FirstObjectIs(variants: seq<Value>)
    ensures FirstObjectVariant(variants).None? <==> forall v <- variants :: !IsObjectVariant(v)
    ensures FirstObjectVariant(variants).Some? ==> IsFirstObject(variants, FirstObjectVariant(variants).value)
    decreases |variants|
  {
    hide IsObjectVariant;
    if variants != [] {
      FirstObjectIs(variants[1..]);
      if !IsObjectVariant(variants[0]) && FirstObjectVariant(variants).Some? {
        var v := FirstObjectVariant(variants).value;
        var i :| 0 <= i < |variants[1..]| && variants[1..][i] == v && IsObjectVariant(v)
                 && forall j | 0 <= j < i :: !IsObjectVariant(variants[1..][j]);
        assert forall j | 0 < j <= i :: variants[j] == variants[1..][j - 1];
        assert variants[i + 1] == v;
      }
    }
  }

  /** What one combinator lends under a key: only to a schema without `properties`, only four keywords, and only from
      its first variant that describes an object. */
  predicate Lends(obj: map<string, Value>, combinator: string, k: string, v: Value) {
    && "properties" !in obj && k in ["properties", "required", "additionalProperties", "description"]
    && combinator in obj && obj[combinator].Arr?
    && exists variant <- obj[combinator].items ::
         IsFirstObject(obj[combinator].items, variant) && Get(variant, k) == Some(v)
  }

  lemma FirstObjectUnique(variants: seq<Value>, v: Value)
    ensures IsFirstObject(variants, v) <==> FirstObjectVariant(variants) == Some(v)
    ensures IsFirstObject(variants, v) ==> v in variants && v.Obj?
  {
    FirstObjectIs(variants);
    if IsFirstObject(variants, v) {
      assert FirstObjectVariant(variants).Some?;
      hide IsObjectVariant;
    }
  }

  /** Removing one combinator: every other keyword of the schema stays, and all that is new is lent. */
  lemma StripOneSpec(obj: map<string, Value>, combinator: string, k: string, v: Value)
    requires combinator in ["oneOf", "anyOf", "allOf"]
    ensures var r := StripOne(obj, combinator, false);
            && combinator !in r
            && (k in obj && k != combinator ==> k in r && r[k] == obj[k])
            && (k !in obj ==> (Get(Obj(r), k) == Some(v) <==> Lends(obj, combinator, k, v)))
    ensures StripOne(obj, combinator, true) == obj - {combinator}
  {
    hide IsObjectVariant, IsFirstObject;
    if combinator in obj && obj[combinator].Arr? {
      var variants := obj[combinator].items;
      forall variant
        ensures IsFirstObject(variants, variant) <==> FirstObjectVariant(variants) == Some(variant)
        ensures IsFirstObject(variants, variant) ==> variant in variants && variant.Obj?
      {
        FirstObjectUnique(variants, variant);
      }
      hide FirstObjectVariant;
    }
  }

  function StripCombinators(obj: map<string, Value>): map<string, Value> {
    var had := "properties" in obj;
    StripOne(StripOne(StripOne(obj, "oneOf", had), "anyOf", had), "allOf", had)
  }

  method StripTopLevelCombinators(start: map<string, Value>) returns (obj: map<string, Value>)
    ensures obj == StripCombinators(start)
  {
    obj := start;
    var had := "properties" in obj;
    for i := 0 to 3
      invariant i == 0 ==> obj == start
      invariant i == 1 ==> obj == StripOne(start, "oneOf", had)
      invariant i == 2 ==> obj == StripOne(StripOne(start, "oneOf", had), "anyOf", had)
      invariant i == 3 ==> obj == StripCombinators(start)
    {
      obj := StripCombinator(obj, COMBINATORS[i], had);
    }
  }

  method StripCombinator(start: map<string, Value>, combinator: string, had: bool) returns (obj: map<string, Value>)
    ensures obj == StripOne(start, combinator, had)
  {
    obj := start - {combinator};
    if combinator !in start || !start[combinator].Arr? || had || "properties" in obj {
      return;
    }
    var variants := start[combinator].items;
    var i := 0;
    while i < |variants| && !IsObjectVariant(variants[i])
      invariant 0 <= i <= |variants|
      invariant FirstObjectVariant(variants) == FirstObjectVariant(variants[i..])
    {
      i := i + 1;
    }
    if i < |variants| {
      obj := CopyKeys(obj, variants[i].fields);
    }
  }

  method CopyKeys(start: map<string, Value>, m: map<string, Value>) returns (obj: map<string, Value>)
    ensures obj == Borrow(start, m)
  {
    obj := start;
    for j := 0 to |COPIED_KEYS|
      invariant obj == BorrowKeys(start, m, COPIED_KEYS[..j])
    {
      var key := COPIED_KEYS[j];
      assert COPIED_KEYS[..j + 1] == COPIED_KEYS[..j] + [key];
      BorrowKeysStep(start, m, COPIED_KEYS[..j], key);
      if key in m && key !in obj {
        obj := obj[key := m[key]];
      }
    }
    assert COPIED_KEYS[..|COPIED_KEYS|] == COPIED_KEYS;
  }

  const DEFAULT_SCHEMA: Value :=
    Obj(map["type" := Str("object"), "properties" := Obj(map[]), "required" := Arr([]),
            "additionalProperties" := Bool(true)])

  function Strings(items: seq<Value>): seq<Value> {
    if items == [] then []
    else Strings(items[..|items| - 1]) + if items[|items| - 1].Str? then [items[|items| - 1]] else []
  }

  function PropertiesOf(obj: map<string, Value>, fl: FloatValue): Value {
    if "properties" in obj && obj["properties"].Obj? then Obj(Properties(obj["properties"], fl)) else Obj(map[])
  }

  function RequiredOf(obj: map<string, Value>): Value {
    if "required" in obj && obj["required"].Arr? then Arr(Strings(obj["required"].items)) else Arr([])
  }

  function AdditionalOf(obj: map<string, Value>): Value {
    if "additionalProperties" in obj && (obj["additionalProperties"].Bool? || obj["additionalProperties"].Obj?)
    then obj["additionalProperties"] else Bool(true)
  }

  function ToolSchema(schema: Value, fl: FloatValue): Value {
    match schema
    case Obj(m) =>
      var obj := StripCombinators(m - {"$schema"});
      Obj(obj[
        "type" := Str("object")][
        "properties" := PropertiesOf(obj, fl)][
        "required" := RequiredOf(obj)][
        "additionalProperties" := AdditionalOf(obj)])
    case _ => DEFAULT_SCHEMA
  }

  method NormalizeJsonSchema(schema: Value, fl: FloatValue) returns (r: Value)
    ensures r == ToolSchema(schema, fl)
  {
    hide StripCombinators, Strings, Properties, PropertySchema;
    if !schema.Obj? {
      return DEFAULT_SCHEMA;
    }
    var obj := schema.fields - {"$schema"};
    obj := StripTopLevelCombinators(obj);
    ghost var stripped := obj;
    if Get(Obj(obj), "type") != Some(Str("object")) {
      obj := obj["type" := Str("object")];
    }
    assert obj == stripped["type" := Str("object")];
    var props := map[];
    if "properties" in obj && obj["properties"].Obj? {
      props := NormalizeProperties(obj["properties"], fl);
    }
    obj := obj["properties" := Obj(props)];
    var required := [];
    if "required" in obj && obj["required"].Arr? {
      required := KeepStrings(obj["required"].items);
    }
    obj := obj["required" := Arr(required)];
    ghost var before := obj;
    if "additionalProperties" !in obj || !(obj["additionalProperties"].Bool? || obj["additionalProperties"].Obj?) {
      obj := obj["additionalProperties" := Bool(true)];
    }
    assert obj == before["additionalProperties" := AdditionalOf(stripped)];
    r := Obj(obj);
  }

  method KeepStrings(arr: seq<Value>) returns (r: seq<Value>)
    ensures r == Strings(arr)
  {
    r := [];
    for i := 0 to |arr|
      invariant r == Strings(arr[..i])
    {
      assert arr[..i + 1][..i] == arr[..i];
      if arr[i].Str? {
        r := r + [arr[i]];
      }
    }
    assert arr[..|arr|] == arr;
  }

  /** What the upstream accepts as a tool schema. */
  predicate ToolSchemaWf(s: Value, fl: FloatValue) {
    && s.Obj?
    && "$schema" !in s.fields
    && (forall c <- COMBINATORS :: c !in s.fields)
    && Get(s, "type") == Some(Str("object"))
    && "properties" in s.fields && s.fields["properties"].Obj?
    && (forall p <- s.fields["properties"].fields :: SpineWf(s.fields["properties"].fields[p], fl))
    && "required" in s.fields && s.fields["required"].Arr?
    && (forall r <- s.fields["required"].items :: r.Str?)
    && "additionalProperties" in s.fields
    && (s.fields["additionalProperties"].Bool? || s.fields["additionalProperties"].Obj?)
  }

  /** A keyword of the schema's own stays, and none is added but the lent ones. */
  lemma StripKeeps(obj: map<string, Value>, k: string)
    requires k !in COMBINATORS && (k in obj || "properties" in obj || k !in COPIED_KEYS)
    ensures Get(Obj(StripCombinators(obj)), k) == Get(Obj(obj), k)
  {
    var had := "properties" in obj;
    var a := StripOne(obj, "oneOf", had);
    var b := StripOne(a, "anyOf", had);
    OneStripKeeps(obj, "oneOf", had, k);
    OneStripKeeps(a, "anyOf", had, k);
    OneStripKeeps(b, "allOf", had, k);
    hide StripOne;
  }

  lemma OneStripKeeps(obj: map<string, Value>, combinator: string, had: bool, k: string)
    requires k != combinator && (k in obj || had || k !in COPIED_KEYS)
    ensures Get(Obj(StripOne(obj, combinator, had)), k) == Get(Obj(obj), k)
  {
    hide FirstObjectVariant;
  }

  /** Keywords the normalisation does not treat stay; `additionalProperties` stays if it is a boolean or a schema, and
      is true otherwise. */
  lemma ToolSchemaKeeps(m: map<string, Value>, fl: FloatValue, k: string)
    requires k !in COMBINATORS && k !in ["$schema", "type", "properties", "required"]
    requires k in m || "properties" in m || k !in COPIED_KEYS
    ensures Get(ToolSchema(Obj(m), fl), k) ==
            if k == "additionalProperties" && (k !in m || !(m[k].Bool? || m[k].Obj?)) then Some(Bool(true))
            else Get(Obj(m), k)
  {
    StripKeeps(m - {"$schema"}, k);
    hide StripCombinators, PropertiesOf, RequiredOf;
  }

  lemma StripRemoves(obj: map<string, Value>)
    requires "$schema" !in obj
    ensures "$schema" !in StripCombinators(obj)
    ensures forall c <- COMBINATORS :: c !in StripCombinators(obj)
  {
    var had := "properties" in obj;
    var a := StripOne(obj, "oneOf", had);
    var b := StripOne(a, "anyOf", had);
    assert "$schema" !in COPIED_KEYS && forall c <- COMBINATORS :: c !in COPIED_KEYS;
    assert "oneOf" !in a && "$schema" !in a;
    assert "oneOf" !in b && "anyOf" !in b && "$schema" !in b;
  }

  lemma {:induction false} StringsSpec(items: seq<Value>)
    ensures forall v :: v in Strings(items) <==> v in items && v.Str?
    ensures (forall v <- items :: v.Str?) ==> Strings(items) == items
  {
    if items != [] {
      var init, last := items[..|items| - 1], items[|items| - 1];
      assert items == init + [last];
      StringsSpec(init);
    }
  }

  lemma PropertiesAreWf(obj: map<string, Value>, fl: FloatValue)
    ensures PropertiesOf(obj, fl).Obj?
    ensures var props := PropertiesOf(obj, fl).fields; forall p <- props :: SpineWf(props[p], fl)
  {
    hide SpineWf;
    if "properties" in obj && obj["properties"].Obj? {
      var props := obj["properties"].fields;
      forall p | p in props
        ensures SpineWf(PropertySchema(props[p], fl), fl)
      {
        PropertySchemaWf(props[p], fl);
      }
    }
  }

  lemma RequiredAreStrings(obj: map<string, Value>)
    ensures RequiredOf(obj).Arr? && forall r <- RequiredOf(obj).items :: r.Str?
  {
    if "required" in obj && obj["required"].Arr? {
      StringsSpec(obj["required"].items);
    }
  }

  lemma FourKeysSet(obj: map<string, Value>, kind: Value, props: Value, required: Value, additional: Value)
    requires "$schema" !in obj && forall c <- COMBINATORS :: c !in obj
    ensures var r := obj["type" := kind]["properties" := props]["required" := required][
                     "additionalProperties" := additional];
            && "$schema" !in r && (forall c <- COMBINATORS :: c !in r)
            && Get(Obj(r), "type") == Some(kind)
            && r["properties"] == props && r["required"] == required && r["additionalProperties"] == additional
  {
  }

  /** Every normalised schema is well formed. */
  lemma ToolSchemaIsWf(s: Value, fl: FloatValue)
    ensures ToolSchemaWf(ToolSchema(s, fl), fl)
  {
    hide StripCombinators, PropertiesOf, RequiredOf, SpineWf;
    if s.Obj? {
      StripRemoves(s.fields - {"$schema"});
      var obj := StripCombinators(s.fields - {"$schema"});
      PropertiesAreWf(obj, fl);
      RequiredAreStrings(obj);
      FourKeysSet(obj, Str("object"), PropertiesOf(obj, fl), RequiredOf(obj), AdditionalOf(obj));
    }
  }

  /** Exactly the well-formed tool schemas are left as they are; so normalising twice is
      normalising once. */
  lemma ToolSchemaFixed(s: Value, fl: FloatValue)
    ensures ToolSchema(s, fl) == s <==> ToolSchemaWf(s, fl)
    ensures ToolSchema(ToolSchema(s, fl), fl) == ToolSchema(s, fl)
  {
    ToolSchemaIsWf(s, fl);
    if ToolSchemaWf(s, fl) {
      WellFormedFixed(s, fl);
    }
    WellFormedFixed(ToolSchema(s, fl), fl);
  }

  lemma NothingToStrip(m: map<string, Value>)
    requires "properties" in m && forall c <- COMBINATORS :: c !in m
    ensures StripCombinators(m) == m
  {
    assert COMBINATORS[0] !in m && COMBINATORS[1] !in m && COMBINATORS[2] !in m;
    assert m - {"oneOf"} == m && m - {"anyOf"} == m && m - {"allOf"} == m;
  }

  lemma WellFormedFixed(s: Value, fl: FloatValue)
    requires ToolSchemaWf(s, fl)
    ensures ToolSchema(s, fl) == s
  {
    hide StripCombinators, Properties, PropertySchema, SpineWf, Strings;
    var m := s.fields;
    assert m - {"$schema"} == m;
    NothingToStrip(m);
    WellFormedProperties(m["properties"], fl);
    StringsSpec(m["required"].items);
    assert ToolSchema(s, fl).fields == m;
  }

  lemma WellFormedProperties(props: Value, fl: FloatValue)
    requires props.Obj? && forall p <- props.fields :: SpineWf(props.fields[p], fl)
    ensures Properties(props, fl) == props.fields
  {
    forall p | p in props.fields
      ensures PropertySchema(props.fields[p], fl) == props.fields[p]
    {
      PropertySchemaFixed(props.fields[p], fl);
    }
  }
}
