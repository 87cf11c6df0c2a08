/** The printed form of JSON values (`canonical_json`): object keys are sorted, so the text
    does not depend on their order, and the text determines the value.
    Syntax as in sections 4, 5 and 7 of RFC 8259. */
module JsonText {
  import opened Json

  // ----- Key order -----

  /** The order of Rust strings: code points, left to right. */
  predicate LexLe(a: string, b: string) {
    a == [] || (b != [] && (a[0] < b[0] || (a[0] == b[0] && LexLe(a[1..], b[1..]))))
  }

  lemma {:induction false} LexLeTotal(a: string, b: string)
    ensures LexLe(a, b) || LexLe(b, a)
  {
    if a != [] && b != [] && a[0] == b[0] {
      LexLeTotal(a[1..], b[1..]);
    }
  }

  lemma {:induction false} LexLeAntisymmetric(a: string, b: string)
    requires LexLe(a, b) && LexLe(b, a)
    ensures a == b
  {
    if a != [] {
      LexLeAntisymmetric(a[1..], b[1..]);
      assert a == [a[0]] + a[1..] && b == [b[0]] + b[1..];
    }
  }

  lemma {:induction false} LexLeTransitive(a: string, b: string, c: string)
    requires LexLe(a, b) && LexLe(b, c)
    ensures LexLe(a, c)
  {
    if a != [] && a[0] == b[0] == c[0] {
      LexLeTransitive(a[1..], b[1..], c[1..]);
    }
  }

  predicate IsLeast(k: string, ks: set<string>) {
    k in ks && forall j <- ks :: LexLe(k, j)
  }

  lemma {:induction false} LeastExists(ks: set<string>)
    requires ks != {}
    ensures exists k :: IsLeast(k, ks)
  {
    var k :| k in ks;
    LexLeTotal(k, k);
    if ks == {k} {
      assert IsLeast(k, ks);
    } else {
      LeastExists(ks - {k});
      var j :| IsLeast(j, ks - {k});
      LexLeTotal(j, k);
      if LexLe(j, k) {
        assert IsLeast(j, ks);
      } else {
        forall i | i in ks
          ensures LexLe(k, i)
        {
          if i != k {
            LexLeTransitive(k, j, i);
          }
        }
        assert IsLeast(k, ks);
      }
    }
  }

  lemma LeastUnique(ks: set<string>)
    ensures forall j, k :: IsLeast(j, ks) && IsLeast(k, ks) ==> j == k
  {
    forall j, k | IsLeast(j, ks) && IsLeast(k, ks)
      ensures j == k
    {
      LexLeAntisymmetric(j, k);
    }
  }

  /** The keys in ascending order. */
  function SortedKeys(ks: set<string>): (r: seq<string>)
    ensures forall k :: k in r <==> k in ks
  {
    if ks == {} then
      []
    else
      LeastExists(ks);
      LeastUnique(ks);
      var k :| IsLeast(k, ks);
      [k] + SortedKeys(ks - {k})
  }

  predicate Ascending(ks: seq<string>) {
    forall i, j | 0 <= i < j < |ks| :: LexLe(ks[i], ks[j]) && ks[i] != ks[j]
  }

  /** Whatever order an object's keys are visited in, sorting the listing gives the one list
      `SortedKeys`: the printed text is independent of key order. */
  lemma {:induction false} SortedListingUnique(ks: seq<string>)
    requires Ascending(ks)
    ensures ks == SortedKeys(set k <- ks)
  {
    var all := set k <- ks;
    if ks != [] {
      forall j | j in all
        ensures LexLe(ks[0], j)
      {
        var i :| 0 <= i < |ks| && ks[i] == j;
        if i == 0 {
          LexLeTotal(j, j);
        }
      }
      assert IsLeast(ks[0], all);
      LeastUnique(all);
      assert all - {ks[0]} == set k <- ks[1..];
      SortedListingUnique(ks[1..]);
    } else {
      assert all == {};
    }
  }

  /** Insertion of one key into a sorted listing, and the sort built from it. */
  function Insert(k: string, ks: seq<string>): seq<string> {
    if ks == [] || LexLe(k, ks[0]) then [k] + ks else [ks[0]] + Insert(k, ks[1..])
  }

  function Sort(ks: seq<string>): seq<string> {
    if ks == [] then [] else Insert(ks[0], Sort(ks[1..]))
  }

  lemma {:induction false} InsertAscending(k: string, ks: seq<string>)
    requires Ascending(ks) && k !in ks
    ensures Ascending(Insert(k, ks))
    ensures forall j :: j in Insert(k, ks) <==> j == k || j in ks
  {
    if ks == [] {
    } else if LexLe(k, ks[0]) {
      forall j | 0 <= j < |ks|
        ensures LexLe(k, ks[j])
      {
        if j > 0 {
          LexLeTransitive(k, ks[0], ks[j]);
        }
      }
    } else {
      LexLeTotal(k, ks[0]);
      InsertAscending(k, ks[1..]);
      var rest := Insert(k, ks[1..]);
      forall j | 0 <= j < |rest|
        ensures LexLe(ks[0], rest[j]) && ks[0] != rest[j]
      {
        assert rest[j] in rest;
        if rest[j] != k {
          assert rest[j] in ks[1..];
        }
      }
    }
  }

  lemma {:induction false} SortAscending(ks: seq<string>)
    requires forall i, j | 0 <= i < j < |ks| :: ks[i] != ks[j]
    ensures Ascending(Sort(ks))
    ensures forall k :: k in Sort(ks) <==> k in ks
  {
    if ks != [] {
      SortAscending(ks[1..]);
      assert ks[0] !in ks[1..];
      InsertAscending(ks[0], Sort(ks[1..]));
    }
  }

  /** Any duplicate-free listing of an object's keys sorts to the same list. */
  lemma SortIgnoresOrder(ks: seq<string>, keys: set<string>)
    requires forall i, j | 0 <= i < j < |ks| :: ks[i] != ks[j]
    requires keys == set k <- ks
    ensures Sort(ks) == SortedKeys(keys)
  {
    SortAscending(ks);
    SortedListingUnique(Sort(ks));
    assert keys == set k <- Sort(ks);
  }

  // ----- Printing -----

  function Digit(d: nat): char
    requires d < 16
  {
    "0123456789abcdef"[d]
  }

  /** Decimal digits of a natural number. */
  function Digits(n: nat): (r: string)
    ensures r != []
    ensures forall c <- r :: '0' <= c <= '9'
  {
    if n < 10 then [Digit(n)] else Digits(n / 10) + [Digit(n % 10)]
  }

  function IntText(n: int): string {
    if n < 0 then "-" + Digits(-n) else Digits(n)
  }

  /** String escapes: the short forms, `\u00xx` for other control characters, and every
      other character as it is. */
  function EscapeChar(c: char): string {
    if c == '\"' then "\\\""
    else if c == '\\' then "\\\\"
    else if c == 8 as char then "\\b"
    else if c == 12 as char then "\\f"
    else if c == '\n' then "\\n"
    else if c == '\r' then "\\r"
    else if c == '\t' then "\\t"
    else if c as int < 32 then "\\u00" + [Digit(c as int / 16), Digit(c as int % 16)]
    else [c]
  }

  function Escape(s: string): string {
    if s == [] then [] else EscapeChar(s[0]) + Escape(s[1..])
  }

  function Quote(s: string): string {
    "\"" + Escape(s) + "\""
  }

  function Text(v: Value): string
    decreases v, 1, 0
  {
    match v
    case Null => "null"
    case Bool(b) => if b then "true" else "false"
    case Int(n) => IntText(n)
    case Float(lit) => lit
    case Str(s) => Quote(s)
    case Arr(items) => if items == [] then "[]" else "[" + Text(items[0]) + MoreItems(v, 1)
    case Obj(fields) =>
      var ks := SortedKeys(fields.Keys);
      if ks == [] then "{}" else "{" + Field(v, ks[0]) + MoreFields(v, ks[1..])
  }

  function MoreItems(v: Value, i: nat): string
    requires v.Arr? && i <= |v.items|
    decreases v, 0, |v.items| - i
  {
    if i == |v.items| then "]" else "," + Text(v.items[i]) + MoreItems(v, i + 1)
  }

  function Field(v: Value, k: string): string
    requires v.Obj? && k in v.fields
    decreases v, 0, 0
  {
    Quote(k) + ":" + Text(v.fields[k])
  }

  function MoreFields(v: Value, ks: seq<string>): string
    requires v.Obj? && forall k <- ks :: k in v.fields
    decreases v, 0, |ks| + 1
  {
    if ks == [] then "}" else "," + Field(v, ks[0]) + MoreFields(v, ks[1..])
  }

  // ----- The text determines the value -----

  predicate NumberChar(c: char) {
    '0' <= c <= '9' || c in "-+.eE"
  }

  /** A printed float starts like a number, and a point or an exponent tells it from an integer. */
  predicate FloatLiteral(lit: string) {
    && lit != []
    && (lit[0] == '-' || '0' <= lit[0] <= '9')
    && (forall c <- lit :: NumberChar(c))
    && (exists c <- lit :: c in ".eE")
  }

  predicate WellFormed(v: Value)
    decreases v
  {
    match v
    case Float(lit) => FloatLiteral(lit)
    case Arr(items) => forall i | 0 <= i < |items| :: WellFormed(items[i])
    case Obj(fields) => forall k <- fields :: WellFormed(fields[k])
    case _ => true
  }

  /** What may follow a printed value inside a larger text. */
  predicate Delimited(x: string) {
    x == [] || x[0] in ",]}"
  }

  lemma SameLast(a: string, b: string, c: char, d: char)
    requires a + [c] == b + [d]
    ensures a == b && c == d
  {
    assert a == (a + [c])[..|a + [c]| - 1] && b == (b + [d])[..|b + [d]| - 1];
    assert c == (a + [c])[|a|] && d == (b + [d])[|b|];
  }

  lemma DigitInjective(c: nat, d: nat)
    requires c < 16 && d < 16 && Digit(c) == Digit(d)
    ensures c == d
  {
  }

  lemma {:induction false} DigitsInjective(n: nat, m: nat)
    requires Digits(n) == Digits(m)
    ensures n == m
  {
    assert |Digits(n)| == 1 <==> n < 10;
    assert |Digits(m)| == 1 <==> m < 10;
    if n < 10 {
      DigitInjective(n, m);
    } else {
      SameLast(Digits(n / 10), Digits(m / 10), Digit(n % 10), Digit(m % 10));
      DigitInjective(n % 10, m % 10);
      DigitsInjective(n / 10, m / 10);
    }
  }

  lemma IntTextShape(n: int)
    ensures IntText(n) != []
    ensures n < 0 <==> IntText(n)[0] == '-'
    ensures IntText(n)[0] == '-' || '0' <= IntText(n)[0] <= '9'
    ensures forall c <- IntText(n) :: NumberChar(c) && c !in ".eE"
  {
    var ds := Digits(if n < 0 then -n else n);
    assert ds[0] in ds;
  }

  lemma IntTextInjective(n: int, m: int)
    requires IntText(n) == IntText(m)
    ensures n == m
  {
    IntTextShape(n);
    IntTextShape(m);
    if n < 0 {
      DropPrefix("-", Digits(-n));
      DropPrefix("-", Digits(-m));
      DigitsInjective(-n, -m);
    } else {
      DigitsInjective(n, m);
    }
  }

  lemma NumberBoundary(a: string, x: string)
    requires forall c <- a :: NumberChar(c)
    requires Delimited(x)
    ensures forall i | 0 <= i < |a| :: NumberChar((a + x)[i])
    ensures |a| < |a + x| ==> !NumberChar((a + x)[|a|])
  {
    forall i | 0 <= i < |a|
      ensures NumberChar((a + x)[i])
    {
      assert a[i] in a;
    }
  }

  /** A run of number characters ends where the delimiter starts. */
  lemma {:induction false} NumberRun(a: string, b: string, x: string, y: string)
    requires forall c <- a :: NumberChar(c)
    requires forall c <- b :: NumberChar(c)
    requires Delimited(x) && Delimited(y)
    requires a + x == b + y
    ensures a == b && x == y
  {
    NumberBoundary(a, x);
    NumberBoundary(b, y);
    assert a == (a + x)[..|a|] && b == (b + y)[..|b|];
    assert x == (a + x)[|a|..] && y == (b + y)[|b|..];
  }

  /** Regrouping of a concatenation after its first character. */
  lemma Regroup(h: char, a: string, m: string, x: string)
    ensures ([h] + a + m) + x == [h] + (a + (m + x))
    ensures (([h] + a + m) + x)[0] == h
    ensures (([h] + a + m) + x)[1..] == a + (m + x)
  {
  }

  /** Reads back one escaped character: the character and the length of its escape. */
  function Unescape(t: string): (char, nat)
    requires t != []
  {
    if t[0] != '\\' || |t| < 2 then (t[0], 1)
    else if t[1] == 'b' then (8 as char, 2)
    else if t[1] == 'f' then (12 as char, 2)
    else if t[1] == 'n' then ('\n', 2)
    else if t[1] == 'r' then ('\r', 2)
    else if t[1] == 't' then ('\t', 2)
    else if t[1] == 'u' && |t| >= 6 then ((16 * HexValue(t[4]) + HexValue(t[5])) as char, 6)
    else (t[1], 2)
  }

  function HexValue(c: char): (n: nat)
    ensures n < 16
  {
    if '0' <= c <= '9' then c as int - '0' as int
    else if 'a' <= c <= 'f' then c as int - 'a' as int + 10
    else 0
  }

  lemma HexDigit(d: nat)
    requires d < 16
    ensures HexValue(Digit(d)) == d
  {
  }

  lemma UnescapeEscape(c: char, x: string)
    ensures Unescape(EscapeChar(c) + x) == (c, |EscapeChar(c)|)
    ensures EscapeChar(c)[0] != '\"'
  {
    var e := EscapeChar(c);
    if c as int < 32 && c !in {8 as char, 12 as char, '\n', '\r', '\t'} {
      HexDigit(c as int / 16);
      HexDigit(c as int % 16);
      assert (e + x)[4] == e[4] && (e + x)[5] == e[5];
    }
  }

  /** A quoted string ends at its own closing quote. */
  lemma {:induction false} EscapeUnambiguous(s: string, t: string, x: string, y: string)
    requires Escape(s) + ("\"" + x) == Escape(t) + ("\"" + y)
    ensures s == t && x == y
  {
    var a, b := Escape(s) + ("\"" + x), Escape(t) + ("\"" + y);
    if s == [] && t == [] {
      assert x == a[1..] && y == b[1..];
    } else if s == [] {
      EscapeStep(t, y);
      assert false;
    } else if t == [] {
      EscapeStep(s, x);
      assert false;
    } else {
      EscapeStep(s, x);
      EscapeStep(t, y);
      EscapeUnambiguous(s[1..], t[1..], x, y);
      assert s == [s[0]] + s[1..] && t == [t[0]] + t[1..];
    }
  }

  lemma EscapeStep(s: string, x: string)
    requires s != []
    ensures var a := Escape(s) + ("\"" + x);
            && a != [] && a[0] != '\"'
            && Unescape(a).0 == s[0] && Unescape(a).1 <= |a|
            && a[Unescape(a).1..] == Escape(s[1..]) + ("\"" + x)
  {
    var rest := Escape(s[1..]) + ("\"" + x);
    assert Escape(s) + ("\"" + x) == EscapeChar(s[0]) + rest;
    UnescapeEscape(s[0], rest);
    DropPrefix(EscapeChar(s[0]), rest);
  }

  lemma DropPrefix(p: string, x: string)
    ensures (p + x)[|p|..] == x
    ensures p != [] ==> (p + x)[0] == p[0]
  {
  }

  lemma QuoteTail(s: string, x: string)
    ensures (Quote(s) + x)[1..] == Escape(s) + ("\"" + x)
  {
    Regroup('\"', Escape(s), "\"", x);
  }

  lemma QuoteUnambiguous(s: string, t: string, x: string, y: string)
    requires Quote(s) + x == Quote(t) + y
    ensures s == t && x == y
  {
    QuoteTail(s, x);
    QuoteTail(t, y);
    EscapeUnambiguous(s, t, x, y);
  }

  /** The first character of a printed value tells what kind of value it is. */
  lemma FirstChar(v: Value)
    requires WellFormed(v)
    ensures Text(v) != []
    ensures var c := Text(v)[0];
            && (v.Null? <==> c == 'n')
            && (v.Bool? <==> c in "tf")
            && (v.Str? <==> c == '\"')
            && (v.Arr? <==> c == '[')
            && (v.Obj? <==> c == '{')
            && (v.Int? || v.Float? <==> c == '-' || '0' <= c <= '9')
  {
    if v.Int? {
      IntTextShape(v.n);
    }
  }

  /** Two printed values that start the same text are the same value, and so is the rest. */
  lemma {:induction false} TextUnambiguous(v: Value, w: Value, x: string, y: string)
    requires WellFormed(v) && WellFormed(w)
    requires Delimited(x) && Delimited(y)
    requires Text(v) + x == Text(w) + y
    ensures v == w && x == y
    decreases v, 1, 0
  {
    var s, t := Text(v) + x, Text(w) + y;
    FirstChar(v);
    FirstChar(w);
    assert s[0] == Text(v)[0] && t[0] == Text(w)[0];
    match v {
      case Null =>
        assert x == s[4..] && y == t[4..];
      case Bool(_) =>
        assert x == s[|Text(v)|..] && y == t[|Text(w)|..];
      case Int(_) =>
        NumberUnambiguous(v, w, x, y);
      case Float(_) =>
        NumberUnambiguous(v, w, x, y);
      case Str(_) =>
        QuoteUnambiguous(v.s, w.s, x, y);
      case Arr(_) =>
        ArrayUnambiguous(v, w, x, y);
      case Obj(_) =>
        ObjectUnambiguous(v, w, x, y);
    }
  }

  lemma NumberUnambiguous(v: Value, w: Value, x: string, y: string)
    requires WellFormed(v) && WellFormed(w)
    requires (v.Int? || v.Float?) && (w.Int? || w.Float?)
    requires Delimited(x) && Delimited(y)
    requires Text(v) + x == Text(w) + y
    ensures v == w && x == y
  {
    if v.Int? {
      IntTextShape(v.n);
    }
    if w.Int? {
      IntTextShape(w.n);
    }
    NumberRun(Text(v), Text(w), x, y);
    if v.Int? && w.Int? {
      IntTextInjective(v.n, w.n);
    }
  }

  lemma ArraySecondChar(v: Value, x: string)
    requires WellFormed(v) && v.Arr?
    ensures |Text(v)| >= 2
    ensures v.items == [] <==> (Text(v) + x)[1] == ']'
  {
    if v.items != [] {
      FirstChar(v.items[0]);
      Regroup('[', Text(v.items[0]), MoreItems(v, 1), x);
      assert (Text(v) + x)[1] == (Text(v) + x)[1..][0];
    }
  }

  lemma ObjectSecondChar(v: Value, x: string)
    requires v.Obj?
    ensures |Text(v)| >= 2
    ensures SortedKeys(v.fields.Keys) == [] <==> (Text(v) + x)[1] == '}'
  {
    var ks := SortedKeys(v.fields.Keys);
    if ks != [] {
      Regroup('{', Field(v, ks[0]), MoreFields(v, ks[1..]), x);
      assert (Text(v) + x)[1] == (Text(v) + x)[1..][0];
      assert Field(v, ks[0])[0] == '\"';
    }
  }

  lemma {:induction false} ArrayUnambiguous(v: Value, w: Value, x: string, y: string)
    requires WellFormed(v) && WellFormed(w)
    requires v.Arr? && w.Arr?
    requires Delimited(x) && Delimited(y)
    requires Text(v) + x == Text(w) + y
    ensures v == w && x == y
    decreases v, 0, |v.items| + 1
  {
    var s, t := Text(v) + x, Text(w) + y;
    ArraySecondChar(v, x);
    ArraySecondChar(w, y);
    if v.items == [] {
      assert x == s[2..] && y == t[2..];
    } else {
      Regroup('[', Text(v.items[0]), MoreItems(v, 1), x);
      Regroup('[', Text(w.items[0]), MoreItems(w, 1), y);
      TextUnambiguous(v.items[0], w.items[0], MoreItems(v, 1) + x, MoreItems(w, 1) + y);
      MoreItemsUnambiguous(v, w, 1, x, y);
    }
  }

  lemma {:induction false} MoreItemsUnambiguous(v: Value, w: Value, i: nat, x: string, y: string)
    requires WellFormed(v) && WellFormed(w)
    requires v.Arr? && w.Arr? && i <= |v.items| && i <= |w.items|
    requires Delimited(x) && Delimited(y)
    requires MoreItems(v, i) + x == MoreItems(w, i) + y
    ensures v.items[i..] == w.items[i..] && x == y
    decreases v, 0, |v.items| - i
  {
    hide Text;
    var s, t := MoreItems(v, i) + x, MoreItems(w, i) + y;
    assert s[0] == MoreItems(v, i)[0] && t[0] == MoreItems(w, i)[0];
    if i == |v.items| {
      assert x == s[1..] && y == t[1..];
    } else {
      Regroup(',', Text(v.items[i]), MoreItems(v, i + 1), x);
      Regroup(',', Text(w.items[i]), MoreItems(w, i + 1), y);
      TextUnambiguous(v.items[i], w.items[i], MoreItems(v, i + 1) + x, MoreItems(w, i + 1) + y);
      MoreItemsUnambiguous(v, w, i + 1, x, y);
      assert v.items[i..] == [v.items[i]] + v.items[i + 1..];
      assert w.items[i..] == [w.items[i]] + w.items[i + 1..];
    }
  }

  lemma FieldShape(v: Value, k: string, x: string)
    requires v.Obj? && k in v.fields
    ensures Field(v, k) + x == Quote(k) + ([':'] + (Text(v.fields[k]) + x))
  {
    Concat4(Quote(k), ":", Text(v.fields[k]), x);
  }

  lemma Concat4(a: string, b: string, c: string, d: string)
    ensures a + b + c + d == a + (b + (c + d))
  {
  }

  lemma {:induction false} FieldUnambiguous(v: Value, w: Value, j: string, k: string, x: string, y: string)
    requires WellFormed(v) && WellFormed(w)
    requires v.Obj? && w.Obj? && j in v.fields && k in w.fields
    requires Delimited(x) && Delimited(y)
    requires Field(v, j) + x == Field(w, k) + y
    ensures j == k && v.fields[j] == w.fields[k] && x == y
    decreases v, 0, 0
  {
    FieldShape(v, j, x);
    FieldShape(w, k, y);
    QuoteUnambiguous(j, k, [':'] + (Text(v.fields[j]) + x), [':'] + (Text(w.fields[k]) + y));
    DropPrefix([':'], Text(v.fields[j]) + x);
    DropPrefix([':'], Text(w.fields[k]) + y);
    TextUnambiguous(v.fields[j], w.fields[k], x, y);
  }

  lemma {:induction false} MoreFieldsUnambiguous(
    v: Value, w: Value, ks: seq<string>, ls: seq<string>, x: string, y: string)
    requires WellFormed(v) && WellFormed(w)
    requires v.Obj? && w.Obj?
    requires (forall k <- ks :: k in v.fields) && (forall k <- ls :: k in w.fields)
    requires Delimited(x) && Delimited(y)
    requires MoreFields(v, ks) + x == MoreFields(w, ls) + y
    ensures ks == ls && x == y && forall k <- ks :: v.fields[k] == w.fields[k]
    decreases v, 0, |ks| + 1
  {
    hide Text, Field, WellFormed;
    var s, t := MoreFields(v, ks) + x, MoreFields(w, ls) + y;
    assert s[0] == MoreFields(v, ks)[0] && t[0] == MoreFields(w, ls)[0];
    if ks == [] {
      assert x == s[1..] && y == t[1..];
    } else {
      Regroup(',', Field(v, ks[0]), MoreFields(v, ks[1..]), x);
      Regroup(',', Field(w, ls[0]), MoreFields(w, ls[1..]), y);
      FieldUnambiguous(v, w, ks[0], ls[0], MoreFields(v, ks[1..]) + x, MoreFields(w, ls[1..]) + y);
      MoreFieldsUnambiguous(v, w, ks[1..], ls[1..], x, y);
      assert ks == [ks[0]] + ks[1..] && ls == [ls[0]] + ls[1..];
    }
  }

  lemma {:induction false} ObjectUnambiguous(v: Value, w: Value, x: string, y: string)
    requires WellFormed(v) && WellFormed(w)
    requires v.Obj? && w.Obj?
    requires Delimited(x) && Delimited(y)
    requires Text(v) + x == Text(w) + y
    ensures v == w && x == y
    decreases v, 0, |SortedKeys(v.fields.Keys)| + 2
  {
    var s, t := Text(v) + x, Text(w) + y;
    var ks, ls := SortedKeys(v.fields.Keys), SortedKeys(w.fields.Keys);
    ObjectSecondChar(v, x);
    ObjectSecondChar(w, y);
    if ks == [] {
      assert x == s[2..] && y == t[2..];
    } else {
      Regroup('{', Field(v, ks[0]), MoreFields(v, ks[1..]), x);
      Regroup('{', Field(w, ls[0]), MoreFields(w, ls[1..]), y);
      FieldUnambiguous(v, w, ks[0], ls[0], MoreFields(v, ks[1..]) + x, MoreFields(w, ls[1..]) + y);
      MoreFieldsUnambiguous(v, w, ks[1..], ls[1..], x, y);
      assert ks == [ks[0]] + ks[1..] && ls == [ls[0]] + ls[1..];
    }
    SameFields(v.fields, w.fields, ks, ls);
  }

  lemma SameFields(m: map<string, Value>, n: map<string, Value>, ks: seq<string>, ls: seq<string>)
    requires ks == SortedKeys(m.Keys) && ls == SortedKeys(n.Keys)
    requires ks == ls
    requires forall k <- ks :: k in m && k in n && m[k] == n[k]
    ensures m == n
  {
    assert forall k :: k in m <==> k in ks;
    assert forall k :: k in n <==> k in ks;
  }

  /** Two values have the same canonical text exactly when they are the same value. */
  lemma TextInjective(v: Value, w: Value)
    requires WellFormed(v) && WellFormed(w)
    ensures Text(v) == Text(w) <==> v == w
  {
    if Text(v) == Text(w) {
      TextUnambiguous(v, w, "", "");
    }
  }

  // ----- Printed forms -----

  lemma PrintedScalars()
    ensures Text(Null) == "null" && Text(Bool(true)) == "true" && Text(Bool(false)) == "false"
    ensures Text(Int(-120)) == "-120" && Text(Float("1.5e3")) == "1.5e3"
  {
    assert Digits(120) == Digits(12) + ['0'] && Digits(12) == Digits(1) + ['2'];
  }

  lemma PrintedArray(a: Value, b: Value)
    ensures Text(Arr([])) == "[]" && Text(Obj(map[])) == "{}"
    ensures Text(Arr([a, b])) == "[" + Text(a) + "," + Text(b) + "]"
  {
    var pair := Arr([a, b]);
    assert MoreItems(pair, 2) == "]";
    assert MoreItems(pair, 1) == "," + Text(b) + MoreItems(pair, 2);
    assert Text(pair) == "[" + Text(a) + MoreItems(pair, 1);
  }

  /** Two fields, in the order of their keys. */
  lemma PrintedObject(v: Value, j: string, k: string)
    requires v.Obj? && v.fields.Keys == {j, k} && LexLe(j, k) && j != k
    ensures Text(v) ==
            "{" + (Quote(j) + ":" + Text(v.fields[j])) + ("," + (Quote(k) + ":" + Text(v.fields[k])) + "}")
  {
    hide Quote, LexLe, SortedKeys;
    TwoSorted(j, k);
    assert [j, k][1..] == [k] && [k][1..] == [];
    assert MoreFields(v, []) == "}";
    assert MoreFields(v, [k]) == "," + Field(v, k) + MoreFields(v, []);
    assert Text(v) == "{" + Field(v, j) + MoreFields(v, [k]);
  }

  lemma TwoSorted(j: string, k: string)
    requires LexLe(j, k) && j != k
    ensures SortedKeys({j, k}) == [j, k]
  {
    SortedListingUnique([j, k]);
    assert (set x <- [j, k]) == {j, k};
  }

  lemma EscapedForms()
    ensures EscapeChar('\"') == "\\\"" && EscapeChar('\\') == "\\\\"
    ensures EscapeChar('\n') == "\\n" && EscapeChar('\r') == "\\r" && EscapeChar('\t') == "\\t"
    ensures EscapeChar(8 as char) == "\\b" && EscapeChar(12 as char) == "\\f"
    ensures EscapeChar(27 as char) == "\\u001b" && EscapeChar('/') == "/"
  {
  }
}
