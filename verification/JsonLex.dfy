/** A canonical text can be told from what stands before it and a bar: the bar occurs in it only inside
    string literals. */
module JsonLex {
  import opened Json
  import opened JsonText

  /** Reading from left to right: outside strings, inside one, after its backslash, or off the grammar. */
  datatype Lexer = Out | In | Esc | Bad

  function Next(q: Lexer, c: char): Lexer {
    match q
    case Out => if c == '\"' then In else if c == '|' || c == '\\' then Bad else Out
    case In => if c == '\"' then Out else if c == '\\' then Esc else In
    case Esc => if c in "\"\\bfnrtu" then In else Bad
    case Bad => Bad
  }

  function Lex(q: Lexer, s: string): Lexer
    decreases |s|
  {
    if s == [] then q else Lex(Next(q, s[0]), s[1..])
  }

  lemma {:induction false} LexAppend(q: Lexer, a: string, b: string)
    ensures Lex(q, a + b) == Lex(Lex(q, a), b)
    decreases |a|
  {
    if a == [] {
      assert a + b == b;
    } else {
      assert (a + b)[1..] == a[1..] + b;
      LexAppend(Next(q, a[0]), a[1..], b);
    }
  }

  lemma LexOne(q: Lexer, c: char)
    ensures Lex(q, [c]) == Next(q, c)
  {
    assert [c][1..] == [];
  }

  lemma {:induction false} PlainStays(q: Lexer, s: string)
    requires q == Out || q == In
    requires forall c <- s :: c !in "\"\\|"
    ensures Lex(q, s) == q
    decreases |s|
  {
    if s != [] {
      assert s[0] in s;
      PlainStays(q, s[1..]);
    }
  }

  lemma ShortEscapeLexes(d: char)
    requires d in "\"\\bfnrtu"
    ensures Lex(In, ['\\', d]) == In
  {
    assert ['\\', d] == ['\\'] + [d];
    LexAppend(In, ['\\'], [d]);
    LexOne(In, '\\');
    LexOne(Esc, d);
  }

  lemma HexEscapeLexes(x: nat, y: nat)
    requires x < 16 && y < 16
    ensures Lex(In, "\\u00" + [Digit(x), Digit(y)]) == In
  {
    var hex := "00" + [Digit(x), Digit(y)];
    assert "\\u00" + [Digit(x), Digit(y)] == ['\\', 'u'] + hex;
    LexAppend(In, ['\\', 'u'], hex);
    ShortEscapeLexes('u');
    DigitIsPlain(x);
    DigitIsPlain(y);
    PlainStays(In, hex);
  }

  lemma DigitIsPlain(d: nat)
    requires d < 16
    ensures Digit(d) !in "\"\\|"
  {
  }

  lemma EscapeCharLexes(c: char)
    ensures Lex(In, EscapeChar(c)) == In
  {
    hide Lex, Digit;
    var e := EscapeChar(c);
    if |e| == 1 {
      LexOne(In, c);
    } else if |e| == 2 {
      assert e == ['\\', e[1]];
      ShortEscapeLexes(e[1]);
    } else {
      HexEscapeLexes(c as int / 16, c as int % 16);
    }
  }

  lemma {:induction false} EscapeLexes(s: string)
    ensures Lex(In, Escape(s)) == In
    decreases |s|
  {
    if s != [] {
      EscapeCharLexes(s[0]);
      LexAppend(In, EscapeChar(s[0]), Escape(s[1..]));
      EscapeLexes(s[1..]);
    }
  }

  lemma QuoteLexes(s: string)
    ensures Lex(Out, Quote(s)) == Out
  {
    assert Quote(s) == "\"" + (Escape(s) + "\"");
    LexAppend(Out, "\"", Escape(s) + "\"");
    LexOne(Out, '\"');
    EscapeLexes(s);
    LexAppend(In, Escape(s), "\"");
    LexOne(In, '\"');
  }

  lemma ThenLexes(a: string, b: string)
    requires Lex(Out, a) == Out && Lex(Out, b) == Out
    ensures Lex(Out, a + b) == Out
  {
    LexAppend(Out, a, b);
  }

  lemma MarkLexes(c: char)
    requires c !in "\"\\|"
    ensures Lex(Out, [c]) == Out
  {
    LexOne(Out, c);
  }

  lemma NumberLexes(s: string)
    requires forall c <- s :: NumberChar(c)
    ensures Lex(Out, s) == Out
  {
    PlainStays(Out, s);
  }

  lemma {:induction false} TextLexes(v: Value)
    requires WellFormed(v)
    ensures Lex(Out, Text(v)) == Out
    decreases v, 1, 0
  {
    match v {
      case Null => PlainStays(Out, "null");
      case Bool(b) => PlainStays(Out, if b then "true" else "false");
      case Int(n) => NumberLexes(IntText(n));
      case Float(lit) => NumberLexes(lit);
      case Str(s) => QuoteLexes(s);
      case Arr(items) =>
        if items == [] {
          PlainStays(Out, "[]");
        } else {
          MarkLexes('[');
          TextLexes(items[0]);
          MoreItemsLex(v, 1);
          ThenLexes("[", Text(items[0]));
          ThenLexes("[" + Text(items[0]), MoreItems(v, 1));
        }
      case Obj(fields) =>
        var ks := SortedKeys(fields.Keys);
        if ks == [] {
          PlainStays(Out, "{}");
        } else {
          MarkLexes('{');
          FieldLexes(v, ks[0]);
          MoreFieldsLex(v, ks[1..]);
          ThenLexes("{", Field(v, ks[0]));
          ThenLexes("{" + Field(v, ks[0]), MoreFields(v, ks[1..]));
        }
    }
  }

  lemma {:induction false} MoreItemsLex(v: Value, i: nat)
    requires WellFormed(v) && v.Arr? && i <= |v.items|
    ensures Lex(Out, MoreItems(v, i)) == Out
    decreases v, 0, |v.items| - i
  {
    if i == |v.items| {
      MarkLexes(']');
    } else {
      MarkLexes(',');
      TextLexes(v.items[i]);
      MoreItemsLex(v, i + 1);
      ThenLexes(",", Text(v.items[i]));
      ThenLexes("," + Text(v.items[i]), MoreItems(v, i + 1));
    }
  }

  lemma {:induction false} FieldLexes(v: Value, k: string)
    requires WellFormed(v) && v.Obj? && k in v.fields
    ensures Lex(Out, Field(v, k)) == Out
    decreases v, 0, 0
  {
    QuoteLexes(k);
    MarkLexes(':');
    TextLexes(v.fields[k]);
    ThenLexes(Quote(k), ":");
    ThenLexes(Quote(k) + ":", Text(v.fields[k]));
  }

  lemma {:induction false} MoreFieldsLex(v: Value, ks: seq<string>)
    requires WellFormed(v) && v.Obj? && forall k <- ks :: k in v.fields
    ensures Lex(Out, MoreFields(v, ks)) == Out
    decreases v, 0, |ks| + 1
  {
    if ks == [] {
      MarkLexes('}');
    } else {
      MarkLexes(',');
      assert ks[0] in ks;
      FieldLexes(v, ks[0]);
      MoreFieldsLex(v, ks[1..]);
      ThenLexes(",", Field(v, ks[0]));
      ThenLexes("," + Field(v, ks[0]), MoreFields(v, ks[1..]));
    }
  }

  /** Two readings of one text, one of which is in a string where the other is not. */
  predicate Conflict(p: Lexer, q: Lexer) {
    p == Bad || q == Bad || (p == In && q == Out) || (p == Out && q == In)
  }

  lemma {:induction false} ConflictStays(p: Lexer, q: Lexer, s: string)
    requires Conflict(p, q)
    ensures Conflict(Lex(p, s), Lex(q, s))
    decreases |s|
  {
    if s != [] {
      ConflictStays(Next(p, s[0]), Next(q, s[0]), s[1..]);
    }
  }

  /** No text that ends outside strings goes on after a bar with another such text. */
  lemma NoBarInside(u: string, y: string)
    requires Lex(Out, y) == Out
    ensures Lex(Out, u + "|" + y) != Out
  {
    LexAppend(Out, u + "|", y);
    LexAppend(Out, u, "|");
    LexOne(Lex(Out, u), '|');
    var q := Next(Lex(Out, u), '|');
    assert Conflict(q, Out);
    ConflictStays(q, Out, y);
  }

  /** So the last bar outside a canonical text can be found. */
  lemma BarSplits(a: string, x: string, b: string, y: string)
    requires Lex(Out, x) == Out && Lex(Out, y) == Out
    requires a + "|" + x == b + "|" + y
    ensures a == b && x == y
  {
    var s := a + "|" + x;
    assert s[..|a|] == a && s[|a| + 1..] == x;
    assert s[..|b|] == b && s[|b| + 1..] == y;
    if |a| < |b| {
      var u := s[|a| + 1..|b|];
      assert s[|b|] == '|';
      assert x == u + "|" + y;
      NoBarInside(u, y);
    } else if |b| < |a| {
      var u := s[|b| + 1..|a|];
      assert s[|a|] == '|';
      assert y == u + "|" + x;
      NoBarInside(u, x);
    }
  }
}
