/** Padded base64, as section 4 of RFC 4648 defines it.  The decoder is strict: padding has to be
    there, and unused bits have to be zero. */
module Base64 {
  import opened Wrappers

  type Byte = n: nat | n < 256

  type Sextet = n: nat | n < 64

  // ----- Bytes in groups of six bits -----

  function Sextet0(a: Byte): Sextet {
    a / 4
  }

  function Sextet1(a: Byte, b: Byte): Sextet {
    a % 4 * 16 + b / 16
  }

  function Sextet2(b: Byte, c: Byte): Sextet {
    b % 16 * 4 + c / 64
  }

  function Sextet3(c: Byte): Sextet {
    c % 64
  }

  /** Missing bytes of the last group count as zero. */
  function Sextets(bytes: seq<Byte>): (r: seq<Sextet>)
    ensures |r| == (4 * |bytes| + 2) / 3
  {
    if bytes == [] then []
    else if |bytes| == 1 then [Sextet0(bytes[0]), Sextet1(bytes[0], 0)]
    else if |bytes| == 2 then [Sextet0(bytes[0]), Sextet1(bytes[0], bytes[1]), Sextet2(bytes[1], 0)]
    else
      [Sextet0(bytes[0]), Sextet1(bytes[0], bytes[1]), Sextet2(bytes[1], bytes[2]), Sextet3(bytes[2])] +
      Sextets(bytes[3..])
  }

  function HighByte(w: nat, x: nat): Byte
    requires w < 64 && x < 64
  {
    w * 4 + x / 16
  }

  function MiddleByte(x: nat, y: nat): Byte
    requires x < 64 && y < 64
  {
    x % 16 * 16 + y / 4
  }

  function LowByte(y: nat, z: nat): Byte
    requires y < 64 && z < 64
  {
    y % 4 * 64 + z
  }

  function Bytes(x: seq<Sextet>): Option<seq<Byte>> {
    if x == [] then Some([])
    else if |x| == 1 then None
    else if |x| == 2 then if x[1] % 16 == 0 then Some([HighByte(x[0], x[1])]) else None
    else if |x| == 3 then
      if x[2] % 4 == 0 then Some([HighByte(x[0], x[1]), MiddleByte(x[1], x[2])]) else None
    else
      match Bytes(x[4..])
      case Some(rest) => Some([HighByte(x[0], x[1]), MiddleByte(x[1], x[2]), LowByte(x[2], x[3])] + rest)
      case None => None
  }

  lemma GroupOut(a: Byte, b: Byte, c: Byte)
    ensures HighByte(Sextet0(a), Sextet1(a, b)) == a
    ensures MiddleByte(Sextet1(a, b), Sextet2(b, c)) == b
    ensures LowByte(Sextet2(b, c), Sextet3(c)) == c
    ensures Sextet1(a, 0) % 16 == 0 && Sextet2(b, 0) % 4 == 0
  {
    FirstOut(a, b);
    MiddleOut(a, b, c);
    LastOut(b, c);
    hide HighByte, MiddleByte, LowByte;
  }

  lemma FirstOut(a: Byte, b: Byte)
    ensures HighByte(Sextet0(a), Sextet1(a, b)) == a
  {
  }

  lemma MiddleOut(a: Byte, b: Byte, c: Byte)
    ensures MiddleByte(Sextet1(a, b), Sextet2(b, c)) == b
  {
    assert Sextet1(a, b) % 16 == b / 16;
    assert Sextet2(b, c) / 4 == b % 16;
  }

  lemma LastOut(b: Byte, c: Byte)
    ensures LowByte(Sextet2(b, c), Sextet3(c)) == c
  {
    assert Sextet2(b, c) % 4 == c / 64;
  }

  lemma GroupIn(w: Sextet, x: Sextet, y: Sextet, z: Sextet)
    ensures var a, b, c := HighByte(w, x), MiddleByte(x, y), LowByte(y, z);
            && Sextet0(a) == w && Sextet1(a, b) == x && Sextet2(b, c) == y && Sextet3(c) == z
            && (x % 16 == 0 ==> Sextet1(a, 0) == x)
            && (y % 4 == 0 ==> Sextet2(b, 0) == y)
  {
  }

  lemma OneByteOut(a: Byte, w: Sextet, x: Sextet)
    requires w == a / 4 && x == a % 4 * 16
    ensures HighByte(w, x) == a && x % 16 == 0
  {
  }

  lemma OneByte(a: Byte)
    ensures Bytes(Sextets([a])) == Some([a])
  {
    var x := Sextets([a]);
    OneByteOut(a, x[0], x[1]);
  }

  lemma TwoBytes(a: Byte, b: Byte)
    ensures Bytes(Sextets([a, b])) == Some([a, b])
  {
    var w, x, y := Sextet0(a), Sextet1(a, b), Sextet2(b, 0);
    assert HighByte(w, x) == a && MiddleByte(x, y) == b && y % 4 == 0 by {
      GroupOut(a, b, 0);
    }
    assert Sextets([a, b]) == [w, x, y];
  }

  lemma {:induction false} BytesOfSextets(bytes: seq<Byte>)
    ensures Bytes(Sextets(bytes)) == Some(bytes)
  {
    hide Sextet0, Sextet1, Sextet2, Sextet3, HighByte, MiddleByte, LowByte;
    if |bytes| == 1 {
      assert bytes == [bytes[0]];
      OneByte(bytes[0]);
    } else if |bytes| == 2 {
      assert bytes == [bytes[0], bytes[1]];
      TwoBytes(bytes[0], bytes[1]);
    } else if bytes != [] {
      GroupOut(bytes[0], bytes[1], bytes[2]);
      BytesOfSextets(bytes[3..]);
      assert Sextets(bytes)[4..] == Sextets(bytes[3..]);
      assert bytes == [bytes[0], bytes[1], bytes[2]] + bytes[3..];
    }
  }

  lemma {:induction false} SextetsOfBytes(x: seq<Sextet>)
    requires Bytes(x).Some?
    ensures Sextets(Bytes(x).value) == x
  {
    hide Sextet0, Sextet1, Sextet2, Sextet3, HighByte, MiddleByte, LowByte;
    if x != [] {
      GroupIn(x[0], x[1], if |x| > 2 then x[2] else 0, if |x| > 3 then x[3] else 0);
      if |x| >= 4 {
        SextetsOfBytes(x[4..]);
        assert Bytes(x).value[3..] == Bytes(x[4..]).value;
        assert x == [x[0], x[1], x[2], x[3]] + x[4..];
      }
    }
  }

  // ----- Symbols -----

  function Symbol(n: Sextet): (c: char)
    ensures c != '='
  {
    if n < 26 then ('A' as int + n) as char
    else if n < 52 then ('a' as int + n - 26) as char
    else if n < 62 then ('0' as int + n - 52) as char
    else if n == 62 then '+'
    else '/'
  }

  function Value(c: char): Option<Sextet> {
    if 'A' <= c <= 'Z' then Some(c as int - 'A' as int)
    else if 'a' <= c <= 'z' then Some(c as int - 'a' as int + 26)
    else if '0' <= c <= '9' then Some(c as int - '0' as int + 52)
    else if c == '+' then Some(62)
    else if c == '/' then Some(63)
    else None
  }

  function Symbols(x: seq<Sextet>): (s: string)
    ensures |s| == |x| && '=' !in s
  {
    if x == [] then "" else Symbols(x[..|x| - 1]) + [Symbol(x[|x| - 1])]
  }

  function Values(s: string): Option<seq<Sextet>> {
    if s == "" then Some([])
    else
      match Values(s[..|s| - 1])
      case None => None
      case Some(before) =>
        if Value(s[|s| - 1]).None? then None else Some(before + [Value(s[|s| - 1]).value])
  }

  lemma {:induction false} ValuesOfSymbols(x: seq<Sextet>)
    ensures Values(Symbols(x)) == Some(x)
    decreases |x|
  {
    if x != [] {
      var n := |x| - 1;
      ValuesOfSymbols(x[..n]);
      assert Symbols(x)[..n] == Symbols(x[..n]);
      assert x == x[..n] + [x[n]];
    }
  }

  lemma {:induction false} SymbolsOfValues(s: string)
    requires Values(s).Some?
    ensures Symbols(Values(s).value) == s
    decreases |s|
  {
    if s != "" {
      var n := |s| - 1;
      SymbolsOfValues(s[..n]);
      var before := Values(s[..n]).value;
      assert (before + [Value(s[n]).value])[..|before|] == before;
      assert s == s[..n] + [s[n]];
    }
  }

  // ----- Padding -----

  function Pad(n: nat): string {
    seq(n, i => '=')
  }

  /** The padding that fills up a group of four. */
  function PaddingFor(n: nat): nat {
    (4 - n % 4) % 4
  }

  function TrimPadding(s: string): string {
    if s != "" && s[|s| - 1] == '=' then TrimPadding(s[..|s| - 1]) else s
  }

  lemma {:induction false} TrimPadded(s: string, n: nat)
    requires '=' !in s
    ensures TrimPadding(s + Pad(n)) == s
  {
    if n == 0 {
      assert s + Pad(n) == s;
      assert s != "" ==> s[|s| - 1] in s;
    } else {
      assert (s + Pad(n))[..|s + Pad(n)| - 1] == s + Pad(n - 1);
      TrimPadded(s, n - 1);
    }
  }

  // ----- The codec -----

  function Encode(bytes: seq<Byte>): (s: string) {
    var symbols := Symbols(Sextets(bytes));
    symbols + Pad(PaddingFor(|symbols|))
  }

  function Decode(s: string): Option<seq<Byte>> {
    var symbols := TrimPadding(s);
    match Values(symbols)
    case Some(sextets) => if s == symbols + Pad(PaddingFor(|symbols|)) then Bytes(sextets) else None
    case None => None
  }

  /** The decoder accepts exactly what the encoder writes, and gives back what was encoded. */
  lemma DecodesIff(s: string, bytes: seq<Byte>)
    ensures Decode(s) == Some(bytes) <==> s == Encode(bytes)
  {
    var symbols := Symbols(Sextets(bytes));
    TrimPadded(symbols, PaddingFor(|symbols|));
    ValuesOfSymbols(Sextets(bytes));
    BytesOfSextets(bytes);
    if Decode(s) == Some(bytes) {
      SymbolsOfValues(TrimPadding(s));
      SextetsOfBytes(Values(TrimPadding(s)).value);
    }
  }

  function PaddedLen(n: nat): nat {
    (n + 2) / 3 * 4
  }

  lemma PaddedGroups(n: nat)
    ensures (4 * n + 2) / 3 + PaddingFor((4 * n + 2) / 3) == PaddedLen(n)
  {
    var k := n / 3;
    if n == 3 * k {
      assert (4 * n + 2) / 3 == 4 * k;
    } else if n == 3 * k + 1 {
      assert (4 * n + 2) / 3 == 4 * k + 2;
    } else {
      assert (4 * n + 2) / 3 == 4 * k + 3;
    }
  }

  lemma EncodedLength(bytes: seq<Byte>)
    ensures |Encode(bytes)| == PaddedLen(|bytes|)
  {
    PaddedGroups(|bytes|);
  }

  function EstimatedDecodedLen(s: string): nat {
    |TrimPadding(s)| * 3 / 4
  }

  /** On everything the decoder accepts, the estimate is the exact length. */
  lemma EstimateIsExact(s: string)
    requires Decode(s).Some?
    ensures EstimatedDecodedLen(s) == |Decode(s).value|
  {
    var bytes := Decode(s).value;
    DecodesIff(s, bytes);
    var symbols := Symbols(Sextets(bytes));
    TrimPadded(symbols, PaddingFor(|symbols|));
  }

  /** Test vectors of section 10 of RFC 4648. */
  lemma TestVectors()
    ensures Encode([]) == "" && Encode([102]) == "Zg==" && Encode([102, 111]) == "Zm8="
    ensures Encode([102, 111, 111]) == "Zm9v"
  {
    assert Sextets([102]) == [25, 32];
    assert Sextets([102, 111]) == [25, 38, 60];
    assert [102, 111, 111][3..] == [] && Sextets([102, 111, 111]) == [25, 38, 61, 47];
    FourSymbols(25, 32, 0, 0);
    FourSymbols(25, 38, 60, 0);
    FourSymbols(25, 38, 61, 47);
  }

  lemma FourSymbols(w: Sextet, x: Sextet, y: Sextet, z: Sextet)
    ensures Symbols([w, x]) == [Symbol(w), Symbol(x)]
    ensures Symbols([w, x, y]) == [Symbol(w), Symbol(x), Symbol(y)]
    ensures Symbols([w, x, y, z]) == [Symbol(w), Symbol(x), Symbol(y), Symbol(z)]
  {
    assert [w][..0] == [] && [w, x][..1] == [w] && [w, x, y][..2] == [w, x] && [w, x, y, z][..3] == [w, x, y];
    assert Symbols([w]) == [] + [Symbol(w)];
  }
}
