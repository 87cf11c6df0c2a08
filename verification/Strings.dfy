/** String operations of the Rust standard library. */
module Strings {
  import opened Wrappers

  /** Unicode white space, as `str::trim` removes it. */
  predicate IsWhitespace(c: char) {
    var n := c as int;
    || 9 <= n <= 13 || n == 0x20 || n == 0x85 || n == 0xA0 || n == 0x1680
    || 0x2000 <= n <= 0x200A || n == 0x2028 || n == 0x2029 || n == 0x202F || n == 0x205F || n == 0x3000
  }

  function TrimStart(s: string): string {
    if s != [] && IsWhitespace(s[0]) then TrimStart(s[1..]) else s
  }

  function TrimEnd(s: string): string {
    if s != [] && IsWhitespace(s[|s| - 1]) then TrimEnd(s[..|s| - 1]) else s
  }

  function Trim(s: string): string {
    TrimEnd(TrimStart(s))
  }

  predicate StartsWith(s: string, p: string) {
    |p| <= |s| && s[..|p|] == p
  }

  /** The position of the first occurrence of `p`, or the length of `s`. */
  function Find(s: string, p: string): (i: nat)
    ensures i <= |s|
  {
    if s == [] || StartsWith(s, p) then 0 else 1 + Find(s[1..], p)
  }

  function SplitOnce(s: string, p: string): Option<(string, string)> {
    var i := Find(s, p);
    if StartsWith(s[i..], p) then Some((s[..i], s[i + |p|..])) else None
  }

  function Join(parts: seq<string>, sep: string): string {
    if parts == [] then "" else if |parts| == 1 then parts[0] else parts[0] + sep + Join(parts[1..], sep)
  }

  function AsciiLower(c: char): char {
    if 'A' <= c <= 'Z' then (c as int + 32) as char else c
  }

  function Lower(s: string): string {
    if s == [] then [] else [AsciiLower(s[0])] + Lower(s[1..])
  }

  predicate EqIgnoreAsciiCase(a: string, b: string) {
    Lower(a) == Lower(b)
  }
}
