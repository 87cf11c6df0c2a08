/** The incremental HTTP request accumulator of the debugging proxy.  Bytes are the characters
    below 256 that `iso-8859-1` decodes them to. */
module HttpAccumulator {
  import opened Wrappers
  import opened Strings
  import JsonText

  const CRLF := "\r\n"
  const LENGTH_KEY := "content-length"
  const HEADER_END := "\r\n\r\n"

  /** What is logged of a request; the body's bytes stand for its lossy UTF-8 text and its length. */
  datatype Record = Record(requestLine: string, headers: map<string, string>, body: string)

  // ----- Python's string operations -----

  /** White space among the first 256 characters, as `str.strip` removes it. */
  predicate IsSpace(c: char) {
    var n := c as int;
    9 <= n <= 13 || 28 <= n <= 32 || n == 133 || n == 160
  }

  function StripStart(s: string): string {
    if s != "" && IsSpace(s[0]) then StripStart(s[1..]) else s
  }

  function StripEnd(s: string): string {
    if s != "" && IsSpace(s[|s| - 1]) then StripEnd(s[..|s| - 1]) else s
  }

  function Strip(s: string): string {
    StripEnd(StripStart(s))
  }

  /** Decimal digits, with single underscores allowed between them. */
  function Number(s: string): Option<nat> {
    if s == "" || !('0' <= s[|s| - 1] <= '9') then None
    else
      var n, digit := |s| - 1, s[|s| - 1] as int - '0' as int;
      if n == 0 then Some(digit)
      else
        match Number(if s[n - 1] == '_' then s[..n - 1] else s[..n])
        case Some(v) => Some(10 * v + digit)
        case None => None
  }

  /** `int(s)` for stripped text; nothing where Python raises `ValueError`. */
  function ParseInt(s: string): Option<int> {
    var signed := s != "" && (s[0] == '+' || s[0] == '-');
    match Number(if signed then s[1..] else s)
    case Some(v) => var n: int := v; Some(if signed && s[0] == '-' then -n else n)
    case None => None
  }

  /** A slice bound: negative ones count from the end. */
  function Bound(i: int, n: nat): (r: nat)
    ensures r <= n
  {
    if i > n then n else if i >= 0 then i else if i + n >= 0 then i + n else 0
  }

  function Slice(s: string, i: int, j: int): string {
    var a, b := Bound(i, |s|), Bound(j, |s|);
    if a <= b then s[a..b] else ""
  }

  /** `s.split("\r\n")`. */
  function Lines(s: string): (r: seq<string>)
    ensures r != []
    decreases |s|
  {
    var i := Find(s, CRLF);
    if StartsWith(s[i..], CRLF) then [s[..i]] + Lines(s[i + 2..]) else [s]
  }

  // ----- One request -----

  /** The headers of a list of lines; of several lines for one key the last counts. */
  function HeaderMap(lines: seq<string>): map<string, string> {
    if lines == [] then map[]
    else
      var before := HeaderMap(lines[..|lines| - 1]);
      match SplitOnce(lines[|lines| - 1], ":")
      case Some((key, value)) => before[Strip(key) := Strip(value)]
      case None => before
  }

  function ContentLength(headers: map<string, string>): int {
    if LENGTH_KEY !in headers || headers[LENGTH_KEY] == "" then 0
    else ParseInt(headers[LENGTH_KEY]).GetOr(0)
  }

  predicate IsSecret(key: string) {
    Lower(key) == "authorization" || Lower(key) == "x-amz-security-token"
  }

  function Redacted(headers: map<string, string>): map<string, string> {
    map key <- headers :: if IsSecret(key) then "<redacted>" else headers[key]
  }

  /** The buffer holds a whole header, ending here. */
  predicate HasHeader(buffer: string) {
    StartsWith(buffer[Find(buffer, HEADER_END)..], HEADER_END)
  }

  function HeaderOf(buffer: string): string {
    buffer[..Find(buffer, HEADER_END)]
  }

  /** Where the first request ends, as its header tells; this may be anywhere, even below zero. */
  function Total(buffer: string): int {
    |HeaderOf(buffer)| + 4 + ContentLength(HeaderMap(Lines(HeaderOf(buffer))[1..]))
  }

  predicate Complete(buffer: string) {
    HasHeader(buffer) && Total(buffer) <= |buffer|
  }

  /** The record of the first request, and what stays in the buffer. */
  function First(buffer: string): Record
    requires Complete(buffer)
  {
    var lines := Lines(HeaderOf(buffer));
    Record(lines[0], Redacted(HeaderMap(lines[1..])), Slice(buffer, |HeaderOf(buffer)| + 4, Total(buffer)))
  }

  function Rest(buffer: string): (r: string)
    requires Complete(buffer)
    ensures |r| <= |buffer|
  {
    buffer[Bound(Total(buffer), |buffer|)..]
  }

  // ----- Feeding -----

  /** A feed ends with what it leaves in the buffer and the log, or logs `record` forever. */
  datatype Outcome = Fed(buffer: string, log: seq<Record>) | Diverges(log: seq<Record>, record: Record)

  function Drain(buffer: string, log: seq<Record>): Outcome
    decreases |buffer|
  {
    if !Complete(buffer) then Fed(buffer, log)
    else if |Rest(buffer)| == |buffer| then Diverges(log, First(buffer))
    else Drain(Rest(buffer), log + [First(buffer)])
  }

  function FeedMore(before: Outcome, data: string): Outcome {
    if before.Fed? then Drain(before.buffer + data, before.log) else before
  }

  function FeedAll(chunks: seq<string>): Outcome {
    if chunks == [] then Fed("", []) else FeedMore(FeedAll(chunks[..|chunks| - 1]), chunks[|chunks| - 1])
  }

  class HttpRequestAccumulator {
    var buffer: string
    var log: seq<Record>

    constructor ()
      ensures buffer == "" && log == []
    {
      buffer, log := "", [];
    }

    method ReadHeaders(lines: seq<string>) returns (headers: map<string, string>)
      ensures headers == HeaderMap(lines)
    {
      headers := map[];
      for i := 0 to |lines|
        invariant headers == HeaderMap(lines[..i])
      {
        assert lines[..i + 1][..i] == lines[..i];
        var line := lines[i];
        var colon := Find(line, ":");
        if StartsWith(line[colon..], ":") {
          headers := headers[Strip(line[..colon]) := Strip(line[colon + 1..])];
        }
      }
      assert lines[..|lines|] == lines;
    }

    /** The first request of the buffer, if all of it is there, and what follows it. */
    method TakeFirst() returns (taken: Option<(Record, string)>)
      requires HasHeader(buffer)
      ensures taken == if Complete(buffer) then Some((First(buffer), Rest(buffer))) else None
    {
      hide ContentLength, Lines, Redacted, Find;
      var headerEnd := Find(buffer, HEADER_END);
      var lines := Lines(buffer[..headerEnd]);
      var headers := ReadHeaders(lines[1..]);
      var totalLength := headerEnd + 4 + ContentLength(headers);
      if |buffer| < totalLength {
        return None;
      }
      var body := Slice(buffer, headerEnd + 4, totalLength);
      var rest := buffer[Bound(totalLength, |buffer|)..];
      taken := Some((Record(lines[0], Redacted(headers), body), rest));
    }

    /** `diverges` stands for a loop that comes back to the same buffer over and over. */
    method Feed(data: string) returns (diverges: bool)
      modifies this
      ensures match Drain(old(buffer) + data, old(log))
              case Fed(rest, records) => !diverges && buffer == rest && log == records
              case Diverges(records, record) => diverges && log == records + [record]
    {
      buffer := buffer + data;
      while HasHeader(buffer)
        invariant Drain(buffer, log) == Drain(old(buffer) + data, old(log))
        decreases |buffer|
      {
        var taken := TakeFirst();
        if taken.None? {
          return false;
        }
        var (record, rest) := taken.value;
        log := log + [record];
        if |rest| == |buffer| {
          return true;
        }
        buffer := rest;
      }
      diverges := false;
    }
  }

  // ----- Progress -----

  /** An iteration gets nowhere exactly when the request is said to end at zero, or further from
      the end of the buffer than its beginning. */
  lemma StuckIff(buffer: string)
    requires Complete(buffer)
    ensures |Rest(buffer)| == |buffer| <==> Total(buffer) == 0 || Total(buffer) <= -|buffer|
  {
  }

  /** No request met while draining ends at zero, or before the beginning of the buffer. */
  predicate Progresses(buffer: string)
    decreases |buffer|
  {
    Complete(buffer) ==>
      && Total(buffer) != 0 && Total(buffer) > -|buffer|
      && Progresses(Rest(buffer))
  }

  /** A feed ends if and only if every request met moves on. */
  lemma {:induction false} DrainEndsIff(buffer: string, log: seq<Record>)
    ensures Drain(buffer, log).Fed? <==> Progresses(buffer)
    decreases |buffer|
  {
    if Complete(buffer) {
      StuckIff(buffer);
      if |Rest(buffer)| < |buffer| {
        DrainEndsIff(Rest(buffer), log + [First(buffer)]);
      }
    }
  }

  /** No request met while draining has a negative content length. */
  predicate NoNegativeLength(buffer: string)
    decreases |buffer|
  {
    Complete(buffer) ==>
      && Total(buffer) >= |HeaderOf(buffer)| + 4
      && NoNegativeLength(Rest(buffer))
  }

  lemma {:induction false} DrainEnds(buffer: string, log: seq<Record>)
    requires NoNegativeLength(buffer)
    ensures Drain(buffer, log).Fed?
    decreases |buffer|
  {
    if Complete(buffer) {
      StuckIff(buffer);
      DrainEnds(Rest(buffer), log + [First(buffer)]);
    }
  }

  // ----- Chunking -----

  lemma {:induction false} FindInLonger(s: string, more: string, p: string)
    requires StartsWith(s[Find(s, p)..], p)
    ensures Find(s + more, p) == Find(s, p) && StartsWith((s + more)[Find(s, p)..], p)
    decreases |s|
  {
    if StartsWith(s, p) {
      assert (s + more)[..|p|] == s[..|p|];
    } else if s != "" {
      var i := Find(s[1..], p);
      assert s[1..][i..] == s[1 + i..];
      FindInLonger(s[1..], more, p);
      assert (s + more)[1..] == s[1..] + more;
      assert (s[1..] + more)[i..] == (s + more)[1 + i..];
      NotYetThere(s, more, p);
    }
  }

  lemma NotYetThere(s: string, more: string, p: string)
    requires s != "" && !StartsWith(s, p) && StartsWith(s[Find(s, p)..], p)
    ensures !StartsWith(s + more, p)
  {
    assert |s[Find(s, p)..]| >= |p|;
    assert (s + more)[..|p|] == s[..|p|];
  }

  lemma HeaderInLonger(buffer: string, more: string)
    requires HasHeader(buffer)
    ensures HasHeader(buffer + more) && HeaderOf(buffer + more) == HeaderOf(buffer)
    ensures Total(buffer + more) == Total(buffer)
  {
    FindInLonger(buffer, more, HEADER_END);
    var i := Find(buffer, HEADER_END);
    assert (buffer + more)[..i] == buffer[..i];
  }

  lemma FirstInLonger(buffer: string, more: string)
    requires Complete(buffer) && Total(buffer) >= 0
    ensures Complete(buffer + more)
    ensures First(buffer + more) == First(buffer) && Rest(buffer + more) == Rest(buffer) + more
  {
    HeaderInLonger(buffer, more);
    SliceOfLonger(buffer, more, |HeaderOf(buffer)| + 4, Total(buffer));
  }

  lemma SliceOfLonger(s: string, more: string, i: nat, j: nat)
    requires i <= |s| && j <= |s|
    ensures Slice(s + more, i, j) == Slice(s, i, j)
    ensures (s + more)[Bound(j, |s + more|)..] == s[Bound(j, |s|)..] + more
  {
    if i <= j {
      assert (s + more)[i..j] == s[i..j];
    }
    assert (s + more)[j..] == s[j..] + more;
  }

  /** No request met while draining ends below zero. */
  predicate Forward(buffer: string)
    decreases |buffer|
  {
    Complete(buffer) ==>
      && Total(buffer) >= 0
      && (|Rest(buffer)| < |buffer| ==> Forward(Rest(buffer)))
  }

  lemma {:induction false} ForwardSplits(a: string, b: string, log: seq<Record>)
    requires Forward(a)
    ensures FeedMore(Drain(a, log), b) == Drain(a + b, log)
    decreases |a|
  {
    if Complete(a) {
      FirstInLonger(a, b);
      if |Rest(a)| < |a| {
        ForwardSplits(Rest(a), b, log + [First(a)]);
      }
    }
  }

  lemma {:induction false} ForwardPrefix(a: string, b: string)
    requires Forward(a + b)
    ensures Forward(a)
    decreases |a|
  {
    if Complete(a) {
      HeaderInLonger(a, b);
      if Total(a) >= 0 {
        FirstInLonger(a, b);
        if |Rest(a)| < |a| {
          ForwardPrefix(Rest(a), b);
        }
      }
    }
  }

  lemma {:induction false} LogGrows(buffer: string, log: seq<Record>)
    ensures log <= Drain(buffer, log).log
    decreases |buffer|
  {
    if Complete(buffer) && |Rest(buffer)| < |buffer| {
      LogGrows(Rest(buffer), log + [First(buffer)]);
    }
  }

  function Filler(n: nat): string {
    seq(n, i => 'x')
  }

  /** A request that ends below zero: data that comes later changes its record. */
  lemma BackwardFails(a: string, log: seq<Record>) returns (b: string)
    requires Complete(a) && Total(a) < 0
    ensures FeedMore(Drain(a, log), b) != Drain(a + b, log)
  {
    b := Filler(|a| - Total(a));
    HeaderInLonger(a, b);
    BodyGrows(a, b);
    FillerStays(a, b, log);
    if |Rest(a)| < |a| {
      var first := log + [First(a)];
      LogGrows(Rest(a), first);
      var before := Drain(Rest(a), first);
      if before.Fed? {
        LogGrows(before.buffer + b, before.log);
        var after := FeedMore(before, b);
        assert after.log[|log|] == First(a);
      }
    }
  }

  lemma FillerIsIncomplete(n: nat)
    ensures !Complete(Filler(n))
  {
    forall i | 0 <= i <= n
      ensures !StartsWith(Filler(n)[i..], HEADER_END)
    {
      var rest := Filler(n)[i..];
      if |HEADER_END| <= |rest| {
        assert rest[..|HEADER_END|][0] == 'x';
      }
    }
  }

  lemma FillerIsLeft(a: string, b: string)
    requires Complete(a + b) && Total(a + b) < 0 && b == Filler(|a| - Total(a + b))
    ensures Rest(a + b) == Filler(-Total(a + b)) && |a| > 0
  {
    hide Complete, Total;
    if |a| == 0 {
      assert a + b == b;
      FillerIsIncomplete(|b|);
    }
    assert (a + b)[2 * |a|..] == Filler(-Total(a + b));
  }

  lemma DrainsOnce(buffer: string, log: seq<Record>)
    requires Complete(buffer) && |Rest(buffer)| < |buffer| && !Complete(Rest(buffer))
    ensures Drain(buffer, log) == Fed(Rest(buffer), log + [First(buffer)])
  {
    hide Complete, Rest, First;
  }

  lemma FillerStays(a: string, b: string, log: seq<Record>)
    requires Complete(a + b) && Total(a + b) < 0 && b == Filler(|a| - Total(a + b))
    ensures Drain(a + b, log) == Fed(Filler(-Total(a + b)), log + [First(a + b)])
  {
    hide Complete, Total, Rest, First, Drain;
    FillerIsLeft(a, b);
    FillerIsIncomplete(-Total(a + b));
    DrainsOnce(a + b, log);
  }

  lemma BodyGrows(a: string, b: string)
    requires Complete(a) && Total(a) < 0 && |b| == |a| - Total(a)
    requires Complete(a + b) && Total(a + b) == Total(a) && HeaderOf(a + b) == HeaderOf(a)
    ensures First(a + b) != First(a)
  {
    assert |First(a).body| < |First(a + b).body|;
  }

  /** Feeding a buffer and then more is the same as feeding both at once, for all that may come,
      if and only if no request met in the buffer ends below zero. */
  lemma {:induction false} SplitsIff(a: string, log: seq<Record>)
    ensures (forall b :: FeedMore(Drain(a, log), b) == Drain(a + b, log)) <==> Forward(a)
    decreases |a|
  {
    if Forward(a) {
      forall b
        ensures FeedMore(Drain(a, log), b) == Drain(a + b, log)
      {
        ForwardSplits(a, b, log);
      }
    } else {
      var b := SplitFails(a, log);
    }
  }

  lemma {:induction false} SplitFails(a: string, log: seq<Record>) returns (b: string)
    requires !Forward(a)
    ensures FeedMore(Drain(a, log), b) != Drain(a + b, log)
    decreases |a|
  {
    if Total(a) < 0 {
      b := BackwardFails(a, log);
    } else {
      b := SplitFails(Rest(a), log + [First(a)]);
      FirstInLonger(a, b);
    }
  }

  function Concat(chunks: seq<string>): string {
    if chunks == [] then "" else Concat(chunks[..|chunks| - 1]) + chunks[|chunks| - 1]
  }

  /** However the bytes are cut into chunks, buffer and log end the same. */
  lemma {:induction false} ChunkingDoesNotMatter(chunks: seq<string>)
    requires Forward(Concat(chunks))
    ensures FeedAll(chunks) == Drain(Concat(chunks), [])
    decreases |chunks|
  {
    if chunks != [] {
      var n := |chunks| - 1;
      ForwardPrefix(Concat(chunks[..n]), chunks[n]);
      ChunkingDoesNotMatter(chunks[..n]);
      ForwardSplits(Concat(chunks[..n]), chunks[n], []);
    }
  }

  // ----- Printing and feeding -----

  datatype Request = Request(line: string, headers: seq<(string, string)>, body: string)

  function HeaderLine(h: (string, string)): string {
    h.0 + ": " + h.1
  }

  /** The headers of a request with its content length, as section 6 of RFC 9112 frames it. */
  function Framed(r: Request): seq<(string, string)> {
    r.headers + [(LENGTH_KEY, JsonText.Digits(|r.body|))]
  }

  function HeaderLines(headers: seq<(string, string)>): seq<string> {
    seq(|headers|, i requires 0 <= i < |headers| => HeaderLine(headers[i]))
  }

  function Print(r: Request): string {
    Head(r.line, Framed(r)) + HEADER_END + r.body
  }

  function PrintAll(rs: seq<Request>): string {
    if rs == [] then "" else Print(rs[0]) + PrintAll(rs[1..])
  }

  predicate PlainHeader(h: (string, string)) {
    '\r' !in h.0 && '\r' !in h.1 && ':' !in h.0 && Strip(h.0) == h.0 && Strip(h.1) == h.1
  }

  /** No carriage return in line and headers, no colon in keys, no white space around either. */
  predicate Printable(r: Request) {
    '\r' !in r.line && forall h <- r.headers :: PlainHeader(h)
  }

  function Pairs(headers: seq<(string, string)>): map<string, string> {
    if headers == [] then map[]
    else Pairs(headers[..|headers| - 1])[headers[|headers| - 1].0 := headers[|headers| - 1].1]
  }

  function RecordOf(r: Request): Record {
    Record(r.line, Redacted(Pairs(Framed(r))), r.body)
  }

  lemma StartsOtherwise(s: string, p: string, k: nat)
    requires k < |p| && (k < |s| ==> s[k] != p[k])
    ensures !StartsWith(s, p)
  {
    if |p| <= |s| {
      assert s[..|p|][k] == s[k];
    }
  }

  lemma {:induction false} FindSkips(s: string, t: string, p: string)
    requires p != "" && p[0] !in s
    ensures Find(s + t, p) == |s| + Find(t, p)
    decreases |s|
  {
    if s == "" {
      assert s + t == t;
    } else {
      assert (s + t)[1..] == s[1..] + t;
      StartsOtherwise(s + t, p, 0);
      FindSkips(s[1..], t, p);
    }
  }

  lemma FindHere(s: string, p: string, t: string)
    requires p != "" && p[0] !in s
    ensures Find(s + p + t, p) == |s| && StartsWith((s + p + t)[|s|..], p)
  {
    FindSkips(s, p + t, p);
    assert s + p + t == s + (p + t);
    assert (p + t)[..|p|] == p;
    assert (s + p + t)[|s|..] == p + t;
  }

  lemma {:induction false} FindNone(s: string, p: string)
    requires p != "" && p[0] !in s
    ensures !StartsWith(s[Find(s, p)..], p)
  {
    FindSkips(s, "", p);
    assert s + "" == s;
  }

  lemma {:induction false} LinesOfJoin(ls: seq<string>)
    requires ls != [] && forall l <- ls :: '\r' !in l
    ensures Lines(Join(ls, CRLF)) == ls
    decreases |ls|
  {
    assert ls[0] in ls;
    if |ls| == 1 {
      FindNone(ls[0], CRLF);
    } else {
      var rest := Join(ls[1..], CRLF);
      var s := ls[0] + CRLF + rest;
      LinesOfJoin(ls[1..]);
      FindHere(ls[0], CRLF, rest);
      assert s[..|ls[0]|] == ls[0] && s[|ls[0]| + 2..] == rest;
    }
  }

  /** The first blank line is the one after the header. */
  lemma {:induction false} HeaderEndsThere(ls: seq<string>, tail: string)
    requires ls != [] && (forall l <- ls :: '\r' !in l) && forall l <- ls[1..] :: l != ""
    ensures var s := Join(ls, CRLF) + HEADER_END + tail;
            Find(s, HEADER_END) == |Join(ls, CRLF)| && HasHeader(s)
    decreases |ls|
  {
    hide Find, StartsWith;
    assert ls[0] in ls;
    if |ls| == 1 {
      FindHere(ls[0], HEADER_END, tail);
    } else {
      var x := Join(ls[1..], CRLF) + HEADER_END + tail;
      assert forall l <- ls[1..][1..] :: l in ls[1..];
      HeaderEndsThere(ls[1..], tail);
      assert Join(ls, CRLF) + HEADER_END + tail == ls[0] + (CRLF + x);
      assert ls[1] in ls && ls[1] in ls[1..];
      StartsPlain(ls[1..], HEADER_END + tail);
      assert x == Join(ls[1..], CRLF) + (HEADER_END + tail);
      AfterLine(ls[0], x);
    }
  }

  lemma AfterLine(line: string, x: string)
    requires '\r' !in line && x != "" && x[0] != '\r' && HasHeader(x)
    ensures var s := line + (CRLF + x);
            Find(s, HEADER_END) == |line| + 2 + Find(x, HEADER_END) && HasHeader(s)
  {
    hide Find;
    FindSkips(line, CRLF + x, HEADER_END);
    AfterLineBreak(x);
    var s, i := line + (CRLF + x), Find(x, HEADER_END);
    assert s[|line| + 2 + i..] == x[i..];
  }

  lemma StartsPlain(ls: seq<string>, tail: string)
    requires ls != [] && ls[0] != ""
    ensures (Join(ls, CRLF) + tail)[0] == ls[0][0]
  {
  }

  lemma AfterLineBreak(x: string)
    requires x != "" && x[0] != '\r'
    ensures Find(CRLF + x, HEADER_END) == 2 + Find(x, HEADER_END)
  {
    var s := CRLF + x;
    StartsOtherwise(s, HEADER_END, 2);
    StartsOtherwise(s[1..], HEADER_END, 0);
    assert s[1..][1..] == x;
  }

  lemma HeaderLineParses(h: (string, string))
    requires PlainHeader(h)
    ensures var s := SplitOnce(HeaderLine(h), ":");
            s.Some? && Strip(s.value.0) == h.0 && Strip(s.value.1) == h.1
  {
    var rest := " " + h.1;
    FindHere(h.0, ":", rest);
    assert HeaderLine(h) == h.0 + ":" + rest;
    assert (h.0 + ":" + rest)[|h.0| + 1..] == rest;
    assert (h.0 + ":" + rest)[..|h.0|] == h.0;
    assert rest[1..] == h.1;
  }

  lemma {:induction false} HeadersParse(headers: seq<(string, string)>)
    requires forall h <- headers :: PlainHeader(h)
    ensures HeaderMap(HeaderLines(headers)) == Pairs(headers)
    decreases |headers|
  {
    if headers != [] {
      var n := |headers| - 1;
      assert headers[n] in headers;
      HeadersParse(headers[..n]);
      HeaderLineParses(headers[n]);
      assert HeaderLines(headers)[..n] == HeaderLines(headers[..n]);
    }
  }

  lemma DigitValue(d: nat)
    requires d < 10
    ensures JsonText.Digit(d) as int == '0' as int + d
  {
  }

  lemma NumberSnoc(s: string, d: nat, v: nat)
    requires s != "" && '0' <= s[|s| - 1] <= '9' && d < 10 && Number(s) == Some(v)
    ensures Number(s + [JsonText.Digit(d)]) == Some(10 * v + d)
  {
    DigitValue(d);
    hide JsonText.Digit, Number;
    var t := s + [JsonText.Digit(d)];
    assert t[..|s|] == s && t[|s| - 1] == s[|s| - 1];
    NumberLast(t, v);
  }

  lemma NumberLast(t: string, v: nat)
    requires |t| > 1 && '0' <= t[|t| - 1] <= '9' && t[|t| - 2] != '_' && Number(t[..|t| - 1]) == Some(v)
    ensures Number(t) == Some(10 * v + (t[|t| - 1] as int - '0' as int))
  {
  }

  lemma {:induction false} NumberOfDigits(n: nat)
    ensures Number(JsonText.Digits(n)) == Some(n)
  {
    if n < 10 {
      DigitValue(n);
    } else {
      NumberOfDigits(n / 10);
      var s := JsonText.Digits(n / 10);
      assert s[|s| - 1] in s;
      NumberSnoc(s, n % 10, n / 10);
    }
  }

  lemma DigitsArePlain(n: nat)
    ensures PlainHeader((LENGTH_KEY, JsonText.Digits(n)))
  {
    var digits := JsonText.Digits(n);
    assert digits[0] in digits && digits[|digits| - 1] in digits;
    EdgesStay(LENGTH_KEY);
    EdgesStay(digits);
  }

  lemma EdgesStay(s: string)
    requires s != "" && !IsSpace(s[0]) && !IsSpace(s[|s| - 1])
    ensures Strip(s) == s
  {
  }

  predicate AllPlain(line: string, headers: seq<(string, string)>) {
    '\r' !in line && forall h <- headers :: PlainHeader(h)
  }

  function Head(line: string, headers: seq<(string, string)>): string {
    Join([line] + HeaderLines(headers), CRLF)
  }

  /** A printed header is found and read back. */
  lemma HeadParses(line: string, headers: seq<(string, string)>, tail: string)
    requires AllPlain(line, headers)
    ensures var s := Head(line, headers) + HEADER_END + tail;
            && HasHeader(s) && HeaderOf(s) == Head(line, headers)
            && Lines(HeaderOf(s))[0] == line && HeaderMap(Lines(HeaderOf(s))[1..]) == Pairs(headers)
  {
    var ls := [line] + HeaderLines(headers);
    HeadLinesPlain(line, headers);
    HeaderEndsThere(ls, tail);
    var s := Head(line, headers) + HEADER_END + tail;
    assert s[..|Head(line, headers)|] == Head(line, headers);
    LinesOfJoin(ls);
    assert ls[1..] == HeaderLines(headers);
    HeadersParse(headers);
  }

  lemma HeadLinesPlain(line: string, headers: seq<(string, string)>)
    requires AllPlain(line, headers)
    ensures var ls := [line] + HeaderLines(headers);
            (forall l <- ls :: '\r' !in l) && forall l <- ls[1..] :: l != ""
  {
    forall l | l in HeaderLines(headers)
      ensures '\r' !in l && l != ""
    {
      var i :| 0 <= i < |headers| && l == HeaderLine(headers[i]);
      assert PlainHeader(headers[i]);
    }
    assert ([line] + HeaderLines(headers))[1..] == HeaderLines(headers);
  }

  /** A printed request is taken off the buffer whole, whatever follows it. */
  lemma PrintedFirst(r: Request, tail: string)
    requires Printable(r)
    ensures Complete(Print(r) + tail) && Total(Print(r) + tail) == |Print(r)| > 0
    ensures First(Print(r) + tail) == RecordOf(r) && Rest(Print(r) + tail) == tail
  {
    var head := Head(r.line, Framed(r));
    var s := head + HEADER_END + (r.body + tail);
    assert Print(r) + tail == s;
    DigitsArePlain(|r.body|);
    HeadParses(r.line, Framed(r), r.body + tail);
    LengthIsFramed(r);
    assert s[|head| + 4..|head| + 4 + |r.body|] == r.body;
    assert s[|head| + 4 + |r.body|..] == tail;
  }

  lemma LengthIsFramed(r: Request)
    ensures ContentLength(Pairs(Framed(r))) == |r.body|
  {
    var digits := JsonText.Digits(|r.body|);
    assert Framed(r)[..|r.headers|] == r.headers;
    assert digits[0] in digits;
    NumberOfDigits(|r.body|);
  }

  function Records(rs: seq<Request>): seq<Record> {
    seq(|rs|, i requires 0 <= i < |rs| => RecordOf(rs[i]))
  }

  lemma RecordsCons(rs: seq<Request>, log: seq<Record>)
    requires rs != []
    ensures log + [RecordOf(rs[0])] + Records(rs[1..]) == log + Records(rs)
  {
  }

  lemma {:induction false} PrintedDrains(rs: seq<Request>, log: seq<Record>)
    requires forall r <- rs :: Printable(r)
    ensures Drain(PrintAll(rs), log) == Fed("", log + Records(rs))
    ensures Forward(PrintAll(rs))
    decreases |rs|
  {
    if rs == [] {
      assert log + [] == log;
    } else {
      assert rs[0] in rs;
      PrintedFirst(rs[0], PrintAll(rs[1..]));
      PrintedDrains(rs[1..], log + [RecordOf(rs[0])]);
      RecordsCons(rs, log);
    }
  }

  /** Printed requests, cut into chunks in any way and fed, are logged one by one as they were,
      secrets redacted, and nothing stays in the buffer. */
  lemma PrintedRequestsComeBack(rs: seq<Request>, chunks: seq<string>)
    requires forall r <- rs :: Printable(r)
    requires Concat(chunks) == PrintAll(rs)
    ensures FeedAll(chunks) == Fed("", Records(rs))
  {
    PrintedDrains(rs, []);
    assert [] + Records(rs) == Records(rs);
    ChunkingDoesNotMatter(chunks);
  }

  // ----- What of the headers is logged -----

  /** The record shows no value of a secret header. */
  predicate ShowsNoSecret(r: Record) {
    forall key <- r.headers :: IsSecret(key) ==> r.headers[key] == "<redacted>"
  }

  predicate ShowNoSecrets(rs: seq<Record>) {
    forall r <- rs :: ShowsNoSecret(r)
  }

  lemma FirstShowsNoSecret(buffer: string)
    requires Complete(buffer)
    ensures ShowsNoSecret(First(buffer))
  {
  }

  /** Whatever the bytes, draining logs no secret, even where it logs forever. */
  lemma {:induction false} DrainShowsNoSecrets(buffer: string, log: seq<Record>)
    requires ShowNoSecrets(log)
    ensures ShowNoSecrets(Drain(buffer, log).log)
    ensures Drain(buffer, log).Diverges? ==> ShowsNoSecret(Drain(buffer, log).record)
    decreases |buffer|
  {
    if Complete(buffer) {
      FirstShowsNoSecret(buffer);
      if |Rest(buffer)| < |buffer| {
        DrainShowsNoSecrets(Rest(buffer), log + [First(buffer)]);
      }
    }
  }

  /** Over every run of feeds, of any bytes in any chunks, no record shows a secret. */
  lemma {:induction false} FeedsShowNoSecrets(chunks: seq<string>)
    ensures ShowNoSecrets(FeedAll(chunks).log)
    ensures FeedAll(chunks).Diverges? ==> ShowsNoSecret(FeedAll(chunks).record)
    decreases |chunks|
  {
    if chunks != [] {
      var before := FeedAll(chunks[..|chunks| - 1]);
      FeedsShowNoSecrets(chunks[..|chunks| - 1]);
      if before.Fed? {
        DrainShowsNoSecrets(before.buffer + chunks[|chunks| - 1], before.log);
      }
    }
  }

  lemma RecordOfHeaders(r: Request)
    ensures RecordOf(r).headers.Keys == Pairs(Framed(r)).Keys
    ensures forall key <- RecordOf(r).headers | !IsSecret(key) :: RecordOf(r).headers[key] == Pairs(Framed(r))[key]
  {
  }

  /** Of printed requests, fed in any chunks, every header is logged, and every one but the two
      secret ones with the value it was sent with. */
  lemma OnlySecretsChange(rs: seq<Request>, chunks: seq<string>, i: nat)
    requires (forall r <- rs :: Printable(r)) && Concat(chunks) == PrintAll(rs) && i < |rs|
    ensures var sent, log := Pairs(Framed(rs[i])), FeedAll(chunks).log;
            && |log| == |rs| && log[i].headers.Keys == sent.Keys
            && (forall key <- sent | !IsSecret(key) :: log[i].headers[key] == sent[key])
            && (forall key <- sent | IsSecret(key) :: log[i].headers[key] == "<redacted>")
  {
    PrintedRequestsComeBack(rs, chunks);
    RecordOfHeaders(rs[i]);
    FeedsShowNoSecrets(chunks);
    var log := FeedAll(chunks).log;
    assert log == Records(rs);
    assert log[i] in log;
  }

  const NEGATIVE_HEADER: seq<(string, string)> := [(LENGTH_KEY, "-30")]

  lemma NegativeLength()
    ensures AllPlain("", NEGATIVE_HEADER) && ContentLength(Pairs(NEGATIVE_HEADER)) == -30
  {
    EdgesStay(LENGTH_KEY);
    EdgesStay("-30");
    assert NEGATIVE_HEADER[..0] == [];
    assert Number("30") == Some(30) by {
      assert "30"[..1] == "3";
    }
    assert "-30"[1..] == "30";
  }

  lemma NegativeHeadLength()
    ensures |Head("", NEGATIVE_HEADER)| == 21
  {
    var line := HeaderLine(NEGATIVE_HEADER[0]);
    var ls := [""] + HeaderLines(NEGATIVE_HEADER);
    assert ls == ["", line] && ls[1..] == [line];
    assert |line| == |LENGTH_KEY| + 2 + 3;
    assert Join(ls, CRLF) == "" + CRLF + Join([line], CRLF);
  }

  /** A header of 25 bytes that announces minus 30 more: chunking does matter for it. */
  lemma NegativeLengthExample(log: seq<Record>) returns (b: string)
    ensures var a := Head("", NEGATIVE_HEADER) + HEADER_END;
            Complete(a) && Total(a) == -5 && FeedMore(Drain(a, log), b) != Drain(a + b, log)
  {
    NegativeLength();
    NegativeHeadLength();
    HeadParses("", NEGATIVE_HEADER, "");
    var a := Head("", NEGATIVE_HEADER) + HEADER_END;
    assert a == a + "";
    b := BackwardFails(a, log);
  }
}
