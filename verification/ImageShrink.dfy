/** Shrinking of inbound images: the gates around it, and the search over long sides and JPEG
    qualities (`maybe_shrink_image`, `shrink_static_image`).  Image codecs are abstract. */
module ImageShrink {
  import opened Wrappers
  import Base64
  import Strings

  const MIN_JPEG_QUALITY: nat := 35
  const MIN_LONG_SIDE: nat := 256

  datatype Config = Config(
    enabled: bool,
    maxLongSide: nat,
    maxBytes: nat,
    jpegQuality: nat,
    maxBase64Bytes: nat,
    maxDecodedBytes: nat,
    maxPixels: nat)

  datatype Error = LimitExceeded | BadBase64 | BadImage | EncodeFailed

  /** The image library: size from the header, size after decoding, the JPEG of an image at a long
      side and quality, and the format that magic bytes tell. */
  datatype Codec = Codec(
    header: (string, seq<Base64.Byte>) -> Option<(nat, nat)>,
    image: (string, seq<Base64.Byte>) -> Option<(nat, nat)>,
    jpeg: (seq<Base64.Byte>, nat, nat) -> Option<seq<Base64.Byte>>,
    magic: string -> Option<string>)

  datatype Processed = Processed(format: string, data: string, resized: bool)

  // ----- The candidates of the search -----

  datatype Candidate = Candidate(longSide: nat, quality: nat)

  function NextQuality(q: nat): nat {
    if q < MIN_JPEG_QUALITY + 10 then MIN_JPEG_QUALITY else q - 10
  }

  function NextLongSide(l: nat): nat {
    if l * 4 / 5 < MIN_LONG_SIDE then MIN_LONG_SIDE else l * 4 / 5
  }

  /** All qualities for one long side, down to the floor. */
  function Row(l: nat, q: nat): (r: seq<Candidate>)
    ensures r != []
    decreases q
  {
    [Candidate(l, q)] + if q <= MIN_JPEG_QUALITY then [] else Row(l, NextQuality(q))
  }

  /** Row after row with shrinking long sides, down to the floor. */
  function Candidates(l: nat, q: nat): (r: seq<Candidate>)
    ensures r != []
    decreases l
  {
    Row(l, q) + if l <= MIN_LONG_SIDE then [] else Candidates(NextLongSide(l), q)
  }

  /** The estimate of the base64 length is within the budget. */
  predicate Fits(n: nat, maxBytes: nat) {
    n * 4 / 3 <= maxBytes
  }

  /** An image to be encoded. */
  datatype Source = Source(codec: Codec, raw: seq<Base64.Byte>) {
    function Jpeg(c: Candidate): Option<seq<Base64.Byte>> {
      codec.jpeg(raw, c.longSide, c.quality)
    }
  }

  datatype Found = Found(candidate: Candidate, out: seq<Base64.Byte>)

  /** The first candidate that fits, the last one if none does, nothing if encoding fails first. */
  function Search(source: Source, maxBytes: nat, candidates: seq<Candidate>): Option<Found>
    requires candidates != []
  {
    match source.Jpeg(candidates[0])
    case None => None
    case Some(out) =>
      if Fits(|out|, maxBytes) || |candidates| == 1 then Some(Found(candidates[0], out))
      else Search(source, maxBytes, candidates[1..])
  }

  lemma {:induction false} SearchAppend(source: Source, maxBytes: nat, a: seq<Candidate>, b: seq<Candidate>)
    requires a != [] && b != []
    ensures var first := Search(source, maxBytes, a);
            Search(source, maxBytes, a + b) ==
            if first.None? || Fits(|first.value.out|, maxBytes) then first else Search(source, maxBytes, b)
    decreases |a|
  {
    if |a| == 1 {
      assert (a + b)[1..] == b;
    } else {
      assert (a + b)[1..] == a[1..] + b;
      SearchAppend(source, maxBytes, a[1..], b);
    }
  }

  /** The inner loop: lower the quality until the picture fits or the floor is reached. */
  method LowerQuality(source: Source, maxBytes: nat, longSide: nat, jpegQuality: nat) returns (r: Option<Found>)
    ensures r == Search(source, maxBytes, Row(longSide, jpegQuality))
  {
    var quality: nat := jpegQuality;
    while true
      invariant Search(source, maxBytes, Row(longSide, quality)) == Search(source, maxBytes, Row(longSide, jpegQuality))
      decreases quality
    {
      var out := source.Jpeg(Candidate(longSide, quality));
      if out.None? {
        return None;
      }
      if Fits(|out.value|, maxBytes) || quality <= MIN_JPEG_QUALITY {
        return Some(Found(Candidate(longSide, quality), out.value));
      }
      assert Row(longSide, quality)[1..] == Row(longSide, NextQuality(quality));
      quality := NextQuality(quality);
    }
    assert false;
  }

  /** The outer loop: shrink the long side until the picture fits or the floor is reached. */
  method SearchSizes(source: Source, maxBytes: nat, longSide: nat, jpegQuality: nat) returns (r: Option<Found>)
    ensures r == Search(source, maxBytes, Candidates(longSide, jpegQuality))
  {
    var current: nat := longSide;
    while true
      invariant Search(source, maxBytes, Candidates(current, jpegQuality)) ==
                Search(source, maxBytes, Candidates(longSide, jpegQuality))
      decreases current
    {
      r := LowerQuality(source, maxBytes, current, jpegQuality);
      if current <= MIN_LONG_SIDE {
        assert Row(current, jpegQuality) + [] == Row(current, jpegQuality);
        return;
      }
      SearchAppend(source, maxBytes, Row(current, jpegQuality), Candidates(NextLongSide(current), jpegQuality));
      if r.None? || Fits(|r.value.out|, maxBytes) {
        return;
      }
      current := NextLongSide(current);
    }
    assert false;
  }

  // ----- What the search finds -----

  /** The candidate at `i` is reached: all before it are encoded and too large. */
  predicate Reached(source: Source, maxBytes: nat, candidates: seq<Candidate>, i: nat) {
    && i < |candidates|
    && forall c <- candidates[..i] ::
         source.Jpeg(c).Some? && !Fits(|source.Jpeg(c).value|, maxBytes)
  }

  /** The search returns the first candidate that fits, and the last one if none does; it fails if
      and only if encoding fails on the way there. */
  lemma {:induction false} SearchFindsFirst(source: Source, maxBytes: nat, candidates: seq<Candidate>)
    returns (i: nat)
    requires candidates != []
    ensures Reached(source, maxBytes, candidates, i)
    ensures var r, out := Search(source, maxBytes, candidates), source.Jpeg(candidates[i]);
            && (r.None? <==> out.None?)
            && (r.Some? ==>
                  && r.value == Found(candidates[i], out.value)
                  && (Fits(|out.value|, maxBytes) || i == |candidates| - 1))
    decreases |candidates|
  {
    var out := source.Jpeg(candidates[0]);
    if out.None? || Fits(|out.value|, maxBytes) || |candidates| == 1 {
      i := 0;
    } else {
      var j := SearchFindsFirst(source, maxBytes, candidates[1..]);
      i := j + 1;
      assert candidates[..i] == [candidates[0]] + candidates[1..][..j];
    }
  }

  /** Smaller long side, or the same and lower quality. */
  predicate Below(a: Candidate, b: Candidate) {
    a.longSide < b.longSide || (a.longSide == b.longSide && a.quality < b.quality)
  }

  predicate AtFloor(c: Candidate) {
    c.longSide <= MIN_LONG_SIDE && c.quality <= MIN_JPEG_QUALITY
  }

  predicate Descends(candidates: seq<Candidate>) {
    forall i | 0 < i < |candidates| :: Below(candidates[i], candidates[i - 1])
  }

  lemma {:induction false} RowShape(l: nat, q: nat)
    ensures var r := Row(l, q);
            && Descends(r) && r[0] == Candidate(l, q)
            && r[|r| - 1].quality <= MIN_JPEG_QUALITY
            && forall c <- r :: c.longSide == l && c.quality <= q
    decreases q
  {
    if q > MIN_JPEG_QUALITY {
      RowShape(l, NextQuality(q));
    }
  }

  /** The candidates descend strictly in the order of long side and quality and end at the floor;
      so every search ends. */
  lemma {:induction false} CandidatesShape(l: nat, q: nat)
    ensures var r := Candidates(l, q);
            && Descends(r) && r[0] == Candidate(l, q) && AtFloor(r[|r| - 1])
            && forall c <- r :: c.longSide <= l && c.quality <= q
    decreases l
  {
    RowShape(l, q);
    if l > MIN_LONG_SIDE {
      var row, rest := Row(l, q), Candidates(NextLongSide(l), q);
      CandidatesShape(NextLongSide(l), q);
      assert row[|row| - 1] in row && rest[0] in rest;
      JoinDescends(row, rest);
    } else {
      assert Candidates(l, q) == Row(l, q);
      assert Row(l, q)[|Row(l, q)| - 1] in Row(l, q);
    }
  }

  /** One step of the search: ten points of quality down, at the lowest quality four fifths of the long side; neither
      goes below its floor. */
  predicate OneStep(from: Candidate, to: Candidate, q: nat) {
    if from.quality > MIN_JPEG_QUALITY
    then to == Candidate(from.longSide, if from.quality >= 45 then from.quality - 10 else 35)
    else to == Candidate(if from.longSide * 4 / 5 >= 256 then from.longSide * 4 / 5 else 256, q)
  }

  lemma {:induction false} RowSteps(l: nat, q: nat, start: nat)
    ensures var r := Row(l, q);
            && r[0] == Candidate(l, q) && r[|r| - 1].longSide == l && r[|r| - 1].quality <= MIN_JPEG_QUALITY
            && forall i | 0 < i < |r| :: OneStep(r[i - 1], r[i], start)
    decreases q
  {
    if q > MIN_JPEG_QUALITY {
      var rest := Row(l, NextQuality(q));
      RowSteps(l, NextQuality(q), start);
      var r := [Candidate(l, q)] + rest;
      assert Row(l, q) == r;
      forall i | 0 < i < |r|
        ensures OneStep(r[i - 1], r[i], start)
      {
        if i > 1 {
          assert r[i] == rest[i - 1] && r[i - 1] == rest[i - 1 - 1];
        }
      }
    }
  }

  /** The search leaves no candidate out. */
  lemma {:induction false} CandidateSteps(l: nat, q: nat)
    ensures var r := Candidates(l, q);
            r[0] == Candidate(l, q) && forall i | 0 < i < |r| :: OneStep(r[i - 1], r[i], q)
    decreases l
  {
    hide OneStep;
    RowSteps(l, q, q);
    var row := Row(l, q);
    if l > MIN_LONG_SIDE {
      var rest := Candidates(NextLongSide(l), q);
      CandidateSteps(NextLongSide(l), q);
      NextRow(row[|row| - 1], q);
      assert Candidates(l, q) == row + rest;
      forall i | 0 < i < |row + rest|
        ensures OneStep((row + rest)[i - 1], (row + rest)[i], q)
      {
        if i > |row| {
          assert (row + rest)[i] == rest[i - |row|] && (row + rest)[i - 1] == rest[i - |row| - 1];
        }
      }
    } else {
      assert Candidates(l, q) == row;
    }
  }

  lemma NextRow(last: Candidate, q: nat)
    requires last.quality <= MIN_JPEG_QUALITY
    ensures OneStep(last, Candidate(NextLongSide(last.longSide), q), q)
  {
  }

  lemma JoinDescends(a: seq<Candidate>, b: seq<Candidate>)
    requires Descends(a) && Descends(b) && a != [] && b != [] && Below(b[0], a[|a| - 1])
    ensures Descends(a + b)
  {
    var all := a + b;
    forall i | 0 < i < |all|
      ensures Below(all[i], all[i - 1])
    {
      if i > |a| {
        assert all[i] == b[i - |a|] && all[i - 1] == b[i - |a| - 1];
      }
    }
  }

  // ----- The budget -----

  /** A picture taken to fit may exceed the budget once padded, by three at most. */
  lemma FitsWithinThree(n: nat, maxBytes: nat)
    requires Fits(n, maxBytes)
    ensures Base64.PaddedLen(n) <= maxBytes + 3
  {
    PaddedGap(n);
  }

  lemma PaddedGap(n: nat)
    ensures n * 4 / 3 <= Base64.PaddedLen(n) <= n * 4 / 3 + 3
  {
    var k := n / 3;
    if n == 3 * k {
      assert n * 4 / 3 == 4 * k;
    } else if n == 3 * k + 1 {
      assert n * 4 / 3 == 4 * k + 1;
    } else {
      assert n * 4 / 3 == 4 * k + 2;
    }
  }

  /** Every picture taken to fit is within the budget if and only if the budget is a multiple of four. */
  lemma FitsIsExactIff(maxBytes: nat)
    ensures (forall n: nat :: Fits(n, maxBytes) ==> Base64.PaddedLen(n) <= maxBytes) <==> maxBytes % 4 == 0
  {
    hide Fits, Base64.PaddedLen;
    if maxBytes % 4 == 0 {
      forall n: nat | Fits(n, maxBytes)
        ensures Base64.PaddedLen(n) <= maxBytes
      {
        FitsFours(n, maxBytes);
      }
    } else {
      var n := Overrun(maxBytes);
    }
  }

  lemma FitsFours(n: nat, maxBytes: nat)
    requires Fits(n, maxBytes) && maxBytes % 4 == 0
    ensures Base64.PaddedLen(n) <= maxBytes
  {
    PaddedGap(n);
    assert Base64.PaddedLen(n) % 4 == 0;
  }

  lemma Overrun(maxBytes: nat) returns (n: nat)
    requires maxBytes % 4 != 0
    ensures Fits(n, maxBytes) && Base64.PaddedLen(n) > maxBytes
  {
    n := maxBytes / 4 * 3 + (if maxBytes % 4 == 1 then 1 else 2);
    PaddedOverrun(maxBytes / 4, maxBytes % 4);
  }

  lemma PaddedOverrun(k: nat, r: nat)
    requires 0 < r < 4
    ensures var n := k * 3 + (if r == 1 then 1 else 2);
            n * 4 / 3 <= 4 * k + r && Base64.PaddedLen(n) == 4 * k + 4
  {
  }

  // ----- The gates -----

  function Long(w: nat, h: nat): nat {
    if w >= h then w else h
  }

  function ValidateBase64Limits(cfg: Config, data: string): Option<Error> {
    if |data| > cfg.maxBase64Bytes then Some(LimitExceeded)
    else if Base64.EstimatedDecodedLen(data) > cfg.maxDecodedBytes then Some(LimitExceeded)
    else None
  }

  function ReadDimensions(cfg: Config, codec: Codec, format: string, raw: seq<Base64.Byte>):
    Result<Option<(nat, nat)>, Error>
  {
    match codec.header(format, raw)
    case None => Success(None)
    case Some((w, h)) => if w * h > cfg.maxPixels then Failure(LimitExceeded) else Success(Some((w, h)))
  }

  function PeekDimensions(cfg: Config, codec: Codec, format: string, data: string):
    Result<Option<(nat, nat)>, Error>
  {
    match ValidateBase64Limits(cfg, data)
    case Some(e) => Failure(e)
    case None =>
      match Base64.Decode(data)
      case None => Failure(BadBase64)
      case Some(raw) =>
        if |raw| > cfg.maxDecodedBytes then Failure(LimitExceeded) else ReadDimensions(cfg, codec, format, raw)
  }

  /** The check of the decoded size after decoding never fires: the estimate was exact. */
  lemma DecodedCheckIsRedundant(cfg: Config, data: string)
    requires ValidateBase64Limits(cfg, data).None? && Base64.Decode(data).Some?
    ensures |Base64.Decode(data).value| <= cfg.maxDecodedBytes
  {
    Base64.EstimateIsExact(data);
  }

  function ValidatePassthroughSafe(cfg: Config, codec: Codec, format: string, data: string): Option<Error> {
    match PeekDimensions(cfg, codec, format, data)
    case Success(Some(_)) => None
    case Success(None) => if |data| <= cfg.maxBytes then None else Some(LimitExceeded)
    case Failure(e) =>
      if e == BadBase64 || e == BadImage then if |data| <= cfg.maxBytes then None else Some(LimitExceeded)
      else Some(e)
  }

  function Passthrough(codec: Codec, format: string, data: string): Processed {
    Processed(codec.magic(data).GetOr(format), data, false)
  }

  function InitialLongSide(cfg: Config, header: (nat, nat), image: (nat, nat)): nat {
    var long := Long(Long(header.0, image.0), Long(header.1, image.1));
    var capped := if long <= cfg.maxLongSide then long else cfg.maxLongSide;
    if capped < 1 then 1 else capped
  }

  /** The search starts at the picture's own long side, or at the limit if any side exceeds that. */
  lemma StartsAtItsOwnSize(cfg: Config, header: (nat, nat), image: (nat, nat))
    ensures var l, sides := InitialLongSide(cfg, header, image), [header.0, header.1, image.0, image.1];
            && l >= 1
            && ((forall s <- sides :: s <= cfg.maxLongSide) ==>
                  (forall s <- sides :: s <= l) && (l in sides || (l == 1 && forall s <- sides :: s == 0)))
            && ((exists s <- sides :: s > cfg.maxLongSide) ==> l == if cfg.maxLongSide == 0 then 1 else cfg.maxLongSide)
  {
    var sides := [header.0, header.1, image.0, image.1];
    assert sides[0] in sides && sides[1] in sides && sides[2] in sides && sides[3] in sides;
  }

  function Shrunk(cfg: Config, codec: Codec, format: string, data: string): Result<Processed, Error> {
    if ValidateBase64Limits(cfg, data).Some? then Failure(LimitExceeded)
    else
      match Base64.Decode(data)
      case None => Failure(BadBase64)
      case Some(raw) =>
        if |raw| > cfg.maxDecodedBytes then Failure(LimitExceeded)
        else
          match ReadDimensions(cfg, codec, format, raw)
          case Failure(e) => Failure(e)
          case Success(None) => Failure(BadImage)
          case Success(Some(header)) =>
            match codec.image(format, raw)
            case None => Failure(BadImage)
            case Some(image) =>
              var source := Source(codec, raw);
              match Search(source, cfg.maxBytes, Candidates(InitialLongSide(cfg, header, image), cfg.jpegQuality))
              case None => Failure(EncodeFailed)
              case Some(found) => Success(Processed("jpeg", Base64.Encode(found.out), true))
  }

  method ShrinkStaticImage(cfg: Config, codec: Codec, format: string, data: string)
    returns (r: Result<Processed, Error>)
    ensures r == Shrunk(cfg, codec, format, data)
  {
    if ValidateBase64Limits(cfg, data).Some? {
      return Failure(LimitExceeded);
    }
    var decoded := Base64.Decode(data);
    if decoded.None? {
      return Failure(BadBase64);
    }
    var raw := decoded.value;
    if |raw| > cfg.maxDecodedBytes {
      return Failure(LimitExceeded);
    }
    var header :- ReadDimensions(cfg, codec, format, raw);
    if header.None? {
      return Failure(BadImage);
    }
    var image := codec.image(format, raw);
    if image.None? {
      return Failure(BadImage);
    }
    var source := Source(codec, raw);
    var found := SearchSizes(source, cfg.maxBytes, InitialLongSide(cfg, header.value, image.value), cfg.jpegQuality);
    if found.None? {
      return Failure(EncodeFailed);
    }
    r := Success(Processed("jpeg", Base64.Encode(found.value.out), true));
  }

  /** The main entry. */
  method MaybeShrinkImage(cfg: Config, codec: Codec, format: string, data: string)
    returns (r: Result<Processed, Error>)
    ensures ValidateBase64Limits(cfg, data).Some? ==> r == Failure(LimitExceeded)
    ensures ValidateBase64Limits(cfg, data).None? && cfg.enabled && |data| > cfg.maxBytes ==>
              if Strings.Lower(format) == "gif" then r.Failure?
              else r == Shrunk(cfg, codec, Strings.Lower(format), data)
    ensures r.Success? ==> |data| <= cfg.maxBase64Bytes && Base64.EstimatedDecodedLen(data) <= cfg.maxDecodedBytes
    ensures r.Success? && !r.value.resized ==>
              && r.value == Passthrough(codec, Strings.Lower(format), data)
              && (cfg.enabled ==> |data| <= cfg.maxBytes)
    ensures r.Success? && Strings.Lower(format) == "gif" ==> !r.value.resized
    ensures r.Success? && r.value.resized ==> cfg.enabled && r == Shrunk(cfg, codec, Strings.Lower(format), data)
    ensures r.Success? && cfg.enabled && !r.value.resized && Strings.Lower(format) != "gif" ==>
              var size := PeekDimensions(cfg, codec, Strings.Lower(format), data);
              size.Success? && (size.value.Some? ==> Long(size.value.value.0, size.value.value.1) <= cfg.maxLongSide)
  {
    var lower := Strings.Lower(format);
    if ValidateBase64Limits(cfg, data).Some? {
      return Failure(LimitExceeded);
    }
    if !cfg.enabled {
      var unsafe := ValidatePassthroughSafe(cfg, codec, lower, data);
      if unsafe.Some? {
        return Failure(unsafe.value);
      }
      return Success(Passthrough(codec, lower, data));
    }
    if |data| <= cfg.maxBytes {
      var size :- PeekDimensions(cfg, codec, lower, data);
      if size.None? || Long(size.value.0, size.value.1) <= cfg.maxLongSide {
        return Success(Passthrough(codec, lower, data));
      }
    }
    if lower == "gif" {
      var unsafe := ValidatePassthroughSafe(cfg, codec, lower, data);
      if unsafe.Some? {
        return Failure(unsafe.value);
      }
      if |data| > cfg.maxBytes {
        return Failure(LimitExceeded);
      }
      return Success(Passthrough(codec, lower, data));
    }
    r := ShrinkStaticImage(cfg, codec, lower, data);
  }

  // ----- Results -----

  /** A shrunk image is the base64 of some candidate: it is within the budget, up to three bytes
      of padding, or it is the smallest one at the floor; and unless it has the first long side and
      quality, the picture with these was too large. */
  lemma ShrunkFitsOrIsAtFloor(cfg: Config, codec: Codec, format: string, data: string)
    requires Shrunk(cfg, codec, format, data).Success?
    ensures var shrunk := Shrunk(cfg, codec, format, data).value;
            var raw := Base64.Decode(data).value;
            var header := ReadDimensions(cfg, codec, format, raw).value.value;
            var first := Candidate(InitialLongSide(cfg, header, codec.image(format, raw).value), cfg.jpegQuality);
            exists c: Candidate, out ::
              && Source(codec, raw).Jpeg(c) == Some(out)
              && shrunk == Processed("jpeg", Base64.Encode(out), true)
              && (c == first ||
                  var jpeg := Source(codec, raw).Jpeg(first);
                  jpeg.Some? && !Fits(|jpeg.value|, cfg.maxBytes))
              && (c.longSide <= cfg.maxLongSide || c.longSide == 1) && c.quality <= cfg.jpegQuality
              && (AtFloor(c) || |shrunk.data| <= cfg.maxBytes + 3)
              && (AtFloor(c) || (cfg.maxBytes % 4 == 0 ==> |shrunk.data| <= cfg.maxBytes))
  {
    hide Candidates, Search, Base64.Encode, Fits;
    var raw := Base64.Decode(data).value;
    var header := ReadDimensions(cfg, codec, format, raw).value.value;
    var l := InitialLongSide(cfg, header, codec.image(format, raw).value);
    var source := Source(codec, raw);
    var candidates := Candidates(l, cfg.jpegQuality);
    var i := SearchFindsFirst(source, cfg.maxBytes, candidates);
    CandidatesShape(l, cfg.jpegQuality);
    var c := candidates[i];
    var out := source.Jpeg(c).value;
    assert c in candidates;
    Base64.EncodedLength(out);
    if Fits(|out|, cfg.maxBytes) {
      FitsWithinThree(|out|, cfg.maxBytes);
      FitsIsExactIff(cfg.maxBytes);
    }
  }
}
