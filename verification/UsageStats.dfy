/** Usage aggregation: time buckets built online, with the oldest evicted, against an offline
    group-and-keep-newest reference.  Credits are exact numbers and counters unbounded. */
module UsageStats {

  const HOUR_BUCKETS := 24 * 7
  const DAY_BUCKETS := 31

  datatype UsageRecord = UsageRecord(
    credentialId: nat,
    model: string,
    inputTokens: nat,
    outputTokens: nat,
    cacheCreationTokens: nat,
    cacheReadTokens: nat,
    credits: real,
    status: string)

  datatype BucketStats = BucketStats(
    inputTokens: nat,
    outputTokens: nat,
    cacheCreationTokens: nat,
    cacheReadTokens: nat,
    calls: nat,
    errors: nat,
    credits: real)
  {
    function Add(rec: UsageRecord): BucketStats {
      BucketStats(
        inputTokens + rec.inputTokens,
        outputTokens + rec.outputTokens,
        cacheCreationTokens + rec.cacheCreationTokens,
        cacheReadTokens + rec.cacheReadTokens,
        calls + 1,
        errors + if rec.status != "success" then 1 else 0,
        credits + rec.credits)
    }

    function Plus(other: BucketStats): BucketStats {
      BucketStats(
        inputTokens + other.inputTokens,
        outputTokens + other.outputTokens,
        cacheCreationTokens + other.cacheCreationTokens,
        cacheReadTokens + other.cacheReadTokens,
        calls + other.calls,
        errors + other.errors,
        credits + other.credits)
    }
  }

  const ZERO := BucketStats(0, 0, 0, 0, 0, 0, 0.0)

  lemma AddPlus(a: BucketStats, b: BucketStats, rec: UsageRecord)
    ensures a.Plus(b).Add(rec) == a.Plus(b.Add(rec))
    ensures a.Add(rec).Plus(b) == a.Plus(b).Add(rec)
  {
  }

  lemma PlusSwap(a: BucketStats, b: BucketStats, c: BucketStats)
    ensures a.Plus(b).Plus(c) == a.Plus(c).Plus(b)
    ensures a.Plus(b.Plus(c)) == a.Plus(b).Plus(c)
  {
  }

  lemma PlusZero(a: BucketStats)
    ensures a.Plus(ZERO) == a && ZERO.Plus(a) == a
  {
  }

  datatype Bucket = Bucket(
    ts: int,
    overall: BucketStats,
    byModel: map<string, BucketStats>,
    byCredential: map<nat, BucketStats>)

  /** `entry(k).or_default().add(rec)`. */
  function AddAt<K>(m: map<K, BucketStats>, k: K, rec: UsageRecord): map<K, BucketStats> {
    m[k := (if k in m then m[k] else ZERO).Add(rec)]
  }

  function AddTo(b: Bucket, rec: UsageRecord): Bucket {
    Bucket(b.ts, b.overall.Add(rec), AddAt(b.byModel, rec.model, rec),
           if rec.credentialId != 0 then AddAt(b.byCredential, rec.credentialId, rec) else b.byCredential)
  }

  function EmptyBucket(ts: int): Bucket {
    Bucket(ts, ZERO, map[], map[])
  }

  // ----- The offline reference -----

  /** A record with the start of the time slot it falls into. */
  datatype Timed = Timed(ts: int, rec: UsageRecord)

  /** The groups that are summed. */
  datatype Group =
    | AllAt(ts: int)
    | ModelAt(ts: int, model: string)
    | CredentialAt(ts: int, id: nat)
    | NamedCredentialAt(ts: int)

  predicate Matches(g: Group, e: Timed) {
    && e.ts == g.ts
    && match g
       case AllAt(_) => true
       case ModelAt(_, model) => e.rec.model == model
       case CredentialAt(_, id) => e.rec.credentialId == id
       case NamedCredentialAt(_) => e.rec.credentialId != 0
  }

  /** The sum of the records of a group. */
  function Total(es: seq<Timed>, g: Group): BucketStats {
    if es == [] then ZERO
    else
      var rest := Total(es[..|es| - 1], g);
      if Matches(g, es[|es| - 1]) then rest.Add(es[|es| - 1].rec) else rest
  }

  function Models(es: seq<Timed>, ts: int): set<string> {
    set e | e in es && e.ts == ts :: e.rec.model
  }

  function Credentials(es: seq<Timed>, ts: int): set<nat> {
    set e | e in es && e.ts == ts && e.rec.credentialId != 0 :: e.rec.credentialId
  }

  function BucketOf(es: seq<Timed>, ts: int): Bucket {
    Bucket(ts, Total(es, AllAt(ts)),
           map m | m in Models(es, ts) :: Total(es, ModelAt(ts, m)),
           map c | c in Credentials(es, ts) :: Total(es, CredentialAt(ts, c)))
  }

  function Times(es: seq<Timed>): set<int> {
    set e | e in es :: e.ts
  }

  predicate IsMax(t: int, ts: set<int>) {
    t in ts && forall u <- ts :: u <= t
  }

  lemma Inhabited(ts: set<int>)
    ensures ts == {} || exists t :: t in ts
  {
    if forall t :: t !in ts {
      assert ts == {};
    }
  }

  lemma {:induction false} MaxExists(ts: set<int>)
    requires ts != {}
    ensures exists t :: IsMax(t, ts)
  {
    Inhabited(ts);
    var t :| t in ts;
    if ts == {t} {
      assert IsMax(t, ts);
    } else {
      MaxExists(ts - {t});
      var m :| IsMax(m, ts - {t});
      assert forall u <- ts :: u == t || u in ts - {t};
      assert IsMax(if t <= m then m else t, ts);
    }
  }

  /** The `max` newest times, ascending. */
  function Newest(ts: set<int>, max: nat): seq<int> {
    if ts == {} || max == 0 then []
    else
      MaxExists(ts);
      var t :| IsMax(t, ts);
      Newest(ts - {t}, max - 1) + [t]
  }

  /** Group all records by time and keep the newest groups. */
  function Offline(es: seq<Timed>, max: nat): seq<Bucket> {
    var times := Newest(Times(es), max);
    seq(|times|, i requires 0 <= i < |times| => BucketOf(es, times[i]))
  }

  // ----- What characterizes the offline result -----

  ghost predicate StrictlySorted(bs: seq<Bucket>) {
    forall i, j | 0 <= i < j < |bs| :: bs[i].ts < bs[j].ts
  }

  predicate HasTime(bs: seq<Bucket>, ts: int) {
    exists b <- bs :: b.ts == ts
  }

  /** Sorted buckets with full sums; a record outside them is older than all of `max` buckets. */
  ghost predicate Aggregates(bs: seq<Bucket>, es: seq<Timed>, max: nat) {
    && StrictlySorted(bs)
    && |bs| <= max
    && (forall b <- bs :: b.ts in Times(es) && b == BucketOf(es, b.ts))
    && (forall e <- es :: HasTime(bs, e.ts) || (|bs| == max && forall b <- bs :: e.ts < b.ts))
  }

  lemma {:induction false} NewestSpec(ts: set<int>, max: nat)
    ensures var r := Newest(ts, max);
            && (forall i, j | 0 <= i < j < |r| :: r[i] < r[j])
            && |r| <= max
            && (forall t <- r :: t in ts)
            && (forall t <- ts :: t in r || (|r| == max && forall u <- r :: t < u))
  {
    if ts != {} && max > 0 {
      MaxExists(ts);
      var r := Newest(ts, max);
      var t := r[|r| - 1];
      assert IsMax(t, ts) && r == Newest(ts - {t}, max - 1) + [t];
      NewestSpec(ts - {t}, max - 1);
      var init := Newest(ts - {t}, max - 1);
      forall i | 0 <= i < |init|
        ensures init[i] < t
      {
        assert init[i] in init;
      }
    }
  }

  lemma OfflineAggregates(es: seq<Timed>, max: nat)
    ensures Aggregates(Offline(es, max), es, max)
  {
    var times, bs := Newest(Times(es), max), Offline(es, max);
    NewestSpec(Times(es), max);
    forall e | e in es
      ensures HasTime(bs, e.ts) || (|bs| == max && forall b <- bs :: e.ts < b.ts)
    {
      assert e.ts in Times(es);
      if e.ts in times {
        var i :| 0 <= i < |times| && times[i] == e.ts;
        assert bs[i] in bs;
      } else {
        forall b | b in bs
          ensures e.ts < b.ts
        {
          var i :| 0 <= i < |bs| && bs[i] == b;
          assert times[i] in times;
        }
      }
    }
    forall b | b in bs
      ensures b.ts in Times(es) && b == BucketOf(es, b.ts)
    {
      var i :| 0 <= i < |bs| && bs[i] == b;
      assert times[i] in times;
    }
  }

  /** The characterization leaves one result only. */
  lemma AggregatesUnique(a: seq<Bucket>, b: seq<Bucket>, es: seq<Timed>, max: nat)
    requires Aggregates(a, es, max) && Aggregates(b, es, max)
    ensures a == b
  {
    forall t: int
      ensures HasTime(a, t) <==> HasTime(b, t)
    {
      if HasTime(a, t) {
        TimeCarriesOver(a, b, es, max, t);
      }
      if HasTime(b, t) {
        TimeCarriesOver(b, a, es, max, t);
      }
    }
    SameTimesSameList(a, b, es);
  }

  lemma TimeCarriesOver(a: seq<Bucket>, b: seq<Bucket>, es: seq<Timed>, max: nat, t: int)
    requires Aggregates(a, es, max) && Aggregates(b, es, max)
    requires HasTime(a, t)
    ensures HasTime(b, t)
  {
    var x :| x in a && x.ts == t;
    assert t in Times(es);
    var e :| e in es && e.ts == t;
    if !HasTime(b, t) {
      // then b holds `max` newer buckets, all of which a must hold beside t
      forall y | y in b
        ensures HasTime(a, y.ts)
      {
        assert y.ts in Times(es);
        var f :| f in es && f.ts == y.ts;
      }
      MoreTimes(a, b, t);
    }
  }

  function TimeSet(bs: seq<Bucket>): set<int> {
    set b | b in bs :: b.ts
  }

  lemma {:induction false} TimeSetSize(bs: seq<Bucket>)
    requires StrictlySorted(bs)
    ensures |TimeSet(bs)| == |bs|
  {
    if bs != [] {
      var init, last := bs[..|bs| - 1], bs[|bs| - 1];
      TimeSetSize(init);
      assert last.ts !in TimeSet(init);
      assert bs == init + [last];
      assert TimeSet(bs) == TimeSet(init) + {last.ts};
    }
  }

  lemma MoreTimes(a: seq<Bucket>, b: seq<Bucket>, t: int)
    requires StrictlySorted(a) && StrictlySorted(b)
    requires HasTime(a, t) && !HasTime(b, t)
    requires forall y <- b :: HasTime(a, y.ts)
    ensures |a| > |b|
  {
    TimeSetSize(a);
    TimeSetSize(b);
    assert TimeSet(b) + {t} <= TimeSet(a) by {
      forall u | u in TimeSet(b) + {t}
        ensures u in TimeSet(a)
      {
        if u == t {
          var x :| x in a && x.ts == t;
        } else {
          var y :| y in b && y.ts == u;
          var z :| z in a && z.ts == u;
        }
      }
    }
    assert t !in TimeSet(b);
    SubsetSize(TimeSet(b) + {t}, TimeSet(a));
  }

  lemma SubsetSize(a: set<int>, b: set<int>)
    requires a <= b
    ensures |a| <= |b|
  {
    assert b == a + (b - a);
  }

  lemma {:induction false} SameTimesSameList(a: seq<Bucket>, b: seq<Bucket>, es: seq<Timed>)
    requires StrictlySorted(a) && StrictlySorted(b)
    requires forall x <- a :: x == BucketOf(es, x.ts)
    requires forall x <- b :: x == BucketOf(es, x.ts)
    requires forall t :: HasTime(a, t) <==> HasTime(b, t)
    ensures a == b
  {
    hide BucketOf, StrictlySorted;
    if a == [] {
      FirstHasTime(b);
    } else {
      SameLastTime(a, b);
      var p, q := a[..|a| - 1], b[..|b| - 1];
      assert a == p + [a[|a| - 1]] && b == q + [b[|b| - 1]];
      assert a[|a| - 1] in a && b[|b| - 1] in b;
      LastDropped(a);
      LastDropped(b);
      forall t
        ensures HasTime(p, t) <==> HasTime(q, t)
      {
        assert HasTime(a, t) <==> HasTime(b, t);
      }
      forall x | x in p
        ensures x == BucketOf(es, x.ts)
      {
        assert x in a;
      }
      forall x | x in q
        ensures x == BucketOf(es, x.ts)
      {
        assert x in b;
      }
      SameTimesSameList(p, q, es);
    }
  }

  lemma FirstHasTime(bs: seq<Bucket>)
    ensures bs != [] ==> HasTime(bs, bs[0].ts)
  {
    if bs != [] {
      assert bs[0] in bs;
    }
  }

  lemma SameLastTime(a: seq<Bucket>, b: seq<Bucket>)
    requires StrictlySorted(a) && StrictlySorted(b) && a != []
    requires forall t :: HasTime(a, t) <==> HasTime(b, t)
    ensures b != [] && a[|a| - 1].ts == b[|b| - 1].ts
  {
    assert a[|a| - 1] in a && HasTime(a, a[|a| - 1].ts);
    var y :| y in b && y.ts == a[|a| - 1].ts;
    assert b[|b| - 1] in b && HasTime(b, b[|b| - 1].ts);
    var x :| x in a && x.ts == b[|b| - 1].ts;
  }

  lemma LastDropped(a: seq<Bucket>)
    requires a != [] && StrictlySorted(a)
    ensures StrictlySorted(a[..|a| - 1])
    ensures forall t :: HasTime(a[..|a| - 1], t) <==> HasTime(a, t) && t != a[|a| - 1].ts
  {
    var p := a[..|a| - 1];
    assert a == p + [a[|a| - 1]];
    forall t
      ensures HasTime(p, t) <==> HasTime(a, t) && t != a[|a| - 1].ts
    {
      if HasTime(p, t) {
        var x :| x in p && x.ts == t;
        assert x in a;
      }
    }
  }

  // ----- Online insertion -----

  function InsertByTime(b: Bucket, bs: seq<Bucket>): seq<Bucket> {
    if bs == [] || bs[|bs| - 1].ts <= b.ts then bs + [b]
    else InsertByTime(b, bs[..|bs| - 1]) + [bs[|bs| - 1]]
  }

  /** `buckets.sort_by_key`: a stable sort by time. */
  function SortByTime(bs: seq<Bucket>): seq<Bucket> {
    if bs == [] then [] else InsertByTime(bs[|bs| - 1], SortByTime(bs[..|bs| - 1]))
  }

  lemma {:induction false} SortByTimeSorted(bs: seq<Bucket>)
    requires StrictlySorted(bs)
    ensures SortByTime(bs) == bs
  {
    if bs != [] {
      var init, last := bs[..|bs| - 1], bs[|bs| - 1];
      SortByTimeSorted(init);
      LatestInsertedLast(init, last);
      assert bs == init + [last];
    }
  }

  lemma LatestInsertedLast(init: seq<Bucket>, last: Bucket)
    requires init != [] ==> init[|init| - 1].ts < last.ts
    ensures InsertByTime(last, init) == init + [last]
  {
  }

  lemma {:induction false} InsertByTimeSpec(b: Bucket, bs: seq<Bucket>)
    requires StrictlySorted(bs) && !HasTime(bs, b.ts)
    ensures var r := InsertByTime(b, bs);
            && StrictlySorted(r) && |r| == |bs| + 1
            && forall x :: x in r <==> x == b || x in bs
  {
    if !(bs == [] || bs[|bs| - 1].ts <= b.ts) {
      var init, last := bs[..|bs| - 1], bs[|bs| - 1];
      LastDropped(bs);
      InsertByTimeSpec(b, init);
      assert bs == init + [last];
      var r := InsertByTime(b, init);
      forall i | 0 <= i < |r|
        ensures r[i].ts < last.ts
      {
        assert r[i] in r;
        if r[i] != b {
          assert r[i] in init;
        }
      }
    } else if bs != [] {
      assert bs[|bs| - 1] in bs;
    }
  }

  /** The effect of one record on the buckets. */
  function Upserted(bs: seq<Bucket>, ts: int, rec: UsageRecord, max: nat): seq<Bucket> {
    if HasTime(bs, ts) then
      seq(|bs|, i requires 0 <= i < |bs| => if bs[i].ts == ts then AddTo(bs[i], rec) else bs[i])
    else
      var grown := InsertByTime(AddTo(EmptyBucket(ts), rec), bs);
      if |grown| <= max then grown else grown[|grown| - max..]
  }

  lemma UpdatedAt(bs: seq<Bucket>, i: nat, ts: int, rec: UsageRecord, max: nat)
    requires StrictlySorted(bs) && i < |bs| && bs[i].ts == ts
    ensures bs[i := AddTo(bs[i], rec)] == Upserted(bs, ts, rec, max)
  {
    assert bs[i] in bs && HasTime(bs, ts);
  }

  lemma SortAppended(bs: seq<Bucket>, b: Bucket)
    requires StrictlySorted(bs)
    ensures SortByTime(bs + [b]) == InsertByTime(b, bs)
  {
    SortByTimeSorted(bs);
    assert (bs + [b])[..|bs|] == bs;
  }

  /** Finds the bucket of the record or inserts one, sorts, and drops the oldest over capacity. */
  method UpsertBucket(bs: seq<Bucket>, ts: int, rec: UsageRecord, max: nat) returns (r: seq<Bucket>)
    requires StrictlySorted(bs)
    ensures r == Upserted(bs, ts, rec, max)
  {
    var i := 0;
    while i < |bs| && bs[i].ts != ts
      invariant 0 <= i <= |bs|
      invariant forall j | 0 <= j < i :: bs[j].ts != ts
    {
      i := i + 1;
    }
    if i < |bs| {
      UpdatedAt(bs, i, ts, rec, max);
      return bs[i := AddTo(bs[i], rec)];
    }
    var entry := AddTo(EmptyBucket(ts), rec);
    SortAppended(bs, entry);
    r := SortByTime(bs + [entry]);
    r := DropOldest(r, max);
  }

  method DropOldest(bs: seq<Bucket>, max: nat) returns (r: seq<Bucket>)
    ensures r == if |bs| <= max then bs else bs[|bs| - max..]
  {
    r := bs;
    while |r| > max
      invariant |r| <= |bs| && r == bs[|bs| - |r|..]
      invariant |bs| > max ==> |r| >= max
      invariant |bs| <= max ==> |r| == |bs|
    {
      r := r[1..];
    }
  }

  // ----- The online result is the offline one -----

  lemma TotalSnoc(es: seq<Timed>, e: Timed, g: Group)
    ensures Total(es + [e], g) == if Matches(g, e) then Total(es, g).Add(e.rec) else Total(es, g)
  {
    hide BucketStats.Add, BucketStats.Plus;
    assert (es + [e])[..|es|] == es;
  }

  lemma ModelsSnoc(es: seq<Timed>, e: Timed, ts: int)
    ensures Models(es + [e], ts) == Models(es, ts) + if e.ts == ts then {e.rec.model} else {}
    ensures Credentials(es + [e], ts) ==
            Credentials(es, ts) + if e.ts == ts && e.rec.credentialId != 0 then {e.rec.credentialId} else {}
    ensures Times(es + [e]) == Times(es) + {e.ts}
  {
    assert forall x :: x in es + [e] <==> x in es || x == e;
    if e.ts == ts {
      assert e in es + [e];
    }
    assert e in es + [e];
  }

  lemma {:induction false} NoneMatch(es: seq<Timed>, g: Group)
    requires forall e <- es :: !Matches(g, e)
    ensures Total(es, g) == ZERO
  {
    if es != [] {
      assert es[|es| - 1] in es;
      NoneMatch(es[..|es| - 1], g);
    }
  }

  lemma BucketSnoc(es: seq<Timed>, e: Timed, ts: int)
    ensures BucketOf(es + [e], ts) ==
            if e.ts == ts then AddTo(BucketOf(es, ts), e.rec) else BucketOf(es, ts)
  {
    TotalSnoc(es, e, AllAt(ts));
    ModelPartSnoc(es, e, ts);
    CredentialPartSnoc(es, e, ts);
  }

  /** The statistics a map has for a key, zero if it has none. */
  function At<K>(m: map<K, BucketStats>, k: K): BucketStats {
    if k in m then m[k] else ZERO
  }

  lemma ModelAtKey(es: seq<Timed>, ts: int, m: string)
    ensures At(BucketOf(es, ts).byModel, m) == Total(es, ModelAt(ts, m))
  {
    if m !in Models(es, ts) {
      NoneMatch(es, ModelAt(ts, m));
    }
  }

  lemma CredentialAtKey(es: seq<Timed>, ts: int, c: nat)
    requires c != 0
    ensures At(BucketOf(es, ts).byCredential, c) == Total(es, CredentialAt(ts, c))
  {
    if c !in Credentials(es, ts) {
      NoneMatch(es, CredentialAt(ts, c));
    }
  }

  lemma SameMap<K>(a: map<K, BucketStats>, b: map<K, BucketStats>)
    requires a.Keys == b.Keys && forall k <- a :: At(a, k) == At(b, k)
    ensures a == b
  {
    forall k | k in a
      ensures a[k] == b[k]
    {
      assert At(a, k) == At(b, k);
    }
  }

  lemma AddAtKey<K>(m: map<K, BucketStats>, k: K, rec: UsageRecord, j: K)
    ensures At(AddAt(m, k, rec), j) == if j == k then At(m, k).Add(rec) else At(m, j)
  {
  }

  lemma ModelSnocAt(es: seq<Timed>, e: Timed, ts: int, m: string)
    ensures var before := At(BucketOf(es, ts).byModel, m);
            At(BucketOf(es + [e], ts).byModel, m) ==
            if e.ts == ts && e.rec.model == m then before.Add(e.rec) else before
  {
    hide BucketStats.Add, BucketStats.Plus;
    ModelAtKey(es, ts, m);
    ModelAtKey(es + [e], ts, m);
    TotalSnoc(es, e, ModelAt(ts, m));
  }

  lemma CredentialSnocAt(es: seq<Timed>, e: Timed, ts: int, c: nat)
    requires c != 0
    ensures var before := At(BucketOf(es, ts).byCredential, c);
            At(BucketOf(es + [e], ts).byCredential, c) ==
            if e.ts == ts && e.rec.credentialId == c then before.Add(e.rec) else before
  {
    hide BucketStats.Add, BucketStats.Plus;
    CredentialAtKey(es, ts, c);
    CredentialAtKey(es + [e], ts, c);
    TotalSnoc(es, e, CredentialAt(ts, c));
  }

  lemma ModelPartSnoc(es: seq<Timed>, e: Timed, ts: int)
    ensures var before, after := BucketOf(es, ts).byModel, BucketOf(es + [e], ts).byModel;
            after == if e.ts == ts then AddAt(before, e.rec.model, e.rec) else before
  {
    hide BucketStats.Add;
    var before, after := BucketOf(es, ts).byModel, BucketOf(es + [e], ts).byModel;
    var added := if e.ts == ts then AddAt(before, e.rec.model, e.rec) else before;
    ModelsSnoc(es, e, ts);
    forall m | m in after
      ensures At(after, m) == At(added, m)
    {
      ModelSnocAt(es, e, ts, m);
      AddAtKey(before, e.rec.model, e.rec, m);
    }
    SameMap(after, added);
  }

  lemma CredentialKeysSnoc(es: seq<Timed>, e: Timed, ts: int)
    ensures BucketOf(es + [e], ts).byCredential.Keys ==
            BucketOf(es, ts).byCredential.Keys +
            if e.ts == ts && e.rec.credentialId != 0 then {e.rec.credentialId} else {}
    ensures 0 !in BucketOf(es + [e], ts).byCredential
  {
    ModelsSnoc(es, e, ts);
  }

  lemma CredentialPartSnoc(es: seq<Timed>, e: Timed, ts: int)
    ensures var before, after := BucketOf(es, ts).byCredential, BucketOf(es + [e], ts).byCredential;
            after == if e.ts == ts && e.rec.credentialId != 0 then AddAt(before, e.rec.credentialId, e.rec) else before
  {
    hide BucketOf, BucketStats.Add;
    var before, after := BucketOf(es, ts).byCredential, BucketOf(es + [e], ts).byCredential;
    var id := e.rec.credentialId;
    var added := if e.ts == ts && id != 0 then AddAt(before, id, e.rec) else before;
    CredentialKeysSnoc(es, e, ts);
    forall c | c in after
      ensures At(after, c) == At(added, c)
    {
      CredentialSnocAt(es, e, ts, c);
      AddAtKey(before, id, e.rec, c);
    }
    SameMap(after, added);
  }

  lemma NewBucket(es: seq<Timed>, ts: int)
    requires ts !in Times(es)
    ensures BucketOf(es, ts) == EmptyBucket(ts)
  {
    assert forall e <- es :: e.ts in Times(es);
    NoneMatch(es, AllAt(ts));
    assert Models(es, ts) == {} && Credentials(es, ts) == {};
  }

  lemma UpdateAggregates(bs: seq<Bucket>, es: seq<Timed>, max: nat, e: Timed)
    requires Aggregates(bs, es, max) && HasTime(bs, e.ts)
    ensures Aggregates(Upserted(bs, e.ts, e.rec, max), es + [e], max)
  {
    hide BucketOf;
    var r, all := Upserted(bs, e.ts, e.rec, max), es + [e];
    ModelsSnoc(es, e, e.ts);
    forall i | 0 <= i < |r|
      ensures r[i].ts == bs[i].ts && r[i] == BucketOf(all, r[i].ts) && r[i].ts in Times(all)
    {
      assert bs[i] in bs;
      BucketSnoc(es, e, bs[i].ts);
    }
    forall t | HasTime(bs, t)
      ensures HasTime(r, t)
    {
      var b :| b in bs && b.ts == t;
      var i :| 0 <= i < |bs| && bs[i] == b;
      assert r[i] in r;
    }
    forall x | x in all
      ensures HasTime(r, x.ts) || (|r| == max && forall b <- r :: x.ts < b.ts)
    {
      if !HasTime(r, x.ts) {
        assert x in es;
        OlderThanUpdated(bs, r, x.ts);
      }
    }
  }

  lemma OlderThanUpdated(bs: seq<Bucket>, r: seq<Bucket>, t: int)
    requires |r| == |bs| && (forall i | 0 <= i < |r| :: r[i].ts == bs[i].ts) && forall b <- bs :: t < b.ts
    ensures forall b <- r :: t < b.ts
  {
    forall b | b in r
      ensures t < b.ts
    {
      var i :| 0 <= i < |r| && r[i] == b;
      assert bs[i] in bs;
    }
  }

  lemma InsertAggregates(bs: seq<Bucket>, es: seq<Timed>, max: nat, e: Timed)
    requires Aggregates(bs, es, max) && !HasTime(bs, e.ts)
    ensures Aggregates(Upserted(bs, e.ts, e.rec, max), es + [e], max)
  {
    hide BucketOf;
    var b, all := AddTo(EmptyBucket(e.ts), e.rec), es + [e];
    var grown := InsertByTime(b, bs);
    var r := Upserted(bs, e.ts, e.rec, max);
    InsertByTimeSpec(b, bs);
    ModelsSnoc(es, e, e.ts);
    var late := e.ts in Times(es);
    if late {
      // an evicted time came back: it is older than everything kept and is dropped again
      var f :| f in es && f.ts == e.ts;
      assert |bs| == max && forall x <- bs :: e.ts < x.ts;
    } else {
      NewBucket(es, e.ts);
      BucketSnoc(es, e, e.ts);
    }
    forall x | x in bs
      ensures x == BucketOf(all, x.ts)
    {
      BucketSnoc(es, e, x.ts);
    }
    assert forall i | 0 <= i < |grown| :: grown[i] in grown;
    if |grown| <= max {
      GrownWithinMax(bs, es, max, e, grown);
    } else {
      assert |grown| == max + 1 && r == grown[1..];
      OldestDropped(bs, es, max, e, grown, late);
    }
  }

  lemma GrownWithinMax(bs: seq<Bucket>, es: seq<Timed>, max: nat, e: Timed, grown: seq<Bucket>)
    requires Aggregates(bs, es, max) && |grown| == |bs| + 1 <= max
    requires StrictlySorted(grown)
    requires forall x :: x in grown <==> x == BucketOf(es + [e], e.ts) || x in bs
    requires forall x <- bs :: x == BucketOf(es + [e], x.ts)
    ensures Aggregates(grown, es + [e], max)
  {
    ModelsSnoc(es, e, e.ts);
    forall x | x in es + [e]
      ensures HasTime(grown, x.ts)
    {
      if x == e {
        assert BucketOf(es + [e], e.ts) in grown;
      } else {
        assert HasTime(bs, x.ts);
        var y :| y in bs && y.ts == x.ts;
        assert y in grown;
      }
    }
  }

  /** What is left when the oldest of the grown list is dropped. */
  lemma KeptAfterDrop(bs: seq<Bucket>, b: Bucket, grown: seq<Bucket>)
    requires StrictlySorted(grown) && grown != [] && b in grown
    requires forall x :: x in grown <==> x == b || x in bs
    ensures StrictlySorted(grown[1..])
    ensures forall x <- grown[1..] :: (x == b || x in bs) && grown[0].ts < x.ts
    ensures forall x <- grown :: x == grown[0] || x in grown[1..]
  {
    assert grown == [grown[0]] + grown[1..];
    assert forall x <- grown[1..] :: x in grown;
  }

  lemma OldestDropped(bs: seq<Bucket>, es: seq<Timed>, max: nat, e: Timed, grown: seq<Bucket>, late: bool)
    requires Aggregates(bs, es, max) && |bs| == max && |grown| == max + 1
    requires StrictlySorted(grown)
    requires forall x :: x in grown <==> x == AddTo(EmptyBucket(e.ts), e.rec) || x in bs
    requires late ==> forall x <- bs :: e.ts < x.ts
    requires !late ==> AddTo(EmptyBucket(e.ts), e.rec) == BucketOf(es + [e], e.ts)
    requires forall x <- bs :: x == BucketOf(es + [e], x.ts)
    ensures Aggregates(grown[1..], es + [e], max)
  {
    var r, b := grown[1..], AddTo(EmptyBucket(e.ts), e.rec);
    ModelsSnoc(es, e, e.ts);
    KeptAfterDrop(bs, b, grown);
    assert grown[0] in grown && b in grown;
    assert late ==> b == grown[0];
    DroppedAreOlder(bs, es, max, e, grown);
  }

  lemma DroppedAreOlder(bs: seq<Bucket>, es: seq<Timed>, max: nat, e: Timed, grown: seq<Bucket>)
    requires Aggregates(bs, es, max) && |bs| == max && |grown| == max + 1
    requires StrictlySorted(grown)
    requires forall x :: x in grown <==> x == AddTo(EmptyBucket(e.ts), e.rec) || x in bs
    ensures forall x <- es + [e] :: HasTime(grown[1..], x.ts) || forall y <- grown[1..] :: x.ts < y.ts
  {
    var b := AddTo(EmptyBucket(e.ts), e.rec);
    KeptAfterDrop(bs, b, grown);
    forall x | x in es + [e]
      ensures HasTime(grown[1..], x.ts) || forall y <- grown[1..] :: x.ts < y.ts
    {
      if x != e && HasTime(bs, x.ts) {
        var y :| y in bs && y.ts == x.ts;
        assert y in grown;
      } else if x != e {
        OlderThanAll(bs, grown, x.ts, e);
      } else {
        assert b in grown;
      }
    }
  }

  lemma OlderThanAll(bs: seq<Bucket>, grown: seq<Bucket>, t: int, e: Timed)
    requires StrictlySorted(bs) && StrictlySorted(grown) && |grown| == |bs| + 1
    requires forall x :: x in grown <==> x == AddTo(EmptyBucket(e.ts), e.rec) || x in bs
    requires forall b <- bs :: t < b.ts
    ensures (exists b <- grown[1..] :: b.ts == t) || forall b <- grown[1..] :: t < b.ts
  {
    forall b | b in grown[1..]
      ensures t < b.ts
    {
      assert b in grown && grown[0] in grown && grown[0].ts < b.ts;
      if b !in bs {
        assert grown[0] in bs;
      }
    }
  }

  lemma UpsertAggregates(bs: seq<Bucket>, es: seq<Timed>, max: nat, e: Timed)
    requires Aggregates(bs, es, max)
    ensures Aggregates(Upserted(bs, e.ts, e.rec, max), es + [e], max)
  {
    if HasTime(bs, e.ts) {
      UpdateAggregates(bs, es, max, e);
    } else {
      InsertAggregates(bs, es, max, e);
    }
  }

  /** One record more, online and offline. */
  lemma UpsertIsOffline(es: seq<Timed>, max: nat, e: Timed)
    ensures StrictlySorted(Offline(es, max))
    ensures Upserted(Offline(es, max), e.ts, e.rec, max) == Offline(es + [e], max)
  {
    OfflineAggregates(es, max);
    UpsertAggregates(Offline(es, max), es, max, e);
    OfflineAggregates(es + [e], max);
    AggregatesUnique(Upserted(Offline(es, max), e.ts, e.rec, max), Offline(es + [e], max), es + [e], max);
  }

  // ----- Arrival order does not matter -----

  lemma {:induction false} TotalAppend(a: seq<Timed>, b: seq<Timed>, g: Group)
    ensures Total(a + b, g) == Total(a, g).Plus(Total(b, g))
    decreases |b|
  {
    hide BucketStats.Add, BucketStats.Plus;
    if b == [] {
      assert a + b == a;
      PlusZero(Total(a, g));
    } else {
      var init, last := b[..|b| - 1], b[|b| - 1];
      TotalAppend(a, init, g);
      assert a + b == (a + init) + [last] && b == init + [last];
      TotalSnoc(a + init, last, g);
      TotalSnoc(init, last, g);
      AddPlus(Total(a, g), Total(init, g), last.rec);
    }
  }

  lemma TotalMoved(x: seq<Timed>, e: Timed, y: seq<Timed>, g: Group)
    ensures Total(x + [e] + y, g) == Total(x + y + [e], g)
  {
    hide BucketStats.Add, BucketStats.Plus;
    TotalAppend(x + [e], y, g);
    TotalAppend(x, y, g);
    TotalSnoc(x, e, g);
    TotalSnoc(x + y, e, g);
    AddPlus(Total(x, g), Total(y, g), e.rec);
  }

  lemma RemoveOne<T>(init: seq<T>, x: seq<T>, e: T, y: seq<T>)
    requires multiset(init + [e]) == multiset(x + [e] + y)
    ensures multiset(init) == multiset(x + y)
  {
    assert multiset(init + [e]) == multiset(init) + multiset{e};
    assert multiset(x + [e] + y) == multiset(x) + multiset{e} + multiset(y);
    assert multiset(x + y) == multiset(x) + multiset(y);
    assert multiset(init) == multiset(init + [e]) - multiset{e};
  }

  lemma {:induction false} TotalIgnoresOrder(a: seq<Timed>, b: seq<Timed>, g: Group)
    requires multiset(a) == multiset(b)
    ensures Total(a, g) == Total(b, g)
    decreases |a|
  {
    hide BucketStats.Add, BucketStats.Plus;
    if a == [] {
      assert |multiset(b)| == 0;
    } else {
      var init, last := a[..|a| - 1], a[|a| - 1];
      assert a == init + [last];
      assert last in multiset(b);
      var i :| 0 <= i < |b| && b[i] == last;
      var x, y := b[..i], b[i + 1..];
      assert b == x + [last] + y;
      RemoveOne(init, x, last, y);
      TotalIgnoresOrder(init, x + y, g);
      TotalMoved(x, last, y, g);
      TotalSnoc(x + y, last, g);
      TotalSnoc(init, last, g);
    }
  }

  lemma SameElements(a: seq<Timed>, b: seq<Timed>)
    requires multiset(a) == multiset(b)
    ensures forall e :: e in a <==> e in b
  {
    forall e
      ensures e in a <==> e in b
    {
      assert e in a <==> e in multiset(a);
      assert e in b <==> e in multiset(b);
    }
  }

  lemma SameKeys(a: seq<Timed>, b: seq<Timed>, ts: int)
    requires forall e :: e in a <==> e in b
    ensures Models(a, ts) == Models(b, ts) && Credentials(a, ts) == Credentials(b, ts) && Times(a) == Times(b)
  {
  }

  lemma BucketIgnoresOrder(a: seq<Timed>, b: seq<Timed>, ts: int)
    requires multiset(a) == multiset(b)
    ensures BucketOf(a, ts) == BucketOf(b, ts)
  {
    hide BucketStats.Add, BucketStats.Plus;
    SameElements(a, b);
    SameKeys(a, b, ts);
    forall g
      ensures Total(a, g) == Total(b, g)
    {
      TotalIgnoresOrder(a, b, g);
    }
    assert BucketOf(a, ts).byModel == BucketOf(b, ts).byModel;
    assert BucketOf(a, ts).byCredential == BucketOf(b, ts).byCredential;
  }

  /** Replaying the same records in any order gives the same buckets. */
  lemma OfflineIgnoresOrder(a: seq<Timed>, b: seq<Timed>, max: nat)
    requires multiset(a) == multiset(b)
    ensures Offline(a, max) == Offline(b, max)
  {
    SameElements(a, b);
    SameKeys(a, b, 0);
    forall ts
      ensures BucketOf(a, ts) == BucketOf(b, ts)
    {
      BucketIgnoresOrder(a, b, ts);
    }
  }

  // ----- Conservation inside a bucket -----

  /** The sum over a map of statistics. */
  ghost function MapTotal<K>(m: map<K, BucketStats>): BucketStats
    decreases |m|
  {
    if m.Keys == {} then ZERO
    else
      var k :| k in m.Keys;
      assert |m - {k}| < |m| by {
        assert m.Keys == (m - {k}).Keys + {k};
      }
      MapTotal(m - {k}).Plus(m[k])
  }

  lemma MapTotalPick<K>(m: map<K, BucketStats>) returns (k: K)
    requires m.Keys != {}
    ensures k in m && MapTotal(m) == MapTotal(m - {k}).Plus(m[k])
  {
    k :| k in m.Keys && MapTotal(m) == MapTotal(m - {k}).Plus(m[k]);
  }

  lemma FewerKeys<K>(m: map<K, BucketStats>, k: K)
    requires k in m
    ensures |m - {k}| < |m|
  {
    assert m.Keys == (m - {k}).Keys + {k};
  }

  lemma InEitherOrder<K>(m: map<K, BucketStats>, j: K, k: K)
    requires j in m && k in m && j != k
    ensures (m - {j}) - {k} == (m - {k}) - {j}
    ensures k in m - {j} && (m - {j})[k] == m[k] && j in m - {k} && (m - {k})[j] == m[j]
  {
  }

  lemma {:induction false} MapTotalWithout<K>(m: map<K, BucketStats>, k: K)
    requires k in m
    ensures MapTotal(m) == MapTotal(m - {k}).Plus(m[k])
    decreases |m|
  {
    var j := MapTotalPick(m);
    if j != k {
      FewerKeys(m, j);
      FewerKeys(m, k);
      InEitherOrder(m, j, k);
      MapTotalWithout(m - {j}, k);
      MapTotalWithout(m - {k}, j);
      PlusSwap(MapTotal(m - {j} - {k}), m[k], m[j]);
    }
  }

  lemma MapTotalAdd<K>(m: map<K, BucketStats>, k: K, rec: UsageRecord)
    ensures MapTotal(AddAt(m, k, rec)) == MapTotal(m).Add(rec)
  {
    hide MapTotal;
    var m' := AddAt(m, k, rec);
    MapTotalWithout(m', k);
    if k in m {
      MapTotalWithout(m, k);
      assert m' - {k} == m - {k};
    } else {
      assert m' - {k} == m;
    }
  }

  /** Per bucket, the models sum to the overall statistics, and the credentials to the part of
      it that reached a credential. */
  lemma {:induction false} BucketConserves(es: seq<Timed>, ts: int)
    ensures MapTotal(BucketOf(es, ts).byModel) == BucketOf(es, ts).overall
    ensures MapTotal(BucketOf(es, ts).byCredential) == Total(es, NamedCredentialAt(ts))
    decreases |es|
  {
    hide BucketStats.Add, BucketStats.Plus;
    if es == [] {
      assert Models(es, ts) == {} && Credentials(es, ts) == {};
    } else {
      var init, e := es[..|es| - 1], es[|es| - 1];
      assert es == init + [e];
      BucketConserves(init, ts);
      BucketSnoc(init, e, ts);
      TotalSnoc(init, e, NamedCredentialAt(ts));
      if e.ts == ts {
        MapTotalAdd(BucketOf(init, ts).byModel, e.rec.model, e.rec);
        MapTotalAdd(BucketOf(init, ts).byCredential, e.rec.credentialId, e.rec);
      }
    }
  }
}
