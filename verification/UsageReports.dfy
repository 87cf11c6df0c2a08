/** The usage aggregator: ingesting, replaying the log files, and the reports over a window
    (`UsageAggregator`). */
module UsageReports {
  import opened Basics
  import opened UsageStats

  const RETENTION_DAYS := 31

  /** One usage record with the hour and the day it falls into, in local time. */
  datatype Ingested = Ingested(hourTs: int, dayTs: int, rec: UsageRecord)

  function Hourly(es: seq<Ingested>): seq<Timed> {
    seq(|es|, i requires 0 <= i < |es| => Timed(es[i].hourTs, es[i].rec))
  }

  function Daily(es: seq<Ingested>): seq<Timed> {
    seq(|es|, i requires 0 <= i < |es| => Timed(es[i].dayTs, es[i].rec))
  }

  lemma TimedSnoc(es: seq<Ingested>, e: Ingested)
    ensures Hourly(es + [e]) == Hourly(es) + [Timed(e.hourTs, e.rec)]
    ensures Daily(es + [e]) == Daily(es) + [Timed(e.dayTs, e.rec)]
  {
  }

  // ----- Log files -----

  /** The records of one day's log; days are counted. */
  datatype LogFile = LogFile(date: int, records: seq<Ingested>)

  /** The files not older than `cutoff`. */
  function Kept(files: seq<LogFile>, cutoff: int): seq<LogFile> {
    if files == [] then []
    else
      var last := files[|files| - 1];
      Kept(files[..|files| - 1], cutoff) + if last.date < cutoff then [] else [last]
  }

  lemma KeptSnoc(files: seq<LogFile>, i: nat, cutoff: int)
    requires i < |files|
    ensures Kept(files[..i + 1], cutoff) ==
            if files[i].date < cutoff then Kept(files[..i], cutoff) else Kept(files[..i], cutoff) + [files[i]]
  {
    assert files[..i + 1][..i] == files[..i];
  }

  function Flatten(files: seq<LogFile>): seq<Ingested> {
    if files == [] then [] else Flatten(files[..|files| - 1]) + files[|files| - 1].records
  }

  lemma FlattenSnoc(files: seq<LogFile>, file: LogFile)
    ensures Flatten(files + [file]) == Flatten(files) + file.records
  {
    assert (files + [file])[..|files|] == files;
  }

  /** The records that a restart replays. */
  function Rebuilt(files: seq<LogFile>, cutoff: int): seq<Ingested> {
    Flatten(Kept(files, cutoff))
  }

  lemma RebuiltSnoc(files: seq<LogFile>, i: nat, cutoff: int, seen: seq<Ingested>)
    requires i < |files|
    ensures seen + Rebuilt(files[..i + 1], cutoff) ==
            seen + Rebuilt(files[..i], cutoff) + if files[i].date < cutoff then [] else files[i].records
  {
    KeptSnoc(files, i, cutoff);
    FlattenSnoc(Kept(files[..i], cutoff), files[i]);
    if files[i].date < cutoff {
      assert seen + Rebuilt(files[..i], cutoff) + [] == seen + Rebuilt(files[..i], cutoff);
    } else {
      Assoc(seen, Rebuilt(files[..i], cutoff), files[i].records);
    }
  }

  // ----- Reports -----

  function Since(bs: seq<Bucket>, cutoff: int): seq<Bucket> {
    if bs == [] then [] else
      Since(bs[..|bs| - 1], cutoff) + if bs[|bs| - 1].ts >= cutoff then [bs[|bs| - 1]] else []
  }

  /** The figures a report shows; errors only per credential. */
  function Figures(s: BucketStats, errors: bool): BucketStats {
    BucketStats(s.inputTokens, s.outputTokens, 0, 0, s.calls, if errors then s.errors else 0, 0.0)
  }

  function Shown<K>(m: map<K, BucketStats>, errors: bool): map<K, BucketStats> {
    map k | k in m :: Figures(m[k], errors)
  }

  function ModelMaps(bs: seq<Bucket>): seq<map<string, BucketStats>> {
    seq(|bs|, i requires 0 <= i < |bs| => Shown(bs[i].byModel, false))
  }

  function CredentialMaps(bs: seq<Bucket>): seq<map<nat, BucketStats>> {
    seq(|bs|, i requires 0 <= i < |bs| => Shown(bs[i].byCredential, true))
  }

  datatype Entry<K> = Entry(key: K, stats: BucketStats)

  /** The entries of a map, each once, in some order. */
  predicate Lists<K(!new)>(entries: seq<Entry<K>>, m: map<K, BucketStats>) {
    && (forall e <- entries :: e.key in m && e.stats == m[e.key])
    && (forall k <- m :: Entry(k, m[k]) in entries)
    && (forall i, j | 0 <= i < j < |entries| :: entries[i].key != entries[j].key)
  }

  predicate ByCalls<K>(entries: seq<Entry<K>>) {
    forall i, j | 0 <= i < j < |entries| :: entries[i].stats.calls >= entries[j].stats.calls
  }

  /** Two maps added key by key. */
  function AddMaps<K>(a: map<K, BucketStats>, b: map<K, BucketStats>): map<K, BucketStats> {
    map k | k in a.Keys + b.Keys ::
      (if k in a then a[k] else ZERO).Plus(if k in b then b[k] else ZERO)
  }

  function SumMaps<K>(ms: seq<map<K, BucketStats>>): map<K, BucketStats> {
    if ms == [] then map[] else AddMaps(SumMaps(ms[..|ms| - 1]), ms[|ms| - 1])
  }

  function Restricted<K>(m: map<K, BucketStats>, ks: set<K>): map<K, BucketStats> {
    map k | k in m && k in ks :: m[k]
  }

  lemma AddMapsStep<K>(a: map<K, BucketStats>, m: map<K, BucketStats>, ks: set<K>, k: K)
    requires k in m && k !in ks
    ensures var part := AddMaps(a, Restricted(m, ks));
            AddMaps(a, Restricted(m, ks + {k})) == part[k := (if k in part then part[k] else ZERO).Plus(m[k])]
  {
    hide BucketStats.Plus;
    var part, whole := AddMaps(a, Restricted(m, ks)), AddMaps(a, Restricted(m, ks + {k}));
    forall j | j in whole
      ensures whole[j] == if j == k then (if k in part then part[k] else ZERO).Plus(m[k]) else part[j]
    {
      if j == k && k in a {
        PlusZero(a[k]);
      }
    }
    assert whole.Keys == part.Keys + {k};
  }

  /** Adds the entries of a map, visited in arbitrary order. */
  method AddEntries<K(==)>(start: map<K, BucketStats>, m: map<K, BucketStats>) returns (acc: map<K, BucketStats>)
    ensures acc == AddMaps(start, m)
  {
    acc := start;
    var rest := m.Keys;
    AddNothing(start, m);
    while rest != {}
      invariant rest <= m.Keys
      invariant acc == AddMaps(start, Restricted(m, m.Keys - rest))
    {
      var k :| k in rest;
      AddMapsStep(start, m, m.Keys - rest, k);
      assert m.Keys - (rest - {k}) == m.Keys - rest + {k};
      acc := acc[k := (if k in acc then acc[k] else ZERO).Plus(m[k])];
      rest := rest - {k};
    }
    assert Restricted(m, m.Keys - rest) == m;
  }

  lemma AddNothing<K>(a: map<K, BucketStats>, m: map<K, BucketStats>)
    ensures AddMaps(a, map[]) == a
    ensures Restricted(m, m.Keys - m.Keys) == map[]
  {
    forall k | k in a
      ensures AddMaps(a, map[])[k] == a[k]
    {
      PlusZero(a[k]);
    }
  }

  method SumOfMaps<K(==)>(ms: seq<map<K, BucketStats>>) returns (acc: map<K, BucketStats>)
    ensures acc == SumMaps(ms)
  {
    acc := map[];
    for i := 0 to |ms|
      invariant acc == SumMaps(ms[..i])
    {
      acc := AddEntries(acc, ms[i]);
      assert ms[..i + 1][..i] == ms[..i];
    }
    assert ms[..|ms|] == ms;
  }

  ghost function MapTotals<K>(ms: seq<map<K, BucketStats>>): seq<BucketStats> {
    seq(|ms|, i requires 0 <= i < |ms| => MapTotal(ms[i]))
  }

  lemma MapTotalsInit<K>(ms: seq<map<K, BucketStats>>)
    requires ms != []
    ensures MapTotals(ms) != [] && MapTotals(ms)[|ms| - 1] == MapTotal(ms[|ms| - 1])
    ensures MapTotals(ms)[..|MapTotals(ms)| - 1] == MapTotals(ms[..|ms| - 1])
  {
  }

  lemma {:induction false} SumMapsTotal<K>(ms: seq<map<K, BucketStats>>)
    ensures MapTotal(SumMaps(ms)) == SumStats(MapTotals(ms))
  {
    if ms != [] {
      var init := ms[..|ms| - 1];
      SumMapsTotal(init);
      AddMapsTotal(SumMaps(init), ms[|ms| - 1]);
      MapTotalsInit(ms);
    }
  }

  function SumStats(ss: seq<BucketStats>): BucketStats {
    if ss == [] then ZERO else SumStats(ss[..|ss| - 1]).Plus(ss[|ss| - 1])
  }

  lemma {:induction false} AddMapsTotal<K>(a: map<K, BucketStats>, b: map<K, BucketStats>)
    ensures MapTotal(AddMaps(a, b)) == MapTotal(a).Plus(MapTotal(b))
    decreases |b|
  {
    if b.Keys == {} {
      AddNothing(a, b);
      assert b == map[];
      PlusZero(MapTotal(a));
    } else {
      var k :| k in b.Keys;
      var rest := b - {k};
      assert b.Keys == rest.Keys + {k};
      AddMapsTotal(a, rest);
      MapTotalWithout(b, k);
      AddMapsMore(a, b, k);
      PlusSwap(MapTotal(a), MapTotal(rest), b[k]);
    }
  }

  lemma AddMapsMore<K>(a: map<K, BucketStats>, b: map<K, BucketStats>, k: K)
    requires k in b
    ensures MapTotal(AddMaps(a, b)) == MapTotal(AddMaps(a, b - {k})).Plus(b[k])
  {
    var rest := b - {k};
    assert Restricted(b, rest.Keys) == rest && Restricted(b, rest.Keys + {k}) == b;
    AddMapsStep(a, b, rest.Keys, k);
    MapTotalPlus(AddMaps(a, rest), k, b[k]);
  }

  lemma MapTotalPlus<K>(m: map<K, BucketStats>, k: K, s: BucketStats)
    ensures MapTotal(m[k := (if k in m then m[k] else ZERO).Plus(s)]) == MapTotal(m).Plus(s)
  {
    var m' := m[k := (if k in m then m[k] else ZERO).Plus(s)];
    MapTotalWithout(m', k);
    if k in m {
      MapTotalWithout(m, k);
      assert m' - {k} == m - {k};
      PlusSwap(MapTotal(m - {k}), m[k], s);
    } else {
      assert m' - {k} == m;
      PlusZero(s);
    }
  }

  // ----- Listing and sorting -----

  method ListEntries<K(!new, ==)>(m: map<K, BucketStats>) returns (entries: seq<Entry<K>>)
    ensures Lists(entries, m)
  {
    entries := [];
    var rest := m.Keys;
    while rest != {}
      invariant rest <= m.Keys
      invariant Lists(entries, Restricted(m, m.Keys - rest))
    {
      var k :| k in rest;
      ListsMore(entries, m, m.Keys - rest, k);
      assert m.Keys - (rest - {k}) == m.Keys - rest + {k};
      entries := entries + [Entry(k, m[k])];
      rest := rest - {k};
    }
    assert Restricted(m, m.Keys - rest) == m;
  }

  lemma ListsMore<K(!new)>(entries: seq<Entry<K>>, m: map<K, BucketStats>, ks: set<K>, k: K)
    requires Lists(entries, Restricted(m, ks)) && k in m && k !in ks
    ensures Lists(entries + [Entry(k, m[k])], Restricted(m, ks + {k}))
  {
    var all, whole := entries + [Entry(k, m[k])], Restricted(m, ks + {k});
    forall e | e in all
      ensures e.key in whole && e.stats == whole[e.key]
    {
    }
    forall j | j in whole
      ensures Entry(j, whole[j]) in all
    {
      if j == k {
        assert all[|entries|] == Entry(j, whole[j]);
      } else {
        assert j in Restricted(m, ks) && Entry(j, m[j]) in entries;
      }
    }
    forall i, j | 0 <= i < j < |all|
      ensures all[i].key != all[j].key
    {
      assert all[i] in entries;
    }
  }

  function InsertByCalls<K>(e: Entry<K>, es: seq<Entry<K>>): seq<Entry<K>> {
    if es == [] || es[|es| - 1].stats.calls >= e.stats.calls then es + [e]
    else InsertByCalls(e, es[..|es| - 1]) + [es[|es| - 1]]
  }

  /** `out.sort_by(|a, b| b.calls.cmp(&a.calls))`: a stable sort, most calls first. */
  function SortByCalls<K>(es: seq<Entry<K>>): seq<Entry<K>> {
    if es == [] then [] else InsertByCalls(es[|es| - 1], SortByCalls(es[..|es| - 1]))
  }

  lemma {:induction false} InsertByCallsSorts<K>(e: Entry<K>, es: seq<Entry<K>>)
    requires ByCalls(es)
    ensures ByCalls(InsertByCalls(e, es)) && multiset(InsertByCalls(e, es)) == multiset(es) + multiset{e}
    decreases |es|
  {
    if es == [] || es[|es| - 1].stats.calls >= e.stats.calls {
      LeastAppended(es, e);
    } else {
      hide ByCalls;
      var init, last := es[..|es| - 1], es[|es| - 1];
      assert es == init + [last];
      ByCallsInit(init, last);
      InsertByCallsSorts(e, init);
      LeastStaysLast(InsertByCalls(e, init), init, e, last);
    }
  }

  lemma LeastAppended<K>(es: seq<Entry<K>>, e: Entry<K>)
    requires ByCalls(es) && (es == [] || es[|es| - 1].stats.calls >= e.stats.calls)
    ensures ByCalls(es + [e])
  {
    var n := |es| - 1;
    forall i | 0 <= i < |es|
      ensures es[i].stats.calls >= e.stats.calls
    {
      assert i == n || es[i].stats.calls >= es[n].stats.calls;
    }
  }

  lemma ByCallsInit<K>(init: seq<Entry<K>>, last: Entry<K>)
    requires ByCalls(init + [last])
    ensures ByCalls(init)
  {
    forall i, j | 0 <= i < j < |init|
      ensures init[i].stats.calls >= init[j].stats.calls
    {
      assert (init + [last])[i] == init[i] && (init + [last])[j] == init[j];
    }
  }

  lemma LeastStaysLast<K>(r: seq<Entry<K>>, init: seq<Entry<K>>, e: Entry<K>, last: Entry<K>)
    requires ByCalls(r) && multiset(r) == multiset(init) + multiset{e}
    requires ByCalls(init + [last]) && last.stats.calls <= e.stats.calls
    ensures ByCalls(r + [last])
  {
    forall x | x in r
      ensures x.stats.calls >= last.stats.calls
    {
      assert x in multiset(r);
      if x != e {
        assert x in multiset(init);
        var i :| 0 <= i < |init| && init[i] == x;
        assert (init + [last])[i] == x && (init + [last])[|init|] == last;
      }
    }
  }

  lemma {:induction false} SortByCallsSorts<K>(es: seq<Entry<K>>)
    ensures ByCalls(SortByCalls(es)) && multiset(SortByCalls(es)) == multiset(es)
    decreases |es|
  {
    if es != [] {
      var init, last := es[..|es| - 1], es[|es| - 1];
      assert es == init + [last];
      SortByCallsSorts(init);
      InsertByCallsSorts(last, SortByCalls(init));
    }
  }

  lemma SortedStillLists<K(!new)>(a: seq<Entry<K>>, b: seq<Entry<K>>, m: map<K, BucketStats>)
    requires Lists(a, m) && multiset(a) == multiset(b)
    ensures Lists(b, m)
  {
    forall e
      ensures e in a <==> e in b
    {
      assert e in a <==> e in multiset(a);
      assert e in b <==> e in multiset(b);
    }
    forall i, j | 0 <= i < j < |b|
      ensures b[i].key != b[j].key
    {
      if b[i].key == b[j].key {
        assert b[i] in b && b[j] in b && b[i] == b[j];
        TwiceInMultiset(b, i, j);
        OnceInMultiset(a, b[i]);
      }
    }
  }

  lemma TwiceInMultiset<T>(s: seq<T>, i: nat, j: nat)
    requires i < j < |s| && s[i] == s[j]
    ensures multiset(s)[s[i]] >= 2
  {
    assert s == s[..i] + [s[i]] + s[i + 1..j] + [s[j]] + s[j + 1..];
  }

  lemma {:induction false} OnceInMultiset<K>(a: seq<Entry<K>>, e: Entry<K>)
    requires forall i, j | 0 <= i < j < |a| :: a[i].key != a[j].key
    ensures multiset(a)[e] <= 1
    decreases |a|
  {
    if a != [] {
      var init, last := a[..|a| - 1], a[|a| - 1];
      assert a == init + [last];
      OnceInMultiset(init, e);
      forall x | x in init
        ensures x != last
      {
        var i :| 0 <= i < |init| && init[i] == x;
        assert a[i].key != a[|a| - 1].key;
      }
    }
  }

  // ----- The aggregator -----

  class UsageAggregator {
    var hourBuckets: seq<Bucket>
    var dayBuckets: seq<Bucket>
    ghost var seen: seq<Ingested>

    /** The buckets are the offline aggregates of everything seen. */
    ghost predicate Valid()
      reads this
    {
      && hourBuckets == Offline(Hourly(seen), HOUR_BUCKETS)
      && dayBuckets == Offline(Daily(seen), DAY_BUCKETS)
    }

    constructor ()
      ensures Valid() && seen == []
    {
      hourBuckets, dayBuckets, seen := [], [], [];
      new;
      assert Times(Hourly([])) == {} && Times(Daily([])) == {};
    }

    method Ingest(e: Ingested)
      requires Valid()
      modifies this
      ensures Valid() && seen == old(seen) + [e]
    {
      UpsertIsOffline(Hourly(seen), HOUR_BUCKETS, Timed(e.hourTs, e.rec));
      UpsertIsOffline(Daily(seen), DAY_BUCKETS, Timed(e.dayTs, e.rec));
      TimedSnoc(seen, e);
      hourBuckets := UpsertBucket(hourBuckets, e.hourTs, e.rec, HOUR_BUCKETS);
      dayBuckets := UpsertBucket(dayBuckets, e.dayTs, e.rec, DAY_BUCKETS);
      seen := seen + [e];
    }

    method IngestFile(file: LogFile)
      requires Valid()
      modifies this
      ensures Valid() && seen == old(seen) + file.records
    {
      for j := 0 to |file.records|
        invariant Valid() && seen == old(seen) + file.records[..j]
      {
        assert file.records[..j + 1] == file.records[..j] + [file.records[j]];
        Ingest(file.records[j]);
      }
      assert file.records[..|file.records|] == file.records;
    }

    /** Startup: the log files in whatever order the directory lists them, the old ones skipped. */
    method RebuildFromLogs(files: seq<LogFile>, today: int)
      requires Valid()
      modifies this
      ensures Valid() && seen == old(seen) + Rebuilt(files, today - RETENTION_DAYS)
    {
      var cutoff := today - RETENTION_DAYS;
      for i := 0 to |files|
        invariant Valid() && seen == old(seen) + Rebuilt(files[..i], cutoff)
      {
        RebuiltSnoc(files, i, cutoff, old(seen));
        if files[i].date < cutoff {
          continue;
        }
        IngestFile(files[i]);
      }
      assert files[..|files|] == files;
    }

    /** The calls and tokens per model since `cutoff`, from the hour or the day buckets, the most
        called first. */
    method QueryByModel(daily: bool, cutoff: int) returns (out: seq<Entry<string>>)
      requires Valid()
      ensures Lists(out, SumMaps(ModelMaps(Since(if daily then dayBuckets else hourBuckets, cutoff)))) && ByCalls(out)
    {
      var acc := SumOfMaps(ModelMaps(Since(if daily then dayBuckets else hourBuckets, cutoff)));
      var listed := ListEntries(acc);
      SortByCallsSorts(listed);
      out := SortByCalls(listed);
      SortedStillLists(listed, out, acc);
    }

    /** The same per credential, with errors. */
    method QueryByCredential(daily: bool, cutoff: int) returns (out: seq<Entry<nat>>)
      requires Valid()
      ensures Lists(out, SumMaps(CredentialMaps(Since(if daily then dayBuckets else hourBuckets, cutoff))))
      ensures ByCalls(out)
    {
      var acc := SumOfMaps(CredentialMaps(Since(if daily then dayBuckets else hourBuckets, cutoff)));
      var listed := ListEntries(acc);
      SortByCallsSorts(listed);
      out := SortByCalls(listed);
      SortedStillLists(listed, out, acc);
    }
  }

  // ----- What a report adds up to -----

  lemma ShownWithout<K>(m: map<K, BucketStats>, k: K, errors: bool)
    requires k in m
    ensures Shown(m, errors) - {k} == Shown(m - {k}, errors)
    ensures k in Shown(m, errors) && Shown(m, errors)[k] == Figures(m[k], errors)
  {
  }

  lemma FiguresPlus(a: BucketStats, b: BucketStats, errors: bool)
    ensures Figures(a.Plus(b), errors) == Figures(a, errors).Plus(Figures(b, errors))
  {
  }

  lemma {:induction false} ShownTotal<K>(m: map<K, BucketStats>, errors: bool)
    ensures MapTotal(Shown(m, errors)) == Figures(MapTotal(m), errors)
    decreases |m|
  {
    if m.Keys != {} {
      var k := MapTotalPick(m);
      FewerKeys(m, k);
      ShownTotal(m - {k}, errors);
      ShownWithout(m, k, errors);
      MapTotalWithout(Shown(m, errors), k);
      FiguresPlus(MapTotal(m - {k}), m[k], errors);
    } else {
      assert Shown(m, errors).Keys == {};
    }
  }

  lemma {:induction false} SumOfFigures(ss: seq<BucketStats>, errors: bool)
    ensures SumStats(seq(|ss|, i requires 0 <= i < |ss| => Figures(ss[i], errors))) == Figures(SumStats(ss), errors)
    decreases |ss|
  {
    if ss != [] {
      var n := |ss| - 1;
      var init := ss[..n];
      SumOfFigures(init, errors);
      assert seq(|ss|, i requires 0 <= i < |ss| => Figures(ss[i], errors))[..n] ==
             seq(|init|, i requires 0 <= i < |init| => Figures(init[i], errors));
    }
  }

  function Overalls(bs: seq<Bucket>): seq<BucketStats> {
    seq(|bs|, i requires 0 <= i < |bs| => bs[i].overall)
  }

  /** Per bucket, what its records with a credential add up to. */
  function Named(es: seq<Timed>, bs: seq<Bucket>): seq<BucketStats> {
    seq(|bs|, i requires 0 <= i < |bs| => Total(es, NamedCredentialAt(bs[i].ts)))
  }

  lemma WindowIsBuckets(es: seq<Timed>, max: nat, cutoff: int)
    ensures forall b <- Since(Offline(es, max), cutoff) :: b == BucketOf(es, b.ts)
  {
    OfflineAggregates(es, max);
    SinceSubset(Offline(es, max), cutoff);
  }

  lemma BucketReports(es: seq<Timed>, b: Bucket)
    requires b == BucketOf(es, b.ts)
    ensures MapTotal(Shown(b.byModel, false)) == Figures(b.overall, false)
    ensures MapTotal(Shown(b.byCredential, true)) == Figures(Total(es, NamedCredentialAt(b.ts)), true)
  {
    BucketConserves(es, b.ts);
    ShownTotal(b.byModel, false);
    ShownTotal(b.byCredential, true);
  }

  /** The model report of any window adds up to what the window's buckets show overall. */
  lemma ModelDistributionConserves(es: seq<Timed>, max: nat, cutoff: int)
    ensures var window := Since(Offline(es, max), cutoff);
            MapTotal(SumMaps(ModelMaps(window))) == Figures(SumStats(Overalls(window)), false)
  {
    var window := Since(Offline(es, max), cutoff);
    WindowIsBuckets(es, max, cutoff);
    var maps, overalls := ModelMaps(window), Overalls(window);
    forall i | 0 <= i < |window|
      ensures MapTotals(maps)[i] == Figures(overalls[i], false)
    {
      assert window[i] in window;
      BucketReports(es, window[i]);
    }
    assert MapTotals(maps) == seq(|overalls|, i requires 0 <= i < |overalls| => Figures(overalls[i], false));
    SumMapsTotal(maps);
    SumOfFigures(overalls, false);
  }

  /** The credential report of any window adds up to what the window's records with a credential show. */
  lemma CredentialDistributionConserves(es: seq<Timed>, max: nat, cutoff: int)
    ensures var window := Since(Offline(es, max), cutoff);
            MapTotal(SumMaps(CredentialMaps(window))) == Figures(SumStats(Named(es, window)), true)
  {
    var window := Since(Offline(es, max), cutoff);
    WindowIsBuckets(es, max, cutoff);
    var maps, named := CredentialMaps(window), Named(es, window);
    forall i | 0 <= i < |window|
      ensures MapTotals(maps)[i] == Figures(named[i], true)
    {
      assert window[i] in window;
      BucketReports(es, window[i]);
    }
    assert MapTotals(maps) == seq(|named|, i requires 0 <= i < |named| => Figures(named[i], true));
    SumMapsTotal(maps);
    SumOfFigures(named, true);
  }

  lemma {:induction false} SinceSubset(bs: seq<Bucket>, cutoff: int)
    ensures forall b :: b in Since(bs, cutoff) <==> b in bs && b.ts >= cutoff
  {
    if bs != [] {
      SinceSubset(bs[..|bs| - 1], cutoff);
      assert bs == bs[..|bs| - 1] + [bs[|bs| - 1]];
    }
  }

  // ----- The order of the files -----

  lemma FlattenParts(x: seq<LogFile>, file: LogFile, y: seq<LogFile>)
    ensures multiset(Flatten(x + [file] + y)) == multiset(Flatten(x + y)) + multiset(file.records)
  {
    FlattenAppend(x + [file], y);
    FlattenAppend(x, y);
    FlattenSnoc(x, file);
  }

  lemma {:induction false} FlattenAppend(a: seq<LogFile>, b: seq<LogFile>)
    ensures Flatten(a + b) == Flatten(a) + Flatten(b)
    decreases |b|
  {
    if b == [] {
      assert a + b == a;
    } else {
      var init, last := b[..|b| - 1], b[|b| - 1];
      FlattenAppend(a, init);
      assert b == init + [last];
      FlattenSnoc(init, last);
      FlattenLast(a, init, last);
    }
  }

  lemma FlattenLast(a: seq<LogFile>, init: seq<LogFile>, last: LogFile)
    requires Flatten(a + init) == Flatten(a) + Flatten(init)
    ensures Flatten(a + (init + [last])) == Flatten(a) + (Flatten(init) + last.records)
  {
    hide Flatten;
    assert a + (init + [last]) == a + init + [last];
    FlattenSnoc(a + init, last);
    Assoc(Flatten(a), Flatten(init), last.records);
  }

  lemma {:induction false} FlattenIgnoresOrder(a: seq<LogFile>, b: seq<LogFile>)
    requires multiset(a) == multiset(b)
    ensures multiset(Flatten(a)) == multiset(Flatten(b))
    decreases |a|
  {
    if a == [] {
      assert |multiset(b)| == 0;
    } else {
      var init, last := a[..|a| - 1], a[|a| - 1];
      assert a == init + [last];
      assert last in multiset(b);
      var i :| 0 <= i < |b| && b[i] == last;
      var x, y := b[..i], b[i + 1..];
      assert b == x + [last] + y;
      RemoveOne(init, x, last, y);
      FlattenIgnoresOrder(init, x + y);
      FlattenParts(x, last, y);
      FlattenSnoc(init, last);
    }
  }

  lemma {:induction false} KeptMultiset(files: seq<LogFile>, cutoff: int)
    ensures forall f :: multiset(Kept(files, cutoff))[f] == if f.date < cutoff then 0 else multiset(files)[f]
    decreases |files|
  {
    if files != [] {
      var init, last := files[..|files| - 1], files[|files| - 1];
      assert files == init + [last];
      KeptMultiset(init, cutoff);
    }
  }

  lemma KeptIgnoresOrder(a: seq<LogFile>, b: seq<LogFile>, cutoff: int)
    requires multiset(a) == multiset(b)
    ensures multiset(Kept(a, cutoff)) == multiset(Kept(b, cutoff))
  {
    KeptMultiset(a, cutoff);
    KeptMultiset(b, cutoff);
  }

  lemma {:induction false} TimedMultiset(a: seq<Ingested>, b: seq<Ingested>)
    requires multiset(a) == multiset(b)
    ensures multiset(Hourly(a)) == multiset(Hourly(b)) && multiset(Daily(a)) == multiset(Daily(b))
    decreases |a|
  {
    if a == [] {
      assert |multiset(b)| == 0;
    } else {
      var init, last := a[..|a| - 1], a[|a| - 1];
      assert a == init + [last];
      assert last in multiset(b);
      var i :| 0 <= i < |b| && b[i] == last;
      var x, y := b[..i], b[i + 1..];
      assert b == x + [last] + y;
      RemoveOne(init, x, last, y);
      TimedMultiset(init, x + y);
      TimedSnoc(init, last);
      TimedParts(x, last, y);
    }
  }

  lemma TimedParts(x: seq<Ingested>, e: Ingested, y: seq<Ingested>)
    ensures multiset(Hourly(x + [e] + y)) == multiset(Hourly(x + y)) + multiset{Timed(e.hourTs, e.rec)}
    ensures multiset(Daily(x + [e] + y)) == multiset(Daily(x + y)) + multiset{Timed(e.dayTs, e.rec)}
  {
    assert Hourly(x + [e] + y) == Hourly(x) + [Timed(e.hourTs, e.rec)] + Hourly(y);
    assert Hourly(x + y) == Hourly(x) + Hourly(y);
    assert Daily(x + [e] + y) == Daily(x) + [Timed(e.dayTs, e.rec)] + Daily(y);
    assert Daily(x + y) == Daily(x) + Daily(y);
  }

  /** Rebuilding from the same files, listed in any order, gives the same hour and day buckets. */
  lemma RebuildIgnoresFileOrder(a: seq<LogFile>, b: seq<LogFile>, cutoff: int, max: nat)
    requires multiset(a) == multiset(b)
    ensures var x, y := Rebuilt(a, cutoff), Rebuilt(b, cutoff);
            Offline(Hourly(x), max) == Offline(Hourly(y), max) && Offline(Daily(x), max) == Offline(Daily(y), max)
  {
    KeptIgnoresOrder(a, b, cutoff);
    FlattenIgnoresOrder(Kept(a, cutoff), Kept(b, cutoff));
    var x, y := Rebuilt(a, cutoff), Rebuilt(b, cutoff);
    TimedMultiset(x, y);
    OfflineIgnoresOrder(Hourly(x), Hourly(y), max);
    OfflineIgnoresOrder(Daily(x), Daily(y), max);
  }
}
