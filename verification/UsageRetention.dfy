/** Skipping old log files on startup: no report within the retention shows a difference. */
module UsageRetention {
  import opened UsageStats
  import opened UsageReports

  function Buckets(es: seq<Timed>, times: seq<int>): seq<Bucket> {
    seq(|times|, i requires 0 <= i < |times| => BucketOf(es, times[i]))
  }

  /** The times that are not before `cutoff`. */
  function From(times: seq<int>, cutoff: int): seq<int> {
    if times == [] then []
    else
      var last := times[|times| - 1];
      From(times[..|times| - 1], cutoff) + if last >= cutoff then [last] else []
  }

  lemma {:induction false} SinceOfBuckets(es: seq<Timed>, times: seq<int>, cutoff: int)
    ensures Since(Buckets(es, times), cutoff) == Buckets(es, From(times, cutoff))
    decreases |times|
  {
    if times != [] {
      var n := |times| - 1;
      assert Buckets(es, times)[..n] == Buckets(es, times[..n]);
      SinceOfBuckets(es, times[..n], cutoff);
    }
  }

  lemma {:induction false} FromContents(times: seq<int>, cutoff: int)
    ensures forall t :: t in From(times, cutoff) <==> t in times && t >= cutoff
    decreases |times|
  {
    if times != [] {
      var n := |times| - 1;
      assert times == times[..n] + [times[n]];
      FromContents(times[..n], cutoff);
    }
  }

  lemma {:induction false} NothingFrom(times: seq<int>, cutoff: int)
    requires forall t <- times :: t < cutoff
    ensures From(times, cutoff) == []
    decreases |times|
  {
    if times != [] {
      var n := |times| - 1;
      forall t | t in times[..n]
        ensures t < cutoff
      {
        assert t in times;
      }
      assert times[n] in times;
      NothingFrom(times[..n], cutoff);
    }
  }

  lemma NewestPeeled(ts: set<int>, max: nat, t: int)
    requires IsMax(t, ts) && max > 0
    ensures Newest(ts, max) == Newest(ts - {t}, max - 1) + [t]
  {
    var r := Newest(ts, max);
    assert t in ts;
    var u := r[|r| - 1];
    assert IsMax(u, ts) && r == Newest(ts - {u}, max - 1) + [u];
    assert u <= t <= u;
  }

  lemma FromSnoc(times: seq<int>, t: int, cutoff: int)
    ensures From(times + [t], cutoff) == From(times, cutoff) + if t >= cutoff then [t] else []
  {
    assert (times + [t])[..|times|] == times;
  }

  /** Times before the cutoff do not change which of the newest times are after it. */
  lemma {:induction false} NewestFrom(ts: set<int>, early: set<int>, max: nat, cutoff: int, a: seq<int>, b: seq<int>)
    requires forall t <- early :: t < cutoff
    requires a == Newest(ts + early, max) && b == Newest(ts, max)
    ensures From(a, cutoff) == From(b, cutoff)
    decreases max
  {
    if max == 0 || forall t <- ts + early :: t < cutoff {
      NewestBefore(ts + early, max, cutoff);
      NewestBefore(ts, max, cutoff);
    } else {
      var t := LatestIsKept(ts, early, cutoff);
      NewestPeeled(ts + early, max, t);
      NewestPeeled(ts, max, t);
      var a', b' := Newest((ts + early) - {t}, max - 1), Newest(ts - {t}, max - 1);
      NewestFrom(ts - {t}, early, max - 1, cutoff, a', b');
      FromSnoc(a', t, cutoff);
      FromSnoc(b', t, cutoff);
    }
  }

  lemma NewestBefore(ts: set<int>, max: nat, cutoff: int)
    requires max == 0 || forall t <- ts :: t < cutoff
    ensures From(Newest(ts, max), cutoff) == []
  {
    NewestSpec(ts, max);
    NothingFrom(Newest(ts, max), cutoff);
  }

  lemma LatestIsKept(ts: set<int>, early: set<int>, cutoff: int) returns (t: int)
    requires forall t <- early :: t < cutoff
    requires exists t <- ts + early :: t >= cutoff
    ensures IsMax(t, ts + early) && IsMax(t, ts)
    ensures (ts + early) - {t} == (ts - {t}) + early
  {
    MaxExists(ts + early);
    t :| IsMax(t, ts + early);
    var u :| u in ts + early && u >= cutoff;
    assert u <= t && t !in early;
  }

  lemma TotalWithout(kept: seq<Timed>, dropped: seq<Timed>, g: Group)
    requires forall e <- dropped :: e.ts != g.ts
    ensures Total(kept + dropped, g) == Total(kept, g)
  {
    TotalAppend(kept, dropped, g);
    NoneMatch(dropped, g);
    PlusZero(Total(kept, g));
  }

  lemma BucketWithout(kept: seq<Timed>, dropped: seq<Timed>, ts: int)
    requires forall e <- dropped :: e.ts != ts
    ensures BucketOf(kept + dropped, ts) == BucketOf(kept, ts)
  {
    hide Total;
    var all := kept + dropped;
    assert Models(all, ts) == Models(kept, ts) && Credentials(all, ts) == Credentials(kept, ts);
    forall g: Group | g.ts == ts
      ensures Total(all, g) == Total(kept, g)
    {
      TotalWithout(kept, dropped, g);
    }
    assert BucketOf(all, ts).byModel == BucketOf(kept, ts).byModel;
    assert BucketOf(all, ts).byCredential == BucketOf(kept, ts).byCredential;
  }

  /** Records from before the cutoff do not show in the window after it. */
  lemma EarlyRecordsDoNotShow(kept: seq<Timed>, early: seq<Timed>, max: nat, cutoff: int)
    requires forall e <- early :: e.ts < cutoff
    ensures Since(Offline(kept + early, max), cutoff) == Since(Offline(kept, max), cutoff)
  {
    var all := kept + early;
    assert Times(all) == Times(kept) + Times(early);
    NewestFrom(Times(kept), Times(early), max, cutoff, Newest(Times(all), max), Newest(Times(kept), max));
    SinceOfBuckets(all, Newest(Times(all), max), cutoff);
    SinceOfBuckets(kept, Newest(Times(kept), max), cutoff);
    var times := From(Newest(Times(kept), max), cutoff);
    FromContents(Newest(Times(kept), max), cutoff);
    forall i | 0 <= i < |times|
      ensures BucketOf(all, times[i]) == BucketOf(kept, times[i])
    {
      assert times[i] in times;
      BucketWithout(kept, early, times[i]);
    }
    assert Buckets(all, times) == Buckets(kept, times);
  }

  // ----- Files -----

  /** The files that are skipped. */
  function Skipped(files: seq<LogFile>, cutoff: int): seq<LogFile> {
    if files == [] then []
    else
      var last := files[|files| - 1];
      Skipped(files[..|files| - 1], cutoff) + if last.date < cutoff then [last] else []
  }

  lemma {:induction false} SkippedAreOld(files: seq<LogFile>, cutoff: int)
    ensures forall f <- Skipped(files, cutoff) :: f in files && f.date < cutoff
    decreases |files|
  {
    if files != [] {
      SkippedAreOld(files[..|files| - 1], cutoff);
    }
  }

  lemma {:induction false} KeptAndSkipped(files: seq<LogFile>, cutoff: int)
    ensures multiset(Flatten(files)) == multiset(Flatten(Kept(files, cutoff)) + Flatten(Skipped(files, cutoff)))
    decreases |files|
  {
    if files != [] {
      var init, last := files[..|files| - 1], files[|files| - 1];
      assert files == init + [last];
      KeptAndSkipped(init, cutoff);
      OneMoreFile(init, last, cutoff);
    }
  }

  lemma OneMoreFile(init: seq<LogFile>, last: LogFile, cutoff: int)
    requires multiset(Flatten(init)) == multiset(Flatten(Kept(init, cutoff)) + Flatten(Skipped(init, cutoff)))
    ensures var files := init + [last];
            multiset(Flatten(files)) == multiset(Flatten(Kept(files, cutoff)) + Flatten(Skipped(files, cutoff)))
  {
    hide Flatten;
    var files, kept, skipped := init + [last], Kept(init, cutoff), Skipped(init, cutoff);
    FlattenSnoc(init, last);
    FlattenSnoc(kept, last);
    FlattenSnoc(skipped, last);
    assert files[..|files| - 1] == init;
    assert Kept(files, cutoff) == if last.date < cutoff then kept else kept + [last];
    assert Skipped(files, cutoff) == if last.date < cutoff then skipped + [last] else skipped;
    Joined(Flatten(init), Flatten(kept), Flatten(skipped), last.records);
  }

  lemma Joined(all: seq<Ingested>, a: seq<Ingested>, b: seq<Ingested>, more: seq<Ingested>)
    requires multiset(all) == multiset(a + b)
    ensures multiset(all + more) == multiset(a + more + b) == multiset(a + (b + more))
  {
  }

  /** A record is logged no later than the end of its file's day; `dayStart` gives the instant a
      day begins. */
  predicate Dated(files: seq<LogFile>, dayStart: int -> int) {
    forall f <- files, e <- f.records :: e.hourTs < dayStart(f.date + 1) && e.dayTs < dayStart(f.date + 1)
  }

  ghost predicate Ascending(dayStart: int -> int) {
    forall a, b | a <= b :: dayStart(a) <= dayStart(b)
  }

  lemma {:induction false} FlattenedAreEarly(files: seq<LogFile>, dayStart: int -> int, date: int, cutoff: int)
    requires Dated(files, dayStart) && Ascending(dayStart) && dayStart(date) <= cutoff
    requires forall f <- files :: f.date < date
    ensures forall e <- Flatten(files) :: e.hourTs < cutoff && e.dayTs < cutoff
    decreases |files|
  {
    if files != [] {
      var last := files[|files| - 1];
      assert last in files && dayStart(last.date + 1) <= dayStart(date);
      FlattenedAreEarly(files[..|files| - 1], dayStart, date, cutoff);
    }
  }

  lemma TimedAppend(a: seq<Ingested>, b: seq<Ingested>)
    ensures Hourly(a + b) == Hourly(a) + Hourly(b) && Daily(a + b) == Daily(a) + Daily(b)
  {
  }

  lemma TimedAreEarly(es: seq<Ingested>, cutoff: int)
    requires forall e <- es :: e.hourTs < cutoff && e.dayTs < cutoff
    ensures forall e <- Hourly(es) :: e.ts < cutoff
    ensures forall e <- Daily(es) :: e.ts < cutoff
  {
  }

  /** For every cutoff within the retention, the window after a restart, which skips the files
      before `date`, is the window of an aggregator that saw all records. */
  lemma RestartShowsTheSame(files: seq<LogFile>, date: int, dayStart: int -> int, cutoff: int, max: nat)
    requires Dated(files, dayStart) && Ascending(dayStart) && dayStart(date) <= cutoff
    ensures var all, rebuilt := Flatten(files), Rebuilt(files, date);
            && Since(Offline(Hourly(rebuilt), max), cutoff) == Since(Offline(Hourly(all), max), cutoff)
            && Since(Offline(Daily(rebuilt), max), cutoff) == Since(Offline(Daily(all), max), cutoff)
  {
    hide Offline, Since, Flatten, Kept, Skipped, Hourly, Daily;
    var all, rebuilt, early := Flatten(files), Rebuilt(files, date), Flatten(Skipped(files, date));
    SkippedAreOld(files, date);
    FlattenedAreEarly(Skipped(files, date), dayStart, date, cutoff);
    TimedAreEarly(early, cutoff);
    KeptAndSkipped(files, date);
    TimedMultiset(all, rebuilt + early);
    TimedAppend(rebuilt, early);
    OfflineIgnoresOrder(Hourly(all), Hourly(rebuilt + early), max);
    OfflineIgnoresOrder(Daily(all), Daily(rebuilt + early), max);
    EarlyRecordsDoNotShow(Hourly(rebuilt), Hourly(early), max, cutoff);
    EarlyRecordsDoNotShow(Daily(rebuilt), Daily(early), max, cutoff);
  }
}
