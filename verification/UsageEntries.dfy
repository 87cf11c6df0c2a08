/** What each entry of a report says: the sum over the records of its model or credential in the window. */
module UsageEntries {
  import opened UsageStats
  import opened UsageFigures
  import opened UsageReports

  /** The records a report entry is about: those of a model or a credential at certain times. */
  datatype Scope =
    | ModelIn(model: string, times: set<int>)
    | CredentialIn(id: nat, times: set<int>)

  predicate Inside(s: Scope, e: Timed) {
    && e.ts in s.times
    && match s
       case ModelIn(model, _) => e.rec.model == model
       case CredentialIn(id, _) => e.rec.credentialId == id
  }

  /** The sum over the records themselves, in the order of their arrival. */
  function SumOver(es: seq<Timed>, s: Scope): BucketStats {
    if es == [] then ZERO
    else
      var rest := SumOver(es[..|es| - 1], s);
      if Inside(s, es[|es| - 1]) then rest.Add(es[|es| - 1].rec) else rest
  }

  predicate AnyInside(es: seq<Timed>, s: Scope) {
    exists e <- es :: Inside(s, e)
  }

  function AtTime(s: Scope, t: int): Group {
    match s
    case ModelIn(model, _) => ModelAt(t, model)
    case CredentialIn(id, _) => CredentialAt(t, id)
  }

  lemma {:induction false} NothingInside(es: seq<Timed>, s: Scope)
    requires s.times == {}
    ensures SumOver(es, s) == ZERO
  {
    if es != [] {
      NothingInside(es[..|es| - 1], s);
    }
  }

  /** One more time adds the records of that time. */
  lemma {:induction false} OneMoreTime(es: seq<Timed>, s: Scope, t: int)
    requires t !in s.times
    ensures SumOver(es, s.(times := s.times + {t})) == SumOver(es, s).Plus(Total(es, AtTime(s, t)))
    decreases |es|
  {
    hide BucketStats.Add, BucketStats.Plus;
    if es == [] {
      PlusZero(ZERO);
    } else {
      var init, last := es[..|es| - 1], es[|es| - 1];
      OneMoreTime(init, s, t);
      AddPlus(SumOver(init, s), Total(init, AtTime(s, t)), last.rec);
    }
  }

  function TimesIn(bs: seq<Bucket>): set<int> {
    set b | b in bs :: b.ts
  }

  lemma AddMapsAt<K>(a: map<K, BucketStats>, b: map<K, BucketStats>, k: K)
    ensures k in AddMaps(a, b) <==> k in a || k in b
    ensures At(AddMaps(a, b), k) == At(a, k).Plus(At(b, k))
  {
    hide BucketStats.Plus;
    PlusZero(ZERO);
  }

  lemma ShownAt<K>(m: map<K, BucketStats>, k: K, errors: bool)
    ensures k in Shown(m, errors) <==> k in m
    ensures At(Shown(m, errors), k) == Figures(At(m, k), errors)
  {
  }

  /** Full sums, at distinct times. */
  ghost predicate Full(es: seq<Timed>, bs: seq<Bucket>) {
    && StrictlySorted(bs)
    && forall b <- bs :: b == BucketOf(es, b.ts)
  }

  lemma FullInit(es: seq<Timed>, bs: seq<Bucket>)
    requires Full(es, bs) && bs != []
    ensures var init, last := bs[..|bs| - 1], bs[|bs| - 1];
            && Full(es, init) && last == BucketOf(es, last.ts)
            && last.ts !in TimesIn(init) && TimesIn(bs) == TimesIn(init) + {last.ts}
  {
    var init, last := bs[..|bs| - 1], bs[|bs| - 1];
    assert bs == init + [last];
    forall b | b in init
      ensures b.ts != last.ts && b in bs
    {
      var i :| 0 <= i < |init| && init[i] == b;
      assert bs[i].ts < bs[|bs| - 1].ts;
    }
    assert last in bs;
  }

  lemma AnyInsideMore(es: seq<Timed>, s: Scope, t: int)
    ensures AnyInside(es, s.(times := s.times + {t})) <==>
            AnyInside(es, s) || AnyInside(es, s.(times := {t}))
  {
    var more := s.(times := s.times + {t});
    forall e | e in es
      ensures Inside(more, e) <==> Inside(s, e) || Inside(s.(times := {t}), e)
    {
    }
  }

  lemma ModelKeys(es: seq<Timed>, t: int, model: string)
    ensures model in BucketOf(es, t).byModel <==> AnyInside(es, ModelIn(model, {t}))
  {
  }

  lemma CredentialKeys(es: seq<Timed>, t: int, id: nat)
    ensures id in BucketOf(es, t).byCredential <==> id != 0 && AnyInside(es, CredentialIn(id, {t}))
  {
  }

  lemma {:induction false} ModelReport(es: seq<Timed>, bs: seq<Bucket>, model: string)
    requires Full(es, bs)
    ensures var report, s := SumMaps(ModelMaps(bs)), ModelIn(model, TimesIn(bs));
            && (model in report <==> AnyInside(es, s))
            && At(report, model) == Figures(SumOver(es, s), false)
    decreases |bs|
  {
    hide BucketOf, Figures, BucketStats.Plus, Full;
    if bs == [] {
      assert TimesIn(bs) == {};
      NothingInside(es, ModelIn(model, {}));
      NoFigures(false);
    } else {
      var init, last := bs[..|bs| - 1], bs[|bs| - 1];
      var s := ModelIn(model, TimesIn(init));
      FullInit(es, bs);
      ModelReport(es, init, model);
      assert ModelMaps(bs)[..|bs| - 1] == ModelMaps(init);
      AddMapsAt(SumMaps(ModelMaps(init)), Shown(last.byModel, false), model);
      ShownAt(last.byModel, model, false);
      ModelAtKey(es, last.ts, model);
      ModelKeys(es, last.ts, model);
      OneMoreTime(es, s, last.ts);
      AnyInsideMore(es, s, last.ts);
      FiguresPlus(SumOver(es, s), Total(es, ModelAt(last.ts, model)), false);
    }
  }

  lemma NoFigures(errors: bool)
    ensures Figures(ZERO, errors) == ZERO
  {
  }

  lemma {:induction false} CredentialReport(es: seq<Timed>, bs: seq<Bucket>, id: nat)
    requires Full(es, bs) && id != 0
    ensures var report, s := SumMaps(CredentialMaps(bs)), CredentialIn(id, TimesIn(bs));
            && (id in report <==> AnyInside(es, s))
            && At(report, id) == Figures(SumOver(es, s), true)
    decreases |bs|
  {
    hide BucketOf, Figures, BucketStats.Plus, Full;
    if bs == [] {
      assert TimesIn(bs) == {};
      NothingInside(es, CredentialIn(id, {}));
      NoFigures(true);
    } else {
      var init, last := bs[..|bs| - 1], bs[|bs| - 1];
      var s := CredentialIn(id, TimesIn(init));
      FullInit(es, bs);
      CredentialReport(es, init, id);
      assert CredentialMaps(bs)[..|bs| - 1] == CredentialMaps(init);
      AddMapsAt(SumMaps(CredentialMaps(init)), Shown(last.byCredential, true), id);
      ShownAt(last.byCredential, id, true);
      CredentialAtKey(es, last.ts, id);
      CredentialKeys(es, last.ts, id);
      OneMoreTime(es, s, last.ts);
      AnyInsideMore(es, s, last.ts);
      FiguresPlus(SumOver(es, s), Total(es, CredentialAt(last.ts, id)), true);
    }
  }

  lemma {:induction false} NoEntryForNone(es: seq<Timed>, bs: seq<Bucket>)
    requires Full(es, bs)
    ensures 0 !in SumMaps(CredentialMaps(bs))
    decreases |bs|
  {
    hide Full, BucketOf;
    if bs != [] {
      var init, last := bs[..|bs| - 1], bs[|bs| - 1];
      FullInit(es, bs);
      NoEntryForNone(es, init);
      assert CredentialMaps(bs)[..|bs| - 1] == CredentialMaps(init);
      CredentialKeys(es, last.ts, 0);
    }
  }

  /** The times of the window: of the newest `max` times with records, those from `cutoff` on. */
  function WindowTimes(es: seq<Timed>, max: nat, cutoff: int): set<int> {
    set t | t in Newest(Times(es), max) && t >= cutoff
  }

  lemma OfflineTimes(es: seq<Timed>, max: nat)
    ensures var all, times := Offline(es, max), Newest(Times(es), max);
            |all| == |times| && forall i | 0 <= i < |all| :: all[i].ts == times[i]
  {
  }

  lemma WindowIsFull(es: seq<Timed>, max: nat, cutoff: int)
    ensures var window := Since(Offline(es, max), cutoff);
            Full(es, window) && TimesIn(window) == WindowTimes(es, max, cutoff)
  {
    hide BucketOf, Offline, Since;
    var all, window, times := Offline(es, max), Since(Offline(es, max), cutoff), Newest(Times(es), max);
    WindowIsBuckets(es, max, cutoff);
    OfflineAggregates(es, max);
    OfflineTimes(es, max);
    SinceSorted(all, cutoff);
    SinceSubset(all, cutoff);
    forall t | t in WindowTimes(es, max, cutoff)
      ensures t in TimesIn(window)
    {
      var i :| 0 <= i < |times| && times[i] == t;
      assert all[i] in all && all[i].ts == t;
    }
    forall b | b in window
      ensures b.ts in WindowTimes(es, max, cutoff)
    {
      var i :| 0 <= i < |all| && all[i] == b;
      assert times[i] == b.ts;
    }
  }

  lemma {:induction false} SinceSorted(bs: seq<Bucket>, cutoff: int)
    requires StrictlySorted(bs)
    ensures StrictlySorted(Since(bs, cutoff))
    decreases |bs|
  {
    if bs != [] {
      var init, last := bs[..|bs| - 1], bs[|bs| - 1];
      SinceSorted(init, cutoff);
      SinceSubset(init, cutoff);
      forall i | 0 <= i < |Since(init, cutoff)|
        ensures Since(init, cutoff)[i].ts < last.ts
      {
        var b := Since(init, cutoff)[i];
        assert b in init;
        var j :| 0 <= j < |init| && init[j] == b;
        assert bs[j].ts < bs[|bs| - 1].ts;
      }
    }
  }

  lemma SumOverSnoc(es: seq<Timed>, e: Timed, s: Scope)
    ensures SumOver(es + [e], s) == if Inside(s, e) then SumOver(es, s).Add(e.rec) else SumOver(es, s)
  {
    assert (es + [e])[..|es|] == es;
  }

  ghost predicate PicksScope(pick: Pick, s: Scope) {
    forall e :: Picked(pick, e) <==> Inside(s, e)
  }

  lemma SumShowsNothing(s: Scope, pick: Pick)
    ensures Shows(SumOver([], s), Records([], pick)) && Records([], pick) == []
  {
  }

  lemma SumShowsOneMore(es: seq<Timed>, e: Timed, s: Scope, pick: Pick)
    requires Shows(SumOver(es, s), Records(es, pick)) && (Picked(pick, e) <==> Inside(s, e))
    ensures Shows(SumOver(es + [e], s), Records(es + [e], pick))
    ensures Records(es + [e], pick) != [] <==> Records(es, pick) != [] || Inside(s, e)
  {
    hide Shows, SumOver, Records, Picked, Inside, BucketStats.Add;
    SumOverSnoc(es, e, s);
    RecordsSnoc(es, e, pick);
    if Inside(s, e) {
      ShowsOneMore(SumOver(es, s), Records(es, pick), e.rec);
    }
  }

  lemma {:induction false} SumOverShows(es: seq<Timed>, s: Scope, pick: Pick)
    requires PicksScope(pick, s)
    ensures Shows(SumOver(es, s), Records(es, pick))
    ensures Records(es, pick) != [] <==> AnyInside(es, s)
    decreases |es|
  {
    hide Shows, SumOver, Records, Picked, Inside;
    if es == [] {
      SumShowsNothing(s, pick);
    } else {
      var init, last := es[..|es| - 1], es[|es| - 1];
      SumOverShows(init, s, pick);
      SumShowsOneMore(init, last, s, pick);
      assert es == init + [last];
    }
  }

  /** What a report shows of some records: their input and output tokens, their number, and per credential the
      number of those that failed. */
  function EntryFor(rs: seq<UsageRecord>, errors: bool): BucketStats {
    BucketStats(Inputs(rs), Outputs(rs), 0, 0, |rs|, if errors then Failures(rs) else 0, 0.0)
  }

  lemma ShownFigures(s: BucketStats, rs: seq<UsageRecord>, errors: bool)
    requires Shows(s, rs)
    ensures Figures(s, errors) == EntryFor(rs, errors)
  {
  }

  /** A model report has an entry for exactly the models with a record in the window, and it shows the input and
      output tokens and the number of the model's records there. */
  lemma ModelEntriesAre(es: seq<Timed>, max: nat, cutoff: int, out: seq<Entry<string>>, model: string)
    requires Lists(out, SumMaps(ModelMaps(Since(Offline(es, max), cutoff))))
    ensures var rs := Records(es, OfModel(WindowTimes(es, max, cutoff), model));
            && ((exists x <- out :: x.key == model) <==> rs != [])
            && forall x <- out | x.key == model :: x.stats == EntryFor(rs, false)
  {
    hide Shows, Records;
    var window, times := Since(Offline(es, max), cutoff), WindowTimes(es, max, cutoff);
    WindowIsFull(es, max, cutoff);
    ModelReport(es, window, model);
    EntryOf(out, SumMaps(ModelMaps(window)), model);
    SumOverShows(es, ModelIn(model, times), OfModel(times, model));
    ShownFigures(SumOver(es, ModelIn(model, times)), Records(es, OfModel(times, model)), false);
  }

  /** The same of credentials, with the number of records that failed; records without a credential have no entry. */
  lemma CredentialEntriesAre(es: seq<Timed>, max: nat, cutoff: int, out: seq<Entry<nat>>, id: nat)
    requires Lists(out, SumMaps(CredentialMaps(Since(Offline(es, max), cutoff))))
    ensures var rs := Records(es, OfCredential(WindowTimes(es, max, cutoff), id));
            && ((exists x <- out :: x.key == id) <==> id != 0 && rs != [])
            && forall x <- out | x.key == id :: x.stats == EntryFor(rs, true)
  {
    hide Shows, Records;
    var window, times := Since(Offline(es, max), cutoff), WindowTimes(es, max, cutoff);
    WindowIsFull(es, max, cutoff);
    if id == 0 {
      NoEntryForNone(es, window);
    } else {
      CredentialReport(es, window, id);
    }
    EntryOf(out, SumMaps(CredentialMaps(window)), id);
    SumOverShows(es, CredentialIn(id, times), OfCredential(times, id));
    ShownFigures(SumOver(es, CredentialIn(id, times)), Records(es, OfCredential(times, id)), true);
  }

  lemma EntryOf<K(!new)>(out: seq<Entry<K>>, m: map<K, BucketStats>, k: K)
    requires Lists(out, m)
    ensures (exists x <- out :: x.key == k) <==> k in m
    ensures forall x <- out | x.key == k :: x.stats == At(m, k)
  {
    if k in m {
      assert Entry(k, m[k]) in out;
    }
  }
}
