/**
 * The reduction of 3-hourly forecast samples to one sample per calendar day:
 * the first noon sample of a date when there is one, otherwise the date's
 * first sample, the latter only while fewer than five dates are selected.
 */
module DailySelection {
  import opened Wrappers
  import opened Weather

  const NoonTime: string := "12:00:00"

  /** How many dates must be selected before a date without a noon sample is skipped. */
  const MaxFallbackDays: nat := 5

  /** The index of the first sample of `date` (`find(f => f.date === date)`). */
  function DateIndex(s: seq<DailyWeather>, date: string): (r: Option<nat>)
    ensures r.Some? ==> r.value < |s| && s[r.value].date == date
    ensures r.Some? ==> forall j :: 0 <= j < r.value ==> s[j].date != date
    ensures r.None? <==> forall j :: 0 <= j < |s| ==> s[j].date != date
  {
    if s == [] then None
    else if s[0].date == date then Some(0)
    else match DateIndex(s[1..], date)
      case None => None
      case Some(i) => Some(i + 1)
  }

  /** Whether a sample is the noon sample of `date`. */
  predicate IsNoonOf(f: DailyWeather, date: string)
  {
    f.date == date && f.time == NoonTime
  }

  /** The index of the first noon sample of `date`. */
  function NoonIndex(s: seq<DailyWeather>, date: string): (r: Option<nat>)
    ensures r.Some? ==> r.value < |s| && IsNoonOf(s[r.value], date)
    ensures r.Some? ==> forall j :: 0 <= j < r.value ==> !IsNoonOf(s[j], date)
    ensures r.None? <==> forall j :: 0 <= j < |s| ==> !IsNoonOf(s[j], date)
  {
    if s == [] then None
    else if IsNoonOf(s[0], date) then Some(0)
    else match NoonIndex(s[1..], date)
      case None => None
      case Some(i) => Some(i + 1)
  }

  /** The dates that have an entry in `s`. */
  function DatesOf(s: seq<DailyWeather>): set<string>
  {
    set i | 0 <= i < |s| :: s[i].date
  }

  /** The sample the selection keeps for a date: its first noon sample, else its first sample. */
  function Chosen(all: seq<DailyWeather>, date: string): DailyWeather
    requires DateIndex(all, date).Some?
  {
    match NoonIndex(all, date)
    case Some(n) => all[n]
    case None => all[DateIndex(all, date).value]
  }

  /** The daily list after the loop has visited the first `k` samples of `all`. */
  function SelectPrefix(all: seq<DailyWeather>, k: nat): (r: seq<DailyWeather>)
    requires k <= |all|
  {
    if k == 0 then []
    else
      var daily := SelectPrefix(all, k - 1);
      var forecast := all[k - 1];
      if forecast.date in DatesOf(daily) then daily
      else match NoonIndex(all, forecast.date)
        case Some(n) => daily + [all[n]]
        case None => if |daily| < MaxFallbackDays then daily + [forecast] else daily
  }

  /** The daily forecast derived from the transformed samples. */
  function DailyForecasts(all: seq<DailyWeather>): (r: seq<DailyWeather>)
    ensures |r| <= |all|
    ensures r == [] <==> all == []
  {
    SelectPrefixLength(all, |all|);
    SelectPrefix(all, |all|)
  }

  /** After `k` samples the daily list has at most `k` entries, and at least one once a sample was visited. */
  lemma {:induction false} SelectPrefixLength(all: seq<DailyWeather>, k: nat)
    requires k <= |all|
    ensures |SelectPrefix(all, k)| <= k
    ensures k > 0 ==> SelectPrefix(all, k) != []
  {
    if k > 0 {
      SelectPrefixLength(all, k - 1);
    }
  }

  /**
   * The selection loop: visits every sample once, keeping the set of dates
   * already selected.
   */
  method SelectDaily(transformed: seq<DailyWeather>) returns (daily: seq<DailyWeather>)
    ensures daily == DailyForecasts(transformed)
  {
    daily := [];
    var seenDays: set<string> := {};
    for k := 0 to |transformed|
      invariant daily == SelectPrefix(transformed, k)
      invariant seenDays == DatesOf(daily) && |seenDays| == |daily|
    {
      var forecast := transformed[k];
      if forecast.date !in seenDays {
        var noon := NoonIndex(transformed, forecast.date);
        if noon.Some? {
          DatesOfAppend(daily, transformed[noon.value]);
          daily := daily + [transformed[noon.value]];
          seenDays := seenDays + {forecast.date};
        } else if |seenDays| < MaxFallbackDays {
          DatesOfAppend(daily, forecast);
          daily := daily + [forecast];
          seenDays := seenDays + {forecast.date};
        }
      }
    }
  }

  lemma DatesOfAppend(s: seq<DailyWeather>, x: DailyWeather)
    ensures DatesOf(s + [x]) == DatesOf(s) + {x.date}
  {
    var t := s + [x];
    forall d | d in DatesOf(s) ensures d in DatesOf(t) {
      var i :| 0 <= i < |s| && s[i].date == d;
      assert t[i] == s[i];
    }
    assert t[|s|] == x;
  }

  /** One entry per date. */
  ghost predicate OnePerDate(r: seq<DailyWeather>)
  {
    forall i, j :: 0 <= i < j < |r| ==> r[i].date != r[j].date
  }

  /** Each entry is the chosen sample of a date first seen among the first `k` samples. */
  ghost predicate EntriesChosen(all: seq<DailyWeather>, k: nat, r: seq<DailyWeather>)
  {
    forall i :: 0 <= i < |r| ==>
      DateIndex(all, r[i].date).Some? && DateIndex(all, r[i].date).value < k
      && r[i] == Chosen(all, r[i].date)
  }

  /** Entries are in the order of their dates' first appearance. */
  ghost predicate InFirstAppearanceOrder(all: seq<DailyWeather>, r: seq<DailyWeather>)
  {
    forall i, j :: 0 <= i < j < |r| ==>
      DateIndex(all, r[i].date).Some? && DateIndex(all, r[j].date).Some?
      && DateIndex(all, r[i].date).value < DateIndex(all, r[j].date).value
  }

  /** An entry without a noon sample was added while fewer than five were selected. */
  ghost predicate FallbacksEarly(all: seq<DailyWeather>, r: seq<DailyWeather>)
  {
    forall i :: 0 <= i < |r| && NoonIndex(all, r[i].date).None? ==> i < MaxFallbackDays
  }

  /** A visited date is missing only when it has no noon sample and five are selected. */
  ghost predicate MissingOnlyWhenFull(all: seq<DailyWeather>, k: nat, r: seq<DailyWeather>)
    requires k <= |all|
  {
    forall j :: 0 <= j < k && all[j].date !in DatesOf(r) ==>
      NoonIndex(all, all[j].date).None? && |r| >= MaxFallbackDays
  }

  /** What holds of the daily list after `k` samples have been visited. */
  ghost predicate Invariant(all: seq<DailyWeather>, k: nat, r: seq<DailyWeather>)
    requires k <= |all|
  {
    && OnePerDate(r)
    && EntriesChosen(all, k, r)
    && InFirstAppearanceOrder(all, r)
    && FallbacksEarly(all, r)
    && MissingOnlyWhenFull(all, k, r)
  }

  /** The loop invariant holds after every prefix. */
  lemma {:induction false} SelectionInvariant(all: seq<DailyWeather>, k: nat)
    requires k <= |all|
    ensures Invariant(all, k, SelectPrefix(all, k))
  {
    if k > 0 {
      SelectionInvariant(all, k - 1);
      var r := SelectPrefix(all, k - 1);
      var f := all[k - 1];
      var d := f.date;
      if d !in DatesOf(r) {
        var v := DateIndex(all, d).value;
        assert v <= k - 1;
        if v < k - 1 {
          assert all[v].date !in DatesOf(r);
        }
        match NoonIndex(all, d)
        case Some(n) =>
          assert v == k - 1;
          StepAppend(all, k, r, all[n]);
        case None =>
          if |r| < MaxFallbackDays {
            assert v == k - 1;
            StepAppend(all, k, r, f);
          } else {
            MissingSkipStep(all, k, DatesOf(r), |r|, d => NoonIndex(all, d).None?);
          }
      } else {
        MissingSkipStep(all, k, DatesOf(r), |r|, d => NoonIndex(all, d).None?);
      }
    }
  }

  /** The case of the invariant's step where the visited sample's date gets its entry. */
  lemma StepAppend(all: seq<DailyWeather>, k: nat, r: seq<DailyWeather>, x: DailyWeather)
    requires 0 < k <= |all|
    requires Invariant(all, k - 1, r)
    requires x.date == all[k - 1].date && x.date !in DatesOf(r)
    requires DateIndex(all, x.date) == Some(k - 1)
    requires x == Chosen(all, x.date)
    requires NoonIndex(all, x.date).None? ==> |r| < MaxFallbackDays
    ensures Invariant(all, k, r + [x])
  {
    DatesOfAppend(r, x);
    OnePerDateStep(r, x);
    EntriesChosenStep(all, k, r, x);
    OrderStep(all, k, r, x);
    FallbacksEarlyStep(all, r, x);
    MissingDatesStep(all, k, DatesOf(r), DatesOf(r + [x]), |r|, |r + [x]|, d => NoonIndex(all, d).None?);
  }

  lemma OnePerDateStep(r: seq<DailyWeather>, x: DailyWeather)
    requires OnePerDate(r) && x.date !in DatesOf(r)
    ensures OnePerDate(r + [x])
  {
    var t := r + [x];
    forall i, j | 0 <= i < j < |t| ensures t[i].date != t[j].date {
      if j == |r| {
        assert t[i] == r[i] && r[i].date in DatesOf(r);
      } else {
        assert t[i] == r[i] && t[j] == r[j];
      }
    }
  }

  lemma EntriesChosenStep(all: seq<DailyWeather>, k: nat, r: seq<DailyWeather>, x: DailyWeather)
    requires 0 < k <= |all|
    requires EntriesChosen(all, k - 1, r)
    requires DateIndex(all, x.date) == Some(k - 1) && x == Chosen(all, x.date)
    ensures EntriesChosen(all, k, r + [x])
  {
    var t := r + [x];
    forall i | 0 <= i < |t|
      ensures DateIndex(all, t[i].date).Some? && DateIndex(all, t[i].date).value < k
              && t[i] == Chosen(all, t[i].date)
    {
      if i < |r| {
        assert t[i] == r[i];
      }
    }
  }

  lemma OrderStep(all: seq<DailyWeather>, k: nat, r: seq<DailyWeather>, x: DailyWeather)
    requires 0 < k <= |all|
    requires EntriesChosen(all, k - 1, r) && InFirstAppearanceOrder(all, r)
    requires DateIndex(all, x.date) == Some(k - 1)
    ensures InFirstAppearanceOrder(all, r + [x])
  {
    var t := r + [x];
    forall i, j | 0 <= i < j < |t|
      ensures DateIndex(all, t[i].date).Some? && DateIndex(all, t[j].date).Some?
              && DateIndex(all, t[i].date).value < DateIndex(all, t[j].date).value
    {
      assert t[i] == r[i];
      if j < |r| {
        assert t[j] == r[j];
      }
    }
  }

  lemma FallbacksEarlyStep(all: seq<DailyWeather>, r: seq<DailyWeather>, x: DailyWeather)
    requires FallbacksEarly(all, r)
    requires NoonIndex(all, x.date).None? ==> |r| < MaxFallbackDays
    ensures FallbacksEarly(all, r + [x])
  {
    var t := r + [x];
    forall i | 0 <= i < |t| && NoonIndex(all, t[i].date).None? ensures i < MaxFallbackDays {
      if i < |r| {
        assert t[i] == r[i];
      }
    }
  }

  /**
   * The last part of the invariant's step, with only the facts it needs;
   * `noNoon` stands for "the date has no noon sample".
   */
  lemma MissingDatesStep(all: seq<DailyWeather>, k: nat, before: set<string>, after: set<string>, m: nat, n: nat,
                         noNoon: string -> bool)
    requires 0 < k <= |all|
    requires forall j :: 0 <= j < k - 1 && all[j].date !in before ==> noNoon(all[j].date) && m >= MaxFallbackDays
    requires after == before + {all[k - 1].date} && m <= n
    ensures forall j :: 0 <= j < k && all[j].date !in after ==> noNoon(all[j].date) && n >= MaxFallbackDays
  {
    assert all[k - 1].date in after;
    forall j | 0 <= j < k - 1 && all[j].date !in after
      ensures noNoon(all[j].date) && n >= MaxFallbackDays
    {
      assert all[j].date !in before;
    }
  }

  /** The last part of the invariant's step when the visited sample adds nothing. */
  lemma MissingSkipStep(all: seq<DailyWeather>, k: nat, dates: set<string>, m: nat, noNoon: string -> bool)
    requires 0 < k <= |all|
    requires forall j :: 0 <= j < k - 1 && all[j].date !in dates ==> noNoon(all[j].date) && m >= MaxFallbackDays
    requires all[k - 1].date in dates || (noNoon(all[k - 1].date) && m >= MaxFallbackDays)
    ensures forall j :: 0 <= j < k && all[j].date !in dates ==> noNoon(all[j].date) && m >= MaxFallbackDays
  {
  }

  /** The daily list has at most one entry per date. */
  lemma AtMostOnePerDate(all: seq<DailyWeather>)
    ensures var r := DailyForecasts(all);
      forall i, j :: 0 <= i < j < |r| ==> r[i].date != r[j].date
  {
    SelectionInvariant(all, |all|);
  }

  /**
   * Every entry is a sample of its date, and the entries follow the order in
   * which their dates first appear among the samples.
   */
  lemma FirstAppearanceOrder(all: seq<DailyWeather>)
    ensures var r := DailyForecasts(all);
      && (forall i :: 0 <= i < |r| ==> r[i] in all && DateIndex(all, r[i].date).Some?)
      && (forall i, j :: 0 <= i < j < |r| ==>
            DateIndex(all, r[i].date).Some? && DateIndex(all, r[j].date).Some?
            && DateIndex(all, r[i].date).value < DateIndex(all, r[j].date).value)
  {
    SelectionInvariant(all, |all|);
  }

  /**
   * A date with a noon sample always has an entry, and that entry is the
   * date's first noon sample.
   */
  lemma NoonPreferred(all: seq<DailyWeather>)
    ensures var r := DailyForecasts(all);
      && (forall j :: 0 <= j < |all| && NoonIndex(all, all[j].date).Some? ==>
            all[j].date in DatesOf(r))
      && (forall i :: 0 <= i < |r| && NoonIndex(all, r[i].date).Some? ==>
            r[i] == all[NoonIndex(all, r[i].date).value])
  {
    SelectionInvariant(all, |all|);
  }

  /** The daily list only grows as the loop visits more samples. */
  lemma {:induction false} PrefixGrows(all: seq<DailyWeather>, k: nat, k2: nat)
    requires k <= k2 <= |all|
    ensures SelectPrefix(all, k) <= SelectPrefix(all, k2)
  {
    if k < k2 {
      PrefixGrows(all, k, k2 - 1);
      var a := SelectPrefix(all, k);
      var b := SelectPrefix(all, k2 - 1);
      var c := SelectPrefix(all, k2);
      assert b == c[..|b|];
      assert a == c[..|a|] by {
        assert a == b[..|a|];
        assert c[..|b|][..|a|] == c[..|a|];
      }
    }
  }

  /** The dates of a prefix are dates of the whole list. */
  lemma DatesOfPrefix(a: seq<DailyWeather>, b: seq<DailyWeather>)
    requires a <= b
    ensures DatesOf(a) <= DatesOf(b)
  {
    forall x | x in DatesOf(a) ensures x in DatesOf(b) {
      var i :| 0 <= i < |a| && a[i].date == x;
      assert b[i] == a[i];
    }
  }

  /** A noon-less sample whose date the loop does not add found five dates selected. */
  lemma SkipNeedsFive(all: seq<DailyWeather>, v: nat)
    requires v < |all| && NoonIndex(all, all[v].date).None?
    requires all[v].date !in DatesOf(SelectPrefix(all, v + 1))
    ensures |SelectPrefix(all, v)| >= MaxFallbackDays
  {
    var p := SelectPrefix(all, v);
    assert all[v].date in DatesOf(p + [all[v]]) by {
      assert (p + [all[v]])[|p|] == all[v];
    }
  }

  /**
   * A date is skipped only when, at its first sample, it has no noon sample
   * and five dates that appear earlier were already selected.
   */
  lemma SkippedWhenFull(all: seq<DailyWeather>, j: nat)
    requires j < |all| && all[j].date !in DatesOf(DailyForecasts(all))
    ensures var r := DailyForecasts(all);
      && NoonIndex(all, all[j].date).None? && |r| >= MaxFallbackDays
      && DateIndex(all, r[MaxFallbackDays - 1].date).Some?
      && DateIndex(all, r[MaxFallbackDays - 1].date).value < DateIndex(all, all[j].date).value
  {
    var r := DailyForecasts(all);
    var d := all[j].date;
    SelectionInvariant(all, |all|);
    var v := DateIndex(all, d).value;
    var p := SelectPrefix(all, v);
    PrefixGrows(all, v + 1, |all|);
    DatesOfPrefix(SelectPrefix(all, v + 1), r);
    SkipNeedsFive(all, v);
    PrefixGrows(all, v, |all|);
    SelectionInvariant(all, v);
    assert r[MaxFallbackDays - 1] == p[MaxFallbackDays - 1];
  }

  /**
   * A date without a noon sample is represented by its first sample, among the
   * first five entries; it is left out only when, at its first sample, five
   * dates that appear earlier were already selected.
   */
  lemma FallbackCapped(all: seq<DailyWeather>)
    ensures var r := DailyForecasts(all);
      && (forall i :: 0 <= i < |r| && NoonIndex(all, r[i].date).None? ==>
            i < MaxFallbackDays && DateIndex(all, r[i].date).Some?
            && r[i] == all[DateIndex(all, r[i].date).value])
      && (forall j :: 0 <= j < |all| && all[j].date !in DatesOf(r) ==>
            && NoonIndex(all, all[j].date).None? && |r| >= MaxFallbackDays
            && DateIndex(all, r[MaxFallbackDays - 1].date).Some?
            && DateIndex(all, r[MaxFallbackDays - 1].date).value < DateIndex(all, all[j].date).value)
  {
    SelectionInvariant(all, |all|);
    var r := DailyForecasts(all);
    forall j | 0 <= j < |all| && all[j].date !in DatesOf(r)
      ensures && NoonIndex(all, all[j].date).None? && |r| >= MaxFallbackDays
              && DateIndex(all, r[MaxFallbackDays - 1].date).Some?
              && DateIndex(all, r[MaxFallbackDays - 1].date).value < DateIndex(all, all[j].date).value
    {
      SkippedWhenFull(all, j);
    }
  }

  /** The dates among `all` that have a noon sample. */
  function NoonDates(all: seq<DailyWeather>): set<string>
  {
    set j | 0 <= j < |all| && NoonIndex(all, all[j].date).Some? :: all[j].date
  }

  /**
   * The cap concerns only dates without a noon sample: there are at least as
   * many daily entries as dates with a noon sample, however many there are.
   */
  lemma NoonDatesUncapped(all: seq<DailyWeather>)
    ensures NoonDates(all) <= DatesOf(DailyForecasts(all))
    ensures |DailyForecasts(all)| >= |NoonDates(all)|
  {
    NoonPreferred(all);
    AtMostOnePerDate(all);
    var r := DailyForecasts(all);
    DistinctDatesCount(r);
    assert NoonDates(all) <= DatesOf(r);
    SubsetCardinality(NoonDates(all), DatesOf(r));
  }

  lemma {:induction false} SubsetCardinality(a: set<string>, b: set<string>)
    requires a <= b
    ensures |a| <= |b|
  {
    if a != {} {
      var x :| x in a;
      SubsetCardinality(a - {x}, b - {x});
    }
  }

  /** A list with one entry per date has as many entries as dates. */
  lemma {:induction false} DistinctDatesCount(r: seq<DailyWeather>)
    requires OnePerDate(r)
    ensures |DatesOf(r)| == |r|
  {
    if r != [] {
      var init := r[..|r| - 1];
      assert OnePerDate(init);
      DistinctDatesCount(init);
      assert r == init + [r[|r| - 1]];
      DatesOfAppend(init, r[|r| - 1]);
      forall i | 0 <= i < |init| ensures init[i].date != r[|r| - 1].date {
      }
    }
  }
}
