/**
 * The lookups the event endpoints make in a daily forecast: the weather of
 * the event's own date, and the ranking of every forecast day by suitability
 * with the days strictly better than the event's date.
 */
module Alternatives {
  import opened Wrappers
  import opened Weather
  import opened Scoring
  import opened DailySelection

  /** A forecast day as offered for rescheduling: its date, its score and what the user is shown of its weather. */
  datatype Alternative = Alternative(
    date: string,
    score: nat,
    temp: real,
    condition: string,
    windSpeed: real)

  /** The forecast does not cover the event's date, or there is no forecast at all. */
  datatype LookupError = ForecastNotAvailable(date: string) | NoForecast(location: string)

  /** The response of the alternatives endpoint. */
  datatype Ranking = Ranking(message: string, alternatives: seq<Alternative>)

  const NoBetterMessage: string := "No better weather days found in the forecast."
  const BetterMessage: string := "Alternative dates with better weather:"

  const NotAvailableOpening: string := "Weather forecast not available for "
  const NotAvailableClosing: string := ". Forecasts are typically available for the next 5 days."
  const NoForecastOpening: string := "No weather forecast available for "

  /** The message of a lookup error, which names the missing date or the location. */
  function LookupErrorMessage(e: LookupError): (m: string)
    ensures e.ForecastNotAvailable? ==>
      && |m| == |NotAvailableOpening| + |e.date| + |NotAvailableClosing|
      && m[..|NotAvailableOpening|] == NotAvailableOpening
      && m[|NotAvailableOpening|..|m| - |NotAvailableClosing|] == e.date
      && m[|m| - |NotAvailableClosing|..] == NotAvailableClosing
    ensures e.NoForecast? ==>
      && |m| == |NoForecastOpening| + |e.location|
      && m[..|NoForecastOpening|] == NoForecastOpening
      && m[|NoForecastOpening|..] == e.location
  {
    match e
    case ForecastNotAvailable(date) => NotAvailableOpening + date + NotAvailableClosing
    case NoForecast(location) => NoForecastOpening + location
  }

  // ---------------------------------------------------------------------------
  // The event's own date

  /** The first forecast entry for the event's date, or the error when there is none. */
  function EventWeather(forecast: seq<DailyWeather>, date: string): (r: Result<DailyWeather, LookupError>)
    ensures r.Ok? <==> exists i :: 0 <= i < |forecast| && forecast[i].date == date
    ensures r.Ok? ==> r.value in forecast && r.value.date == date
    ensures r.Ok? ==> forall j :: 0 <= j < |forecast| && forecast[j] != r.value ==>
      forecast[j].date != date || exists i :: 0 <= i < j && forecast[i] == r.value
    ensures r.Err? ==> r.error == ForecastNotAvailable(date)
  {
    match DateIndex(forecast, date)
    case None => Err(ForecastNotAvailable(date))
    case Some(i) => Ok(forecast[i])
  }

  /** The suitability of the event's date, as the suitability endpoint reports it. */
  function EventSuitability(forecast: seq<DailyWeather>, date: string, eventType: string)
    : (r: Result<Suitability, LookupError>)
    ensures r.Ok? <==> EventWeather(forecast, date).Ok?
    ensures r.Ok? ==> r.value.message == None && r.value.breakdown.Keys == AllCriteria
    ensures r.Ok? ==> r.value.score <= 100
    ensures r.Ok? ==> r.value == CalculateSuitability(Some(EventWeather(forecast, date).value), eventType)
    ensures r.Err? ==> r.error == ForecastNotAvailable(date)
  {
    match EventWeather(forecast, date)
    case Err(e) => Err(e)
    case Ok(w) => Ok(CalculateSuitability(Some(w), eventType))
  }

  // ---------------------------------------------------------------------------
  // Ranking

  /** A forecast day with its score for the event type. */
  function ToAlternative(w: DailyWeather, eventType: string): Alternative
  {
    Alternative(w.date, CalculateSuitability(Some(w), eventType).score, w.temp, w.condition, w.windSpeed)
  }

  /** Every forecast day with its score, in forecast order. */
  function ScoreAll(forecast: seq<DailyWeather>, eventType: string): (r: seq<Alternative>)
    ensures |r| == |forecast|
    ensures forall i :: 0 <= i < |r| ==> r[i] == ToAlternative(forecast[i], eventType)
  {
    if forecast == [] then []
    else [ToAlternative(forecast[0], eventType)] + ScoreAll(forecast[1..], eventType)
  }

  /** Scores never increase along the sequence. */
  ghost predicate SortedByScore(s: seq<Alternative>)
  {
    forall i, j :: 0 <= i < j < |s| ==> s[i].score >= s[j].score
  }

  /** `a` placed into a sequence sorted by score, before the entries of equal score. */
  function Insert(a: Alternative, s: seq<Alternative>): (r: seq<Alternative>)
    requires SortedByScore(s)
    ensures multiset(r) == multiset(s) + multiset{a}
    ensures SortedByScore(r)
    ensures r[0] == a || (s != [] && r[0] == s[0])
  {
    if s == [] || a.score >= s[0].score then
      [a] + s
    else
      var rest := Insert(a, s[1..]);
      assert s == [s[0]] + s[1..];
      assert s[0].score >= rest[0].score;
      [s[0]] + rest
  }

  /** The days ordered by non-increasing score (`sort((a, b) => b.score - a.score)`). */
  function SortByScore(s: seq<Alternative>): (r: seq<Alternative>)
    ensures multiset(r) == multiset(s)
    ensures SortedByScore(r)
  {
    if s == [] then []
    else
      assert s == [s[0]] + s[1..];
      Insert(s[0], SortByScore(s[1..]))
  }

  /** The score of the event's own date: that of its first forecast entry, or 0 if it has none. */
  function CurrentScore(forecast: seq<DailyWeather>, eventDate: string, eventType: string): (score: nat)
    ensures EventWeather(forecast, eventDate).Err? ==> score == 0
    ensures EventWeather(forecast, eventDate).Ok? ==>
      score == CalculateSuitability(Some(EventWeather(forecast, eventDate).value), eventType).score
  {
    match EventWeather(forecast, eventDate)
    case Err(_) => 0
    case Ok(w) => CalculateSuitability(Some(w), eventType).score
  }

  /** A day is a better alternative: it scores strictly higher and is not the event's date. */
  predicate IsBetter(a: Alternative, currentScore: nat, eventDate: string)
  {
    a.score > currentScore && a.date != eventDate
  }

  /** The better alternatives, in the order of `s`. */
  function FilterBetter(s: seq<Alternative>, currentScore: nat, eventDate: string): (r: seq<Alternative>)
    ensures forall a :: a in r ==> IsBetter(a, currentScore, eventDate)
    ensures forall a ::
              multiset(r)[a] == (if IsBetter(a, currentScore, eventDate) then multiset(s)[a] else 0)
  {
    if s == [] then []
    else
      var rest := FilterBetter(s[1..], currentScore, eventDate);
      assert s == [s[0]] + s[1..];
      if IsBetter(s[0], currentScore, eventDate) then [s[0]] + rest else rest
  }

  /** No entry scores more than `bound`. */
  ghost predicate ScoresAtMost(s: seq<Alternative>, bound: nat)
  {
    forall i :: 0 <= i < |s| ==> s[i].score <= bound
  }

  lemma {:induction false} FilterBetterBounded(s: seq<Alternative>, currentScore: nat, eventDate: string, bound: nat)
    requires ScoresAtMost(s, bound)
    ensures ScoresAtMost(FilterBetter(s, currentScore, eventDate), bound)
  {
    if s != [] {
      FilterBetterBounded(s[1..], currentScore, eventDate, bound);
    }
  }

  /** Filtering a ranked list keeps it ranked. */
  lemma {:induction false} FilterBetterSorted(s: seq<Alternative>, currentScore: nat, eventDate: string)
    requires SortedByScore(s)
    ensures SortedByScore(FilterBetter(s, currentScore, eventDate))
  {
    if s != [] {
      FilterBetterSorted(s[1..], currentScore, eventDate);
      FilterBetterBounded(s[1..], currentScore, eventDate, s[0].score);
    }
  }

  /**
   * The alternatives endpoint: every forecast day ranked by score; only the
   * strictly better ones other than the event's date if there are any, with
   * the matching message.
   */
  function FindAlternatives(forecast: seq<DailyWeather>, location: string, eventDate: string, eventType: string)
    : (r: Result<Ranking, LookupError>)
    ensures r.Err? <==> forecast == []
    ensures r.Err? ==> r.error == NoForecast(location)
    ensures r.Ok? ==> SortedByScore(r.value.alternatives)
    ensures r.Ok? ==>
      var scored := ScoreAll(forecast, eventType);
      var current := CurrentScore(forecast, eventDate, eventType);
      if exists a :: a in scored && IsBetter(a, current, eventDate) then
        && r.value.message == BetterMessage
        && (forall a :: a in r.value.alternatives ==> IsBetter(a, current, eventDate))
        && (forall a :: IsBetter(a, current, eventDate) ==>
              multiset(r.value.alternatives)[a] == multiset(scored)[a])
      else
        && r.value.message == NoBetterMessage
        && multiset(r.value.alternatives) == multiset(scored)
  {
    if forecast == [] then Err(NoForecast(location))
    else
      var alternatives := SortByScore(ScoreAll(forecast, eventType));
      var currentScore := CurrentScore(forecast, eventDate, eventType);
      var betterAlternatives := FilterBetter(alternatives, currentScore, eventDate);
      FilterBetterSorted(alternatives, currentScore, eventDate);
      NoBetterIffFilterEmpty(ScoreAll(forecast, eventType), alternatives, currentScore, eventDate);
      if |betterAlternatives| == 0 then
        Ok(Ranking(NoBetterMessage, alternatives))
      else
        Ok(Ranking(BetterMessage, betterAlternatives))
  }

  /** Some day is better exactly when the filter of the ranked days is not empty. */
  lemma NoBetterIffFilterEmpty(scored: seq<Alternative>, ranked: seq<Alternative>, currentScore: nat, eventDate: string)
    requires multiset(ranked) == multiset(scored)
    ensures FilterBetter(ranked, currentScore, eventDate) == [] <==>
      !exists a :: a in scored && IsBetter(a, currentScore, eventDate)
  {
    var better := FilterBetter(ranked, currentScore, eventDate);
    if better != [] {
      assert multiset(better)[better[0]] > 0;
      assert better[0] in multiset(scored);
    } else {
      forall a | a in scored ensures !IsBetter(a, currentScore, eventDate) {
        assert multiset(scored)[a] > 0;
        assert multiset(better)[a] == 0;
      }
    }
  }
}
