/**
 * The rule-based suitability scorer: one day's weather is tested against the
 * profile of an event type on four independent pass/fail criteria, and the
 * points of the criteria that pass are summed.
 */
module Scoring {
  import opened Wrappers
  import opened Weather

  /** The ideal temperature range, both bounds inclusive, and its points. */
  datatype TempRule = TempRule(low: real, high: real, points: nat)

  /** An inclusive upper limit and its points (precipitation in percent, wind in km/h). */
  datatype LimitRule = LimitRule(max: real, points: nat)

  /** The condition labels that count as good, and their points. */
  datatype ConditionRule = ConditionRule(ideal: seq<string>, points: nat)

  /** The rule set of one event type. */
  datatype Profile = Profile(
    temp: TempRule,
    precipitation: LimitRule,
    wind: LimitRule,
    condition: ConditionRule)

  const DefaultEventType: string := "Outdoor Sports"

  /** The fixed, read-only profile table, keyed by event type. */
  const ScoreThresholds: map<string, Profile> := map[
    "Outdoor Sports" := Profile(
      TempRule(15.0, 30.0, 30), LimitRule(20.0, 25), LimitRule(20.0, 20),
      ConditionRule(["Clear", "Clouds"], 25)),
    "Wedding" := Profile(
      TempRule(18.0, 28.0, 30), LimitRule(10.0, 30), LimitRule(15.0, 25),
      ConditionRule(["Clear", "Clouds"], 15)),
    "Hiking Trip" := Profile(
      TempRule(10.0, 25.0, 30), LimitRule(30.0, 25), LimitRule(25.0, 20),
      ConditionRule(["Clear", "Clouds", "Mist"], 25))
  ]

  /** The profile used for an event type: its own, or silently the default one. */
  function ProfileFor(eventType: string): (p: Profile)
    ensures p in ScoreThresholds.Values
    ensures eventType in ScoreThresholds ==> p == ScoreThresholds[eventType]
  {
    if eventType in ScoreThresholds then ScoreThresholds[eventType]
    else ScoreThresholds[DefaultEventType]
  }

  /** The four criteria, the keys of a breakdown. */
  datatype Criterion = Temp | Precipitation | Wind | Condition

  const AllCriteria: set<Criterion> := {Temp, Precipitation, Wind, Condition}

  /** The fixed reason shown beside the points of a criterion. */
  datatype Label = Ideal | NotIdeal | LowChance | HighChance | Calm | Windy | Good

  /** The points awarded for one criterion and the reason, "+points (reason)". */
  datatype Award = Award(points: nat, reason: Label)

  /** The score, the per-criterion breakdown and, when there is no weather, a message. */
  datatype Suitability = Suitability(
    score: nat,
    breakdown: map<Criterion, Award>,
    message: Option<string>)

  const NoWeatherMessage: string := "Weather data not available."

  /** The most a profile can award: the sum of its four point values. */
  function MaxScore(p: Profile): nat
  {
    p.temp.points + p.precipitation.points + p.wind.points + p.condition.points
  }

  /** The pass/fail test of one criterion against a profile. */
  predicate Passes(c: Criterion, p: Profile, w: DailyWeather)
  {
    match c
    case Temp => p.temp.low <= w.temp <= p.temp.high
    case Precipitation => w.precipitationProb * 100.0 <= p.precipitation.max
    case Wind => w.windSpeed <= p.wind.max
    case Condition => w.condition in p.condition.ideal
  }

  /** The points a profile gives a criterion that passes. */
  function PointsFor(c: Criterion, p: Profile): nat
  {
    match c
    case Temp => p.temp.points
    case Precipitation => p.precipitation.points
    case Wind => p.wind.points
    case Condition => p.condition.points
  }

  /** The reason shown for a criterion, by whether it passed. */
  function LabelFor(c: Criterion, passed: bool): Label
  {
    match c
    case Temp => if passed then Ideal else NotIdeal
    case Precipitation => if passed then LowChance else HighChance
    case Wind => if passed then Calm else Windy
    case Condition => if passed then Good else NotIdeal
  }

  /** The award of one criterion: all of its points if it passes, none otherwise. */
  function AwardFor(c: Criterion, p: Profile, w: DailyWeather): Award
  {
    if Passes(c, p, w) then Award(PointsFor(c, p), LabelFor(c, true))
    else Award(0, LabelFor(c, false))
  }

  /**
   * The suitability of a day's weather (absent when there is no forecast)
   * for an event type.
   */
  function CalculateSuitability(weather: Option<DailyWeather>, eventType: string): (r: Suitability)
    ensures weather.None? ==>
      r.score == 0 && r.breakdown == map[] && r.message == Some(NoWeatherMessage)
    ensures weather.Some? ==> r.message == None && r.breakdown.Keys == AllCriteria
    ensures weather.Some? ==>
      r.score == r.breakdown[Temp].points + r.breakdown[Precipitation].points
                 + r.breakdown[Wind].points + r.breakdown[Condition].points
    ensures weather.Some? ==> forall c :: c in r.breakdown ==>
      && (r.breakdown[c].points > 0 <==> Passes(c, ProfileFor(eventType), weather.value))
      && (r.breakdown[c].points == if Passes(c, ProfileFor(eventType), weather.value)
                                   then PointsFor(c, ProfileFor(eventType)) else 0)
      && r.breakdown[c].reason == LabelFor(c, Passes(c, ProfileFor(eventType), weather.value))
    ensures r.score <= MaxScore(ProfileFor(eventType)) == 100
  {
    var criteria := ProfileFor(eventType);
    ProfilesArePositive();
    match weather
    case None => Suitability(0, map[], Some(NoWeatherMessage))
    case Some(w) =>
      var temp := AwardFor(Temp, criteria, w);
      var precipitation := AwardFor(Precipitation, criteria, w);
      var wind := AwardFor(Wind, criteria, w);
      var condition := AwardFor(Condition, criteria, w);
      Suitability(
        temp.points + precipitation.points + wind.points + condition.points,
        map[Temp := temp, Precipitation := precipitation, Wind := wind, Condition := condition],
        None)
  }

  /** Every profile of the table awards a positive amount per criterion, 100 in all. */
  lemma ProfilesArePositive()
    ensures forall p, c :: p in ScoreThresholds.Values ==> PointsFor(c, p) > 0
    ensures forall p :: p in ScoreThresholds.Values ==> MaxScore(p) == 100
  {
    forall p | p in ScoreThresholds.Values
      ensures p == ScoreThresholds["Outdoor Sports"] || p == ScoreThresholds["Wedding"]
              || p == ScoreThresholds["Hiking Trip"]
    {
      var t :| t in ScoreThresholds && ScoreThresholds[t] == p;
    }
  }

  /** An event type without a profile is scored exactly as "Outdoor Sports". */
  lemma UnknownTypeScoresAsDefault(weather: Option<DailyWeather>, eventType: string)
    requires eventType !in ScoreThresholds
    ensures CalculateSuitability(weather, eventType)
         == CalculateSuitability(weather, DefaultEventType)
  {
  }

  /** A day scores the full 100 exactly when all four criteria pass. */
  lemma PerfectScoreIffAllPass(w: DailyWeather, eventType: string)
    ensures CalculateSuitability(Some(w), eventType).score == 100
        <==> forall c :: Passes(c, ProfileFor(eventType), w)
  {
    var p := ProfileFor(eventType);
    var r := CalculateSuitability(Some(w), eventType);
    ProfilesArePositive();
    if r.score == 100 {
      forall c ensures Passes(c, p, w) {
        assert c in AllCriteria by {
          match c
          case Temp =>
          case Precipitation =>
          case Wind =>
          case Condition =>
        }
      }
    } else {
      assert !Passes(Temp, p, w) || !Passes(Precipitation, p, w)
          || !Passes(Wind, p, w) || !Passes(Condition, p, w);
    }
  }

  /** A day scores 0 exactly when no criterion passes. */
  lemma ZeroScoreIffNonePass(w: DailyWeather, eventType: string)
    ensures CalculateSuitability(Some(w), eventType).score == 0
        <==> forall c :: !Passes(c, ProfileFor(eventType), w)
  {
    var p := ProfileFor(eventType);
    var r := CalculateSuitability(Some(w), eventType);
    if r.score == 0 {
      forall c ensures !Passes(c, p, w) {
        assert c in AllCriteria by {
          match c
          case Temp =>
          case Precipitation =>
          case Wind =>
          case Condition =>
        }
      }
    }
  }
}
