/**
 * The forecast service: derives the cache key of a location, returns a cached
 * daily forecast while it is fresh, and otherwise normalises the upstream
 * 5-day/3-hour samples into a daily forecast, caches it and returns it.
 */
module Forecast {
  import opened Wrappers
  import opened Weather
  import opened CacheStore
  import opened DailySelection

  /**
   * One upstream sample: its "YYYY-MM-DD HH:MM:SS" timestamp, the temperature
   * in degrees Celsius, the `main` labels of its weather conditions, the
   * probability of precipitation and the wind speed in m/s.
   */
  datatype RawSample = RawSample(
    dtTxt: string,
    temp: real,
    conditions: seq<string>,
    pop: real,
    windSpeedMs: real)

  /** What the upstream request produced: its sample list, or a failure with the HTTP status if there was a response. */
  datatype FetchOutcome = Fetched(list: seq<RawSample>) | FetchFailed(status: Option<int>)

  /** The failures the service reports. */
  datatype WeatherError = LocationNotFound(location: string) | InvalidApiKey | ServiceUnavailable

  // ---------------------------------------------------------------------------
  // Splitting the timestamp

  /** The parts of a string joined with single spaces (the inverse of Split). */
  function Join(parts: seq<string>): string
    requires |parts| >= 1
  {
    if |parts| == 1 then parts[0] else parts[0] + " " + Join(parts[1..])
  }

  /** The string cut at every space (`split(' ')`). */
  function Split(s: string): (parts: seq<string>)
    ensures |parts| >= 1
    ensures Join(parts) == s
    ensures forall i :: 0 <= i < |parts| ==> ' ' !in parts[i]
  {
    if s == [] then [""]
    else if s[0] == ' ' then
      var rest := Split(s[1..]);
      assert Join([""] + rest) == " " + Join(rest) by {
        assert ([""] + rest)[1..] == rest;
      }
      [""] + rest
    else
      var rest := Split(s[1..]);
      var parts := [[s[0]] + rest[0]] + rest[1..];
      assert Join(parts) == [s[0]] + Join(rest) by {
        if |rest| > 1 {
          assert parts[1..] == rest[1..];
        }
      }
      parts
  }

  lemma {:induction false} SplitPrefix(d: string, rest: string)
    requires ' ' !in d
    ensures Split(d + rest) == [d + Split(rest)[0]] + Split(rest)[1..]
  {
    var tail := Split(rest);
    if d == [] {
      assert d + rest == rest && d + tail[0] == tail[0];
      assert [tail[0]] + tail[1..] == tail;
    } else {
      SplitPrefix(d[1..], rest);
      var inner := Split(d[1..] + rest);
      assert inner[0] == d[1..] + tail[0] && inner[1..] == tail[1..];
      assert (d + rest)[0] == d[0] && (d + rest)[1..] == d[1..] + rest;
      assert Split(d + rest) == [[d[0]] + inner[0]] + inner[1..];
      assert [d[0]] + (d[1..] + tail[0]) == d + tail[0];
    }
  }

  /** Splitting a join of space-free parts gives back the parts. */
  lemma {:induction false} SplitJoin(parts: seq<string>)
    requires |parts| >= 1
    requires forall i :: 0 <= i < |parts| ==> ' ' !in parts[i]
    ensures Split(Join(parts)) == parts
  {
    if |parts| == 1 {
      SplitPrefix(parts[0], "");
      assert parts[0] + "" == parts[0];
    } else {
      SplitJoin(parts[1..]);
      var tail := " " + Join(parts[1..]);
      SplitPrefix(parts[0], tail);
      assert tail[0] == ' ' && tail[1..] == Join(parts[1..]);
      assert Split(tail) == [""] + parts[1..];
      assert Join(parts) == parts[0] + tail;
      assert parts[0] + "" == parts[0];
      assert parts == [parts[0]] + parts[1..];
    }
  }

  lemma {:induction false} JoinHeadPrefix(parts: seq<string>)
    requires |parts| >= 1
    ensures parts[0] <= Join(parts)
  {
    if |parts| > 1 {
      var rest := " " + Join(parts[1..]);
      assert Join(parts) == parts[0] + rest;
      assert (parts[0] + rest)[..|parts[0]|] == parts[0];
    }
  }

  /** The first part, a space and the second part (when there is one) start the string. */
  lemma SplitHeadPrefix(s: string)
    ensures Split(s)[0] <= s
    ensures |Split(s)| >= 2 ==> Split(s)[0] + " " + Split(s)[1] <= s
  {
    var parts := Split(s);
    JoinHeadPrefix(parts);
    if |parts| >= 2 {
      var tail := Join(parts[1..]);
      JoinHeadPrefix(parts[1..]);
      assert parts[1..][0] == parts[1];
      assert tail == parts[1] + tail[|parts[1]|..];
      assert s == parts[0] + " " + tail;
      assert s == (parts[0] + " " + parts[1]) + tail[|parts[1]|..];
    }
  }

  /** A string that splits into one part has no space; the second part ends at a space or at the end. */
  lemma SplitSecondPart(s: string)
    ensures |Split(s)| == 1 ==> ' ' !in s
    ensures |Split(s)| >= 2 ==>
      var n := |Split(s)[0]| + 1 + |Split(s)[1]|;
      n <= |s| && (n == |s| || s[n] == ' ')
  {
    var parts := Split(s);
    if |parts| == 1 {
      assert Join(parts) == parts[0];
    } else {
      SplitHeadPrefix(s);
      var tail := Join(parts[1..]);
      assert s == parts[0] + " " + tail;
      if |parts| > 2 {
        assert tail == parts[1] + " " + Join(parts[2..]) by {
          assert parts[1..][0] == parts[1] && parts[1..][1..] == parts[2..];
        }
        assert s == parts[0] + " " + parts[1] + " " + Join(parts[2..]);
      } else {
        assert tail == parts[1] by {
          assert parts[1..] == [parts[1]];
        }
      }
    }
  }

  /** A string without a space splits into itself alone. */
  lemma SplitSpaceFree(s: string)
    requires ' ' !in s
    ensures Split(s) == [s]
  {
    SplitPrefix(s, "");
    assert s + "" == s;
  }

  /** The calendar date of a timestamp: the text before its first space. */
  function DateOf(dtTxt: string): (d: string)
    ensures ' ' !in d && d <= dtTxt
    ensures ' ' !in dtTxt ==> d == dtTxt
    ensures ' ' in dtTxt ==> |d| < |dtTxt| && dtTxt[|d|] == ' '
  {
    SplitHeadPrefix(dtTxt);
    SplitSecondPart(dtTxt);
    if ' ' !in dtTxt then SplitSpaceFree(dtTxt); Split(dtTxt)[0]
    else Split(dtTxt)[0]
  }

  /** The time of day of a timestamp: the text after its first space ("" when there is none). */
  function TimeOf(dtTxt: string): (t: string)
    ensures ' ' !in t
    ensures ' ' !in dtTxt ==> t == ""
    ensures t != "" ==> DateOf(dtTxt) + " " + t <= dtTxt
    ensures ' ' in dtTxt ==>
      var n := |DateOf(dtTxt)| + 1 + |t|;
      n <= |dtTxt| && (n == |dtTxt| || dtTxt[n] == ' ')
  {
    SplitHeadPrefix(dtTxt);
    SplitSecondPart(dtTxt);
    var parts := Split(dtTxt);
    if ' ' !in dtTxt then SplitSpaceFree(dtTxt); ""
    else if |parts| >= 2 then parts[1] else ""
  }

  /** A well-formed timestamp "date time" splits into that date and that time. */
  lemma DateTimeOfTimestamp(date: string, time: string)
    requires ' ' !in date && ' ' !in time
    ensures DateOf(date + " " + time) == date
    ensures TimeOf(date + " " + time) == time
  {
    SplitJoin([date, time]);
    assert Join([date, time]) == date + " " + time by {
      assert [date, time][1..] == [time];
    }
  }

  // ---------------------------------------------------------------------------
  // Transforming samples

  /** One upstream sample in the internal format; wind speed from m/s to km/h. */
  function ToDaily(item: RawSample): (w: DailyWeather)
    requires |item.conditions| > 0
    ensures w.date + (if w.time == "" then "" else " " + w.time) <= item.dtTxt
    ensures ' ' !in w.date && ' ' !in w.time
    ensures w.windSpeed == item.windSpeedMs * 3.6
    ensures w.temp == item.temp && w.precipitationProb == item.pop
    ensures w.condition == item.conditions[0]
  {
    DailyWeather(
      date := DateOf(item.dtTxt),
      time := TimeOf(item.dtTxt),
      temp := item.temp,
      condition := item.conditions[0],
      precipitationProb := item.pop,
      windSpeed := item.windSpeedMs * 3.6)
  }

  /**
   * Every sample in the internal format, in order; absent when a sample has no
   * weather condition (reading the first condition of an empty list throws).
   */
  function Transform(raw: seq<RawSample>): (r: Option<seq<DailyWeather>>)
    ensures r.Some? <==> forall i :: 0 <= i < |raw| ==> |raw[i].conditions| > 0
    ensures r.Some? ==> |r.value| == |raw|
    ensures r.Some? ==> forall i :: 0 <= i < |raw| ==> r.value[i] == ToDaily(raw[i])
  {
    if raw == [] then Some([])
    else if |raw[0].conditions| == 0 then None
    else match Transform(raw[1..])
      case None => None
      case Some(rest) => Some([ToDaily(raw[0])] + rest)
  }

  /** A sample stamped "date time" gets exactly that date and that time. */
  lemma ToDailySplitsTimestamp(item: RawSample, date: string, time: string)
    requires |item.conditions| > 0
    requires item.dtTxt == date + " " + time && ' ' !in date && ' ' !in time
    ensures ToDaily(item).date == date && ToDaily(item).time == time
  {
    DateTimeOfTimestamp(date, time);
  }

  /** Every transformed sample stamped "date time" carries exactly that date and that time. */
  lemma TransformSplitsTimestamp(raw: seq<RawSample>, i: nat, date: string, time: string)
    requires Transform(raw).Some? && i < |raw|
    requires raw[i].dtTxt == date + " " + time && ' ' !in date && ' ' !in time
    ensures Transform(raw).value[i].date == date && Transform(raw).value[i].time == time
  {
    ToDailySplitsTimestamp(raw[i], date, time);
  }

  // ---------------------------------------------------------------------------
  // The cache key

  /** An ASCII letter in lower case; other characters unchanged. */
  function LowerChar(c: char): char
  {
    if 'A' <= c <= 'Z' then (c as int + 32) as char else c
  }

  /** The string in lower case (`toLowerCase`). */
  function Lower(s: string): (r: string)
    ensures |r| == |s|
    ensures forall i :: 0 <= i < |s| ==> r[i] == LowerChar(s[i])
  {
    if s == [] then [] else [LowerChar(s[0])] + Lower(s[1..])
  }

  const CacheKeyPrefix: string := "weather_"

  /** The cache key of a location. */
  function CacheKey(location: string): (key: string)
    ensures |key| == |CacheKeyPrefix| + |location|
    ensures key[..|CacheKeyPrefix|] == CacheKeyPrefix
    ensures forall i :: 0 <= i < |location| ==> key[|CacheKeyPrefix| + i] == LowerChar(location[i])
  {
    CacheKeyPrefix + Lower(location)
  }

  /** Two locations share a cache entry exactly when they differ only in letter case. */
  lemma CacheKeyIgnoresCase(a: string, b: string)
    ensures CacheKey(a) == CacheKey(b) <==>
      |a| == |b| && forall i :: 0 <= i < |a| ==> LowerChar(a[i]) == LowerChar(b[i])
  {
    if |a| == |b| && forall i :: 0 <= i < |a| ==> LowerChar(a[i]) == LowerChar(b[i]) {
      assert Lower(a) == Lower(b);
    }
    if CacheKey(a) == CacheKey(b) {
      assert Lower(a) == CacheKey(a)[|CacheKeyPrefix|..];
      assert Lower(b) == CacheKey(b)[|CacheKeyPrefix|..];
      forall i | 0 <= i < |a| ensures LowerChar(a[i]) == LowerChar(b[i]) {
        assert Lower(a)[i] == Lower(b)[i];
      }
    }
  }

  /** A location and its lower-case form share a cache entry. */
  lemma CacheKeyOfLower(location: string)
    ensures CacheKey(Lower(location)) == CacheKey(location)
  {
    assert Lower(Lower(location)) == Lower(location);
  }

  // ---------------------------------------------------------------------------
  // Errors

  /** The error reported for a failed fetch, from the HTTP status of the response if there was one. */
  function ErrorFor(location: string, status: Option<int>): (e: WeatherError)
    ensures e.LocationNotFound? <==> status == Some(404)
    ensures e.InvalidApiKey? <==> status == Some(401)
    ensures e.LocationNotFound? ==> e.location == location
  {
    match status
    case Some(404) => LocationNotFound(location)
    case Some(401) => InvalidApiKey
    case _ => ServiceUnavailable
  }

  const NotFoundOpening: string := "Location '"
  const NotFoundClosing: string := "' not found."

  /** The message of an error; a location that is not found is quoted in its message. */
  function ErrorMessage(e: WeatherError): (m: string)
    ensures e.LocationNotFound? ==>
      && |m| == |NotFoundOpening| + |e.location| + |NotFoundClosing|
      && m[..|NotFoundOpening|] == NotFoundOpening
      && m[|NotFoundOpening|..|m| - |NotFoundClosing|] == e.location
      && m[|m| - |NotFoundClosing|..] == NotFoundClosing
    ensures e.InvalidApiKey? ==> m == "Invalid API Key."
    ensures e.ServiceUnavailable? ==> m == "Weather service is currently unavailable."
  {
    match e
    case LocationNotFound(location) => NotFoundOpening + location + NotFoundClosing
    case InvalidApiKey => "Invalid API Key."
    case ServiceUnavailable => "Weather service is currently unavailable."
  }

  /** Errors of different kinds have different messages. */
  lemma ErrorMessagesDistinct(e1: WeatherError, e2: WeatherError)
    ensures ErrorMessage(e1) == ErrorMessage(e2) ==>
      (e1.LocationNotFound? <==> e2.LocationNotFound?) && (e1.InvalidApiKey? <==> e2.InvalidApiKey?)
  {
    if e1.LocationNotFound? != e2.LocationNotFound? || e1.InvalidApiKey? != e2.InvalidApiKey? {
      assert ErrorMessage(e1)[0] != ErrorMessage(e2)[0];
    }
  }

  // ---------------------------------------------------------------------------
  // The service

  /** What a cache miss yields: the normalised daily forecast, or the error. */
  function Normalise(location: string, fetched: FetchOutcome): (r: Result<seq<DailyWeather>, WeatherError>)
    ensures r.Ok? <==> fetched.Fetched? && Transform(fetched.list).Some?
    ensures r.Ok? ==> r.value == DailyForecasts(Transform(fetched.list).value)
    ensures fetched.FetchFailed? ==> r == Err(ErrorFor(location, fetched.status))
    ensures fetched.Fetched? && r.Err? ==> r.error == ServiceUnavailable
    ensures r.Ok? ==> |r.value| <= |fetched.list| && (fetched.list != [] <==> r.value != [])
  {
    match fetched
    case FetchFailed(status) => Err(ErrorFor(location, status))
    case Fetched(list) =>
      match Transform(list)
      case None => Err(ServiceUnavailable)
      case Some(samples) => Ok(DailyForecasts(samples))
  }

  /**
   * The daily forecast of a location: the cached one if it is fresh at `now`;
   * otherwise the normalised `fetched` samples, cached at `fetchedAt` under
   * the location's key before they are returned. `fetched` stands for the
   * upstream request, which is made only on a miss.
   */
  method GetWeatherForecast(cache: Cache<seq<DailyWeather>>, location: string, now: int,
                            fetched: FetchOutcome, fetchedAt: int)
    returns (r: Result<seq<DailyWeather>, WeatherError>)
    modifies cache
    ensures var hit := Lookup(old(cache.store), CacheKey(location), now);
      hit.Some? ==> r == Ok(hit.value) && cache.store == old(cache.store)
    ensures var key := CacheKey(location);
      var afterGet := AfterLookup(old(cache.store), key, now);
      Lookup(old(cache.store), key, now).None? ==>
        && r == Normalise(location, fetched)
        && (r.Ok? ==> cache.store == Store(afterGet, key, r.value, fetchedAt))
        && (r.Err? ==> cache.store == afterGet)
  {
    var cacheKey := CacheKey(location);
    var cachedData := cache.Get(cacheKey, now);
    if cachedData.Some? {
      return Ok(cachedData.value);
    }
    match fetched
    case FetchFailed(status) =>
      return Err(ErrorFor(location, status));
    case Fetched(list) =>
      var transformed := Transform(list);
      if transformed.None? {
        return Err(ServiceUnavailable);
      }
      var dailyForecasts := SelectDaily(transformed.value);
      cache.Set(cacheKey, dailyForecasts, fetchedAt);
      return Ok(dailyForecasts);
  }
}
