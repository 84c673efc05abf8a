# Weather suitability for planned events — a Dafny model

The service stores events (a name, a location, a date and an activity type),
fetches a 5-day/3-hour weather forecast for each event's location and scores
how well a day's weather suits the activity. This project models the part of
it that makes decisions, and proves what it does:

- the **forecast cache** (`cache.dfy`, module `CacheStore`): a map from key to
  (value, expiry) with a fixed time to live of four hours (14,400,000 ms).
  Expired entries are removed lazily, when they are read. It is a class whose
  `store` field is reassigned by `Set`, `Get` and `Clear`. Pure functions
  `Lookup`, `AfterLookup` and `Store` specify those methods.
- the **forecast service** (`forecast.dfy`, module `Forecast`): the cache key
  `"weather_" + lower-case location`, the hit/miss path, the split of the
  upstream timestamp into date and time, the conversion of wind speed from m/s
  to km/h, and the mapping of upstream failures to the three error kinds.
- the **daily selection** (`daily.dfy`, module `DailySelection`): the loop that
  keeps one sample per calendar date. It prefers the first noon (12:00:00)
  sample of a date. A date without one falls back to its first sample, but
  only while fewer than five dates are selected. The method `SelectDaily` is
  proved equal to the function `DailyForecasts`. The one-per-date, order, noon
  and fallback properties of the result follow from one induction
  (`SelectionInvariant`); its length facts and the entry count of
  `NoonDatesUncapped` come from separate inductions.
- the **suitability scorer** (`scoring.dfy`, module `Scoring`): the fixed
  profile table, the silent fallback to "Outdoor Sports", and four independent
  pass/fail criteria whose points are summed.
- the **alternative-date ranker** (`alternatives.dfy`, module `Alternatives`):
  every forecast day is scored and ranked by non-increasing score. The days
  strictly better than the event's own date are kept, and the message says
  whether there were any.

`weather.dfy` holds the internal record `DailyWeather`; `wrappers.dfy` holds
`Option` and `Result`.

Two facts about the code that a reader of the service might not expect:

- The fallback cap applies only to dates without a noon (12:00:00) sample; a
  date with one is always added. The daily forecast can therefore have more
  than five entries: `NoonDatesUncapped` proves that it has at least as many
  entries as there are dates with a noon sample, so six such dates give at
  least six entries.
- ECMAScript's `Array.prototype.sort` is stable, so days of equal score keep
  their forecast order. See "## Left out" for what the model states about it.

## Model

| member | source | states |
|---|---|---|
| Scoring.ProfileFor | utils/scoring.js:25 | the profile is always one of the table's; for an event type in the table it is that type's own profile |
| Scoring.CalculateSuitability | utils/scoring.js:24-66 | without weather: score 0, empty breakdown, the message "Weather data not available."; with weather: no message, the breakdown has exactly the keys temp/precipitation/wind/condition, the score is the sum of the four awarded amounts, each award is the criterion's points when its threshold test passes (inclusive temperature range, precipitation probability × 100 ≤ max, wind ≤ max, condition in the ideal list) and 0 otherwise, with the pass or fail label; the score is at most the profile's total, which is 100 |
| Scoring.ProfilesArePositive | utils/scoring.js:2-22 | every profile of the table gives each criterion a positive number of points, and the four sum to 100 |
| Scoring.UnknownTypeScoresAsDefault | utils/scoring.js:25 | an event type not in the table scores exactly as "Outdoor Sports" for the same weather |
| Scoring.PerfectScoreIffAllPass | utils/scoring.js:30-65 | a day scores 100 if and only if all four criteria pass |
| Scoring.ZeroScoreIffNonePass | utils/scoring.js:30-65 | a day scores 0 if and only if no criterion passes |
| CacheStore.Lookup | utils/cache.js:13-25 | a read returns nothing for a missing key or when now > expiry, and the stored value when now ≤ expiry (boundary inclusive) |
| CacheStore.AfterLookup | utils/cache.js:19-22 | a read never adds keys and never changes a value; it removes the read key exactly when that key has expired; all other keys stay |
| CacheStore.Store | utils/cache.js:5-11 | a write sets the key to the value with expiry now + 14,400,000 ms and leaves every other key as it was |
| CacheStore.Cache.constructor | utils/cache.js:2 | a new cache is empty |
| CacheStore.Cache.Set | utils/cache.js:5-11 | the new store is the old one with the key replaced by a fresh entry |
| CacheStore.Cache.Get | utils/cache.js:13-25 | returns what `Lookup` gives on the old store, and leaves the store as `AfterLookup` gives: an expired entry is deleted, nothing else changes |
| CacheStore.Cache.Clear | utils/cache.js:27-29 | the store is empty afterwards |
| CacheStore.ReadWithinTtl | utils/cache.js:3-24 | after a write at t, a read at any now ≤ t + 14,400,000 returns the written value and leaves the store unchanged |
| CacheStore.ReadAfterTtl | utils/cache.js:19-22 | after a write at t, a read at now > t + 14,400,000 returns nothing and removes only that key |
| CacheStore.ReadFromEmpty | utils/cache.js:13-17 | nothing can be read from a new or cleared cache |
| CacheStore.WriteIsolated | utils/cache.js:5-11 | a write under one key does not change what a read under another key returns |
| Forecast.Split | routes/events.js:45-46 | cutting the timestamp at spaces gives at least one part, no part contains a space, and joining the parts with spaces gives the timestamp back |
| Forecast.SplitJoin | routes/events.js:45-46 | splitting a space-joined list of space-free parts gives back those parts |
| Forecast.DateTimeOfTimestamp | routes/events.js:45-46 | for a timestamp "date time", the date is the part before the space and the time the part after it |
| Forecast.SplitSecondPart | routes/events.js:45-46 | a string that splits into one part has no space; when there are two or more parts, the second one ends at a space or at the end of the string |
| Forecast.SplitHeadPrefix | routes/events.js:45-46 | the first part of the split, followed by a space and the second part when there is one, is a prefix of the string |
| Forecast.DateOf | routes/events.js:45 | the date contains no space and is a prefix of the timestamp; a timestamp without a space is all date; in one with a space the date stops exactly at the first space |
| Forecast.TimeOf | routes/events.js:46 | the time contains no space; it is empty when the timestamp has no space; a non-empty time follows the date and a space at the start of the timestamp; when there is a space the time runs up to the next space or to the end |
| Forecast.ToDaily | routes/events.js:44-51 | a sample's date and time form a prefix of its timestamp and contain no space (exactly the two halves of a "date time" stamp, by `ToDailySplitsTimestamp`); wind speed is m/s × 3.6; temperature and precipitation probability are copied; the condition is the first weather condition's label |
| Forecast.Transform | routes/events.js:44-51 | the transform fails exactly when some sample has no weather condition; otherwise it keeps length and order, converting each sample in place |
| Forecast.ToDailySplitsTimestamp | routes/events.js:44-46 | a sample stamped "date time" (both without spaces) gets exactly that date and that time |
| Forecast.TransformSplitsTimestamp | routes/events.js:44-46 | every transformed sample stamped "date time" carries exactly that date and that time |
| Forecast.Lower | routes/events.js:31 | lower-casing keeps the length and maps each character to its lower-case form |
| Forecast.CacheKey | routes/events.js:31 | the key is the "weather_" prefix followed by the location lower-cased character by character |
| Forecast.CacheKeyIgnoresCase | routes/events.js:31 | two locations have the same cache key if and only if they differ only in letter case |
| Forecast.CacheKeyOfLower | routes/events.js:31 | a location and its lower-case form share a cache entry |
| Forecast.ErrorFor | routes/events.js:73-79 | an upstream 404 gives "location not found" with that location, a 401 gives "invalid API key", and every other failure, with or without a response, gives "service unavailable" |
| Forecast.ErrorMessagesDistinct | routes/events.js:75-78 | errors of different kinds have different messages |
| Forecast.ErrorMessage | routes/events.js:75-78 | the not-found message quotes the location between "Location '" and "' not found."; the other two kinds have their fixed messages |
| Forecast.GetWeatherForecast | routes/events.js:30-80 | on a hit (a fresh entry under the location's key) it returns the stored list unchanged and does not change the cache; on a miss it returns the normalised forecast or the mapped error, and on success it stores the returned list under the key, written at fetch time, on top of the store as the read left it |
| Forecast.Normalise | routes/events.js:44-78 | a miss succeeds exactly when the fetch succeeded and every sample has a weather condition; the result is then the daily selection of the transformed samples, no longer than the sample list and empty only when it is empty; a failed fetch gives the error mapped from its status, a sample without a condition gives "service unavailable" |
| DailySelection.DateIndex | routes/events.js:120 | finds the index of the first sample of a date, or nothing exactly when no sample has that date |
| DailySelection.NoonIndex | routes/events.js:60 | finds the index of the first "12:00:00" sample of a date, or nothing exactly when that date has none |
| DailySelection.SelectDaily | routes/events.js:54-69 | the loop, with its set of seen dates, computes exactly `DailyForecasts` of the transformed samples |
| DailySelection.SelectPrefixLength | routes/events.js:56-68 | the daily list after k samples (`SelectPrefix`, the loop body applied k times) has at most k entries and at least one once a sample has been visited; `SelectionInvariant` states what those entries are |
| DailySelection.DailyForecasts | routes/events.js:53-69 | the daily forecast has at most as many entries as samples and is empty exactly when there are none; the lemmas below state its one-per-date, order, noon and fallback properties |
| DailySelection.SelectionInvariant | routes/events.js:54-69 | after any number of samples: one entry per date, each the chosen sample of a date already visited, in first-appearance order, fallback entries only at positions below 5, and a visited date missing only if it has no noon sample and five dates are selected |
| DailySelection.AtMostOnePerDate | routes/events.js:54-69 | the daily forecast holds at most one entry per date |
| DailySelection.FirstAppearanceOrder | routes/events.js:57-68 | every entry is one of the samples, and entries follow the order of their dates' first appearance in the samples |
| DailySelection.NoonPreferred | routes/events.js:60-63 | every date with a noon sample gets an entry, and that entry is the date's first noon sample |
| DailySelection.FallbackCapped | routes/events.js:58-67 | an entry for a date without a noon sample is that date's first sample and sits among the first five entries; a date is left out only if it has no noon sample and, when the loop first reached it, five entries for dates that appear earlier were already selected (the fifth entry's date appears before it) |
| DailySelection.SkippedWhenFull | routes/events.js:58-67 | for one left-out date: it has no noon sample, and the fifth entry of the daily forecast belongs to a date whose first sample comes before the left-out date's first sample |
| DailySelection.PrefixGrows | routes/events.js:56-68 | the loop only appends: the daily list after k samples is a prefix of the list after any later number of samples |
| DailySelection.NoonDatesUncapped | routes/events.js:60-67 | the dates with a noon sample all have entries, so the daily forecast has at least as many entries as such dates (more than five if there are more than five) |
| DailySelection.DistinctDatesCount | routes/events.js:55-66 | with one entry per date, the number of selected dates (`seenDays.size`) equals the number of entries |
| Alternatives.EventWeather | routes/events.js:120-124 | the event's weather is found exactly when some forecast entry has the event's date; it is then the first such entry; otherwise the error is "forecast not available" for that date |
| Alternatives.LookupErrorMessage | routes/events.js:123 | a missing date is named in "Weather forecast not available for <date>. Forecasts are typically available for the next 5 days."; a missing forecast names the location after "No weather forecast available for " (line 147) |
| Alternatives.EventSuitability | routes/events.js:119-131 | the event's suitability exists exactly when its date is in the forecast; it is then the scorer's verdict on the first forecast entry of that date, so it has no message, the four breakdown keys and a score of at most 100; otherwise the error is "forecast not available" for that date |
| Alternatives.ScoreAll | routes/events.js:150-160 | one scored entry per forecast day, in forecast order, carrying that day's date, score and weather |
| Alternatives.Insert | routes/events.js:161 | inserting into a ranked list gives a ranked list with the same entries plus the new one |
| Alternatives.SortByScore | routes/events.js:161 | the ranked list is a permutation of the scored days ordered by non-increasing score |
| Alternatives.CurrentScore | routes/events.js:163-164 | the current score is the suitability score of the first entry with the event's date, or 0 if there is none |
| Alternatives.FilterBetter | routes/events.js:166 | the filtered list holds exactly the entries with score > current and a date other than the event's, each as often as in the input |
| Alternatives.FilterBetterSorted | routes/events.js:166 | filtering a ranked list keeps it ranked |
| Alternatives.NoBetterIffFilterEmpty | routes/events.js:166-172 | the filter is empty if and only if no scored day is strictly better on another date |
| Alternatives.FindAlternatives | routes/events.js:146-172 | an empty forecast gives the "no forecast" error; otherwise the result is ranked; if some day is better it holds exactly the better days with "Alternative dates with better weather:", else all ranked days (a permutation of the scored days) with "No better weather days found in the forecast." |

## Left out

- HTTP handling (Express routing, request bodies, status codes), the JSON-file event store (`readEvents`, `writeEvents`), `uuidv4` ids, event validation and the "event not found" lookups: these are plumbing around the model, not decisions.
- The upstream request (`axios.get`) is replaced by the parameter `fetched` of `GetWeatherForecast`: either the list of samples or a failure with the HTTP status of the response, if there was one. The request is not modelled.
- The clock: `Date.now()` is read once in `get` and again in `set`, after the fetch. The two readings are the parameters `now` and `fetchedAt`.
- Concurrency: two requests for the same uncached location may both miss and both fetch. Each call is modelled as one sequential step.
- Floating point: temperatures, probabilities and the × 3.6 and × 100 scalings are exact reals, so float artefacts at a threshold (0.07 × 100 > 7) are not modelled.
- Forecast.Lower: lower-cases ASCII letters only; JavaScript's `toLowerCase` also maps other Unicode letters.
- Forecast.TimeOf: a timestamp without a space has no time part (`undefined` in JavaScript); the model uses the empty string. Both differ from "12:00:00", so the selection is the same.
- Forecast.Transform: only an empty weather-condition list is modelled as a failing sample. In the code, a sample without `dt_txt`, `main`, `wind` or `weather`, or a response without `data.list`, also throws a TypeError; that error has no HTTP response, so it is reported as "Weather service is currently unavailable.", the same outcome as the modelled case, but those inputs are not representable in `RawSample`. A missing leaf value (`main.temp`, `pop`, `wind.speed`, a condition's `main` label) does not throw; it gives `undefined` or `NaN` in the result, which the model does not represent either.
- Scoring.ProfileFor: names that JavaScript finds on every object's prototype (such as "constructor") are not modelled. For those the lookup returns a non-profile and scoring throws; the model gives them the default profile like any other unknown type.
- The breakdown strings (`"+30 (Ideal)"`) are the pairs `Award(points, reason)`. The `toFixed` display strings of the ranked days are the raw numbers.
- Alternatives.SortByScore: states a permutation ordered by non-increasing score, but not the relative order of equal scores. ECMAScript's sort is stable, and `Insert` places an entry before others of equal score, but stability is not proved.
- Alternatives.FindAlternatives: in the "better days" case the result is stated to be ranked and to hold exactly the better days, but not in the exact order of equal scores in the ranked list (see SortByScore).
- The display banding of scores in the browser client is left out.
