/** The seven-day forecast: the provider's daily series start with today, which is
    skipped; the next seven days become forecast cards, each reading its figures from
    the same position of the parallel daily arrays. */
module Forecast {
  import opened Wrappers
  import opened Conditions
  import opened Icons

  /** The daily part of a weather response: parallel arrays indexed by day, day 0 being
      today. Dates are the provider's date strings; figures are already rounded. */
  datatype Daily = Daily(time: seq<string>, maxTemps: seq<int>, minTemps: seq<int>, weatherCodes: seq<int>)

  /** One forecast card. `None` stands for "no number": a code read past the end of
      its array is `undefined`, and a temperature read there is `Math.round(undefined)`,
      which is NaN. The date is kept as the provider's string; its locale formatting
      into a date and a weekday name is not modelled. */
  datatype ForecastDay = ForecastDay(
    date: string,
    maxTemp: Option<int>,
    minTemp: Option<int>,
    condition: Condition,
    weatherCode: Option<int>)

  function Min(a: int, b: int): int { if a <= b then a else b }
  function Max(a: int, b: int): int { if a <= b then b else a }

  /** Reading `s[i]` in JavaScript: `undefined` outside the array. */
  function At(s: seq<int>, i: int): Option<int>
  {
    if 0 <= i < |s| then Some(s[i]) else None
  }

  /** `code === k` in JavaScript, for a code that may be `undefined`. */
  predicate JsEq(code: Option<int>, k: int)
  {
    code.Some? && code.value == k
  }

  /** `code <= k` in JavaScript: `undefined` converts to NaN, and every comparison with
      NaN is false. */
  predicate JsLe(code: Option<int>, k: int)
  {
    code.Some? && code.value <= k
  }

  /** The classifier's chain of comparisons applied to a code read from the daily
      array, which may be `undefined`. A defined code gets its classification; an
      undefined one fails every comparison and falls through to the last case. */
  function ConditionOf(code: Option<int>): (c: Condition)
    ensures code.Some? ==> c == GetWeatherCondition(code.value)
    ensures code.None? ==> c == Cloudy
  {
    if JsEq(code, 0) then ClearSky
    else if JsLe(code, 3) then PartlyCloudy
    else if JsLe(code, 48) then Foggy
    else if JsLe(code, 67) then Rainy
    else if JsLe(code, 77) then Snowy
    else if JsLe(code, 99) then Thunderstorm
    else Cloudy
  }

  /** The forecast card icon for a card's code, which may be `undefined`: the chain of
      the code-based icon picker with JavaScript comparisons. A defined code gets the
      same icon as the picker on integers; an undefined one fails every comparison and
      gets the plain cloud. */
  function ForecastIconOf(code: Option<int>): (icon: ForecastIcon)
    ensures code.Some? ==> icon == GetForecastIcon(code.value)
    ensures code.None? ==> icon == ForecastIcon(Cloud, false)
  {
    if JsEq(code, 0) then ForecastIcon(Sun, false)
    else if JsLe(code, 3) then ForecastIcon(Cloud, false)
    else if JsLe(code, 48) then ForecastIcon(Cloud, true)
    else if JsLe(code, 67) then ForecastIcon(CloudRain, false)
    else if JsLe(code, 77) then ForecastIcon(CloudSnow, false)
    else if JsLe(code, 99) then ForecastIcon(CloudRain, false)
    else ForecastIcon(Cloud, false)
  }

  /** `s.slice(start, end)` for non-negative bounds: both are clamped to the length,
      and the result is empty when the end does not exceed the start. */
  function Slice<T>(s: seq<T>, start: nat, end: nat): (r: seq<T>)
    ensures |r| == Max(0, Min(end, |s|) - start)
    ensures forall k :: 0 <= k < |r| ==> start + k < |s| && r[k] == s[start + k]
  {
    var from := Min(start, |s|);
    var to := Max(from, Min(end, |s|));
    s[from..to]
  }

  /** The forecast built from a daily series: `time.slice(1, 8)` mapped with its index
      `idx`, every other figure read at `idx + 1`. */
  function BuildForecast(daily: Daily): (r: seq<ForecastDay>)
    ensures |r| == Min(7, Max(0, |daily.time| - 1))
    ensures forall k :: 0 <= k < |r| ==>
      && r[k].date == daily.time[k + 1]
      && r[k].maxTemp == At(daily.maxTemps, k + 1)
      && r[k].minTemp == At(daily.minTemps, k + 1)
      && r[k].weatherCode == At(daily.weatherCodes, k + 1)
      && r[k].condition == ConditionOf(r[k].weatherCode)
  {
    var dates := Slice(daily.time, 1, 8);
    seq(|dates|, idx requires 0 <= idx < |dates| =>
      ForecastDay(
        dates[idx],
        At(daily.maxTemps, idx + 1),
        At(daily.minTemps, idx + 1),
        ConditionOf(At(daily.weatherCodes, idx + 1)),
        At(daily.weatherCodes, idx + 1)))
  }

  /** The daily arrays are aligned: every figure array covers every date. */
  predicate Aligned(daily: Daily)
  {
    |daily.maxTemps| >= |daily.time| && |daily.minTemps| >= |daily.time| && |daily.weatherCodes| >= |daily.time|
  }

  /** With at least eight days, the forecast has exactly seven cards, for days 1 to 7;
      with aligned arrays every figure is defined and comes from the card's own day,
      and the card's condition is the classification of that day's code. */
  lemma {:induction false} ForecastOfWeek(daily: Daily)
    ensures |daily.time| >= 8 ==> |BuildForecast(daily)| == 7
    ensures Aligned(daily) ==> forall k :: 0 <= k < |BuildForecast(daily)| ==>
      var day := BuildForecast(daily)[k];
      && day.date == daily.time[k + 1]
      && day.maxTemp == Some(daily.maxTemps[k + 1])
      && day.minTemp == Some(daily.minTemps[k + 1])
      && day.weatherCode == Some(daily.weatherCodes[k + 1])
      && day.condition == GetWeatherCondition(daily.weatherCodes[k + 1])
  {
  }

  /** Today is never among the cards: when today's date is not repeated later in the
      series, no card carries it. */
  lemma TodaySkipped(daily: Daily)
    requires |daily.time| > 0
    requires forall j :: 1 <= j < |daily.time| ==> daily.time[j] != daily.time[0]
    ensures forall k :: 0 <= k < |BuildForecast(daily)| ==> BuildForecast(daily)[k].date != daily.time[0]
  {
  }
}
