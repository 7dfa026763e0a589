/**
 * The cycling-suitability decision of the widget: the fixed thresholds, the
 * reason messages, and `decide`, which averages the next hours of the
 * forecast and applies an ordered chain of threshold checks.
 *
 * The wall-clock hour that the widget reads inside `decide` is an explicit
 * parameter here, so that the decision is a pure function of its inputs.
 */
module App {
  import opened Wrappers
  import opened AppInterfaces

  // Tweakable thresholds.
  const MinimumTemperature: real := 15.0
  const MaximumTemperature: real := 25.0
  const MaximumWindSpeed: real := 20.0
  const MaximumCloudCoverage: real := 70.0
  const HoursIntoFuture: nat := 2

  /**
   * The mean precipitation (mm) above which a forecast rain hour rejects.
   * It is not one of the tweakable thresholds: the rain check writes the
   * literal 1 in place.
   */
  const MaximumRainAmount: real := 1.0

  // Reason messages.
  const DataMessage: string := "There is no data yet."
  const ColdMessage: string := "Temperature is too cold."
  const HotMessage: string := "Temperature is too hot."
  const WindMessage: string := "There is too much wind."
  const RainMessage: string := "It will probably rain."

  /** The five reasons a negative decision can carry. */
  const Reasons: set<string> := {DataMessage, ColdMessage, HotMessage, WindMessage, RainMessage}

  function Min(a: int, b: int): int { if a <= b then a else b }

  /**
   * JavaScript's `Array.prototype.slice` for non-negative bounds: both bounds
   * are clipped to the length, and the result is empty when the clipped
   * start is not below the clipped end. It never wraps around.
   */
  function Slice<T>(s: seq<T>, start: nat, end: nat): (r: seq<T>)
    ensures |r| == if start < Min(end, |s|) then Min(end, |s|) - start else 0
    ensures forall i :: 0 <= i < |r| ==> start + i < |s| && r[i] == s[start + i]
  {
    var from := Min(start, |s|);
    var to := Min(end, |s|);
    if from < to then s[from..to] else []
  }

  /** The samples from the current hour on, for `HoursIntoFuture` hours. */
  function Window(hours: seq<HourlyDatapoint>, currentHour: nat): (w: seq<HourlyDatapoint>)
    ensures |w| <= HoursIntoFuture
    ensures currentHour < |hours| ==> 0 < |w|
    ensures forall i :: 0 <= i < |w| ==> currentHour + i < |hours| && w[i] == hours[currentHour + i]
  {
    Slice(hours, currentHour, currentHour + HoursIntoFuture)
  }

  /** `data.reduce((prev, acc) => prev + f(acc), 0)`: a left fold from 0. */
  function Sum(data: seq<HourlyDatapoint>, f: HourlyDatapoint -> real): real
  {
    if |data| == 0 then 0.0 else Sum(data[..|data| - 1], f) + f(data[|data| - 1])
  }

  /** The arithmetic mean of `f` over a non-empty window. */
  function Mean(data: seq<HourlyDatapoint>, f: HourlyDatapoint -> real): real
    requires |data| > 0
  {
    Sum(data, f) / (|data| as real)
  }

  /** `data.filter((point) => point.will_it_rain === 1)`. */
  function Rainy(data: seq<HourlyDatapoint>): (r: seq<HourlyDatapoint>)
    ensures |r| <= |data|
    ensures forall p :: p in r ==> p in data && p.willItRain == 1.0
    ensures forall i :: 0 <= i < |data| && data[i].willItRain == 1.0 ==> data[i] in r
  {
    if |data| == 0 then []
    else (if data[0].willItRain == 1.0 then [data[0]] else []) + Rainy(data[1..])
  }

  /** The rain flag: the filtered list is not empty. */
  function WillItRain(data: seq<HourlyDatapoint>): bool
  {
    |Rainy(data)| > 0
  }

  /** The aggregates `decide` computes over the window. */
  datatype Averages = Averages(
    temperature: real,
    windSpeed: real,
    cloudCoverage: real,
    willItRain: bool,
    rainAmount: real)

  // The numeric fields that are averaged, as functions to fold over.
  function TempC(p: HourlyDatapoint): real { p.tempC }
  function WindKph(p: HourlyDatapoint): real { p.windKph }
  function Cloud(p: HourlyDatapoint): real { p.cloud }
  function PrecipMm(p: HourlyDatapoint): real { p.precipMm }

  function Summarize(data: seq<HourlyDatapoint>): Averages
    requires |data| > 0
  {
    Averages(
      Mean(data, TempC),
      Mean(data, WindKph),
      Mean(data, Cloud),
      WillItRain(data),
      Mean(data, PrecipMm))
  }

  /** The rain check: heavy cloud, or a rain hour with enough precipitation. */
  predicate RainExpected(a: Averages)
  {
    a.cloudCoverage > MaximumCloudCoverage || (a.willItRain && a.rainAmount > MaximumRainAmount)
  }

  /** The conditions under which cycling is recommended, stated as a whole. */
  predicate Comfortable(a: Averages)
  {
    && MinimumTemperature <= a.temperature <= MaximumTemperature
    && a.windSpeed <= MaximumWindSpeed
    && !RainExpected(a)
  }

  /**
   * The ordered threshold checks. Each reason is returned exactly when its
   * own condition holds and every earlier check passed.
   */
  function Judge(a: Averages): (d: Decision)
    ensures d.value <==> d.reason.None?
    ensures d.value <==> Comfortable(a)
    ensures d.reason == Some(ColdMessage) <==> a.temperature < MinimumTemperature
    ensures d.reason == Some(HotMessage) <==>
      MinimumTemperature <= a.temperature && a.temperature > MaximumTemperature
    ensures d.reason == Some(WindMessage) <==>
      MinimumTemperature <= a.temperature <= MaximumTemperature && a.windSpeed > MaximumWindSpeed
    ensures d.reason == Some(RainMessage) <==>
      && MinimumTemperature <= a.temperature <= MaximumTemperature
      && a.windSpeed <= MaximumWindSpeed
      && RainExpected(a)
    ensures d.reason.Some? ==> d.reason.value in Reasons - {DataMessage}
  {
    if a.temperature < MinimumTemperature then Decision(false, Some(ColdMessage))
    else if a.temperature > MaximumTemperature then Decision(false, Some(HotMessage))
    else if a.windSpeed > MaximumWindSpeed then Decision(false, Some(WindMessage))
    else if RainExpected(a) then Decision(false, Some(RainMessage))
    else Decision(true, None)
  }

  /** The forecast has a first day whose hours reach the current hour. */
  predicate Covers(forecast: Forecast, currentHour: nat)
  {
    |forecast.forecast.forecastday| > 0 && currentHour < |forecast.forecast.forecastday[0].hour|
  }

  /** The hourly samples of the first forecast day, the only ones read. */
  function Hours(forecast: Forecast): seq<HourlyDatapoint>
    requires |forecast.forecast.forecastday| > 0
  {
    forecast.forecast.forecastday[0].hour
  }

  /** `decide`, with the current hour of the day passed in. */
  function Decide(forecast: Option<Forecast>, currentHour: nat): (r: Decision)
    requires forecast.Some? ==> Covers(forecast.value, currentHour)
    ensures forecast.None? ==> r == Decision(false, Some(DataMessage))
    ensures r.value <==> r.reason.None?
    ensures r.reason.Some? ==> r.reason.value in Reasons
    ensures forecast.Some? ==>
      (r.value <==> Comfortable(Summarize(Window(Hours(forecast.value), currentHour))))
  {
    match forecast
    case None => Decision(false, Some(DataMessage))
    case Some(f) => Judge(Summarize(Window(Hours(f), currentHour)))
  }
}
