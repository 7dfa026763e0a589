/**
 * The records exchanged by the decision function: the forecast document as
 * the weather service delivers it, one hourly sample of it, and the verdict.
 * JavaScript numbers are modelled as mathematical reals.
 */
module AppInterfaces {
  import opened Wrappers

  /** A verdict: whether cycling is a good idea, and optionally why not. */
  datatype Decision = Decision(value: bool, reason: Option<string>)

  /**
   * One hour of the forecast. `willItRain` is a number on the wire (0 or 1),
   * so it is kept as a number here and compared with 1 where it is read.
   */
  datatype HourlyDatapoint = HourlyDatapoint(
    willItRain: real,
    precipMm: real,
    cloud: real,
    tempC: real,
    windKph: real)

  /** One forecast day: its hourly samples in chronological order. */
  datatype ForecastDayData = ForecastDayData(hour: seq<HourlyDatapoint>)

  /** The `forecast` member of the document: the list of forecast days. */
  datatype ForecastDay = ForecastDay(forecastday: seq<ForecastDayData>)

  /** The whole forecast document. */
  datatype Forecast = Forecast(forecast: ForecastDay)
}
