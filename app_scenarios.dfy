/**
 * Concrete two-hour forecasts read at hour 0, and what the decision makes
 * of them.
 */
module AppScenarios {
  import opened Wrappers
  import opened AppInterfaces
  import opened App

  /** A forecast whose first day holds exactly the given hours. */
  function OneDay(hours: seq<HourlyDatapoint>): (f: Forecast)
    ensures |f.forecast.forecastday| == 1 && Hours(f) == hours
  {
    Forecast(ForecastDay([ForecastDayData(hours)]))
  }

  /** Over a two-hour window the aggregates are the plain two-value means. */
  lemma TwoHourAverages(a: HourlyDatapoint, b: HourlyDatapoint)
    ensures Window([a, b], 0) == [a, b]
    ensures Summarize(Window([a, b], 0)) == Averages(
      (a.tempC + b.tempC) / 2.0,
      (a.windKph + b.windKph) / 2.0,
      (a.cloud + b.cloud) / 2.0,
      a.willItRain == 1.0 || b.willItRain == 1.0,
      (a.precipMm + b.precipMm) / 2.0)
  {
    var w := [a, b];
    assert Window(w, 0) == w;
    SumOfTwo(a, b, TempC);
    SumOfTwo(a, b, WindKph);
    SumOfTwo(a, b, Cloud);
    SumOfTwo(a, b, PrecipMm);
    assert w[1..] == [b] && [b][1..] == [];
    assert Rainy(w) == (if a.willItRain == 1.0 then [a] else []) + (if b.willItRain == 1.0 then [b] else []);
  }

  lemma SumOfTwo(a: HourlyDatapoint, b: HourlyDatapoint, f: HourlyDatapoint -> real)
    ensures Sum([a, b], f) == f(a) + f(b)
  {
    var w := [a, b];
    assert w[..1] == [a] && [a][..0] == [];
    assert Sum([a], f) == Sum([], f) + f(a);
    assert Sum(w, f) == Sum([a], f) + f(b);
  }

  /** Mild, calm, clear and dry: cycling is recommended. */
  lemma MildDayAccepted()
    ensures Decide(Some(OneDay([HourlyDatapoint(0.0, 0.0, 10.0, 20.0, 5.0), HourlyDatapoint(0.0, 0.0, 10.0, 22.0, 5.0)])), 0)
      == Decision(true, None)
  {
    TwoHourAverages(HourlyDatapoint(0.0, 0.0, 10.0, 20.0, 5.0), HourlyDatapoint(0.0, 0.0, 10.0, 22.0, 5.0));
  }

  /** A mean temperature of 10 is too cold. */
  lemma ColdDayRejected()
    ensures Decide(Some(OneDay([HourlyDatapoint(0.0, 0.0, 10.0, 10.0, 5.0), HourlyDatapoint(0.0, 0.0, 10.0, 10.0, 5.0)])), 0)
      == Decision(false, Some(ColdMessage))
  {
    TwoHourAverages(HourlyDatapoint(0.0, 0.0, 10.0, 10.0, 5.0), HourlyDatapoint(0.0, 0.0, 10.0, 10.0, 5.0));
  }

  /** A mean cloud cover of 80 rejects on rain grounds, without any rain hour. */
  lemma CloudyDayRejected()
    ensures Decide(Some(OneDay([HourlyDatapoint(0.0, 0.0, 80.0, 20.0, 5.0), HourlyDatapoint(0.0, 0.0, 80.0, 20.0, 5.0)])), 0)
      == Decision(false, Some(RainMessage))
  {
    TwoHourAverages(HourlyDatapoint(0.0, 0.0, 80.0, 20.0, 5.0), HourlyDatapoint(0.0, 0.0, 80.0, 20.0, 5.0));
  }

  /** One rain hour with a mean precipitation of exactly 1 mm is not enough to reject. */
  lemma LightRainAccepted()
    ensures Decide(Some(OneDay([HourlyDatapoint(1.0, 2.0, 10.0, 20.0, 5.0), HourlyDatapoint(0.0, 0.0, 10.0, 20.0, 5.0)])), 0)
      == Decision(true, None)
  {
    TwoHourAverages(HourlyDatapoint(1.0, 2.0, 10.0, 20.0, 5.0), HourlyDatapoint(0.0, 0.0, 10.0, 20.0, 5.0));
  }

  /** A mean precipitation of 1.5 mm with a rain hour rejects. */
  lemma HeavyRainRejected()
    ensures Decide(Some(OneDay([HourlyDatapoint(1.0, 3.0, 10.0, 20.0, 5.0), HourlyDatapoint(0.0, 0.0, 10.0, 20.0, 5.0)])), 0)
      == Decision(false, Some(RainMessage))
  {
    TwoHourAverages(HourlyDatapoint(1.0, 3.0, 10.0, 20.0, 5.0), HourlyDatapoint(0.0, 0.0, 10.0, 20.0, 5.0));
  }

  /** Too cold and too windy at once: the earlier check, cold, is reported. */
  lemma ColdAndWindyReportsCold()
    ensures Decide(Some(OneDay([HourlyDatapoint(0.0, 0.0, 10.0, 5.0, 40.0), HourlyDatapoint(0.0, 0.0, 10.0, 5.0, 40.0)])), 0)
      == Decision(false, Some(ColdMessage))
  {
    TwoHourAverages(HourlyDatapoint(0.0, 0.0, 10.0, 5.0, 40.0), HourlyDatapoint(0.0, 0.0, 10.0, 5.0, 40.0));
  }

  /** At the last hour of the day the window holds one sample and does not wrap to hour 0. */
  lemma LastHourDoesNotWrap()
    ensures Decide(Some(OneDay([HourlyDatapoint(0.0, 0.0, 10.0, 5.0, 5.0), HourlyDatapoint(0.0, 0.0, 10.0, 20.0, 5.0)])), 1)
      == Decision(true, None)
  {
  }

  /** Without a forecast the verdict is "no data yet", at any hour. */
  lemma NoForecastNoData(currentHour: nat)
    ensures Decide(None, currentHour) == Decision(false, Some(DataMessage))
  {
  }
}
