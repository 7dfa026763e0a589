/**
 * Properties of the decision: the shape of the window, the meaning of the
 * rain flag, the priority and boundaries of the checks, what a verdict
 * depends on, and how per-hour bounds carry over to the averages.
 */
module AppProperties {
  import opened Wrappers
  import opened AppInterfaces
  import opened App

  /** The window is the contiguous range from the current hour, clipped at the end of the day. */
  lemma WindowIsClippedRange(hours: seq<HourlyDatapoint>, currentHour: nat)
    requires currentHour <= |hours|
    ensures Window(hours, currentHour) == hours[currentHour .. Min(currentHour + HoursIntoFuture, |hours|)]
  {
  }

  /** The rain flag holds exactly when some hour of the window has `will_it_rain` equal to 1. */
  lemma {:induction false} RainFlagIff(data: seq<HourlyDatapoint>)
    ensures WillItRain(data) <==> exists i :: 0 <= i < |data| && data[i].willItRain == 1.0
  {
    if |data| > 0 {
      RainFlagIff(data[1..]);
      if data[0].willItRain != 1.0 {
        assert Rainy(data) == Rainy(data[1..]);
        if exists i :: 0 <= i < |data| && data[i].willItRain == 1.0 {
          var i :| 0 <= i < |data| && data[i].willItRain == 1.0;
          assert data[1..][i - 1].willItRain == 1.0;
        }
      } else {
        assert data[0] in Rainy(data);
      }
    }
  }

  /** The means over the window of a forecast that covers the current hour. */
  function WindowAverages(forecast: Forecast, currentHour: nat): Averages
    requires Covers(forecast, currentHour)
  {
    Summarize(Window(Hours(forecast), currentHour))
  }

  /**
   * Cycling is recommended exactly when the mean temperature lies between
   * the bounds (inclusive), the mean wind is at most the limit, the mean
   * cloud is at most the limit, and it is not the case that some hour has
   * `will_it_rain` equal to 1 while the mean precipitation exceeds 1 mm.
   */
  lemma DecideAcceptsIff(forecast: Forecast, currentHour: nat)
    requires Covers(forecast, currentHour)
    ensures var w := Window(Hours(forecast), currentHour);
      Decide(Some(forecast), currentHour).value <==>
        && MinimumTemperature <= Mean(w, TempC) <= MaximumTemperature
        && Mean(w, WindKph) <= MaximumWindSpeed
        && Mean(w, Cloud) <= MaximumCloudCoverage
        && !((exists i :: 0 <= i < |w| && w[i].willItRain == 1.0) && Mean(w, PrecipMm) > MaximumRainAmount)
  {
    RainFlagIff(Window(Hours(forecast), currentHour));
  }

  /**
   * Check priority is cold, hot, wind, rain: each reason is reported exactly
   * when its condition holds and no earlier condition does.
   */
  lemma DecideReasonPriority(forecast: Forecast, currentHour: nat)
    requires Covers(forecast, currentHour)
    ensures var a := WindowAverages(forecast, currentHour);
      var r := Decide(Some(forecast), currentHour).reason;
      && (r == Some(ColdMessage) <==> a.temperature < MinimumTemperature)
      && (r == Some(HotMessage) <==>
            !(a.temperature < MinimumTemperature) && a.temperature > MaximumTemperature)
      && (r == Some(WindMessage) <==>
            !(a.temperature < MinimumTemperature) && !(a.temperature > MaximumTemperature)
            && a.windSpeed > MaximumWindSpeed)
      && (r == Some(RainMessage) <==>
            !(a.temperature < MinimumTemperature) && !(a.temperature > MaximumTemperature)
            && !(a.windSpeed > MaximumWindSpeed) && RainExpected(a))
      && r != Some(DataMessage)
  {
  }

  /** The temperature checks are strict: a mean exactly at either bound is not rejected on temperature. */
  lemma TemperatureBoundsInclusive(forecast: Forecast, currentHour: nat)
    requires Covers(forecast, currentHour)
    requires var t := WindowAverages(forecast, currentHour).temperature;
      t == MinimumTemperature || t == MaximumTemperature
    ensures Decide(Some(forecast), currentHour).reason != Some(ColdMessage)
    ensures Decide(Some(forecast), currentHour).reason != Some(HotMessage)
  {
  }

  /**
   * The precipitation check is strict: with cloud at most the limit, a mean
   * precipitation of exactly 1 mm is not rejected on rain grounds, even with
   * the rain flag set.
   */
  lemma RainAmountBoundaryInclusive(forecast: Forecast, currentHour: nat)
    requires Covers(forecast, currentHour)
    requires var a := WindowAverages(forecast, currentHour);
      a.rainAmount == MaximumRainAmount && a.cloudCoverage <= MaximumCloudCoverage
    ensures Decide(Some(forecast), currentHour).reason != Some(RainMessage)
  {
  }

  /**
   * The verdict depends only on the window: two forecasts whose first days
   * have the same samples in the window (and clip it at the same place)
   * get the same decision, whatever their other hours and days hold.
   */
  lemma DecideDependsOnlyOnWindow(f1: Forecast, f2: Forecast, currentHour: nat)
    requires Covers(f1, currentHour) && Covers(f2, currentHour)
    requires Min(currentHour + HoursIntoFuture, |Hours(f1)|) == Min(currentHour + HoursIntoFuture, |Hours(f2)|)
    requires forall i :: currentHour <= i < Min(currentHour + HoursIntoFuture, |Hours(f1)|) ==>
      Hours(f1)[i] == Hours(f2)[i]
    ensures Decide(Some(f1), currentHour) == Decide(Some(f2), currentHour)
  {
    WindowIsClippedRange(Hours(f1), currentHour);
    WindowIsClippedRange(Hours(f2), currentHour);
    assert Window(Hours(f1), currentHour) == Window(Hours(f2), currentHour);
  }

  /** A sum of values each at most `hi` is at most `hi` times the count. */
  lemma {:induction false} SumAtMost(data: seq<HourlyDatapoint>, f: HourlyDatapoint -> real, hi: real)
    requires forall i :: 0 <= i < |data| ==> f(data[i]) <= hi
    ensures Sum(data, f) <= hi * (|data| as real)
  {
    if |data| > 0 {
      SumAtMost(data[..|data| - 1], f, hi);
    }
  }

  /** A sum of values each at least `lo` is at least `lo` times the count. */
  lemma {:induction false} SumAtLeast(data: seq<HourlyDatapoint>, f: HourlyDatapoint -> real, lo: real)
    requires forall i :: 0 <= i < |data| ==> lo <= f(data[i])
    ensures lo * (|data| as real) <= Sum(data, f)
  {
    if |data| > 0 {
      SumAtLeast(data[..|data| - 1], f, lo);
    }
  }

  /** A mean of values each at most `hi` is at most `hi`. */
  lemma MeanAtMost(data: seq<HourlyDatapoint>, f: HourlyDatapoint -> real, hi: real)
    requires |data| > 0
    requires forall i :: 0 <= i < |data| ==> f(data[i]) <= hi
    ensures Mean(data, f) <= hi
  {
    SumAtMost(data, f, hi);
    var n := |data| as real;
    assert Sum(data, f) / n <= hi * n / n;
  }

  /** A mean of values each at least `lo` is at least `lo`. */
  lemma MeanAtLeast(data: seq<HourlyDatapoint>, f: HourlyDatapoint -> real, lo: real)
    requires |data| > 0
    requires forall i :: 0 <= i < |data| ==> lo <= f(data[i])
    ensures lo <= Mean(data, f)
  {
    SumAtLeast(data, f, lo);
    var n := |data| as real;
    assert lo * n / n <= Sum(data, f) / n;
  }

  /**
   * If every hour of the window is within the temperature bounds, at most
   * the wind and cloud limits, and forecasts at most 1 mm of precipitation,
   * cycling is recommended.
   */
  lemma EveryHourComfortableAccepted(forecast: Forecast, currentHour: nat)
    requires Covers(forecast, currentHour)
    requires var w := Window(Hours(forecast), currentHour);
      forall i :: 0 <= i < |w| ==>
        && MinimumTemperature <= w[i].tempC <= MaximumTemperature
        && w[i].windKph <= MaximumWindSpeed
        && w[i].cloud <= MaximumCloudCoverage
        && w[i].precipMm <= MaximumRainAmount
    ensures Decide(Some(forecast), currentHour) == Decision(true, None)
  {
    var w := Window(Hours(forecast), currentHour);
    MeanAtLeast(w, TempC, MinimumTemperature);
    MeanAtMost(w, TempC, MaximumTemperature);
    MeanAtMost(w, WindKph, MaximumWindSpeed);
    MeanAtMost(w, Cloud, MaximumCloudCoverage);
    MeanAtMost(w, PrecipMm, MaximumRainAmount);
  }

  /**
   * If every hour of the window is colder than some temperature below the
   * minimum, the reason is "too cold", whatever the wind and rain.
   */
  lemma EveryHourColdRejected(forecast: Forecast, currentHour: nat, t: real)
    requires Covers(forecast, currentHour)
    requires t < MinimumTemperature
    requires var w := Window(Hours(forecast), currentHour);
      forall i :: 0 <= i < |w| ==> w[i].tempC <= t
    ensures Decide(Some(forecast), currentHour) == Decision(false, Some(ColdMessage))
  {
    MeanAtMost(Window(Hours(forecast), currentHour), TempC, t);
  }
}
