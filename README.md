# cycling-weather: the cycling decision, modelled in Dafny

The widget fetches a one-day hourly weather forecast and answers "Is it a
good idea to go cycling today?". The only logic in it is `decide`
(`src/App.tsx`): it takes the forecast samples from the current hour for
the next `hoursIntoFuture` hours, averages temperature, wind, cloud cover
and precipitation over them, sets a rain flag when some hour has
`will_it_rain === 1`, and applies the checks cold, hot, wind, rain in that
order, returning at the first that fails.

This project models that function and its inputs:

- `wrappers.dfy`: `Option`, whose `None` stands for an absent forecast.
- `app_interfaces.dfy` (module `AppInterfaces`): the records of
  `src/App.interfaces.ts`: `Decision`, `HourlyDatapoint`, and the nested
  `Forecast` / `ForecastDay` / `ForecastDayData`.
- `app.dfy` (module `App`): the thresholds and reason messages as
  constants, JavaScript's `slice` (`Slice`), the window (`Window`), the
  `reduce` sums as a left fold from 0 (`Sum`), the means (`Mean`), the
  `filter` of rain hours (`Rainy`, `WillItRain`), the aggregates
  (`Summarize`), the ordered checks (`Judge`) and `decide` itself
  (`Decide`).
- `app_properties.dfy` (module `AppProperties`): lemmas about the window,
  the rain flag, check priority, the strict boundaries, what the verdict
  depends on, and how per-hour bounds carry over to the means.
- `app_scenarios.dfy` (module `AppScenarios`): concrete two-hour forecasts
  and their verdicts.

The wall-clock hour that `decide` reads with `new Date().getHours()` is the
explicit parameter `currentHour` of `Decide`. JavaScript numbers are
modelled as mathematical reals. `will_it_rain` stays a number and only the
value 1 sets the rain flag, as the strict `===` does.

`Decide` requires, when a forecast is present, that it has a first day and
that the current hour is an index into that day's hours. In the source a
missing first day throws a `TypeError`. A current hour past the last
sample gives an empty window. The means are then `0 / 0`, which is NaN.
Every comparison with NaN is false, so the source returns `{ value: true }`.
The model excludes both inputs instead of reproducing them.

## Model

| member | source | states |
|---|---|---|
| `App.Slice` | src/App.tsx:42 | `slice` clips both bounds at the end of the array: the result has `min(end, length) - start` elements (none when start is at or past the end), and its i-th element is the element at `start + i`; it never wraps around |
| `App.Window` | src/App.tsx:42 | the window holds at most `hoursIntoFuture` (2) samples, at least one when the current hour is within the day, and its i-th sample is the day's sample at `currentHour + i` |
| `App.Rainy` | src/App.tsx:46 | the filtered list is no longer than the window, holds only window samples whose `will_it_rain` is exactly 1, and holds every such sample |
| `App.Sum` | src/App.tsx:43-47 | a definition with no contract: the `reduce` fold from 0, left to right; its bounds are proved by `AppProperties.SumAtMost` and `AppProperties.SumAtLeast` |
| `App.Mean` | src/App.tsx:43-47 | a definition with no contract: the sum divided by `data.length`, for a non-empty window; its bounds are proved by `AppProperties.MeanAtMost` and `AppProperties.MeanAtLeast` |
| `App.WillItRain` | src/App.tsx:46 | a definition with no contract: the filtered list's length is above 0; `AppProperties.RainFlagIff` proves it true exactly when some window hour has `will_it_rain` equal to 1 |
| `App.Summarize` | src/App.tsx:43-47 | a definition with no contract: the four means and the rain flag over the window; `AppProperties.DecideAcceptsIff` states the verdict in terms of them |
| `App.RainExpected` | src/App.tsx:62 | a definition with no contract: cloud above 70, or the rain flag with mean precipitation above 1; `App.Judge` and `AppProperties.DecideReasonPriority` state when it yields the rain reason |
| `App.Judge` | src/App.tsx:53-65 | the ordered checks: a reason is present exactly when the verdict is negative; the verdict is positive exactly when 15 <= mean temperature <= 25, mean wind <= 20 and no rain is expected; "too cold" exactly when the mean temperature is below 15, "too hot" exactly when it is not below 15 and above 25, "too much wind" exactly when the temperature passed and the wind is above 20, "rain" exactly when temperature and wind passed and the cloud is above 70 or the rain flag is set with mean precipitation above 1 |
| `App.Decide` | src/App.tsx:38-66 | an absent forecast gives `{false, "There is no data yet."}`; a positive verdict carries no reason and a negative one carries one of the five reason strings; with a forecast the verdict is positive exactly when the window's averages are comfortable |
| `AppProperties.WindowIsClippedRange` | src/App.tsx:42 | the window is exactly the day's hours from `currentHour` up to `min(currentHour + 2, number of hours)` |
| `AppProperties.RainFlagIff` | src/App.tsx:46 | the rain flag is true if and only if some sample of the window has `will_it_rain` equal to 1 |
| `AppProperties.DecideAcceptsIff` | src/App.tsx:39-65 | with a forecast, cycling is recommended if and only if 15 <= mean temperature <= 25, mean wind <= 20, mean cloud <= 70, and not (some window hour has `will_it_rain` = 1 and mean precipitation > 1) |
| `AppProperties.DecideReasonPriority` | src/App.tsx:53-63 | with a forecast, each reason is returned exactly when its check fails and every earlier check passed, in the order cold, hot, wind, rain; "no data" never appears |
| `AppProperties.TemperatureBoundsInclusive` | src/App.tsx:53-57 | a mean temperature of exactly 15 or exactly 25 is rejected neither as too cold nor as too hot |
| `AppProperties.RainAmountBoundaryInclusive` | src/App.tsx:62-63 | a mean precipitation of exactly 1 with cloud at most 70 is not rejected on rain grounds, whatever the rain flag |
| `AppProperties.DecideDependsOnlyOnWindow` | src/App.tsx:42-47 | two forecasts whose first days agree on the window (and clip it at the same hour) get the same verdict, whatever their other hours and later days hold |
| `AppProperties.SumAtMost` | src/App.tsx:43-47 | the `reduce` sum of values each at most `hi` is at most `hi` times the number of samples |
| `AppProperties.SumAtLeast` | src/App.tsx:43-47 | the `reduce` sum of values each at least `lo` is at least `lo` times the number of samples |
| `AppProperties.MeanAtMost` | src/App.tsx:43-47 | a mean of values each at most `hi` is at most `hi` |
| `AppProperties.MeanAtLeast` | src/App.tsx:43-47 | a mean of values each at least `lo` is at least `lo` |
| `AppProperties.EveryHourComfortableAccepted` | src/App.tsx:42-65 | if every window hour is between 15 and 25 degrees, has wind at most 20, cloud at most 70 and precipitation at most 1, the verdict is `{true}` with no reason |
| `AppProperties.EveryHourColdRejected` | src/App.tsx:42-54 | if every window hour is at most some temperature below 15, the verdict is "too cold", whatever wind, cloud and rain |
| `AppScenarios.TwoHourAverages` | src/App.tsx:42-47 | for a two-hour day read at hour 0 the window is both hours and each aggregate is the mean of the two values; the rain flag is set when either hour has `will_it_rain` = 1 |
| `AppScenarios.MildDayAccepted` | src/App.tsx:53-65 | temperatures 20 and 22, wind 5, cloud 10, no rain: `{true}` |
| `AppScenarios.ColdDayRejected` | src/App.tsx:53-54 | temperatures 10 and 10: "Temperature is too cold." |
| `AppScenarios.CloudyDayRejected` | src/App.tsx:62-63 | cloud 80 and 80 with mild temperature and wind: "It will probably rain." |
| `AppScenarios.LightRainAccepted` | src/App.tsx:46-47 | `will_it_rain` 1 and 0 with precipitation 2 and 0 (mean exactly 1): not rejected, `{true}` |
| `AppScenarios.HeavyRainRejected` | src/App.tsx:62-63 | `will_it_rain` 1 and 0 with precipitation 3 and 0 (mean 1.5): "It will probably rain." |
| `AppScenarios.ColdAndWindyReportsCold` | src/App.tsx:53-60 | too cold and too windy at once: the earlier check wins, "Temperature is too cold." |
| `AppScenarios.LastHourDoesNotWrap` | src/App.tsx:42 | read at the last hour of a two-hour day, the window is that one hour (20 degrees), not wrapped to the cold hour 0: `{true}` |
| `AppScenarios.NoForecastNoData` | src/App.tsx:39 | no forecast, at any hour: `{false, "There is no data yet."}` |

## Left out

- `loadForecast` (src/App.tsx:29-35): a network request to the weather service with an alert on error. This is I/O; its failure reaches `decide` as an absent forecast, which `Decide(None, …)` covers.
- The `App` component (src/App.tsx:75-107): React state and effect wiring, the two prompts, and the API key kept in `localStorage`. This is UI and storage plumbing.
- `Title`, `Subtitle`, `LocationInfo`, `GithubLink` and the subtitle text (src/App.tsx:69-72, 98): rendering only. So are the messages `apiKeyMessage`, `locationMessage`, `title`, `githubLink`, `yes`, `no` in STRINGS; only the five reasons are modelled.
- The `console.log` diagnostics (src/App.tsx:48-51): they do not affect the result.
- The clock (src/App.tsx:41): `getHours()` is replaced by the `currentHour` parameter.
- IEEE-754 arithmetic: sums and means are exact reals, so rounding is not modelled.
- `Decide`: its precondition excludes a forecast without a first day (a `TypeError` in the source) and a current hour past the last sample (an empty window, NaN means, and then `{ value: true }` in the source).
- Idempotence: `Decide` is a function, so two calls with the same inputs are equal by construction.
