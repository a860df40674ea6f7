# ThirdEye root-cause context resolution

This project models how the ThirdEye front end's root-cause route
(`thirdeye/thirdeye-frontend/app/pods/rootcause/route.js`) resolves the analysis
*context* of an investigation. The context is made of:

- the metric URNs;
- an anomaly window and an analysis window;
- a granularity;
- a comparison mode;
- the anomaly URNs.

The route also resolves the selected URNs, the session metadata, the setup mode,
the errors it reports and the "size" metric URNs.

The model is split into modules that follow the route's structure:

- **JsText**: the JavaScript behaviour the helpers rely on.
  - `parseInt(s, 10)`: leading whitespace, a sign, the longest digit run, NaN otherwise.
  - `String(number)`.
  - The first two pieces of `split('_')`.
- **TimeAlign**: the moment.js calendar operations the route uses, on integer epoch
  milliseconds at UTC offset 0, plus `adjustMaxTime`.
  - `startOf`, `add`.
  - `get`: the millisecond of the second, second of the minute, minute of the hour,
    hour of the day and, for `'day'`, the weekday.
- **Granularity**: `adjustGranularity`, the unit mapping and `toMetricGranularity`.
- **Ranges**: the two offset tables, `toAnalysisRangeArray`, the metric branch's
  anomaly window and the default windows of `afterModel`.
- **Resolver**: what `model()` builds, and `afterModel` with its session
  auto-recovery. It also holds the three overlays of `setupController` as
  functions on the route's local variables:
  - metric, then anomaly, then session;
  - each replaces the whole context when its record was found;
  - the anomaly and session overlays record an error string when their record is
    missing.
- **RouteSetup**: `setupController` in its imperative form.
  - The defaults, then the three blocks, run in order on local variables.
  - The nested `forEach` loops collect the dimension filters.
  - The controller is a class whose `setProperties` sets every property at once.
  - Each block and the whole method are proved equal to the functional resolution.
- **ResolverProperties**: what the route promises about the resolution:
  - the precedence of the overlays;
  - errors that change nothing else;
  - the size metrics;
  - the order of the filters;
  - the choice of the most recent session, and that the recovery redirect happens once;
  - worked examples: a 30-second metric, a daily metric, an hourly metric with a
    negative count and an anomaly filtered by country.

## Behaviours of the code worth noting

- **Anomaly window start.** The metric branch's window starts `-toAnomalyOffset`
  units of the metric's *unit* before its end (120 minutes for a 5-minute metric).
  It does not start that many *granularity buckets* before (600 minutes).
- **Maximum time.** It is snapped only by `adjustMaxTime`. There is no extra step of
  one unit below its floor.
- **Snapping.** `adjustMaxTime` snaps the calendar field (minute of the hour, hour of
  the day, weekday), not the number of units since the epoch.

## Model

| member | source | states |
|---|---|---|
| JsText.PiecesOfJoin | thirdeye/thirdeye-frontend/app/pods/rootcause/route.js:36 | Splitting `a_b` (neither part holding `_`) at `_` gives back `a` and `b`. |
| JsText.ParseIntOfIntToString | thirdeye/thirdeye-frontend/app/pods/rootcause/route.js:37 | `parseInt` of the decimal rendering of any integer is that integer. |
| JsText.ParseIntOfNumberToString | thirdeye/thirdeye-frontend/app/pods/rootcause/route.js:49 | `parseInt` reads back what `granularity[0] + ""` renders, NaN included. |
| JsText.NumberToStringHasNoUnderscore | thirdeye/thirdeye-frontend/app/pods/rootcause/route.js:49 | A rendered count never contains `_`, so the count and unit of a formatted token stay separable. |
| JsText.FirstTwoPieces | thirdeye/thirdeye-frontend/app/pods/rootcause/route.js:36 | The two destructured pieces of `split('_')`. The count piece is the text before the first `_`. The unit piece is the text after it, up to the next `_` or the end. Neither contains `_`. The unit piece is undefined iff there is no `_`, and then the count piece is the whole token. |
| TimeAlign.StartOf | thirdeye/thirdeye-frontend/app/pods/rootcause/route.js:59 | `startOf(unit)` is the unique aligned instant in the unit holding `t`: at most `t`, less than one unit below it. |
| TimeAlign.Field | thirdeye/thirdeye-frontend/app/pods/rootcause/route.js:60 | `get(unit)` is a calendar field within its cycle, e.g. minute of the hour in 0..59. |
| TimeAlign.AdjustMaxTime | thirdeye/thirdeye-frontend/app/pods/rootcause/route.js:55-63 | For any non-zero count: the snapped time is at most the input and unit-aligned. Its field is a multiple of the count. It lies less than `abs(count)` units below `startOf(unit)`. With count 1 or -1 it is `startOf(unit)`. |
| TimeAlign.AdjustMaxTimeNegated | thirdeye/thirdeye-frontend/app/pods/rootcause/route.js:60-62 | JavaScript's `%` takes the sign of the never-negative field, so a negative count snaps exactly as its absolute value does. |
| TimeAlign.AdjustMaxTimeNearest | thirdeye/thirdeye-frontend/app/pods/rootcause/route.js:55-63 | No aligned instant after the snapped time and up to the input has a field divisible by the count: the snap goes to the nearest such instant below. |
| TimeAlign.AdjustMaxTimeIdempotent | thirdeye/thirdeye-frontend/app/pods/rootcause/route.js:55-63 | Snapping a snapped time changes nothing. |
| TimeAlign.StepBack | thirdeye/thirdeye-frontend/app/pods/rootcause/route.js:62 | Going back `j` units from an aligned instant (without wrapping) keeps it aligned and lowers its field by exactly `j`. |
| TimeAlign.FiveMinuteSnap | thirdeye/thirdeye-frontend/app/pods/rootcause/route.js:55-63 | For 5-minute granularity the calendar snap coincides with snapping to a multiple of five minutes since the epoch. |
| Granularity.Parse | thirdeye/thirdeye-frontend/app/pods/rootcause/route.js:36-37 | The unit element of `[parseInt(count, 10), unit]` never contains `_`. |
| Granularity.AdjustGranularity | thirdeye/thirdeye-frontend/app/pods/rootcause/route.js:35-50 | Any NANOSECONDS/MILLISECONDS/SECONDS token becomes `"5_MINUTES"` whatever its count. `c_MINUTES` becomes `max(c, 5)_MINUTES`. Every other token is re-rendered from its parsed count and unit. |
| Granularity.ParseOfFormat | thirdeye/thirdeye-frontend/app/pods/rootcause/route.js:36-49 | Reading back a rendered `[count, unit]` gives the same count and the unit's text. |
| Granularity.AdjustGranularityCoarse | thirdeye/thirdeye-frontend/app/pods/rootcause/route.js:35-50 | A normalised token is never sub-minute; a minute token counts at least 5 (or is NaN, as `Math.max` leaves it). |
| Granularity.UnitTextKeepsClass | thirdeye/thirdeye-frontend/app/pods/rootcause/route.js:49 | Rendering a unit that is not sub-minute (undefined becomes `"undefined"`) keeps it not sub-minute, and only MINUTES renders as MINUTES. |
| Granularity.AdjustGranularityIdempotent | thirdeye/thirdeye-frontend/app/pods/rootcause/route.js:35-50 | Normalising twice equals normalising once. |
| Granularity.AdjustGranularityKeeps | thirdeye/thirdeye-frontend/app/pods/rootcause/route.js:44-49 | `n_HOURS`, `n_DAYS` (any decimal count, any non-minute unit) and `c_MINUTES` with `c >= 5` come back unchanged. |
| Granularity.ToMetricGranularity | thirdeye/thirdeye-frontend/app/pods/rootcause/route.js:23-30 | Keeps the parsed count; yields a moment unit exactly when the unit is one of the six names of UNIT_MAPPING, undefined otherwise. |
| Granularity.WellFormedAdjusted | thirdeye/thirdeye-frontend/app/pods/rootcause/route.js:256-257 | A well-formed metric token, once normalised, maps to minute, hour or day with a non-zero count, at least 5 for minutes. |
| Granularity.CoarseTokenKept | thirdeye/thirdeye-frontend/app/pods/rootcause/route.js:44-49 | A token whose unit is neither sub-minute nor MINUTES reads back with the same count and unit after normalisation. |
| Granularity.HoursGranularity | thirdeye/thirdeye-frontend/app/pods/rootcause/route.js:68-71 | An HOURS token maps to moment's `'hour'` with its count. |
| Granularity.MinutesIsNotOneDay | thirdeye/thirdeye-frontend/app/pods/rootcause/route.js:272 | A minute token is never the `1_DAYS` token that is displayed hourly. |
| JsText.ParseIntOfDigits | thirdeye/thirdeye-frontend/app/pods/rootcause/route.js:37 | `parseInt` of a non-empty run of digits is its decimal value, leading zeros included. |
| Granularity.ParseDigits | thirdeye/thirdeye-frontend/app/pods/rootcause/route.js:36-37 | Digits, `_` and a unit name read back as the digits' value and that unit, whatever zeros lead the digits. |
| Granularity.LeadingZeroDay | thirdeye/thirdeye-frontend/app/pods/rootcause/route.js:36-37 | `"01_DAYS"` reads as count 1 and unit DAYS, so `Granularity.OneDayAdjusted` turns it into `"1_DAYS"`. |
| Granularity.ParseDecimal | thirdeye/thirdeye-frontend/app/pods/rootcause/route.js:36-37 | `"<n>_<UNIT>"` reads back as count `n` and unit `UNIT`. |
| Granularity.SubMinuteAdjusted | thirdeye/thirdeye-frontend/app/pods/rootcause/route.js:39-42 | A sub-minute token normalises to one that reads as 5 minutes. |
| Granularity.MinutesGranularity | thirdeye/thirdeye-frontend/app/pods/rootcause/route.js:68-71 | A MINUTES token maps to moment's `'minute'` with its count. |
| Granularity.DaysGranularity | thirdeye/thirdeye-frontend/app/pods/rootcause/route.js:68-71 | A DAYS token maps to moment's `'day'` with its count. |
| Granularity.OneDayAdjusted | thirdeye/thirdeye-frontend/app/pods/rootcause/route.js:44-49 | Any token reading as one day (also `"01_DAYS"`) normalises to exactly `"1_DAYS"`. |
| Granularity.OneDayFormat | thirdeye/thirdeye-frontend/app/pods/rootcause/route.js:49 | The count 1 with the unit DAYS renders as `"1_DAYS"`. |
| Granularity.OneDayToken | thirdeye/thirdeye-frontend/app/pods/rootcause/route.js:36-37 | `"1_DAYS"` reads as count 1 and unit DAYS. |
| Granularity.ThirtySecondsToken | thirdeye/thirdeye-frontend/app/pods/rootcause/route.js:36-37 | `"30_SECONDS"` reads as count 30 and unit SECONDS. |
| Granularity.SecondsToken | thirdeye/thirdeye-frontend/app/pods/rootcause/route.js:39 | A SECONDS token of any count, NaN included, is a well-formed sub-minute token. |
| Ranges.AnomalyOffset | thirdeye/thirdeye-frontend/app/pods/rootcause/route.js:76-83 | Total: every unit, known or not, gets an offset in -120..-1, so the window always reaches back. |
| Ranges.AnalysisOffset | thirdeye/thirdeye-frontend/app/pods/rootcause/route.js:88-95 | Total: every unit gets a day offset in -7..-1. |
| Ranges.AnalysisRange | thirdeye/thirdeye-frontend/app/pods/rootcause/route.js:100-105 | Both ends are day-aligned. The end is the day after the anomaly's end day, so it is after the anomaly end and at most one day later. The start is `-offset` days before the anomaly's start day, so it is before the anomaly start and less than eight days earlier. The start precedes the end whenever the anomaly range is ordered. |
| Ranges.MetricAnomalyRange | thirdeye/thirdeye-frontend/app/pods/rootcause/route.js:258-263 | The window ends at the snapped maximum time (its `startOf` changes nothing). It is unit-aligned, starts before it ends, ends no later than the maximum time, and spans 120 minutes, 3 hours or 1 day. |
| Ranges.MetricAnomalyRangeNegated | thirdeye/thirdeye-frontend/app/pods/rootcause/route.js:258-263 | A negative count gives the same window as its absolute value. |
| Ranges.DefaultAnomalyRange | thirdeye/thirdeye-frontend/app/pods/rootcause/route.js:177-178 | The three whole hours before the start of the current hour. |
| Ranges.DefaultAnalysisRange | thirdeye/thirdeye-frontend/app/pods/rootcause/route.js:179-180 | Seven whole days: the six before today, and today. |
| Ranges.DailyAnomalyRange | thirdeye/thirdeye-frontend/app/pods/rootcause/route.js:258-263 | A daily metric's window is the whole day before the day holding the maximum time. |
| Ranges.DailyAnalysisRange | thirdeye/thirdeye-frontend/app/pods/rootcause/route.js:266 | A daily metric is analysed over the seven days before the maximum time's day, plus that day. |
| Ranges.FiveMinuteAnomalyRange | thirdeye/thirdeye-frontend/app/pods/rootcause/route.js:258-263 | A 5-minute metric's window is the two hours before the last 5-minute boundary at or before the maximum time. |
| Resolver.ModelOf | thirdeye/thirdeye-frontend/app/pods/rootcause/route.js:126-158 | A metric or anomaly URN exists iff its id is truthy and is the prefixed id. With a truthy id, the record (and the anomaly's sessions) is exactly the settled lookup; with a falsy one it is absent. The ids pass through unchanged. |
| Resolver.MostRecentIndex | thirdeye/thirdeye-frontend/app/pods/rootcause/route.js:192 | The last element of a stable sort by `updated`: a greatest `updated`, and no later session ties it. |
| Resolver.AfterModel | thirdeye/thirdeye-frontend/app/pods/rootcause/route.js:175-207 | Always merges the defaults. Without anomaly sessions the model is unchanged and there is no redirect. Otherwise the latest session replaces the anomaly id and URN, becomes the session, and the redirect asks for its id with the anomaly id cleared. |
| Resolver.SetOf | thirdeye/thirdeye-frontend/app/pods/rootcause/route.js:331 | Definition of `new Set(list)`, which holds exactly the list's elements; the contract is the definition, not a derived property. |
| Resolver.SetOfUrns | thirdeye/thirdeye-frontend/app/pods/rootcause/route.js:314 | The anomaly URN set is the anomaly, its metric and, when present, the function URN. |
| Resolver.FilterPrefix | thirdeye/thirdeye-frontend/app/pods/rootcause/route.js:355 | Definition of `filterPrefix`: it keeps exactly the URNs starting with the prefix. The contract is the definition. Its consequences are in `ResolverProperties.SizeMetricUrnsAreContextMetrics` and `ResolverProperties.MetricOnlySizeMetric`. |
| Resolver.MetricContextWindow | thirdeye/thirdeye-frontend/app/pods/rootcause/route.js:253-275 | The metric's context: the window ends at the snapped maximum time, which is no later than the metric's maximum. The analysis window is computed from that end for both arguments. The metric alone is listed, with no anomaly URNs and the given compare mode. The granularity is the normalised one, with `1_DAYS` shown as `1_HOURS`. |
| Resolver.MetricContextOf | thirdeye/thirdeye-frontend/app/pods/rootcause/route.js:256-275 | Once the normalised granularity is known to map to `n` units of `u` and not to be `1_DAYS`, the metric's context is that metric alone. Its window is the `n`-`u` anomaly window, analysed from the window's end, with the normalised granularity shown as it is. |
| Resolver.MetricOverlay | thirdeye/thirdeye-frontend/app/pods/rootcause/route.js:253-280 | The metric block never records an error and never touches the session metadata, including when the metric was not found. |
| Resolver.ValueFilters | thirdeye/thirdeye-frontend/app/pods/rootcause/route.js:294-296 | Definition of the inner `forEach`: one filter per value of a dimension, in the values' order. The contract is the definition. `RouteSetup.CollectFilters` is proved against it. |
| Resolver.AnomalyContextFacts | thirdeye/thirdeye-frontend/app/pods/rootcause/route.js:284-315 | The anomaly's context: its own start/end, an analysis window from them, the normalised granularity and `WoW`. It lists the filtered metric URN. Its anomaly URNs include the function URN iff `functionId` is non-empty. |
| RouteSetup.CollectFilters | thirdeye/thirdeye-frontend/app/pods/rootcause/route.js:291-297 | The nested loops push exactly the filters of the names-then-values order. |
| RouteSetup.Controller.SetProperties | thirdeye/thirdeye-frontend/app/pods/rootcause/route.js:357-373 | After `setProperties` every controller property holds the given value. |
| RouteSetup.MetricBlock | thirdeye/thirdeye-frontend/app/pods/rootcause/route.js:253-280 | The metric block's local updates equal the metric overlay. |
| RouteSetup.AnomalyBlock | thirdeye/thirdeye-frontend/app/pods/rootcause/route.js:282-324 | The anomaly block's local updates equal the anomaly overlay, error path included. |
| RouteSetup.AnomalyInitialized | thirdeye/thirdeye-frontend/app/pods/rootcause/route.js:284-320 | A found anomaly yields its context, selection `{anomaly, filtered metric}` and a session name. The text is its first comment, or undefined when the comment list is empty. |
| RouteSetup.SessionBlock | thirdeye/thirdeye-frontend/app/pods/rootcause/route.js:326-352 | The session block's local updates equal the session overlay, error path included. |
| RouteSetup.SetupController | thirdeye/thirdeye-frontend/app/pods/rootcause/route.js:209-373 | The controller ends holding the resolution of the defaults under the metric, anomaly and session overlays in that order, with the size metrics taken from the final context. |
| ResolverProperties.MostRecentIndexUnique | thirdeye/thirdeye-frontend/app/pods/rootcause/route.js:192 | The session chosen is determined: it is the only one with the greatest `updated` and no later tie. |
| ResolverProperties.LatestOfThree | thirdeye/thirdeye-frontend/app/pods/rootcause/route.js:192 | Of sessions updated at 100, 300 and 200 the one at 300 is adopted. |
| ResolverProperties.LatestOfTie | thirdeye/thirdeye-frontend/app/pods/rootcause/route.js:192 | Of two sessions updated at the same time the later in the list is adopted. |
| ResolverProperties.RecoveryReplacesAnomaly | thirdeye/thirdeye-frontend/app/pods/rootcause/route.js:189-204 | After recovery the anomaly block cannot fire. The redirect names the adopted session. With a non-empty id that session decides the context, selection, metadata and mode, with no errors. |
| ResolverProperties.RecoveryRedirectsOnce | thirdeye/thirdeye-frontend/app/pods/rootcause/route.js:137-145 | Following the redirect (anomaly id cleared) loads no anomaly sessions, so no second redirect follows. |
| ResolverProperties.SessionWins | thirdeye/thirdeye-frontend/app/pods/rootcause/route.js:326-348 | A found session overrides the metric and anomaly: its context, selection and metadata (unmodified), setup mode `none`. |
| ResolverProperties.AnomalyOverridesMetric | thirdeye/thirdeye-frontend/app/pods/rootcause/route.js:282-320 | Without a session, a found anomaly overrides the metric. The result has its window, `WoW`, selection `{anomaly, metric}`, a session named after it with its first comment (or undefined) as text, mode `selected` and no errors. |
| ResolverProperties.MetricOnly | thirdeye/thirdeye-frontend/app/pods/rootcause/route.js:253-280 | A metric alone yields its context, `{metric, current, baseline}` selected, the default metadata, mode `selected` and no errors. |
| ResolverProperties.DefaultsWhenNothingFound | thirdeye/thirdeye-frontend/app/pods/rootcause/route.js:229-251 | With no record found the default context stands, with nothing selected, no size metrics, the default metadata and mode `context`. |
| ResolverProperties.ResolutionErrors | thirdeye/thirdeye-frontend/app/pods/rootcause/route.js:321-351 | The errors are exactly "Could not find anomalyId <id>" for a missing requested anomaly and "Could not find sessionId <id>" for a missing requested session; a missing metric records none. |
| ResolverProperties.MissingAnomalyKeepsLocals | thirdeye/thirdeye-frontend/app/pods/rootcause/route.js:321-323 | A missing anomaly adds its error and leaves the prior context, selection, metadata and mode untouched. |
| ResolverProperties.MissingSessionKeepsLocals | thirdeye/thirdeye-frontend/app/pods/rootcause/route.js:349-351 | A missing session adds its error and leaves everything else untouched. |
| ResolverProperties.IdleOverlays | thirdeye/thirdeye-frontend/app/pods/rootcause/route.js:254-327 | Each of the three blocks changes nothing when its id is absent. The metric block also changes nothing when its record was not found. |
| ResolverProperties.OverlayFrames | thirdeye/thirdeye-frontend/app/pods/rootcause/route.js:253-352 | Each block depends only on its own id, URN and record. |
| ResolverProperties.SessionOverlayKeepsError | thirdeye/thirdeye-frontend/app/pods/rootcause/route.js:326-352 | An error recorded before the session block survives it. |
| ResolverProperties.MissingAnomalyOnlyAddsError | thirdeye/thirdeye-frontend/app/pods/rootcause/route.js:282-324 | A missing anomaly gives the outcome of the same route without an anomaly id, plus exactly its error. |
| ResolverProperties.MissingSessionOnlyAddsError | thirdeye/thirdeye-frontend/app/pods/rootcause/route.js:326-352 | A missing session gives the outcome of the same route without a session id, plus exactly its error. |
| ResolverProperties.SizeMetricUrnsAreContextMetrics | thirdeye/thirdeye-frontend/app/pods/rootcause/route.js:355 | The size metrics are exactly the final context's URNs that start with `thirdeye:metric:`. |
| ResolverProperties.PrefixStartsWith | thirdeye/thirdeye-frontend/app/pods/rootcause/route.js:133 | A URN built by prefixing starts with that prefix. |
| ResolverProperties.MetricOnlySizeMetric | thirdeye/thirdeye-frontend/app/pods/rootcause/route.js:253-355 | A metric opened alone is the one size metric. |
| ResolverProperties.MetricRouteModel | thirdeye/thirdeye-frontend/app/pods/rootcause/route.js:132-207 | Opening the route with only a metric id keeps the model `model()` built, with only the metric block requested. |
| ResolverProperties.MetricRouteSizeMetric | thirdeye/thirdeye-frontend/app/pods/rootcause/route.js:132-355 | Opening the route with only a metric id makes `thirdeye:metric:<id>` the one size metric. |
| ResolverProperties.DimensionFiltersLength | thirdeye/thirdeye-frontend/app/pods/rootcause/route.js:291-297 | As many filters as there are values over all dimensions. |
| ResolverProperties.DimensionFiltersAppend | thirdeye/thirdeye-frontend/app/pods/rootcause/route.js:291-297 | The filters of concatenated dimension lists are the concatenated filters. |
| ResolverProperties.DimensionFiltersAt | thirdeye/thirdeye-frontend/app/pods/rootcause/route.js:291-297 | The filter of value `j` of dimension `i` sits right after all filters of earlier dimensions and the `j` earlier values. |
| ResolverProperties.DimensionFiltersFrom | thirdeye/thirdeye-frontend/app/pods/rootcause/route.js:291-297 | Every filter comes from some value of some listed dimension. |
| ResolverProperties.CountryAttributes | thirdeye/thirdeye-frontend/app/pods/rootcause/route.js:291-297 | Dimension `country` with values `us`, `ca` gives exactly those two filters, in that order. |
| ResolverProperties.CountryAnomaly | thirdeye/thirdeye-frontend/app/pods/rootcause/route.js:291-315 | Both country filters are appended to the metric and function URNs, which are what the context lists. |
| ResolverProperties.SubMinuteMetric | thirdeye/thirdeye-frontend/app/pods/rootcause/route.js:253-275 | A sub-minute metric is shown at `5_MINUTES`. Its window is the two hours before the last 5-minute boundary at or before its maximum time, and it is analysed around that boundary. |
| ResolverProperties.ThirtySecondMetric | thirdeye/thirdeye-frontend/app/pods/rootcause/route.js:253-275 | `30_SECONDS` is such a metric, with the same context. |
| ResolverProperties.DailyMetric | thirdeye/thirdeye-frontend/app/pods/rootcause/route.js:253-275 | A daily metric is shown as `1_HOURS`. Its window is the day before the maximum time's day, analysed over the seven days before that day plus the day itself. |
| ResolverProperties.NegativeHourlyMetric | thirdeye/thirdeye-frontend/app/pods/rootcause/route.js:253-263 | An hour token with a negative count (e.g. `-2_HOURS`) is well formed. Its window is the one its absolute value gives. |
| ResolverProperties.OneDayMetric | thirdeye/thirdeye-frontend/app/pods/rootcause/route.js:272 | A `1_DAYS` metric is displayed at `1_HOURS`. |

## Left out

- `model()` (route.js:126-158): the fetches, `checkStatus`, the `.catch` fallbacks
  and the `RSVP.hash` join are I/O. The settled lookups are an input record
  (`Lookups`); only the URN building and gating are modelled (`Resolver.ModelOf`).
  `isDevEnv` (derived from `config.environment`) is not modelled.
- `this.transitionTo` (route.js:203) is a navigation side effect. It appears as the
  returned `Redirect` value.
- `Resolver.AfterModel`: the `...queryParams` part of the merge is not modelled. The
  route declares only `metricId`, `sessionId` and `anomalyId` as query parameters,
  and the model already carries them.
  - The `anomalyContext: null` field that recovery sets is not modelled; nothing in
    the route reads it.
  - The in-place `Object.assign` mutation is modelled as returning the updated
    record.
- `resetController`, `willTransition` and `error` (route.js:168-173, 381-392) are
  Ember lifecycle and session-store plumbing.
- The signed-in user's name (`authService`, route.js:245) and the current time are
  parameters (`Env.user`, `Env.now`). One `now` serves every `makeTime()` call.
- moment.js local time zones and daylight saving time are not modelled. Time is
  integer epoch milliseconds at UTC offset 0, where every unit has a fixed length.
  - `format(dateFormatFull)` is an uninterpreted `formatTime`.
  - moment's `'nanosecond'` (unknown to moment) is only carried through the unit
    mapping; the metric branch never reaches it.
- The rca-utils helpers `value2filter`, `appendFilters`, `toCurrentUrn` and
  `toBaselineUrn` are uninterpreted. Their definitions are not part of this model.
  `filterPrefix` is modelled directly.
- `StreamLevelConsumer.java` and `StreamConsumerFactoryProvider.java` are not part of
  this model. They hold no resolution logic.
- `RouteSetup.SetupController`, `Resolver.MetricContext`, `Resolver.MetricOverlay`:
  these require the metric granularity to be well formed (`Granularity.WellFormed`).
  The unit must be one of the six names of UNIT_MAPPING. The count must survive
  normalisation as a non-zero number. So the model leaves out:
  - a NaN minute count, which `Math.max` keeps NaN (displayed as `NaN_MINUTES`);
  - a NaN or zero hour or day count (`x % 0` and `x % NaN` are NaN);

  For both, the snap remainder at route.js:60 is NaN. What `start.add(NaN, unit)`
  then does is moment's behaviour, and moment is not part of this model; its
  duration reads a NaN amount as 0, so the route keeps `startOf(unit)` and builds an
  ordinary window from it. The model does not extend `TimeAlign.AdjustMaxTime` to
  these counts.
  Also left out:
  - any other unit, for which UNIT_MAPPING yields undefined and moment's `startOf` and
    `get` are handed no unit.

  Negative counts are accepted and snap as their absolute value
  (`ResolverProperties.NegativeHourlyMetric`). Sub-minute tokens are accepted whatever
  their count, since the count is replaced by 5.
- `Resolver.MetricEntity` holds the first values of the metric's `granularity` and
  `maxTime` attributes. A record that lacks either attribute, or has an empty
  `granularity` list, makes route.js:256 or 258 throw a TypeError. That case is not
  modelled.
- `RouteSetup.SetupController`, `Resolver.AnomalyContext`, `Resolver.AnomalyOverlay`:
  a found anomaly must satisfy `Resolver.AnomalyWellFormed`. Each part it demands
  guards a throw in the route:
  - a non-empty `metricGranularity` list: otherwise `adjustGranularity(undefined)`
    throws at `split`;
  - a `metricId` and a `comment` attribute: indexing an absent attribute throws;
  - an attribute for every listed dimension: `forEach` on an absent one throws.

  An empty `metricId` list renders as `undefined` in the URN. An empty `comment` list
  makes the session text undefined. Both are modelled.
- The anomaly's `start`/`end`, the metric's `maxTime` and a session's `updated` are
  integers. The `parseInt` of those strings is not modelled. `parseInt` on values
  beyond 2^53 and on non-ASCII whitespace is not modelled either.
- `_.sortBy` on sessions that lack `updated` is not modelled; every session has an
  integer `updated`.
- Ids are optional strings, and truthiness is "present and non-empty". A numeric id
  0 is not modelled.
- UNIT_MAPPING lookups of `Object.prototype` keys such as `"constructor"` are not
  modelled; only the six own keys map to a unit.
- The controller's seven session properties are grouped into one `SessionMeta` field.
  The initial `sessionUpdatedTime` of `''` is `None`; a session text of `None` is
  JavaScript's undefined. A saved `SessionRecord` may likewise have no text
  (`None`), and the session block then leaves `sessionText` undefined.
- `Ranges.AnomalyOffset`, `Ranges.AnalysisOffset`: the contracts state only that the
  tables are total and within their bounds. The individual table values are the
  functions' definitions.
