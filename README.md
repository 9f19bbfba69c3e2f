# Weather dataset core, modelled in Dafny

This project models the domain core of a weather application. The core turns one request into a dataset. A request is an aggregation (daily or hourly), a metric of that aggregation, a location and a timeframe. The provider has two endpoints: a historical one for the past and a forecast one from "now" on. No single endpoint covers a window that straddles "now".

The model covers:

- **Repository** (`repository.dfy`, module `Repository`).
  - How the requested window is split at the current instant (`PrepareTimeframe`).
  - Which provider calls are made, with which query (`PlanCalls`, `BuildRequest`).
  - How each provider response becomes a series of points (`Range`, `MapWeatherApiResponse`).
  - How each failure inside `try` becomes `Result.error` (`GetDataset`): a date that cannot be formatted (`UnparseableDateFails`), a rejected call (`RejectionIsError`) and a response that cannot be mapped (`UnmappableResponseIsError`).
  - The static tables: units, aggregation keys, and the provider field of each (aggregation, metric) pair.
- **Service** (`service.dfy`, module `Service`).
  - `getWeatherDataset` as written: a pass-through to the repository.
  - Beside it, the service the unit tests expect (see Findings).
- **Normalisation** (`normalization.dfy`, module `Normalization`). This is TEST-ASSERTED. It is NOT in WeatherService.ts: only WeatherService.spec.ts asserts it. It sorts both series by timestamp. It then drops the historical points that are not strictly before the first forecast point.
- **Aggregations** (`aggregation.dfy`, module `Aggregations`). The aggregation-to-metric table, written as a tagged union `AggregationMetric = DailyOf(...) | HourlyOf(...)`. A metric therefore cannot be paired with the wrong aggregation.
- **Filters form** (`filters_form.dfy`, module `FiltersForm`). The zod schema of the filters form, as a validity predicate over a record whose fields are all optional.
- **Result and the entities** (`result.dfy`, `domain.dfy`).
- **Test fixtures** (`fixtures.dfy`, module `Fixtures`). The filters that the repository, service and component tests share, defined once.

Modelling choices:

- **Instants** are integer milliseconds from the epoch, in UTC. A date string stands for the `Instant` that `new Date(s)` gives: `Time(ms)`, or `InvalidDate` when its `getTime()` is `NaN`.
  - A comparison with an invalid date is false. So an invalid end never selects the historical-only branch of `prepareTimeframe`, and an invalid start never selects the forecast-only one. An invalid start with an end before now still goes historical-only, and an invalid end with a start after now still goes forecast-only (`UnparseableBoundBranches`).
  - Formatting an invalid date later throws `RangeError: Invalid time value`. That throw happens inside `try`.
- **Date-only strings**: a `YYYY-MM-DD` query date is the day number of the instant (day 0 is 1970-01-01).
- **The clock** is a parameter `now`.
- **The transport** `fetchWeatherApi` is a parameter `fetch: Request -> FetchOutcome`. It gives what the provider answers to a request: the decoded responses, or a rejection carrying `String(error)`.
- **Exceptions**: a `throw` caught by the `catch` of `getDataset` is modelled by `:-` on the failure-compatible `Result`.

Facts about the code that a reader might not expect:

- **Missing variable**: a response without a variable at index 0 does not give an empty series. WeatherRepository.ts:129-139 still emits one point per sample time, with value 0 and unit `''`. `MapWeatherApiResponse` models this.
- **No normalisation in the service**: WeatherService.ts:12-14 returns the repository's result unchanged. Its tests expect sorted, trimmed series (see Findings).
- **Equal timestamps**: nothing in the code or the tests rules out two points with the same timestamp. So `SortedByDate` is non-decreasing order, not strictly ascending.
- **Unparseable bounds**: every request with an unparseable bound fails with `RangeError: Invalid time value`, whichever branch of `prepareTimeframe` it takes (`UnparseableDateFails`).

## Model

| member | source | states |
|---|---|---|
| Aggregations.AggregationFromName | src/modules/weather/domain/entities/WeatherAggregation.ts:1-6 | a tag names at most one aggregation, and the one whose name it is |
| Aggregations.AggregationMetric.Name | src/modules/weather/domain/entities/WeatherAggregationMetric.ts:8-11 | a metric's name is always in the list of its own aggregation |
| Aggregations.ParseMetric | src/modules/weather/domain/entities/WeatherAggregationMetric.ts:3-11 | a name parses under an aggregation exactly when it is in that aggregation's list, to a metric of that aggregation with that name |
| Aggregations.ParseMetricName | src/modules/weather/domain/entities/WeatherAggregationMetric.ts:8-11 | naming a metric and parsing the name back gives the metric: one inhabitant per table entry |
| Aggregations.Metrics | src/modules/weather/domain/entities/WeatherAggregationMetric.ts:3-6 | the metrics of an aggregation, position by position, carry the names of the table in its order (daily: temperature_max, temperature_min, rain; hourly: temperature, humidity, rain, wind_speed) |
| Aggregations.MetricListed | src/modules/weather/domain/entities/WeatherAggregationMetric.ts:8-11 | every metric is listed for its own aggregation |
| Aggregations.SharedAndExclusiveMetrics | src/modules/weather/domain/entities/WeatherAggregationMetric.ts:4-5 | rain belongs to both aggregations; wind_speed is not daily; temperature_max is not hourly |
| Domain.DayNumber | src/modules/weather/infrastructure/repository/weather-repository/WeatherRepository.ts:148-152 | the day number is the UTC day holding the instant |
| Repository.UnitLabel | src/modules/weather/infrastructure/repository/weather-repository/WeatherRepository.ts:15-20 | the label is non-empty exactly for a present unit that unitMap maps, and then it is unitMap's entry (line 137) |
| Repository.AggregationMetricMapTotal | src/modules/weather/infrastructure/repository/weather-repository/WeatherRepository.ts:27-43 | aggregationMetricMap has a row per aggregation keyed by exactly its metric names, so the lookup is total |
| Repository.ProviderField | src/modules/weather/infrastructure/repository/weather-repository/WeatherRepository.ts:27-43 | every (aggregation, metric) pair has its provider field in the table |
| Repository.ProviderFieldInjective | src/modules/weather/infrastructure/repository/weather-repository/WeatherRepository.ts:27-43 | distinct metrics ask for distinct provider fields |
| Repository.MapAggregationToQueryParams | src/modules/weather/infrastructure/repository/weather-repository/WeatherRepository.ts:142-146 | the query key is the aggregation's tag, and the query asks for exactly one field: the pair's own entry of aggregationMetricMap (`ProviderField`) |
| Repository.QueryDeterminesMetric | src/modules/weather/infrastructure/repository/weather-repository/WeatherRepository.ts:142-146 | two pairs with the same query are the same pair |
| Repository.MapDateToQueryParam | src/modules/weather/infrastructure/repository/weather-repository/WeatherRepository.ts:148-152 | the query date is the UTC day holding the instant; an invalid date throws RangeError: Invalid time value |
| Repository.PrepareTimeframe | src/modules/weather/infrastructure/repository/weather-repository/WeatherRepository.ts:154-189 | end before now: historical only, the window unchanged; else start after now: forecast only, the window unchanged; otherwise forecast {now, end} and historical {start, now - 1 day}; at least one sub-range is present |
| Repository.SubRangesRespectNow | src/modules/weather/infrastructure/repository/weather-repository/WeatherRepository.ts:160-188 | a historical sub-range ends strictly before now and a forecast sub-range starts at or after now |
| Repository.UnparseableBoundBranches | src/modules/weather/infrastructure/repository/weather-repository/WeatherRepository.ts:160-172 | an invalid end never gives historical-only and an invalid start never forecast-only; an invalid start with an earlier end, or an invalid end with a later start, still takes the one-endpoint branch with the window unchanged |
| Repository.PreviousDay | src/modules/weather/infrastructure/repository/weather-repository/WeatherRepository.ts:176-177 | the back-off of one day lands on the previous day number |
| Repository.QueryDaysPartitionWindow | src/modules/weather/infrastructure/repository/weather-repository/WeatherRepository.ts:154-189 | for an ordered window of valid dates, the days requested of the two endpoints are disjoint and together are exactly the window's days |
| Repository.EndpointUrlInjective | src/modules/weather/infrastructure/repository/weather-repository/WeatherRepository.ts:65-88 | the forecast and historical URLs differ, so the URL tells which endpoint is called |
| Repository.BuildRequest | src/modules/weather/infrastructure/repository/weather-repository/WeatherRepository.ts:66-88 | a call's arguments are built exactly when both bounds are valid dates: coordinates, both days and the aggregation query; otherwise formatting throws |
| Repository.PlanCalls | src/modules/weather/infrastructure/repository/weather-repository/WeatherRepository.ts:57-88 | one call per sub-range of prepareTimeframe, forecast in the first position and historical in the second, each exactly BuildRequest's arguments; the plan is built exactly when every present sub-range formats, and otherwise fails with RangeError: Invalid time value |
| Repository.RangeLength | src/modules/weather/infrastructure/repository/weather-repository/WeatherRepository.ts:46 | Array.from's length rule: zero step is a RangeError exactly for a positive span and 0 otherwise; opposite signs or a zero span give 0; matching signs give the truncated quotient (length*|step| <= |span| < (length+1)*|step|), a RangeError exactly when that reaches 2^32; every length is at most 2^32-1 |
| Repository.Range | src/modules/weather/infrastructure/repository/weather-repository/WeatherRepository.ts:45-46 | range succeeds exactly when its length does, has that length, and element i is start + i*step |
| Repository.RangeWholeIntervals | src/modules/weather/infrastructure/repository/weather-repository/WeatherRepository.ts:45-46 | for a positive step, sample i is present exactly when (i+1)*step fits between start and stop: floor((stop-start)/step) samples, 0 when negative |
| Repository.RangeExactCount | src/modules/weather/infrastructure/repository/weather-repository/WeatherRepository.ts:45-46 | a block spanning count whole intervals gives exactly count sample times |
| Repository.ValueAt | src/modules/weather/infrastructure/repository/weather-repository/WeatherRepository.ts:136 | the value at an index, or 0 when the values are missing or too short |
| Repository.MapWeatherApiResponse | src/modules/weather/infrastructure/repository/weather-repository/WeatherRepository.ts:113-140 | no block for the aggregation gives an empty series; with a block, mapping succeeds exactly when range succeeds and every sample time is a valid date, giving one point per range element dated time*1000 ms, valued values[i] or 0, labelled by UnitLabel; failure is only a RangeError |
| Repository.MappedSeriesAscending | src/modules/weather/infrastructure/repository/weather-repository/WeatherRepository.ts:129-139 | with a positive interval the mapped series is strictly ascending by date |
| Repository.MapResponses | src/modules/weather/infrastructure/repository/weather-repository/WeatherRepository.ts:92-98 | no call or an empty response list gives an empty series; otherwise the first response is mapped |
| Repository.Await | src/modules/weather/infrastructure/repository/weather-repository/WeatherRepository.ts:63-90 | no call settles to null; a resolved call to its responses; a rejected call to an error with the rejection's string |
| Repository.GetDataset | src/modules/weather/infrastructure/repository/weather-repository/WeatherRepository.ts:49-111 | a success echoes aggregation, metric, location and timeframe unchanged; a date that cannot be formatted fails the request with RangeError: Invalid time value |
| Repository.PastWindow | src/modules/weather/infrastructure/repository/weather-repository/WeatherRepository.ts:160-165 | end before now: only the historical call is made, for the requested days, and the forecast series is empty |
| Repository.FutureWindow | src/modules/weather/infrastructure/repository/weather-repository/WeatherRepository.ts:167-172 | start after now (end not before now): only the forecast call is made, for the requested days, and the historical series is empty |
| Repository.StraddlingWindow | src/modules/weather/infrastructure/repository/weather-repository/WeatherRepository.ts:174-188 | start <= now <= end (bounds included): forecast from now's day to the end day, then historical from the start day to the day before now's |
| Repository.UnparseableDateFails | src/modules/weather/infrastructure/repository/weather-repository/WeatherRepository.ts:62-110 | an unparseable bound fails the request with RangeError: Invalid time value, whatever the provider answers |
| Repository.RejectionIsError | src/modules/weather/infrastructure/repository/weather-repository/WeatherRepository.ts:108-110 | a rejected call fails the request with the rejection's string and no payload (forecast's first, then historical's) |
| Repository.UnmappableResponseIsError | src/modules/weather/infrastructure/repository/weather-repository/WeatherRepository.ts:92-110 | when every call resolves but a first response cannot be mapped, the request fails with that mapping error (the forecast's tried first) |
| Repository.ResolvedCallsSucceed | src/modules/weather/infrastructure/repository/weather-repository/WeatherRepository.ts:92-107 | when every call resolves with mappable responses the request succeeds, each series being its endpoint's mapped first response, empty when no call was made |
| Repository.PastScenario | src/modules/weather/infrastructure/repository/weather-repository/WeatherRepository.spec.ts:59-96 | 2025-02-01..04 at the tests' clock: one historical call for those days, to the historical URL |
| Repository.FutureScenario | src/modules/weather/infrastructure/repository/weather-repository/WeatherRepository.spec.ts:98-135 | 2025-02-06..10: one forecast call for those days, to the forecast URL |
| Repository.StraddleScenario | src/modules/weather/infrastructure/repository/weather-repository/WeatherRepository.spec.ts:137-192 | 2025-02-01..10 at 2025-02-05T12:00Z: forecast 2025-02-05..10 first, historical 2025-02-01..04 second, each to its URL |
| Repository.MappingScenario | src/modules/weather/infrastructure/repository/weather-repository/WeatherRepository.spec.ts:194-226 | one daily sample of 12 degrees Celsius maps to one forecast point {time*1000, 12, the Celsius display string} and no historical points |
| Repository.RejectionScenario | src/modules/weather/infrastructure/repository/weather-repository/WeatherRepository.spec.ts:228-245 | a rejected fetch gives Result.error carrying the error's string |
| Service.GetWeatherDataset | src/modules/weather/domain/service/WeatherService.ts:12-14 | the repository's result is returned unchanged: same success, same payload, same error string |
| Service.GetNormalizedWeatherDataset | src/modules/weather/domain/service/WeatherService.spec.ts:69-206 | test-asserted service: errors keep their string; a payload comes back normalised (sorted, separated), the forecast a permutation, the historical exactly the points before every forecast point (with their multiplicities), the filters echoed |
| Service.NormalizedServiceIdempotent | src/modules/weather/domain/service/WeatherService.spec.ts:43-54 | over a repository that already returns normalised data, the test-asserted service equals the pass-through |
| Service.PassThroughLeavesSeriesUnsorted | src/modules/weather/domain/service/WeatherService.ts:12-14 | on the repository answer of WeatherService.spec.ts:69-92 the service as written returns historical data unsorted; the test-asserted one returns both series sorted |
| Normalization.InsertByDate | src/modules/weather/domain/service/WeatherService.spec.ts:69-92 | test-asserted: insertion adds exactly the one point (multiset) |
| Normalization.InsertByDateSorted | src/modules/weather/domain/service/WeatherService.spec.ts:69-92 | test-asserted: inserting into a sorted series keeps it sorted |
| Normalization.SortByDate | src/modules/weather/domain/service/WeatherService.spec.ts:69-92 | test-asserted: the result is sorted by timestamp and a permutation of the input |
| Normalization.SortSortedIsIdentity | src/modules/weather/domain/service/WeatherService.spec.ts:43-54 | test-asserted: sorting a sorted series leaves it unchanged |
| Normalization.KeepBefore | src/modules/weather/domain/service/WeatherService.spec.ts:94-117 | test-asserted: each point is kept with its full multiplicity when dated strictly before the cutoff and dropped otherwise |
| Normalization.KeepBeforeSorted | src/modules/weather/domain/service/WeatherService.spec.ts:94-117 | test-asserted: cutting a sorted series keeps it sorted |
| Normalization.KeepBeforeAll | src/modules/weather/domain/service/WeatherService.spec.ts:43-54 | test-asserted: a series wholly before the cutoff is kept whole |
| Normalization.BeforeFirstIsBeforeAll | src/modules/weather/domain/service/WeatherService.spec.ts:94-117 | test-asserted: against a sorted forecast, before its first point is before all of it |
| Normalization.Normalize | src/modules/weather/domain/service/WeatherService.spec.ts:69-206 | test-asserted: both series sorted, no historical point at or after a forecast point, forecast a permutation of the input, historical exactly the input points before every forecast point (with their multiplicities), filters echoed |
| Normalization.NormalizeEmptyForecast | src/modules/weather/domain/service/WeatherService.spec.ts:119-139 | test-asserted: no forecast leaves historical sorted and untrimmed |
| Normalization.NormalizeAllHistoricalLater | src/modules/weather/domain/service/WeatherService.spec.ts:141-163 | test-asserted: a historical series wholly at or after the first forecast point becomes empty; forecast is only sorted |
| Normalization.NormalizeFixedPoint | src/modules/weather/domain/service/WeatherService.spec.ts:43-54 | test-asserted: a sorted, separated dataset is returned unchanged |
| Normalization.NormalizeIdempotent | src/modules/weather/domain/service/WeatherService.spec.ts:69-206 | test-asserted: normalising twice equals normalising once |
| Normalization.NormalizeEmpty | src/modules/weather/domain/service/WeatherService.spec.ts:165-181 | test-asserted: empty in, empty out |
| Normalization.SharedInstantGoesToForecast | src/modules/weather/domain/service/WeatherService.spec.ts:183-206 | test-asserted: on the two-by-two example of the test (dates moved to days 1-3 of 1970), the point shared by both series is dropped from historical and kept in forecast |
| Normalization.ScrambledSeriesAreSorted | src/modules/weather/domain/service/WeatherService.spec.ts:69-92 | test-asserted: for any points dated a < b < c < d < e, history c, a, b and forecast e, d come out as a, b, c and d, e |
| Normalization.SharedPointGoesToForecast | src/modules/weather/domain/service/WeatherService.spec.ts:183-206 | test-asserted: for any points dated a < b < c, history a, b and forecast b, c give history a and forecast b, c |
| Normalization.UnsortedSeriesAreSorted | src/modules/weather/domain/service/WeatherService.spec.ts:69-92 | test-asserted: days 3, 1, 2 and 5, 4 come out as 1, 2, 3 and 4, 5 |
| FiltersForm.Valid | src/modules/weather/presentation/compositions/useWeatherFiltersForm.ts:19-44 | the union with its four refinements: a valid form has every field present and a metric belonging to the aggregation it names |
| FiltersForm.ValidIff | src/modules/weather/presentation/compositions/useWeatherFiltersForm.ts:9-44 | valid exactly when every field is present, latitude in [-90, 90], longitude in [-180, 180], the aggregation named and the metric in its list; date order is not checked |
| FiltersForm.MismatchedMetricInvalid | src/modules/weather/presentation/compositions/useWeatherFiltersForm.ts:19-32 | daily with wind_speed matches neither union branch |
| FiltersForm.InitialValuesValid | src/modules/weather/presentation/compositions/useWeatherFiltersForm.ts:51-58 | a form prefilled from well-typed filters is valid exactly when the coordinates are in range |
| FiltersForm.SpecFiltersValid | src/modules/weather/presentation/components/WeatherFilters.spec.ts:55-63 | the fully populated filters of the component test give a valid form |

## Left out

- fetchWeatherApi and the provider's wire format: a foreign library. It is the parameter `fetch`, and responses are the decoded `ApiResponse` values. Each request carries its endpoint, and `EndpointUrl` gives the URL it is sent to.
- Concurrency: `Promise.all` and `await` are modelled in position order, forecast first.
- Repository.GetDataset: when both calls reject, the model reports the forecast's rejection. `Promise.all` reports whichever rejection comes first in time.
- An issued call whose result is thrown away is not recorded. This happens when the forecast call has been made and building the historical arguments then throws.
- JavaScript `Date` parsing and ISO-8601 formatting: date strings are the instants they parse to, and `YYYY-MM-DD` strings are day numbers.
- Repository.PrepareTimeframe: `setDate(getDate() - 1)` is taken as exactly one UTC day (86 400 000 ms). In a local time zone with daylight saving it can differ by an hour.
- Repository.PrepareTimeframe, Repository.GetDataset: these require a clock reading whose previous day is still a valid `Date` (`ClockValid`). Outside that range `toISOString` would throw outside `try`.
- Floating point: sample values are `real`, with no Float32 rounding and no NaN.
- Repository.Range: start, stop and step are exact integers. The rounding of `Number(bigint)` and of float division is not modelled.
- The provider's unit codes other than the four mapped ones and code 0 are one `OtherUnit` case. All of them map to `''`.
- The `!sourceKey` branch of mapWeatherApiResponse (WeatherRepository.ts:119-121) cannot be taken: aggregationMap is total. It is not modelled.
- The garbled unit string in one repository test is an encoding artefact. The model uses the unitMap entry °C.
- zod and vee-validate machinery: `useForm`, `toTypedSchema`, and the issue paths and messages of the refinements. Only validity is modelled.
- The service's `repo` field, set once by the constructor, is the parameter `getDataset`.
- UI components, useWeatherDataset.ts (query and toast glue), useWeatherService.ts, useWeatherRepository.ts, main.ts and vitest.setup.ts. These are wiring and presentation.

## Findings

| source | as written | input that shows it | evidently intended | confidence | as-written member | corrected member |
|---|---|---|---|---|---|---|
| src/modules/weather/domain/service/WeatherService.ts:12-14 | getWeatherDataset returns the repository's result unchanged, with both series in the repository's order and no trimming | the repository answer of WeatherService.spec.ts:69-92 (historical days 3, 1, 2); Service.PassThroughLeavesSeriesUnsorted shows the result is not sorted | both series sorted by timestamp and historical cut strictly before the first forecast point, as WeatherService.spec.ts:69-206 asserts | not executed | Service.GetWeatherDataset | Service.GetNormalizedWeatherDataset |
