/** The repository: which provider calls a request needs, with which query, and how
    the provider's responses become a dataset
    (src/modules/weather/infrastructure/repository/weather-repository/WeatherRepository.ts).
    The clock and the transport are parameters: `now` is the current instant in
    milliseconds and `fetch` is what the provider answers to a request. */
module Repository {
  import opened Results
  import opened Aggregations
  import opened Domain
  import opened Fixtures

  // ---------------------------------------------------------------------------
  // Static tables
  // ---------------------------------------------------------------------------

  /** The provider's unit codes; `UnitUndefined` is the code 0, which is falsy. */
  datatype Unit = UnitUndefined | Celsius | KilometresPerHour | Percentage | Millimetre | OtherUnit(code: nat)

  /** `unitMap`: display strings of the units the application knows. */
  const UnitMap: map<Unit, string> :=
    map[Celsius := "°C", KilometresPerHour := "km/h", Percentage := "%", Millimetre := "mm"]

  /** `unit ? unitMap[unit] ?? '' : ''`: the display string, empty for a missing,
      undefined or unmapped unit. */
  function UnitLabel(unit: Option<Unit>): (display: string)
    ensures display != "" <==> unit.Some? && unit.value in UnitMap
    ensures display != "" ==> display == UnitMap[unit.value]
  {
    if unit.None? || unit.value == UnitUndefined then ""
    else if unit.value in UnitMap then UnitMap[unit.value]
    else ""
  }

  /** `aggregationMetricMap`: the provider field of every (aggregation, metric) pair. */
  const AggregationMetricMap: map<Aggregation, map<string, string>> := map[
    Hourly := map[
      "temperature" := "temperature_2m",
      "humidity" := "relative_humidity_2m",
      "rain" := "rain",
      "wind_speed" := "wind_speed_10m"],
    Daily := map[
      "temperature_max" := "temperature_2m_max",
      "temperature_min" := "temperature_2m_min",
      "rain" := "rain_sum"]]

  /** The table has a row for every aggregation, keyed by exactly that aggregation's
      metric names, so the lookup of a well-typed pair never fails. */
  lemma AggregationMetricMapTotal(a: Aggregation)
    ensures a in AggregationMetricMap
    ensures AggregationMetricMap[a].Keys == set n | n in MetricNames(a)
  {
    match a
    case Daily =>
      assert AggregationMetricMap[a].Keys == {"temperature_max", "temperature_min", "rain"};
    case Hourly =>
      assert AggregationMetricMap[a].Keys == {"temperature", "humidity", "rain", "wind_speed"};
  }

  /** `aggregationMetricMap[aggregation][aggregationMetric]`. */
  function ProviderField(m: AggregationMetric): (field: string)
    ensures m.Name() in AggregationMetricMap[m.Tag()]
    ensures field == AggregationMetricMap[m.Tag()][m.Name()]
  {
    AggregationMetricMapTotal(m.Tag());
    AggregationMetricMap[m.Tag()][m.Name()]
  }

  /** Distinct metrics ask the provider for distinct fields, across both aggregations. */
  lemma ProviderFieldInjective(m1: AggregationMetric, m2: AggregationMetric)
    ensures ProviderField(m1) == ProviderField(m2) ==> m1 == m2
  {
  }

  /** The spread `{ [aggregationMap[aggregation]]: [field] }`: the aggregation key and
      the one provider field it asks for. */
  datatype AggregationQuery = AggregationQuery(key: string, fields: seq<string>)

  /** `mapAggregationToQueryParams`. */
  function MapAggregationToQueryParams(m: AggregationMetric): (q: AggregationQuery)
    ensures AggregationFromName(q.key) == Some(m.Tag())
    ensures q.key == AggregationName(m.Tag()) && q.fields == [ProviderField(m)]
    ensures q.fields[0] in AggregationMetricMap[m.Tag()].Values
  {
    AggregationQuery(AggregationName(m.Tag()), [ProviderField(m)])
  }

  /** The query names the metric it was made from: no two pairs share a query. */
  lemma QueryDeterminesMetric(m1: AggregationMetric, m2: AggregationMetric)
    requires MapAggregationToQueryParams(m1) == MapAggregationToQueryParams(m2)
    ensures m1 == m2
  {
    ProviderFieldInjective(m1, m2);
  }

  // ---------------------------------------------------------------------------
  // Dates
  // ---------------------------------------------------------------------------

  /** `String(error)` of the `RangeError` that `toISOString` throws on an invalid date. */
  const InvalidTimeValue: string := "RangeError: Invalid time value"

  /** `String(error)` of the `RangeError` that `Array(n)` throws for n >= 2^32. */
  const InvalidArrayLength: string := "RangeError: Invalid array length"

  /** `mapDateToQueryParam`: the UTC day of the instant (the date part of its ISO
      string), or the error `toISOString` throws for an invalid date. */
  function MapDateToQueryParam(d: Instant): (r: Result<int>)
    ensures r.Success? <==> d.IsValid()
    ensures r.Success? ==> r.payload * DayMs <= d.ms < (r.payload + 1) * DayMs
    ensures r.Error? ==> r.error == InvalidTimeValue
  {
    if d.IsValid() then Success(DayNumber(d.ms)) else Error(InvalidTimeValue)
  }

  /** The clock shows a valid date whose previous day is a valid date too. */
  predicate ClockValid(now: int) {
    -MaxTimeMs + DayMs <= now <= MaxTimeMs
  }

  // ---------------------------------------------------------------------------
  // Window partition
  // ---------------------------------------------------------------------------

  /** A sub-range of the requested window, sent to one endpoint. */
  datatype SubRange = SubRange(startDate: Instant, endDate: Instant)

  /** What `prepareTimeframe` returns; `None` is `null`. */
  datatype Split = Split(forecast: Option<SubRange>, historical: Option<SubRange>)

  /** `prepareTimeframe`: a window ending before `now` goes to the historical endpoint,
      else one starting after `now` goes to the forecast endpoint, and any other window
      (one that touches `now`, or one whose deciding comparison involves an unparseable
      bound, which is false) is split at `now`, the historical part ending one day
      before `now`. */
  function PrepareTimeframe(tf: WeatherTimeframe, now: int): (s: Split)
    requires ClockValid(now)
    ensures s.forecast.Some? || s.historical.Some?
    ensures s.forecast.None? <==> EarlierThan(tf.endDate, now)
    ensures s.historical.None? <==> !EarlierThan(tf.endDate, now) && LaterThan(tf.startDate, now)
    ensures s.forecast.None? ==> s.historical == Some(SubRange(tf.startDate, tf.endDate))
    ensures s.historical.None? ==> s.forecast == Some(SubRange(tf.startDate, tf.endDate))
    ensures s.forecast.Some? && s.historical.Some? ==>
      s.forecast.value == SubRange(Time(now), tf.endDate) &&
      s.historical.value == SubRange(tf.startDate, Time(now - DayMs))
  {
    if EarlierThan(tf.endDate, now) then
      Split(None, Some(SubRange(tf.startDate, tf.endDate)))
    else if LaterThan(tf.startDate, now) then
      Split(Some(SubRange(tf.startDate, tf.endDate)), None)
    else
      // `historicalEndDate.setDate(historicalEndDate.getDate() - 1)`, taken as one UTC day
      var historicalEnd := now - DayMs;
      Split(Some(SubRange(Time(now), tf.endDate)), Some(SubRange(tf.startDate, Time(historicalEnd))))
  }

  /** Each endpoint only sees its own side of `now`: a historical sub-range ends
      strictly before `now` and a forecast sub-range starts at or after `now`. */
  lemma SubRangesRespectNow(tf: WeatherTimeframe, now: int)
    requires ClockValid(now)
    ensures var s := PrepareTimeframe(tf, now);
      && (s.historical.Some? && s.historical.value.endDate.IsValid() ==> s.historical.value.endDate.ms < now)
      && (s.forecast.Some? && s.forecast.value.startDate.IsValid() ==> s.forecast.value.startDate.ms >= now)
  {
  }

  /** An unparseable bound fails every comparison: an invalid end never selects the
      historical-only branch and an invalid start never the forecast-only one, but an
      invalid start with an end before `now`, or an invalid end with a start after
      `now`, still selects the one-endpoint branch with the window unchanged. */
  lemma UnparseableBoundBranches(tf: WeatherTimeframe, now: int)
    requires ClockValid(now)
    ensures !tf.endDate.IsValid() ==> PrepareTimeframe(tf, now).forecast.Some?
    ensures !tf.startDate.IsValid() ==> PrepareTimeframe(tf, now).historical.Some?
    ensures !tf.startDate.IsValid() && EarlierThan(tf.endDate, now) ==>
      PrepareTimeframe(tf, now) == Split(None, Some(SubRange(tf.startDate, tf.endDate)))
    ensures !tf.endDate.IsValid() && LaterThan(tf.startDate, now) ==>
      PrepareTimeframe(tf, now) == Split(Some(SubRange(tf.startDate, tf.endDate)), None)
  {
  }

  /** The day before `now` is the day number before `now`'s. */
  lemma PreviousDay(now: int)
    ensures DayNumber(now - DayMs) == DayNumber(now) - 1
  {
    var d := DayNumber(now);
    assert (d - 1) * DayMs <= now - DayMs < d * DayMs;
    var e := DayNumber(now - DayMs);
    assert e * DayMs <= now - DayMs < (e + 1) * DayMs;
  }

  /** Later instants fall on the same or a later day. */
  lemma DayNumberMonotonic(a: int, b: int)
    requires a <= b
    ensures DayNumber(a) <= DayNumber(b)
  {
  }

  /** The days `d` that the query built from sub-range `sub` asks for. */
  predicate QueriesDay(sub: Option<SubRange>, d: int) {
    && sub.Some?
    && sub.value.startDate.IsValid() && sub.value.endDate.IsValid()
    && DayNumber(sub.value.startDate.ms) <= d <= DayNumber(sub.value.endDate.ms)
  }

  /** For an ordered window of valid dates, the days asked of the two endpoints are
      disjoint and together are exactly the days of the window: the one-day back-off
      leaves no day out and asks for no day twice. */
  lemma QueryDaysPartitionWindow(tf: WeatherTimeframe, now: int)
    requires ClockValid(now)
    requires tf.startDate.IsValid() && tf.endDate.IsValid() && tf.startDate.ms <= tf.endDate.ms
    ensures var s := PrepareTimeframe(tf, now);
      forall d {:trigger QueriesDay(s.forecast, d)} {:trigger QueriesDay(s.historical, d)} ::
        && ((QueriesDay(s.forecast, d) || QueriesDay(s.historical, d))
              <==> DayNumber(tf.startDate.ms) <= d <= DayNumber(tf.endDate.ms))
        && !(QueriesDay(s.forecast, d) && QueriesDay(s.historical, d))
  {
    var s := PrepareTimeframe(tf, now);
    if s.forecast.Some? && s.historical.Some? {
      PreviousDay(now);
      DayNumberMonotonic(tf.startDate.ms, now);
      DayNumberMonotonic(now, tf.endDate.ms);
    }
  }

  // ---------------------------------------------------------------------------
  // Requests
  // ---------------------------------------------------------------------------

  /** The two provider endpoints of `getDataset`. */
  datatype Endpoint = ForecastApi | HistoricalApi

  /** The URL `fetchWeatherApi` is called with for each endpoint. */
  function EndpointUrl(e: Endpoint): string {
    match e
    case ForecastApi => "https://api.open-meteo.com/v1/forecast"
    case HistoricalApi => "https://historical-forecast-api.open-meteo.com/v1/forecast"
  }

  /** The URL tells which endpoint is called. */
  lemma EndpointUrlInjective(e1: Endpoint, e2: Endpoint)
    ensures EndpointUrl(e1) == EndpointUrl(e2) ==> e1 == e2
  {
    if e1 != e2 {
      assert |EndpointUrl(ForecastApi)| < |EndpointUrl(HistoricalApi)|;
    }
  }

  /** The query object handed to `fetchWeatherApi`; the two dates are day numbers. */
  datatype QueryParams = QueryParams(
    latitude: real,
    longitude: real,
    startDate: int,
    endDate: int,
    aggregation: AggregationQuery)

  /** One call of `fetchWeatherApi`: the endpoint (its URL is `Url()`) and the query. */
  datatype Request = Request(endpoint: Endpoint, query: QueryParams) {
    function Url(): string {
      EndpointUrl(endpoint)
    }
  }

  /** The query of filters `f` for the days `startDay` to `endDay`. */
  function Query(f: WeatherFilters, startDay: int, endDay: int): QueryParams {
    QueryParams(f.location.latitude, f.location.longitude, startDay, endDay,
                MapAggregationToQueryParams(f.aggregationMetric))
  }

  /** The arguments of one `fetchWeatherApi` call, or the error that formatting a
      date throws while they are built. */
  function BuildRequest(e: Endpoint, sub: SubRange, f: WeatherFilters): (r: Result<Request>)
    ensures r.Success? <==> sub.startDate.IsValid() && sub.endDate.IsValid()
    ensures r.Success? ==>
      r.payload == Request(e, Query(f, DayNumber(sub.startDate.ms), DayNumber(sub.endDate.ms)))
    ensures r.Error? ==> r.error == InvalidTimeValue
  {
    var startDay :- MapDateToQueryParam(sub.startDate);
    var endDay :- MapDateToQueryParam(sub.endDate);
    Success(Request(e, Query(f, startDay, endDay)))
  }

  /** `sub ? fetchWeatherApi(...) : Promise.resolve(null)`: no sub-range, no call. */
  function Issue(e: Endpoint, sub: Option<SubRange>, f: WeatherFilters): Result<Option<Request>> {
    match sub
    case None => Success(None)
    case Some(r) =>
      var request :- BuildRequest(e, r, f);
      Success(Some(request))
  }

  /** The calls `getDataset` makes, by position: forecast first, historical second. */
  datatype Calls = Calls(forecast: Option<Request>, historical: Option<Request>)

  /** The calls for filters `f` at `now`, or the error building them throws: one call
      per sub-range of `prepareTimeframe`, the forecast's in the first position, each
      built by `BuildRequest`; the whole plan fails as soon as either cannot be built. */
  function PlanCalls(f: WeatherFilters, now: int): (r: Result<Calls>)
    requires ClockValid(now)
    ensures var split := PrepareTimeframe(f.timeframe, now);
      r.Success? <==>
        && (split.forecast.Some? ==> BuildRequest(ForecastApi, split.forecast.value, f).Success?)
        && (split.historical.Some? ==> BuildRequest(HistoricalApi, split.historical.value, f).Success?)
    ensures var split := PrepareTimeframe(f.timeframe, now);
      r.Success? ==>
        && (r.payload.forecast.Some? <==> split.forecast.Some?)
        && (r.payload.historical.Some? <==> split.historical.Some?)
        && (split.forecast.Some? ==>
              r.payload.forecast.value == BuildRequest(ForecastApi, split.forecast.value, f).payload)
        && (split.historical.Some? ==>
              r.payload.historical.value == BuildRequest(HistoricalApi, split.historical.value, f).payload)
    ensures r.Error? ==> r.error == InvalidTimeValue
  {
    var split := PrepareTimeframe(f.timeframe, now);
    var forecast :- Issue(ForecastApi, split.forecast, f);
    var historical :- Issue(HistoricalApi, split.historical, f);
    Success(Calls(forecast, historical))
  }

  // ---------------------------------------------------------------------------
  // Provider responses
  // ---------------------------------------------------------------------------

  /** `variables(0)`: the sample values (`valuesArray()`, possibly `null`) and unit. */
  datatype Variable = Variable(values: Option<seq<real>>, unit: Unit)

  /** One aggregation block of a response: start and end (seconds), interval
      (seconds) and the first variable, if any. */
  datatype VariablesWithTime = VariablesWithTime(
    time: int,
    timeEnd: int,
    interval: int,
    variable0: Option<Variable>)

  /** A decoded provider response; `daily()` and `hourly()` may be `null`. */
  datatype ApiResponse = ApiResponse(daily: Option<VariablesWithTime>, hourly: Option<VariablesWithTime>)

  /** What a call to the provider settles to: the list of responses, or a rejection
      carrying the string form of the error. */
  datatype FetchOutcome = Resolved(responses: seq<ApiResponse>) | Rejected(reason: string)

  /** The largest array length JavaScript allows. */
  const MaxArrayLength: int := 0x1_0000_0000 - 1

  /** The quotient `a / b` of naturals, rounded down. */
  function Quotient(a: nat, b: nat): (q: nat)
    requires b > 0
    ensures q * b <= a < (q + 1) * b
  {
    a / b
  }

  /** The rounded-down quotient is the one natural whose multiples bracket `a`. */
  lemma QuotientUnique(a: nat, b: nat, q: nat)
    requires b > 0 && q * b <= a < (q + 1) * b
    ensures Quotient(a, b) == q
  {
    var r := Quotient(a, b);
    if r < q {
      MulMonotonic(r + 1, q, b);
    } else if r > q {
      MulMonotonic(q + 1, r, b);
    }
  }

  /** Multiplying by a positive number keeps the order. */
  lemma MulMonotonic(x: int, y: int, k: int)
    requires x <= y && k > 0
    ensures x * k <= y * k
  {
    assert y * k - x * k == (y - x) * k;
  }

  /** `{ length: (stop - start) / step }` as `Array.from` reads it: the quotient
      truncated toward zero, 0 when it is negative or `NaN`, and a `RangeError` when
      it is infinite or too long for an array. */
  function RangeLength(start: int, stop: int, step: int): (r: Result<nat>)
    ensures r.Error? ==> r.error == InvalidArrayLength
    ensures r.Success? ==> r.payload <= MaxArrayLength
    ensures step == 0 ==> (r.Error? <==> stop > start) && (r.Success? ==> r.payload == 0)
    ensures step != 0 && (stop == start || (stop > start) != (step > 0)) ==> r == Success(0)
    ensures step != 0 && stop != start && (stop > start) == (step > 0) ==>
      var a := if stop > start then stop - start else start - stop;
      var b := if step > 0 then step else -step;
      && (r.Success? ==> r.payload * b <= a < (r.payload + 1) * b)
      && (r.Error? <==> (MaxArrayLength + 1) * b <= a)
  {
    var span := stop - start;
    if step == 0 then
      if span > 0 then Error(InvalidArrayLength) else Success(0)
    else
      var q: nat := if span > 0 && step > 0 then Quotient(span, step)
                    else if span < 0 && step < 0 then Quotient(-span, -step)
                    else 0;
      assert span != 0 && (span > 0) == (step > 0) ==>
        var a := if span > 0 then span else -span;
        var b := if step > 0 then step else -step;
        (q > MaxArrayLength <==> (MaxArrayLength + 1) * b <= a) by {
        if span != 0 && (span > 0) == (step > 0) {
          var a := if span > 0 then span else -span;
          var b := if step > 0 then step else -step;
          if q > MaxArrayLength {
            MulMonotonic(MaxArrayLength + 1, q, b);
          } else {
            MulMonotonic(q + 1, MaxArrayLength + 1, b);
          }
        }
      }
      if q > MaxArrayLength then Error(InvalidArrayLength) else Success(q)
  }

  /** `range(start, stop, step)`: the sample times `start + i * step`. */
  function Range(start: int, stop: int, step: int): (r: Result<seq<int>>)
    ensures r.Success? <==> RangeLength(start, stop, step).Success?
    ensures r.Success? ==> |r.payload| == RangeLength(start, stop, step).payload
    ensures r.Success? ==> forall i :: 0 <= i < |r.payload| ==> r.payload[i] == start + i * step
  {
    var n :- RangeLength(start, stop, step);
    Success(seq(n, i => start + i * step))
  }

  /** Sample `i` of length `step` ends no later than `span` after the start. */
  predicate TickFits(i: nat, step: int, span: int) {
    (i + 1) * step <= span
  }

  /** With a positive interval, `range` has one time per whole interval between start
      and stop: sample `i` is present exactly when it ends by `stop`. */
  lemma {:induction false} RangeWholeIntervals(start: int, stop: int, step: int)
    requires step > 0
    requires Range(start, stop, step).Success?
    ensures forall i: nat {:trigger TickFits(i, step, stop - start)} ::
      i < |Range(start, stop, step).payload| <==> TickFits(i, step, stop - start)
  {
    var n := |Range(start, stop, step).payload|;
    var span := stop - start;
    assert n * step <= span || n == 0;
    assert span < (n + 1) * step;
    forall i: nat ensures i < n <==> TickFits(i, step, span) {
      if i < n {
        MulMonotonic(i + 1, n, step);
      } else {
        MulMonotonic(n + 1, i + 1, step);
      }
    }
  }

  /** A block spanning exactly `count` intervals (as the provider sends them) gives
      `count` sample times. */
  lemma RangeExactCount(start: int, step: int, count: nat)
    requires step > 0 && count <= MaxArrayLength
    ensures Range(start, start + count * step, step) == Success(seq(count, i => start + i * step))
  {
    var span := count * step;
    if count > 0 {
      MulMonotonic(1, count, step);
      assert span < (count + 1) * step;
      QuotientUnique(span, step, count);
    }
    assert RangeLength(start, start + span, step) == Success(count);
  }

  /** `response[aggregationMap[aggregation]]()`: the block of the aggregation. */
  function SourceBlock(response: ApiResponse, a: Aggregation): Option<VariablesWithTime> {
    match a
    case Daily => response.daily
    case Hourly => response.hourly
  }

  /** `values?.[index] ?? 0`. */
  function ValueAt(values: Option<seq<real>>, i: nat): (v: real)
    ensures values.Some? && i < |values.value| ==> v == values.value[i]
    ensures values.None? || i >= |values.value| ==> v == 0.0
  {
    if values.Some? && i < |values.value| then values.value[i] else 0.0
  }

  /** `mapWeatherApiResponse`: one point per sample time, dated in milliseconds,
      valued from the first variable (0 where it has no value) and labelled with the
      unit's display string; no block for the aggregation gives no points. A time whose
      date is out of range makes `toISOString` throw. */
  function MapWeatherApiResponse(response: ApiResponse, a: Aggregation): (r: Result<seq<WeatherData>>)
    ensures SourceBlock(response, a).None? ==> r == Success([])
    ensures SourceBlock(response, a).Some? ==>
      (r.Success? <==>
         var b := SourceBlock(response, a).value;
         var times := Range(b.time, b.timeEnd, b.interval);
         times.Success? && forall i :: 0 <= i < |times.payload| ==> InTimeRange(times.payload[i] * SecondMs))
    ensures r.Error? ==> r.error == InvalidArrayLength || r.error == InvalidTimeValue
    ensures r.Success? && SourceBlock(response, a).Some? ==>
      var b := SourceBlock(response, a).value;
      var times := Range(b.time, b.timeEnd, b.interval);
      var values := if b.variable0.Some? then b.variable0.value.values else None;
      var unit := if b.variable0.Some? then Some(b.variable0.value.unit) else None;
      && times.Success?
      && |r.payload| == |times.payload|
      && forall i :: 0 <= i < |r.payload| ==>
           && r.payload[i].date == times.payload[i] * SecondMs
           && InTimeRange(r.payload[i].date)
           && r.payload[i].value == ValueAt(values, i)
           && r.payload[i].unit == UnitLabel(unit)
  {
    match SourceBlock(response, a)
    case None => Success([])
    case Some(b) =>
      var times :- Range(b.time, b.timeEnd, b.interval);
      var values := if b.variable0.Some? then b.variable0.value.values else None;
      var unit := if b.variable0.Some? then Some(b.variable0.value.unit) else None;
      if forall i :: 0 <= i < |times| ==> InTimeRange(times[i] * SecondMs) then
        Success(seq(|times|, i requires 0 <= i < |times| =>
          WeatherData(times[i] * SecondMs, ValueAt(values, i), UnitLabel(unit))))
      else
        Error(InvalidTimeValue)
  }

  /** With a positive interval the mapped series is strictly ascending, one interval
      (in milliseconds) apart. */
  lemma MappedSeriesAscending(response: ApiResponse, a: Aggregation)
    requires SourceBlock(response, a).Some? && SourceBlock(response, a).value.interval > 0
    requires MapWeatherApiResponse(response, a).Success?
    ensures var pts := MapWeatherApiResponse(response, a).payload;
      forall i, j :: 0 <= i < j < |pts| ==> pts[i].date < pts[j].date
  {
    var b := SourceBlock(response, a).value;
    var pts := MapWeatherApiResponse(response, a).payload;
    var times := Range(b.time, b.timeEnd, b.interval).payload;
    assert |pts| == |times|;
    forall i, j | 0 <= i < j < |pts| ensures pts[i].date < pts[j].date {
      assert pts[i].date == times[i] * SecondMs && pts[j].date == times[j] * SecondMs;
      assert times[i] == b.time + i * b.interval && times[j] == b.time + j * b.interval;
      SampleTimesAscending(b.time, b.interval, i, j);
    }
  }

  /** Sample `i` of a positive interval is dated before sample `j > i`. */
  lemma SampleTimesAscending(t: int, step: int, i: int, j: int)
    requires step > 0 && i < j
    ensures (t + i * step) * SecondMs < (t + j * step) * SecondMs
  {
    MulMonotonic(i + 1, j, step);
  }

  /** `response?.[0] ? mapWeatherApiResponse(response[0], aggregation) : []`. */
  function MapResponses(responses: Option<seq<ApiResponse>>, a: Aggregation): (r: Result<seq<WeatherData>>)
    ensures responses.None? || |responses.value| == 0 ==> r == Success([])
    ensures responses.Some? && |responses.value| > 0 ==> r == MapWeatherApiResponse(responses.value[0], a)
  {
    if responses.Some? && |responses.value| > 0 then MapWeatherApiResponse(responses.value[0], a)
    else Success([])
  }

  /** Awaiting one position of `Promise.all`: `null` when no call was made, the
      responses when it resolved, and the rejection, which `catch` turns into
      `Result.error(String(error))`. */
  function Await(call: Option<Request>, fetch: Request -> FetchOutcome): (r: Result<Option<seq<ApiResponse>>>)
    ensures call.None? ==> r == Success(None)
    ensures call.Some? && fetch(call.value).Rejected? ==> r == Error(fetch(call.value).reason)
    ensures call.Some? && fetch(call.value).Resolved? ==> r == Success(Some(fetch(call.value).responses))
  {
    match call
    case None => Success(None)
    case Some(request) =>
      match fetch(request)
      case Resolved(responses) => Success(Some(responses))
      case Rejected(reason) => Error(reason)
  }

  // ---------------------------------------------------------------------------
  // getDataset
  // ---------------------------------------------------------------------------

  /** `getDataset`. Everything after `prepareTimeframe` runs inside `try`, so a date
      that cannot be formatted, a rejected call or a response that cannot be mapped
      ends in `Result.error` and no dataset; otherwise the filters are echoed with the
      two series. The two calls are awaited in position order, forecast first. */
  function GetDataset(f: WeatherFilters, now: int, fetch: Request -> FetchOutcome): (r: Result<WeatherDataset>)
    requires ClockValid(now)
    ensures r.Success? ==>
      && r.payload.aggregationMetric == f.aggregationMetric
      && r.payload.location == f.location
      && r.payload.timeframe == f.timeframe
    ensures PlanCalls(f, now).Error? ==> r == Error(InvalidTimeValue)
  {
    var calls :- PlanCalls(f, now);
    var forecastResponses :- Await(calls.forecast, fetch);
    var historicalResponses :- Await(calls.historical, fetch);
    var forecastData :- MapResponses(forecastResponses, f.aggregation());
    var historicalData :- MapResponses(historicalResponses, f.aggregation());
    Success(WeatherDataset(f.aggregationMetric, f.location, f.timeframe, forecastData, historicalData))
  }

  /** A window that ends before `now` asks only the historical endpoint, for exactly
      the requested days, and gives an empty forecast series. */
  lemma PastWindow(f: WeatherFilters, now: int, fetch: Request -> FetchOutcome)
    requires ClockValid(now)
    requires f.timeframe.startDate.IsValid() && EarlierThan(f.timeframe.endDate, now)
    ensures PlanCalls(f, now) == Success(Calls(None, Some(Request(HistoricalApi,
      Query(f, DayNumber(f.timeframe.startDate.ms), DayNumber(f.timeframe.endDate.ms))))))
    ensures GetDataset(f, now, fetch).Success? ==> GetDataset(f, now, fetch).payload.forecastData == []
  {
  }

  /** A window that starts after `now` asks only the forecast endpoint, for exactly
      the requested days, and gives an empty historical series. */
  lemma FutureWindow(f: WeatherFilters, now: int, fetch: Request -> FetchOutcome)
    requires ClockValid(now)
    requires f.timeframe.endDate.IsValid() && !EarlierThan(f.timeframe.endDate, now)
    requires LaterThan(f.timeframe.startDate, now)
    ensures PlanCalls(f, now) == Success(Calls(Some(Request(ForecastApi,
      Query(f, DayNumber(f.timeframe.startDate.ms), DayNumber(f.timeframe.endDate.ms)))), None))
    ensures GetDataset(f, now, fetch).Success? ==> GetDataset(f, now, fetch).payload.historicalData == []
  {
  }

  /** A window holding `now` (bounds included) asks the forecast endpoint from `now`'s
      day to the end day, and the historical endpoint from the start day to the day
      before `now`'s. */
  lemma StraddlingWindow(f: WeatherFilters, now: int)
    requires ClockValid(now)
    requires f.timeframe.startDate.IsValid() && f.timeframe.endDate.IsValid()
    requires f.timeframe.startDate.ms <= now <= f.timeframe.endDate.ms
    ensures PlanCalls(f, now) == Success(Calls(
      Some(Request(ForecastApi, Query(f, DayNumber(now), DayNumber(f.timeframe.endDate.ms)))),
      Some(Request(HistoricalApi, Query(f, DayNumber(f.timeframe.startDate.ms), DayNumber(now) - 1)))))
  {
    PreviousDay(now);
  }

  /** A bound the `Date` parser rejects fails the whole request with the error of
      `toISOString`, whatever the provider would answer. */
  lemma UnparseableDateFails(f: WeatherFilters, now: int, fetch: Request -> FetchOutcome)
    requires ClockValid(now)
    requires !f.timeframe.startDate.IsValid() || !f.timeframe.endDate.IsValid()
    ensures GetDataset(f, now, fetch) == Error(InvalidTimeValue)
  {
    assert PlanCalls(f, now).Error?;
  }

  /** A rejected call fails the whole request with the rejection's string and no
      payload: the forecast's if it rejects, else the historical's. */
  lemma RejectionIsError(f: WeatherFilters, now: int, fetch: Request -> FetchOutcome)
    requires ClockValid(now)
    requires PlanCalls(f, now).Success?
    ensures var calls := PlanCalls(f, now).payload;
      calls.forecast.Some? && fetch(calls.forecast.value).Rejected? ==>
        GetDataset(f, now, fetch) == Error(fetch(calls.forecast.value).reason)
    ensures var calls := PlanCalls(f, now).payload;
      (calls.forecast.None? || fetch(calls.forecast.value).Resolved?) &&
      calls.historical.Some? && fetch(calls.historical.value).Rejected? ==>
        GetDataset(f, now, fetch) == Error(fetch(calls.historical.value).reason)
  {
  }

  /** A resolved response that `mapWeatherApiResponse` cannot map throws inside `try`:
      the request fails with that error, the forecast's mapping being tried first. */
  lemma UnmappableResponseIsError(f: WeatherFilters, now: int, fetch: Request -> FetchOutcome)
    requires ClockValid(now)
    requires PlanCalls(f, now).Success?
    requires var calls := PlanCalls(f, now).payload;
      && (calls.forecast.Some? ==> fetch(calls.forecast.value).Resolved?)
      && (calls.historical.Some? ==> fetch(calls.historical.value).Resolved?)
    ensures var calls := PlanCalls(f, now).payload;
      var forecastData := if calls.forecast.None? then Success([])
        else MapResponses(Some(fetch(calls.forecast.value).responses), f.aggregation());
      forecastData.Error? ==> GetDataset(f, now, fetch) == Error(forecastData.error)
    ensures var calls := PlanCalls(f, now).payload;
      var forecastData := if calls.forecast.None? then Success([])
        else MapResponses(Some(fetch(calls.forecast.value).responses), f.aggregation());
      var historicalData := if calls.historical.None? then Success([])
        else MapResponses(Some(fetch(calls.historical.value).responses), f.aggregation());
      forecastData.Success? && historicalData.Error? ==> GetDataset(f, now, fetch) == Error(historicalData.error)
  {
  }

  /** When every call resolves with responses that map, the request succeeds and
      each series is the mapping of its endpoint's first response. */
  lemma ResolvedCallsSucceed(f: WeatherFilters, now: int, fetch: Request -> FetchOutcome)
    requires ClockValid(now)
    requires PlanCalls(f, now).Success?
    requires var calls := PlanCalls(f, now).payload;
      && (calls.forecast.Some? ==> fetch(calls.forecast.value).Resolved?)
      && (calls.historical.Some? ==> fetch(calls.historical.value).Resolved?)
    requires var calls := PlanCalls(f, now).payload;
      && (calls.forecast.Some? ==>
            MapResponses(Some(fetch(calls.forecast.value).responses), f.aggregation()).Success?)
      && (calls.historical.Some? ==>
            MapResponses(Some(fetch(calls.historical.value).responses), f.aggregation()).Success?)
    ensures var calls := PlanCalls(f, now).payload;
      var r := GetDataset(f, now, fetch);
      && r.Success?
      && r.payload.forecastData ==
           (if calls.forecast.None? then []
            else MapResponses(Some(fetch(calls.forecast.value).responses), f.aggregation()).payload)
      && r.payload.historicalData ==
           (if calls.historical.None? then []
            else MapResponses(Some(fetch(calls.historical.value).responses), f.aggregation()).payload)
  {
  }

  // ---------------------------------------------------------------------------
  // The scenarios of WeatherRepository.spec.ts
  // ---------------------------------------------------------------------------

  /** 2025-02-05T12:00:00.000Z, the fixed clock of the tests. */
  const SpecNow: int := 20124 * DayMs + 12 * 3_600_000

  /** The query the tests expect for the days `startDay` to `endDay`. */
  function SpecQuery(startDay: int, endDay: int): QueryParams {
    QueryParams(55.75, 37.62, startDay, endDay, AggregationQuery("daily", ["temperature_2m_max"]))
  }

  /** 2025-02-01 .. 2025-02-04 at the fixed clock: one historical call for those days. */
  lemma PastScenario()
    ensures PlanCalls(TestFilters(20120, 20123), SpecNow) ==
      Success(Calls(None, Some(Request(HistoricalApi, SpecQuery(20120, 20123)))))
    ensures PlanCalls(TestFilters(20120, 20123), SpecNow).payload.historical.value.Url() ==
      "https://historical-forecast-api.open-meteo.com/v1/forecast"
  {
    var f := TestFilters(20120, 20123);
    assert DayNumber(20120 * DayMs) == 20120 && DayNumber(20123 * DayMs) == 20123;
    PastWindow(f, SpecNow, (q: Request) => Rejected(""));
  }

  /** 2025-02-06 .. 2025-02-10 at the fixed clock: one forecast call for those days. */
  lemma FutureScenario()
    ensures PlanCalls(TestFilters(20125, 20129), SpecNow) ==
      Success(Calls(Some(Request(ForecastApi, SpecQuery(20125, 20129))), None))
    ensures PlanCalls(TestFilters(20125, 20129), SpecNow).payload.forecast.value.Url() ==
      "https://api.open-meteo.com/v1/forecast"
  {
  }

  /** 2025-02-01 .. 2025-02-10 at the fixed clock: a forecast call for 2025-02-05 ..
      2025-02-10, then a historical call for 2025-02-01 .. 2025-02-04. */
  lemma StraddleScenario()
    ensures PlanCalls(TestFilters(20120, 20129), SpecNow) ==
      Success(Calls(Some(Request(ForecastApi, SpecQuery(20124, 20129))),
                    Some(Request(HistoricalApi, SpecQuery(20120, 20123)))))
    ensures var calls := PlanCalls(TestFilters(20120, 20129), SpecNow).payload;
      && calls.forecast.value.Url() == "https://api.open-meteo.com/v1/forecast"
      && calls.historical.value.Url() == "https://historical-forecast-api.open-meteo.com/v1/forecast"
  {
    StraddlingWindow(TestFilters(20120, 20129), SpecNow);
  }

  /** 2025-02-06T12:00:00Z in seconds, the sample time of the mapping test. */
  const SpecSampleTime: int := 20125 * 86_400 + 43_200

  /** The provider answer of the mapping test: one daily sample of 12 degrees Celsius. */
  const SpecResponse: ApiResponse := ApiResponse(
    Some(VariablesWithTime(SpecSampleTime, SpecSampleTime + 86_400, 86_400, Some(Variable(Some([12.0]), Celsius)))),
    None)

  /** The mapping test: the forecast series holds the one sample, dated in
      milliseconds, valued 12 and labelled with the Celsius display string. */
  lemma MappingScenario()
    ensures var r := GetDataset(TestFilters(20125, 20126), SpecNow, (q: Request) => Resolved([SpecResponse]));
      && r.Success?
      && r.payload.forecastData == [WeatherData(SpecSampleTime * 1000, 12.0, "°C")]
      && r.payload.historicalData == []
  {
    RangeExactCount(SpecSampleTime, 86_400, 1);
  }

  /** The error test: a rejected call gives `Result.error` with the error's string. */
  lemma RejectionScenario()
    ensures GetDataset(TestFilters(20125, 20129), SpecNow, (q: Request) => Rejected("Error: Network error"))
      == Error("Error: Network error")
  {
  }
}
