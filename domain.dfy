/** Instants and the entities a request and its result are made of
    (src/modules/weather/domain/entities/WeatherDataset.ts,
    src/modules/weather/domain/ports/WeatherFilters.ts). */
module Domain {
  import opened Results
  import opened Aggregations

  const SecondMs: int := 1000
  const DayMs: int := 86_400_000

  /** The largest magnitude of an ECMAScript time value, in milliseconds from the
      epoch (section 21.4.1.1 of ECMA-262); a `Date` outside it is invalid. */
  const MaxTimeMs: int := 8_640_000_000_000_000

  predicate InTimeRange(ms: int) {
    -MaxTimeMs <= ms <= MaxTimeMs
  }

  /** What `new Date(s)` makes of a date string: an instant in milliseconds from the
      epoch (UTC), or the invalid date whose `getTime()` is `NaN`. A `Time` outside
      the ECMAScript range behaves as the invalid date. */
  datatype Instant = Time(ms: int) | InvalidDate {
    predicate IsValid() {
      Time? && InTimeRange(ms)
    }
  }

  /** `d.getTime() < now`: false whenever `d` is invalid, as every comparison with `NaN` is. */
  predicate EarlierThan(d: Instant, now: int) {
    d.IsValid() && d.ms < now
  }

  /** `d.getTime() > now`: false whenever `d` is invalid. */
  predicate LaterThan(d: Instant, now: int) {
    d.IsValid() && d.ms > now
  }

  /** The number of the UTC day holding the instant `ms` (day 0 is 1970-01-01); it
      stands for the date-only string `YYYY-MM-DD`. Dafny's `/` floors for a
      positive divisor, which is what the calendar needs before the epoch too. */
  function DayNumber(ms: int): (day: int)
    ensures day * DayMs <= ms < (day + 1) * DayMs
  {
    ms / DayMs
  }

  /** `WeatherLocation`. The repository does not check the ranges; the form does. */
  datatype WeatherLocation = WeatherLocation(latitude: real, longitude: real)

  /** `WeatherTimeframe`: the two date strings, as the instants they parse to.
      Their order is not checked anywhere. */
  datatype WeatherTimeframe = WeatherTimeframe(startDate: Instant, endDate: Instant)

  /** `WeatherData`: one sample. `date` is the instant (ms) its ISO string denotes. */
  datatype WeatherData = WeatherData(date: int, value: real, unit: string)

  /** `WeatherFilters<T>`: the aggregation `T` is the tag of `aggregationMetric`. */
  datatype WeatherFilters = WeatherFilters(
    aggregationMetric: AggregationMetric,
    location: WeatherLocation,
    timeframe: WeatherTimeframe)
  {
    function aggregation(): Aggregation {
      aggregationMetric.Tag()
    }
  }

  /** `WeatherDataset<T>`: the filters echoed, plus the two series. */
  datatype WeatherDataset = WeatherDataset(
    aggregationMetric: AggregationMetric,
    location: WeatherLocation,
    timeframe: WeatherTimeframe,
    forecastData: seq<WeatherData>,
    historicalData: seq<WeatherData>)
  {
    function aggregation(): Aggregation {
      aggregationMetric.Tag()
    }
  }
}
