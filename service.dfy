/** The dataset service (src/modules/weather/domain/service/WeatherService.ts). The
    repository it was constructed with is the parameter `getDataset`; the service
    keeps no other state. */
module Service {
  import opened Results
  import opened Aggregations
  import opened Domain
  import opened Normalization
  import opened Fixtures

  /** `getWeatherDataset` as written: one call to the repository with the same
      filters, whose result (payload or error string) is returned unchanged. */
  function GetWeatherDataset(getDataset: WeatherFilters -> Result<WeatherDataset>, filters: WeatherFilters)
    : (r: Result<WeatherDataset>)
    ensures r.Success? <==> getDataset(filters).Success?
    ensures r.Error? ==> r.error == getDataset(filters).error
    ensures r.Success? ==> r.payload == getDataset(filters).payload
  {
    getDataset(filters)
  }

  /** The service as WeatherService.spec.ts expects it: errors are passed on with the
      same string, and a successful payload is normalised (both series sorted, the
      historical one cut before the first forecast point, the filters echoed). */
  function GetNormalizedWeatherDataset(getDataset: WeatherFilters -> Result<WeatherDataset>, filters: WeatherFilters)
    : (r: Result<WeatherDataset>)
    ensures r.Error? <==> getDataset(filters).Error?
    ensures r.Error? ==> r.error == getDataset(filters).error
    ensures r.Success? ==>
      var ds := getDataset(filters).payload;
      && Normalized(r.payload)
      && multiset(r.payload.forecastData) == multiset(ds.forecastData)
      && (forall p :: p in r.payload.historicalData <==> p in ds.historicalData && BeforeAll(p, ds.forecastData))
      && (forall p :: multiset(r.payload.historicalData)[p] ==
            if BeforeAll(p, ds.forecastData) then multiset(ds.historicalData)[p] else 0)
      && r.payload.aggregationMetric == ds.aggregationMetric
      && r.payload.location == ds.location
      && r.payload.timeframe == ds.timeframe
  {
    match getDataset(filters)
    case Error(e) => Error(e)
    case Success(ds) => Success(Normalize(ds))
  }

  /** Normalising a normalised result changes nothing, so the corrected service may
      be stacked on a repository that already normalises. */
  lemma NormalizedServiceIdempotent(getDataset: WeatherFilters -> Result<WeatherDataset>, filters: WeatherFilters)
    requires getDataset(filters).Success? ==> Normalized(getDataset(filters).payload)
    ensures GetNormalizedWeatherDataset(getDataset, filters) == GetWeatherDataset(getDataset, filters)
  {
    if getDataset(filters).Success? {
      NormalizeFixedPoint(getDataset(filters).payload);
    }
  }

  /** The daily filters of WeatherService.spec.ts, for 2025-02-01 .. 2025-02-10. */
  const SpecFilters: WeatherFilters := TestFilters(Feb01, Feb10)

  /** The unsorted dataset of the test at WeatherService.spec.ts:69-92. */
  const UnsortedDataset: WeatherDataset := WeatherDataset(
    SpecFilters.aggregationMetric, SpecFilters.location, SpecFilters.timeframe,
    [WeatherData(20124 * DayMs, 5.0, "°C"), WeatherData(20123 * DayMs, 4.0, "°C")],
    [WeatherData(20122 * DayMs, 3.0, "°C"), WeatherData(20120 * DayMs, 1.0, "°C"), WeatherData(20121 * DayMs, 2.0, "°C")])

  /** On the repository answer of WeatherService.spec.ts:69-92, the service as
      written returns the historical series unsorted, while the test expects it
      sorted; the corrected service returns it sorted. */
  lemma PassThroughLeavesSeriesUnsorted()
    ensures var r := GetWeatherDataset((f: WeatherFilters) => Success(UnsortedDataset), SpecFilters);
      r.Success? && !SortedByDate(r.payload.historicalData)
    ensures var r := GetNormalizedWeatherDataset((f: WeatherFilters) => Success(UnsortedDataset), SpecFilters);
      && r.Success?
      && SortedByDate(r.payload.historicalData)
      && SortedByDate(r.payload.forecastData)
  {
    var h := UnsortedDataset.historicalData;
    assert h[0].date > h[1].date;
  }
}
