/** The aggregations and the aggregation-to-metric table
    (src/modules/weather/domain/entities/WeatherAggregation.ts and
    src/modules/weather/domain/entities/WeatherAggregationMetric.ts). */
module Aggregations {
  import opened Results

  /** `WeatherAggregation`: the sampling granularity of a series. */
  datatype Aggregation = Daily | Hourly

  /** The string tag of an aggregation, as the provider and the form use it. */
  function AggregationName(a: Aggregation): string {
    match a
    case Daily => "daily"
    case Hourly => "hourly"
  }

  /** The aggregation a tag names, if any: the check `z.literal(...)` makes in the form. */
  function AggregationFromName(name: string): (r: Option<Aggregation>)
    ensures r.Some? ==> AggregationName(r.value) == name
    ensures forall a: Aggregation :: AggregationName(a) == name ==> r == Some(a)
  {
    if name == "daily" then Some(Daily)
    else if name == "hourly" then Some(Hourly)
    else None
  }

  /** `WeatherAggregationMetrics`: the metric names allowed for each aggregation, in table order. */
  function MetricNames(a: Aggregation): seq<string> {
    match a
    case Daily => ["temperature_max", "temperature_min", "rain"]
    case Hourly => ["temperature", "humidity", "rain", "wind_speed"]
  }

  datatype DailyMetric = TemperatureMax | TemperatureMin | DailyRain

  datatype HourlyMetric = Temperature | Humidity | HourlyRain | WindSpeed

  /** `WeatherAggregationMetric<T>` together with its `T`: a tagged union, so that a
      metric can only be paired with an aggregation whose list contains it. */
  datatype AggregationMetric = DailyOf(daily: DailyMetric) | HourlyOf(hourly: HourlyMetric) {

    /** The aggregation this metric belongs to. */
    function Tag(): Aggregation {
      if DailyOf? then Daily else Hourly
    }

    /** The metric's name; it is always listed for its own aggregation. */
    function Name(): (name: string)
      ensures name in MetricNames(Tag())
    {
      match this
      case DailyOf(TemperatureMax) => "temperature_max"
      case DailyOf(TemperatureMin) => "temperature_min"
      case DailyOf(DailyRain) => "rain"
      case HourlyOf(Temperature) => "temperature"
      case HourlyOf(Humidity) => "humidity"
      case HourlyOf(HourlyRain) => "rain"
      case HourlyOf(WindSpeed) => "wind_speed"
    }
  }

  /** The metric of aggregation `a` named `name`, if `name` is in `a`'s list: the check
      `z.enum(WeatherAggregationMetrics[a])` makes in the form. */
  function ParseMetric(a: Aggregation, name: string): (r: Option<AggregationMetric>)
    ensures r.Some? <==> name in MetricNames(a)
    ensures r.Some? ==> r.value.Tag() == a && r.value.Name() == name
  {
    match a
    case Daily =>
      if name == "temperature_max" then Some(DailyOf(TemperatureMax))
      else if name == "temperature_min" then Some(DailyOf(TemperatureMin))
      else if name == "rain" then Some(DailyOf(DailyRain))
      else None
    case Hourly =>
      if name == "temperature" then Some(HourlyOf(Temperature))
      else if name == "humidity" then Some(HourlyOf(Humidity))
      else if name == "rain" then Some(HourlyOf(HourlyRain))
      else if name == "wind_speed" then Some(HourlyOf(WindSpeed))
      else None
  }

  /** Naming a metric and parsing the name back under its own aggregation gives the
      metric again: the union type has exactly one inhabitant per table entry. */
  lemma ParseMetricName(m: AggregationMetric)
    ensures ParseMetric(m.Tag(), m.Name()) == Some(m)
  {
    match m
    case DailyOf(d) =>
    case HourlyOf(h) =>
  }

  /** The metrics of an aggregation, one per table entry, in table order. */
  function Metrics(a: Aggregation): (r: seq<AggregationMetric>)
    ensures |r| == |MetricNames(a)|
    ensures forall i :: 0 <= i < |r| ==> r[i].Tag() == a && r[i].Name() == MetricNames(a)[i]
  {
    match a
    case Daily => [DailyOf(TemperatureMax), DailyOf(TemperatureMin), DailyOf(DailyRain)]
    case Hourly => [HourlyOf(Temperature), HourlyOf(Humidity), HourlyOf(HourlyRain), HourlyOf(WindSpeed)]
  }

  /** Every metric is in the list of its own aggregation. */
  lemma MetricListed(m: AggregationMetric)
    ensures m in Metrics(m.Tag())
  {
    var r := Metrics(m.Tag());
    match m
    case DailyOf(TemperatureMax) => assert r[0] == m;
    case DailyOf(TemperatureMin) => assert r[1] == m;
    case DailyOf(DailyRain) => assert r[2] == m;
    case HourlyOf(Temperature) => assert r[0] == m;
    case HourlyOf(Humidity) => assert r[1] == m;
    case HourlyOf(HourlyRain) => assert r[2] == m;
    case HourlyOf(WindSpeed) => assert r[3] == m;
  }

  /** `rain` is listed for both aggregations, `wind_speed` only for the hourly one, and
      the daily temperature metrics only for the daily one. */
  lemma SharedAndExclusiveMetrics()
    ensures ParseMetric(Daily, "rain") == Some(DailyOf(DailyRain))
    ensures ParseMetric(Hourly, "rain") == Some(HourlyOf(HourlyRain))
    ensures ParseMetric(Daily, "wind_speed") == None
    ensures ParseMetric(Hourly, "temperature_max") == None
  {
  }
}
