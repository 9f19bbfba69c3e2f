/** The filters shared by the unit tests of the repository, the service and the
    filters component: daily `temperature_max` at (55.75, 37.62). */
module Fixtures {
  import opened Aggregations
  import opened Domain

  /** 2025-02-01 and 2025-02-10 as day numbers, the window of the tests. */
  const Feb01: int := 20120
  const Feb10: int := 20129

  /** The tests' filters for the days `startDay` to `endDay`. */
  function TestFilters(startDay: int, endDay: int): WeatherFilters {
    WeatherFilters(DailyOf(TemperatureMax), WeatherLocation(55.75, 37.62),
                   WeatherTimeframe(Time(startDay * DayMs), Time(endDay * DayMs)))
  }
}
