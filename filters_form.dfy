/** The validity rule of the filters form
    (src/modules/weather/presentation/compositions/useWeatherFiltersForm.ts): the
    zod `schema`, a union of one object per aggregation, refined so that every
    field is present. Fields the user has not filled in are `None`; the aggregation
    and the metric are the raw strings the form holds. */
module FiltersForm {
  import opened Results
  import opened Aggregations
  import opened Domain
  import opened Fixtures

  datatype FormLocation = FormLocation(latitude: Option<real>, longitude: Option<real>)

  /** The date strings, as the instants they stand for; the form only asks that
      they be present. */
  datatype FormTimeframe = FormTimeframe(startDate: Option<Instant>, endDate: Option<Instant>)

  /** `FormValues`: the shape `z.infer<typeof schema>` describes, every field optional. */
  datatype FormValues = FormValues(
    location: Option<FormLocation>,
    timeframe: Option<FormTimeframe>,
    aggregation: Option<string>,
    aggregationMetric: Option<string>)

  /** `z.number().min(-bound).max(bound).optional()`. */
  predicate OptionalWithin(x: Option<real>, bound: real) {
    x.None? || -bound <= x.value <= bound
  }

  /** `locationSchema.optional()`. */
  predicate LocationSchema(l: Option<FormLocation>) {
    l.None? || (OptionalWithin(l.value.latitude, 90.0) && OptionalWithin(l.value.longitude, 180.0))
  }

  /** The union branch of aggregation `a`: its literal (or nothing) and a metric of its
      list (or nothing). The timeframe strings are accepted as they are. */
  predicate BranchSchema(v: FormValues, a: Aggregation) {
    && LocationSchema(v.location)
    && (v.aggregation.None? || v.aggregation.value == AggregationName(a))
    && (v.aggregationMetric.None? || v.aggregationMetric.value in MetricNames(a))
  }

  /** `z.union([...])`. */
  predicate UnionSchema(v: FormValues) {
    BranchSchema(v, Daily) || BranchSchema(v, Hourly)
  }

  /** The four `.refine` checks: every field is present. */
  predicate Refinements(v: FormValues) {
    && v.aggregation.Some?
    && v.aggregationMetric.Some?
    && v.location.Some? && v.location.value.latitude.Some? && v.location.value.longitude.Some?
    && v.timeframe.Some? && v.timeframe.value.startDate.Some? && v.timeframe.value.endDate.Some?
  }

  /** The whole schema accepts `v`; its metric then belongs to the aggregation it names. */
  predicate Valid(v: FormValues)
    ensures Valid(v) ==>
      && Refinements(v)
      && AggregationFromName(v.aggregation.value).Some?
      && ParseMetric(AggregationFromName(v.aggregation.value).value, v.aggregationMetric.value).Some?
  {
    UnionSchema(v) && Refinements(v)
  }

  /** A form is valid exactly when every field is present, the coordinates are within
      [-90, 90] and [-180, 180], the aggregation names an aggregation and the metric is
      one of that aggregation's. The order of the two dates is not checked. */
  lemma ValidIff(v: FormValues)
    ensures Valid(v) <==>
      && Refinements(v)
      && -90.0 <= v.location.value.latitude.value <= 90.0
      && -180.0 <= v.location.value.longitude.value <= 180.0
      && AggregationFromName(v.aggregation.value).Some?
      && ParseMetric(AggregationFromName(v.aggregation.value).value, v.aggregationMetric.value).Some?
  {
    if Refinements(v) {
      var name := v.aggregation.value;
      if AggregationFromName(name).Some? {
        var a := AggregationFromName(name).value;
        assert BranchSchema(v, a) <==> UnionSchema(v) by {
          assert AggregationName(Daily) != AggregationName(Hourly);
        }
      }
    }
  }

  /** A daily aggregation with the hourly-only metric `wind_speed` matches neither
      branch of the union. */
  lemma MismatchedMetricInvalid(v: FormValues)
    requires v.aggregation == Some("daily") && v.aggregationMetric == Some("wind_speed")
    ensures !Valid(v)
  {
    assert "wind_speed" !in MetricNames(Daily);
  }

  /** `initialValues` of `useWeatherFiltersForm`: the four fields of the filters. */
  function InitialValues(f: WeatherFilters): FormValues {
    FormValues(
      Some(FormLocation(Some(f.location.latitude), Some(f.location.longitude))),
      Some(FormTimeframe(Some(f.timeframe.startDate), Some(f.timeframe.endDate))),
      Some(AggregationName(f.aggregation())),
      Some(f.aggregationMetric.Name()))
  }

  /** Prefilling the form with well-typed filters gives a valid form exactly when the
      coordinates are in range: the metric always matches its aggregation. */
  lemma InitialValuesValid(f: WeatherFilters)
    ensures Valid(InitialValues(f)) <==>
      -90.0 <= f.location.latitude <= 90.0 && -180.0 <= f.location.longitude <= 180.0
  {
    assert BranchSchema(InitialValues(f), f.aggregation()) <==>
      LocationSchema(InitialValues(f).location);
    ValidIff(InitialValues(f));
    ParseMetricName(f.aggregationMetric);
  }

  /** The prefilled form of WeatherFilters.spec.ts:55-63 is valid. */
  lemma SpecFiltersValid()
    ensures Valid(InitialValues(TestFilters(Feb01, Feb10)))
  {
  }
}
