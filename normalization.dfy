/** The normalisation that src/modules/weather/domain/service/WeatherService.spec.ts
    asserts of the service: both series sorted by timestamp, and the historical series
    cut strictly before the first forecast point. It is test-asserted, NOT in
    WeatherService.ts, whose method only passes the repository's result through. */
module Normalization {
  import opened Domain

  /** The points are in ascending order of timestamp. */
  predicate SortedByDate(s: seq<WeatherData>) {
    forall i, j :: 0 <= i < j < |s| ==> s[i].date <= s[j].date
  }

  /** `p` is dated strictly before every point of `s`. */
  predicate BeforeAll(p: WeatherData, s: seq<WeatherData>) {
    forall q :: q in s ==> p.date < q.date
  }

  /** No historical point is dated at or after any forecast point. */
  predicate Separated(historical: seq<WeatherData>, forecast: seq<WeatherData>) {
    forall p :: p in historical ==> BeforeAll(p, forecast)
  }

  /** The state the normalisation establishes. */
  predicate Normalized(ds: WeatherDataset) {
    && SortedByDate(ds.historicalData)
    && SortedByDate(ds.forecastData)
    && Separated(ds.historicalData, ds.forecastData)
  }

  /** Inserts `p` before the first point not dated earlier than it. */
  function InsertByDate(p: WeatherData, s: seq<WeatherData>): (r: seq<WeatherData>)
    ensures multiset(r) == multiset(s) + multiset{p}
  {
    if s == [] || p.date <= s[0].date then
      [p] + s
    else
      assert s == [s[0]] + s[1..];
      [s[0]] + InsertByDate(p, s[1..])
  }

  /** A point dated no later than a sorted series can head it. */
  lemma ConsSorted(x: WeatherData, t: seq<WeatherData>)
    requires SortedByDate(t)
    requires forall q :: q in t ==> x.date <= q.date
    ensures SortedByDate([x] + t)
  {
    var r := [x] + t;
    forall i, j | 0 <= i < j < |r| ensures r[i].date <= r[j].date {
      if i == 0 {
        assert r[j] == t[j - 1] && t[j - 1] in t;
      } else {
        assert r[i] == t[i - 1] && r[j] == t[j - 1];
      }
    }
  }

  /** Inserting into a sorted series keeps it sorted. */
  lemma {:induction false} InsertByDateSorted(p: WeatherData, s: seq<WeatherData>)
    requires SortedByDate(s)
    ensures SortedByDate(InsertByDate(p, s))
  {
    if s == [] || p.date <= s[0].date {
      forall q | q in s ensures p.date <= q.date {
        var k :| 0 <= k < |s| && s[k] == q;
      }
      ConsSorted(p, s);
    } else {
      var tail := s[1..];
      assert SortedByDate(tail);
      InsertByDateSorted(p, tail);
      var rest := InsertByDate(p, tail);
      forall q | q in rest ensures s[0].date <= q.date {
        assert q in multiset(rest);
        if q != p {
          assert q in tail;
          var k :| 0 <= k < |tail| && tail[k] == q;
          assert s[k + 1] == q;
        }
      }
      ConsSorted(s[0], rest);
    }
  }

  /** Sorts by timestamp (insertion sort), as `sort` with a timestamp comparator does. */
  function SortByDate(s: seq<WeatherData>): (r: seq<WeatherData>)
    ensures multiset(r) == multiset(s)
    ensures SortedByDate(r)
  {
    if s == [] then []
    else
      assert s == [s[0]] + s[1..];
      var sortedTail := SortByDate(s[1..]);
      InsertByDateSorted(s[0], sortedTail);
      InsertByDate(s[0], sortedTail)
  }

  /** Sorting an already sorted series leaves it as it is. */
  lemma {:induction false} SortSortedIsIdentity(s: seq<WeatherData>)
    requires SortedByDate(s)
    ensures SortByDate(s) == s
  {
    if s != [] {
      assert SortedByDate(s[1..]);
      SortSortedIsIdentity(s[1..]);
      assert s == [s[0]] + s[1..];
    }
  }

  /** The points dated strictly before `cutoff`, in their order. */
  function KeepBefore(s: seq<WeatherData>, cutoff: int): (r: seq<WeatherData>)
    ensures forall p :: p in r <==> p in s && p.date < cutoff
    ensures forall p :: multiset(r)[p] == if p.date < cutoff then multiset(s)[p] else 0
  {
    if s == [] then []
    else
      assert s == [s[0]] + s[1..];
      var rest := KeepBefore(s[1..], cutoff);
      var r := if s[0].date < cutoff then [s[0]] + rest else rest;
      assert multiset(r) == (if s[0].date < cutoff then multiset{s[0]} else multiset{}) + multiset(rest);
      r
  }

  /** Filtering a sorted series keeps it sorted. */
  lemma {:induction false} KeepBeforeSorted(s: seq<WeatherData>, cutoff: int)
    requires SortedByDate(s)
    ensures SortedByDate(KeepBefore(s, cutoff))
  {
    if s != [] {
      var t := s[1..];
      assert SortedByDate(t) by {
        forall i, j | 0 <= i < j < |t| ensures t[i].date <= t[j].date {
          assert t[i] == s[i + 1] && t[j] == s[j + 1];
        }
      }
      KeepBeforeSorted(t, cutoff);
      if s[0].date < cutoff {
        forall q | q in KeepBefore(t, cutoff) ensures s[0].date <= q.date {
          var k :| 0 <= k < |t| && t[k] == q;
          assert s[k + 1] == q;
        }
        ConsSorted(s[0], KeepBefore(t, cutoff));
      }
    }
  }

  /** A series dated wholly before the cutoff is kept whole. */
  lemma {:induction false} KeepBeforeAll(s: seq<WeatherData>, cutoff: int)
    requires forall p :: p in s ==> p.date < cutoff
    ensures KeepBefore(s, cutoff) == s
  {
    if s != [] {
      assert s == [s[0]] + s[1..];
      KeepBeforeAll(s[1..], cutoff);
    }
  }

  /** In a sorted series, being dated before its first point is being dated before all of it. */
  lemma BeforeFirstIsBeforeAll(p: WeatherData, s: seq<WeatherData>)
    requires SortedByDate(s) && s != []
    ensures BeforeAll(p, s) <==> p.date < s[0].date
  {
    if p.date < s[0].date {
      forall q | q in s ensures p.date < q.date {
        var k :| 0 <= k < |s| && s[k] == q;
      }
    }
  }

  /** The normalisation: both series sorted, historical points at or after the first
      forecast point dropped (so a shared instant stays only in the forecast), the
      filters echoed. */
  function Normalize(ds: WeatherDataset): (r: WeatherDataset)
    ensures Normalized(r)
    ensures multiset(r.forecastData) == multiset(ds.forecastData)
    ensures forall p :: p in r.historicalData <==> p in ds.historicalData && BeforeAll(p, ds.forecastData)
    ensures forall p :: multiset(r.historicalData)[p] ==
                        if BeforeAll(p, ds.forecastData) then multiset(ds.historicalData)[p] else 0
    ensures r.aggregationMetric == ds.aggregationMetric && r.location == ds.location && r.timeframe == ds.timeframe
  {
    var forecast := SortByDate(ds.forecastData);
    var historical := SortByDate(ds.historicalData);
    var trimmed := if |forecast| == 0 then historical else KeepBefore(historical, forecast[0].date);
    assert SortedByDate(trimmed) by {
      if |forecast| > 0 {
        KeepBeforeSorted(historical, forecast[0].date);
      }
    }
    assert forall q :: q in forecast <==> q in ds.forecastData by {
      forall q ensures q in forecast <==> q in ds.forecastData {
        assert q in forecast <==> q in multiset(forecast);
      }
    }
    assert forall p :: p in historical <==> p in ds.historicalData by {
      forall p ensures p in historical <==> p in ds.historicalData {
        assert p in historical <==> p in multiset(historical);
      }
    }
    assert forall p :: p in trimmed <==> p in historical && BeforeAll(p, forecast) by {
      forall p ensures p in trimmed <==> p in historical && BeforeAll(p, forecast) {
        if |forecast| > 0 {
          BeforeFirstIsBeforeAll(p, forecast);
        }
      }
    }
    assert forall p :: multiset(trimmed)[p] == if BeforeAll(p, ds.forecastData) then multiset(ds.historicalData)[p] else 0 by {
      forall p ensures multiset(trimmed)[p] == if BeforeAll(p, ds.forecastData) then multiset(ds.historicalData)[p] else 0 {
        assert BeforeAll(p, forecast) <==> BeforeAll(p, ds.forecastData);
        if |forecast| > 0 {
          BeforeFirstIsBeforeAll(p, forecast);
        }
      }
    }
    ds.(forecastData := forecast, historicalData := trimmed)
  }

  /** With no forecast, the historical series is only sorted, never trimmed. */
  lemma NormalizeEmptyForecast(ds: WeatherDataset)
    requires ds.forecastData == []
    ensures Normalize(ds).forecastData == []
    ensures Normalize(ds).historicalData == SortByDate(ds.historicalData)
  {
  }

  /** A historical series dated wholly at or after the earliest forecast point is
      dropped, and the forecast is only sorted. */
  lemma NormalizeAllHistoricalLater(ds: WeatherDataset)
    requires ds.forecastData != []
    requires forall p :: p in ds.historicalData ==> !BeforeAll(p, ds.forecastData)
    ensures Normalize(ds).historicalData == []
    ensures Normalize(ds).forecastData == SortByDate(ds.forecastData)
  {
    var h := Normalize(ds).historicalData;
    assert forall p :: p !in h;
    assert multiset(h) == multiset{};
  }

  /** A dataset that is already sorted and separated is left unchanged. */
  lemma NormalizeFixedPoint(ds: WeatherDataset)
    requires Normalized(ds)
    ensures Normalize(ds) == ds
  {
    SortSortedIsIdentity(ds.forecastData);
    SortSortedIsIdentity(ds.historicalData);
    if ds.forecastData != [] {
      assert ds.forecastData[0] in ds.forecastData;
      KeepBeforeAll(ds.historicalData, ds.forecastData[0].date);
    }
  }

  /** Normalising twice is normalising once. */
  lemma NormalizeIdempotent(ds: WeatherDataset)
    ensures Normalize(Normalize(ds)) == Normalize(ds)
  {
    NormalizeFixedPoint(Normalize(ds));
  }

  /** Empty series stay empty. */
  lemma NormalizeEmpty(ds: WeatherDataset)
    requires ds.forecastData == [] && ds.historicalData == []
    ensures Normalize(ds) == ds
  {
  }

  /** The case of WeatherService.spec.ts that shares an instant between the series:
      the shared point is dropped from the historical series and kept in the forecast. */
  lemma SharedInstantGoesToForecast(ds: WeatherDataset)
    requires ds.historicalData == [WeatherData(1 * DayMs, 1.0, "°C"), WeatherData(2 * DayMs, 2.0, "°C")]
    requires ds.forecastData == [WeatherData(2 * DayMs, 2.0, "°C"), WeatherData(3 * DayMs, 3.0, "°C")]
    ensures Normalize(ds).historicalData == [WeatherData(1 * DayMs, 1.0, "°C")]
    ensures Normalize(ds).forecastData == ds.forecastData
  {
    SharedPointGoesToForecast(ds, ds.historicalData[0], ds.historicalData[1], ds.forecastData[1]);
  }

  /** History a, b and forecast b, c, where a < b < c: b is kept only in the forecast. */
  lemma SharedPointGoesToForecast(ds: WeatherDataset, a: WeatherData, b: WeatherData, c: WeatherData)
    requires a.date < b.date < c.date
    requires ds.historicalData == [a, b] && ds.forecastData == [b, c]
    ensures Normalize(ds).historicalData == [a]
    ensures Normalize(ds).forecastData == [b, c]
  {
    SortAscendingTwo(a, b);
    SortAscendingTwo(b, c);
    NormalizeUnfold(ds);
    assert [a, b] == [a] + [b] && [b] == [b] + [];
    KeepBeforeCons(a, [b], b.date);
    KeepBeforeCons(b, [], b.date);
  }

  /** KeepBefore looks at the head and goes on with the tail. */
  lemma KeepBeforeCons(x: WeatherData, t: seq<WeatherData>, cutoff: int)
    ensures KeepBefore([x] + t, cutoff) == (if x.date < cutoff then [x] else []) + KeepBefore(t, cutoff)
  {
    assert ([x] + t)[0] == x && ([x] + t)[1..] == t;
  }

  /** The unsorted case of WeatherService.spec.ts: days 3, 1, 2 of history and days
      5, 4 of forecast come out as 1, 2, 3 and 4, 5. */
  lemma UnsortedSeriesAreSorted(ds: WeatherDataset)
    requires ds.historicalData == [WeatherData(3 * DayMs, 3.0, "°C"), WeatherData(1 * DayMs, 1.0, "°C"), WeatherData(2 * DayMs, 2.0, "°C")]
    requires ds.forecastData == [WeatherData(5 * DayMs, 5.0, "°C"), WeatherData(4 * DayMs, 4.0, "°C")]
    ensures Normalize(ds).historicalData == [WeatherData(1 * DayMs, 1.0, "°C"), WeatherData(2 * DayMs, 2.0, "°C"), WeatherData(3 * DayMs, 3.0, "°C")]
    ensures Normalize(ds).forecastData == [WeatherData(4 * DayMs, 4.0, "°C"), WeatherData(5 * DayMs, 5.0, "°C")]
  {
    var h, f := ds.historicalData, ds.forecastData;
    ScrambledSeriesAreSorted(ds, h[1], h[2], h[0], f[1], f[0]);
  }

  /** Histories dated c, a, b and forecasts dated e, d, where a < b < c < d < e,
      come out as a, b, c and d, e. */
  lemma ScrambledSeriesAreSorted(ds: WeatherDataset, a: WeatherData, b: WeatherData, c: WeatherData, d: WeatherData, e: WeatherData)
    requires a.date < b.date < c.date < d.date < e.date
    requires ds.historicalData == [c, a, b] && ds.forecastData == [e, d]
    ensures Normalize(ds).historicalData == [a, b, c]
    ensures Normalize(ds).forecastData == [d, e]
  {
    SortTwo(e, d);
    SortThree(c, a, b);
    NormalizeUnfold(ds);
    KeepBeforeThree(a, b, c, d.date);
  }

  /** Three points all dated before the cutoff are all kept. */
  lemma KeepBeforeThree(a: WeatherData, b: WeatherData, c: WeatherData, cutoff: int)
    requires a.date < b.date < c.date < cutoff
    ensures KeepBefore([a, b, c], cutoff) == [a, b, c]
  {
    forall p | p in [a, b, c] ensures p.date < cutoff {
    }
    KeepBeforeAll([a, b, c], cutoff);
  }

  /** Normalize sorts the forecast and cuts the sorted history at its first point. */
  lemma NormalizeUnfold(ds: WeatherDataset)
    requires ds.forecastData != []
    ensures Normalize(ds).forecastData == SortByDate(ds.forecastData)
    ensures |SortByDate(ds.forecastData)| > 0
    ensures Normalize(ds).historicalData == KeepBefore(SortByDate(ds.historicalData), SortByDate(ds.forecastData)[0].date)
  {
    assert multiset(SortByDate(ds.forecastData)) == multiset(ds.forecastData);
  }

  /** Sorting a series with a head inserts the head into the sorted tail. */
  lemma SortCons(x: WeatherData, t: seq<WeatherData>)
    ensures SortByDate([x] + t) == InsertByDate(x, SortByDate(t))
  {
    assert ([x] + t)[0] == x && ([x] + t)[1..] == t;
  }

  /** A point dated no later than the head goes in front. */
  lemma InsertFront(p: WeatherData, s: seq<WeatherData>)
    requires s == [] || p.date <= s[0].date
    ensures InsertByDate(p, s) == [p] + s
  {
  }

  /** A point dated after the head goes past it. */
  lemma InsertPast(p: WeatherData, x: WeatherData, t: seq<WeatherData>)
    requires x.date < p.date
    ensures InsertByDate(p, [x] + t) == [x] + InsertByDate(p, t)
  {
    assert ([x] + t)[0] == x && ([x] + t)[1..] == t;
  }

  /** Sorting two points already in order leaves them in place. */
  lemma SortAscendingTwo(a: WeatherData, b: WeatherData)
    requires a.date <= b.date
    ensures SortByDate([a, b]) == [a, b]
  {
    SortCons(a, [b]);
    SortCons(b, []);
    InsertFront(b, []);
    InsertFront(a, [b]);
  }

  /** Sorting two points dated in descending order swaps them. */
  lemma SortTwo(a: WeatherData, b: WeatherData)
    requires b.date < a.date
    ensures SortByDate([a, b]) == [b, a]
  {
    SortCons(a, [b]);
    SortCons(b, []);
    InsertFront(b, []);
    InsertPast(a, b, []);
    InsertFront(a, []);
  }

  /** Sorting points dated c, a, b with a < b < c. */
  lemma SortThree(c: WeatherData, a: WeatherData, b: WeatherData)
    requires a.date < b.date < c.date
    ensures SortByDate([c, a, b]) == [a, b, c]
  {
    assert [c, a, b] == [c] + [a, b];
    SortCons(c, [a, b]);
    SortAscendingTwo(a, b);
    InsertLastOfThree(c, a, b);
  }

  /** A point dated after both points of a pair goes last. */
  lemma InsertLastOfThree(c: WeatherData, a: WeatherData, b: WeatherData)
    requires a.date < c.date && b.date < c.date
    ensures InsertByDate(c, [a, b]) == [a, b, c]
  {
    assert [a, b] == [a] + [b] && [b] == [b] + [];
    InsertPast(c, a, [b]);
    InsertPast(c, b, []);
    InsertFront(c, []);
    assert [a] + ([b] + [c]) == [a, b, c];
  }
}
