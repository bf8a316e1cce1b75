/** Aggregates and time series over telemetry. */
module Analytics {
  import opened Models
  import opened Sequences
  import Sorting

  datatype MetricStats = MetricStats(
    metric: string, count: nat, min: real, max: real, avg: real, sum: real, last: real)

  datatype Point = Point(timestamp: int, value: real)

  /** The values of a metric in slice order. */
  function ValuesOf(points: seq<Telemetry>, metric: string): seq<real> {
    if points == [] then []
    else if metric in Last(points).metrics then ValuesOf(Front(points), metric) + [Last(points).metrics[metric]]
    else ValuesOf(Front(points), metric)
  }

  function Sum(vals: seq<real>): real {
    if vals == [] then 0.0 else Sum(Front(vals)) + Last(vals)
  }

  ghost predicate IsMin(x: real, vals: seq<real>) {
    x in vals && forall v :: v in vals ==> x <= v
  }

  ghost predicate IsMax(x: real, vals: seq<real>) {
    x in vals && forall v :: v in vals ==> v <= x
  }

  /** Everything but the average. */
  ghost predicate Tallies(st: MetricStats, metric: string, vals: seq<real>) {
    && vals != [] && st.metric == metric && st.count == |vals| && st.sum == Sum(vals)
    && IsMin(st.min, vals) && IsMax(st.max, vals) && st.last == Last(vals)
  }

  /** What the statistics of a metric must be, whatever order they were computed in. */
  ghost predicate Describes(st: MetricStats, metric: string, vals: seq<real>) {
    Tallies(st, metric, vals) && st.avg == Sum(vals) / (|vals| as real)
  }

  /** What Aggregate must return: statistics for exactly the metrics that occur. */
  ghost predicate Summarizes(out: map<string, MetricStats>, points: seq<Telemetry>) {
    forall m :: (m in out <==> ValuesOf(points, m) != []) && (m in out ==> Describes(out[m], m, ValuesOf(points, m)))
  }

  // ---------------------------------------------------------------- Aggregate

  /** The values met once `done` of the metrics of point `k` have been visited. */
  ghost function Met(points: seq<Telemetry>, k: nat, done: set<string>, metric: string): seq<real>
    requires k <= |points|
  {
    if k < |points| && metric in done && metric in points[k].metrics
    then ValuesOf(points[..k], metric) + [points[k].metrics[metric]]
    else ValuesOf(points[..k], metric)
  }

  ghost predicate Accumulated(acc: map<string, MetricStats>, points: seq<Telemetry>, k: nat, done: set<string>)
    requires k <= |points|
  {
    forall m :: (m in acc <==> Met(points, k, done, m) != [])
           && (m in acc ==> Tallies(acc[m], m, Met(points, k, done, m)))
  }

  /** The loop body: a fresh record starts from its first value. */
  function Bump(acc: map<string, MetricStats>, metric: string, value: real): MetricStats {
    var s := if metric in acc then acc[metric] else MetricStats(metric, 0, value, value, 0.0, 0.0, 0.0);
    MetricStats(metric, s.count + 1, if value < s.min then value else s.min, if value > s.max then value else s.max,
                s.avg, s.sum + value, value)
  }

  lemma BumpTallies(acc: map<string, MetricStats>, metric: string, value: real, vals: seq<real>)
    requires metric in acc <==> vals != []
    requires metric in acc ==> Tallies(acc[metric], metric, vals)
    ensures Tallies(Bump(acc, metric, value), metric, vals + [value])
  {
    assert Front(vals + [value]) == vals;
    assert value in vals + [value];
  }

  lemma NextPoint(acc: map<string, MetricStats>, points: seq<Telemetry>, k: nat)
    requires k < |points| && Accumulated(acc, points, k, points[k].metrics.Keys)
    ensures Accumulated(acc, points, k + 1, {})
  {
    forall m ensures Met(points, k + 1, {}, m) == Met(points, k, points[k].metrics.Keys, m) {
      assert Front(points[..k + 1]) == points[..k];
    }
  }

  lemma NextMetric(acc: map<string, MetricStats>, points: seq<Telemetry>, k: nat, done: set<string>, metric: string)
    requires k < |points| && Accumulated(acc, points, k, done) && metric in points[k].metrics && metric !in done
    ensures Accumulated(acc[metric := Bump(acc, metric, points[k].metrics[metric])], points, k, done + {metric})
  {
    var value, acc' := points[k].metrics[metric], acc[metric := Bump(acc, metric, points[k].metrics[metric])];
    assert Met(points, k, done, metric) == ValuesOf(points[..k], metric);
    BumpTallies(acc, metric, value, Met(points, k, done, metric));
    forall m ensures (m in acc' <==> Met(points, k, done + {metric}, m) != [])
                     && (m in acc' ==> Tallies(acc'[m], m, Met(points, k, done + {metric}, m))) {
      if m != metric {
        assert Met(points, k, done + {metric}, m) == Met(points, k, done, m);
      } else {
        assert Met(points, k, done + {metric}, m) == Met(points, k, done, m) + [value];
      }
    }
  }

  /** A metric has statistics exactly when some point carries it, and they are those of its values, for every order in
      which Go may iterate the maps. */
  method Aggregate(points: seq<Telemetry>) returns (out: map<string, MetricStats>)
    ensures Summarizes(out, points)
  {
    var acc: map<string, MetricStats> := map[];
    for k := 0 to |points|
      invariant Accumulated(acc, points, k, {})
    {
      var p, rest := points[k], points[k].metrics.Keys;
      while rest != {}
        invariant rest <= p.metrics.Keys
        invariant Accumulated(acc, points, k, p.metrics.Keys - rest)
      {
        var metric :| metric in rest;
        NextMetric(acc, points, k, p.metrics.Keys - rest, metric);
        acc := acc[metric := Bump(acc, metric, p.metrics[metric])];
        assert p.metrics.Keys - (rest - {metric}) == (p.metrics.Keys - rest) + {metric};
        rest := rest - {metric};
      }
      assert p.metrics.Keys - {} == p.metrics.Keys;
      NextPoint(acc, points, k);
    }
    out := Averaged(acc, points);
  }

  method Averaged(acc: map<string, MetricStats>, ghost points: seq<Telemetry>) returns (out: map<string, MetricStats>)
    requires Accumulated(acc, points, |points|, {})
    ensures Summarizes(out, points)
  {
    out := map[];
    var rest := acc.Keys;
    assert points[..|points|] == points;
    assert forall m :: Met(points, |points|, {}, m) == ValuesOf(points, m);
    while rest != {}
      invariant rest <= acc.Keys && out.Keys == acc.Keys - rest
      invariant forall m :: m in out ==> Describes(out[m], m, ValuesOf(points, m))
    {
      var metric :| metric in rest;
      var s := acc[metric];
      assert Tallies(s, metric, ValuesOf(points, metric));
      out := out[metric := s.(avg := s.sum / (s.count as real))];
      rest := rest - {metric};
    }
  }

  // ---------------------------------------------------------------- laws

  lemma {:induction false} SumBounds(vals: seq<real>, lo: real, hi: real)
    requires forall v :: v in vals ==> lo <= v <= hi
    ensures lo * (|vals| as real) <= Sum(vals) <= hi * (|vals| as real)
  {
    if vals != [] {
      assert forall v :: v in Front(vals) ==> v in vals;
      SumBounds(Front(vals), lo, hi);
      assert Last(vals) in vals;
      assert (|vals| as real) == (|Front(vals)| as real) + 1.0;
    }
  }

  lemma QuotientBounds(lo: real, hi: real, n: real, sum: real)
    requires n > 0.0 && lo * n <= sum <= hi * n
    ensures lo <= sum / n <= hi
  {
    var q := sum / n;
    assert q * n == sum;
    assert (q - lo) * n >= 0.0 && (hi - q) * n >= 0.0;
  }

  lemma MeanWithinRange(st: MetricStats, metric: string, vals: seq<real>)
    requires Describes(st, metric, vals)
    ensures st.min <= st.avg <= st.max
  {
    SumBounds(vals, st.min, st.max);
    QuotientBounds(st.min, st.max, |vals| as real, Sum(vals));
  }

  lemma {:induction false} ValuesAppend(a: seq<Telemetry>, b: seq<Telemetry>, metric: string)
    ensures ValuesOf(a + b, metric) == ValuesOf(a, metric) + ValuesOf(b, metric)
  {
    if b == [] {
      assert a + b == a;
    } else {
      assert Front(a + b) == a + Front(b) && Last(a + b) == Last(b);
      ValuesAppend(a, Front(b), metric);
    }
  }

  lemma {:induction false} SumAppend(a: seq<real>, b: seq<real>)
    ensures Sum(a + b) == Sum(a) + Sum(b)
  {
    if b == [] {
      assert a + b == a;
    } else {
      assert Front(a + b) == a + Front(b) && Last(a + b) == Last(b);
      SumAppend(a, Front(b));
    }
  }

  lemma {:induction false} SumPermutes(p: seq<real>, q: seq<real>)
    requires multiset(p) == multiset(q)
    ensures Sum(p) == Sum(q)
  {
    if p == [] {
      assert |multiset(q)| == |q|;
    } else {
      var a, b := Locate(p, q);
      SumPermutes(Front(p), a + b);
      SumAppend(a, b);
      SumAppend(a + [Last(p)], b);
      SumAppend(a, [Last(p)]);
      assert Front([Last(p)]) == [];
    }
  }

  lemma {:induction false} ValuesPermute(p: seq<Telemetry>, q: seq<Telemetry>, metric: string)
    requires multiset(p) == multiset(q)
    ensures multiset(ValuesOf(p, metric)) == multiset(ValuesOf(q, metric))
  {
    if p == [] {
      assert |multiset(q)| == |q|;
    } else {
      var a, b := Locate(p, q);
      ValuesPermute(Front(p), a + b, metric);
      ValuesAppend(a, b, metric);
      ValuesAppend(a + [Last(p)], b, metric);
      ValuesAppend(a, [Last(p)], metric);
      assert Front([Last(p)]) == [];
    }
  }

  lemma SameDescription(s1: MetricStats, s2: MetricStats, metric: string, v1: seq<real>, v2: seq<real>)
    requires multiset(v1) == multiset(v2) && Describes(s1, metric, v1) && Describes(s2, metric, v2)
    ensures s1.(last := s2.last) == s2
  {
    SumPermutes(v1, v2);
    SameLength(v1, v2);
    assert forall v :: v in v1 <==> v in multiset(v1);
    assert forall v :: v in v2 <==> v in multiset(v2);
  }

  /** Two aggregates that differ at most in their Last values. */
  ghost predicate SameButLast(a: map<string, MetricStats>, b: map<string, MetricStats>) {
    a.Keys == b.Keys && forall m :: m in a ==> a[m].(last := b[m].last) == b[m]
  }

  /** Reordering the points changes neither which metrics have statistics nor any statistic but Last. */
  lemma OrderIrrelevant(p: seq<Telemetry>, q: seq<Telemetry>, a: map<string, MetricStats>, b: map<string, MetricStats>)
    requires multiset(p) == multiset(q) && Summarizes(a, p) && Summarizes(b, q)
    ensures SameButLast(a, b)
  {
    forall m ensures m in a <==> m in b {
      ValuesPermute(p, q, m);
      SameLength(ValuesOf(p, m), ValuesOf(q, m));
    }
    forall m | m in a ensures a[m].(last := b[m].last) == b[m] {
      ValuesPermute(p, q, m);
      SameDescription(a[m], b[m], m, ValuesOf(p, m), ValuesOf(q, m));
    }
  }

  // ---------------------------------------------------------------- TimeSeries

  function PointsOf(points: seq<Telemetry>, metric: string): seq<Point> {
    if points == [] then []
    else if metric in Last(points).metrics
    then PointsOf(Front(points), metric) + [Point(ToMillis(Last(points).timestamp), Last(points).metrics[metric])]
    else PointsOf(Front(points), metric)
  }

  /** The point is what the chart should show for the sample: its value, in the millisecond its timestamp lies in. */
  predicate Depicts(p: Point, t: Telemetry, metric: string) {
    && metric in t.metrics && p.value == t.metrics[metric]
    && p.timestamp * 1_000_000 <= t.timestamp < (p.timestamp + 1) * 1_000_000
  }

  /** The samples a point stands for, by position. */
  function Depicted(p: Point, points: seq<Telemetry>, metric: string): set<nat> {
    set i: nat | i < |points| && Depicts(p, points[i], metric)
  }

  /** Every point occurs as often as there are samples it stands for. */
  lemma {:induction false} PointsDepict(points: seq<Telemetry>, metric: string, p: Point)
    ensures multiset(PointsOf(points, metric))[p] == |Depicted(p, points, metric)|
  {
    if points == [] {
      assert Depicted(p, points, metric) == {};
    } else {
      var before, n := Depicted(p, Front(points), metric), |points| - 1;
      PointsDepict(Front(points), metric, p);
      assert Depicted(p, points, metric) == before + if Depicts(p, points[n], metric) then {n} else {};
      assert n !in before;
      DepictsOnce(p, points[n], metric);
    }
  }

  lemma DepictsOnce(p: Point, t: Telemetry, metric: string)
    ensures Depicts(p, t, metric)
       <==> metric in t.metrics && p == Point(ToMillis(t.timestamp), t.metrics[metric])
  {
  }

  /** Samples of the metric a millisecond or more apart, in order of time. */
  ghost predicate Rising(points: seq<Telemetry>, metric: string) {
    forall i, j :: 0 <= i < j < |points| && metric in points[i].metrics && metric in points[j].metrics ==>
      points[i].timestamp + 1_000_000 <= points[j].timestamp
  }

  lemma {:induction false} RisingPoints(points: seq<Telemetry>, metric: string, bound: int)
    requires Rising(points, metric)
    requires forall i :: 0 <= i < |points| && metric in points[i].metrics ==> ToMillis(points[i].timestamp) < bound
    ensures forall i, j :: 0 <= i < j < |PointsOf(points, metric)| ==>
              PointsOf(points, metric)[i].timestamp < PointsOf(points, metric)[j].timestamp
    ensures forall i :: 0 <= i < |PointsOf(points, metric)| ==> PointsOf(points, metric)[i].timestamp < bound
  {
    if points != [] {
      var last := Last(points);
      if metric in last.metrics {
        forall i | 0 <= i < |points| - 1 && metric in points[i].metrics
          ensures ToMillis(points[i].timestamp) < ToMillis(last.timestamp) {
          assert points[i].timestamp + 1_000_000 <= points[|points| - 1].timestamp;
        }
        RisingPoints(Front(points), metric, ToMillis(last.timestamp));
      } else {
        RisingPoints(Front(points), metric, bound);
      }
    }
  }

  lemma SameLast(out: seq<Point>, points: seq<Point>)
    requires out != [] && points != [] && multiset(out) == multiset(points)
    requires Sorting.SortedBy(out, (p: Point) => p.timestamp)
    requires forall i, j :: 0 <= i < j < |points| ==> points[i].timestamp < points[j].timestamp
    ensures Last(out) == Last(points)
  {
    assert Last(out) in multiset(points) && Last(points) in multiset(out);
    var i :| 0 <= i < |out| && out[i] == Last(points);
    var j :| 0 <= j < |points| && points[j] == Last(out);
    var key := (p: Point) => p.timestamp;
    assert key(out[i]) <= key(Last(out));
  }

  /** Points at different times have one order. */
  lemma {:induction false} OneOrder(out: seq<Point>, points: seq<Point>)
    requires multiset(out) == multiset(points) && Sorting.SortedBy(out, (p: Point) => p.timestamp)
    requires forall i, j :: 0 <= i < j < |points| ==> points[i].timestamp < points[j].timestamp
    ensures out == points
  {
    SameLength(out, points);
    if out != [] {
      SameLast(out, points);
      MultisetFront(out);
      MultisetFront(points);
      OneOrder(Front(out), Front(points));
      FrontLast(out);
      FrontLast(points);
    }
  }

  method TimeSeries(points: seq<Telemetry>, metric: string) returns (out: seq<Point>)
    ensures Sorting.SortedBy(out, (p: Point) => p.timestamp)
    ensures multiset(out) == multiset(PointsOf(points, metric))
    ensures forall p :: multiset(out)[p] == |Depicted(p, points, metric)|
    ensures Rising(points, metric) ==> PointValues(out) == ValuesOf(points, metric)
  {
    out := [];
    for k := 0 to |points|
      invariant out == PointsOf(points[..k], metric)
    {
      assert Front(points[..k + 1]) == points[..k];
      if metric in points[k].metrics {
        out := out + [Point(ToMillis(points[k].timestamp), points[k].metrics[metric])];
      }
    }
    assert points[..|points|] == points;
    out := Sorting.Sort(out, (p: Point) => p.timestamp);
    SeriesDepicts(points, metric, out);
  }

  /** What a time-sorted permutation of the points is, in terms of the samples. */
  lemma SeriesDepicts(points: seq<Telemetry>, metric: string, out: seq<Point>)
    requires multiset(out) == multiset(PointsOf(points, metric))
    requires Sorting.SortedBy(out, (p: Point) => p.timestamp)
    ensures forall p :: multiset(out)[p] == |Depicted(p, points, metric)|
    ensures Rising(points, metric) ==> PointValues(out) == ValuesOf(points, metric)
  {
    forall p ensures multiset(out)[p] == |Depicted(p, points, metric)| {
      PointsDepict(points, metric, p);
    }
    if Rising(points, metric) {
      var bound := Latest(points);
      RisingPoints(points, metric, bound);
      OneOrder(out, PointsOf(points, metric));
      PointsCarryValues(points, metric);
    }
  }

  /** A millisecond later than all the samples. */
  function Latest(points: seq<Telemetry>): (r: int)
    ensures forall i :: 0 <= i < |points| ==> ToMillis(points[i].timestamp) < r
  {
    if points == [] then 0 else
      var r, m := Latest(Front(points)), ToMillis(Last(points).timestamp);
      if m < r then r else m + 1
  }

  function PointValues(series: seq<Point>): seq<real> {
    seq(|series|, i requires 0 <= i < |series| => series[i].value)
  }

  lemma {:induction false} PointsCarryValues(points: seq<Telemetry>, metric: string)
    ensures PointValues(PointsOf(points, metric)) == ValuesOf(points, metric)
  {
    if points != [] {
      PointsCarryValues(Front(points), metric);
    }
  }

  lemma {:induction false} PointValuesPermute(p: seq<Point>, q: seq<Point>)
    requires multiset(p) == multiset(q)
    ensures multiset(PointValues(p)) == multiset(PointValues(q))
  {
    if p == [] {
      assert |multiset(q)| == |q|;
    } else {
      var a, b := Locate(p, q);
      PointValuesPermute(Front(p), a + b);
      assert PointValues(p) == PointValues(Front(p)) + [Last(p).value];
      assert PointValues(q) == PointValues(a) + [Last(p).value] + PointValues(b);
      assert PointValues(a + b) == PointValues(a) + PointValues(b);
    }
  }

  /** Statistics describe any reordering of the values they describe, but for Last. */
  lemma Redescribed(st: MetricStats, metric: string, v1: seq<real>, v2: seq<real>)
    requires multiset(v1) == multiset(v2) && Describes(st, metric, v1)
    ensures v2 != [] && Describes(st.(last := Last(v2)), metric, v2)
  {
    SumPermutes(v1, v2);
    SameLength(v1, v2);
    assert forall v :: v in v1 <==> v in multiset(v1);
    assert forall v :: v in v2 <==> v in multiset(v2);
  }

  /** The two endpoints agree: the series of a metric and its statistics are about the same values. */
  lemma SeriesMatchesStats(points: seq<Telemetry>, metric: string, series: seq<Point>, stats: map<string, MetricStats>)
    requires multiset(series) == multiset(PointsOf(points, metric))
    requires Summarizes(stats, points)
    ensures metric in stats <==> series != []
    ensures metric in stats ==> Describes(stats[metric].(last := Last(series).value), metric, PointValues(series))
  {
    PointsCarryValues(points, metric);
    PointValuesPermute(series, PointsOf(points, metric));
    SameLength(series, PointsOf(points, metric));
    if metric in stats {
      Redescribed(stats[metric], metric, ValuesOf(points, metric), PointValues(series));
    }
  }
}
