/** The forecast-accuracy triple (today, three days, week): the mean
    per-row accuracy over rows with observed traffic, jittered and clipped
    to [88, 98], or the all-zero "N/A" sentinel for a future date. */
module Accuracy {
  import opened Basics
  import opened Generation
  import opened Kpis

  function Abs(x: int): (r: nat)
    ensures r == x || r == -x
  {
    if x >= 0 then x else -x
  }

  /** `max(0, 1 - abs(predicted - actual) / predicted) * 100`. The rows
      hold plain integers, so a zero prediction raises ZeroDivisionError in
      the source; the model returns 0 there. */
  function RowAccuracy(p: int, a: int): (r: real)
    ensures p >= 0 ==> 0.0 <= r <= 100.0
    ensures p > 0 ==> (r == 100.0 <==> a == p)
    ensures p > 0 && Abs(p - a) < p ==> r * p as real == 100.0 * (p - Abs(p - a)) as real
    ensures p > 0 && Abs(p - a) >= p ==> r == 0.0
  {
    if p == 0 then 0.0
    else
      var err := Abs(p - a) as real / p as real;
      assert err * p as real == Abs(p - a) as real;
      assert p > 0 ==> err >= 0.0;
      assert p > 0 ==> (err == 0.0 <==> a == p);
      if 1.0 - err > 0.0 then (1.0 - err) * 100.0 else 0.0
  }

  /** The per-row accuracies of the rows whose actual traffic is recorded
      and positive, in row order. */
  function Samples(rows: seq<Row>): (xs: seq<real>)
    ensures |xs| <= |rows|
  {
    if |rows| == 0 then []
    else
      var rest := Samples(rows[1..]);
      match rows[0].actual
      case Some(a) => if a > 0 then [RowAccuracy(rows[0].predicted, a)] + rest else rest
      case None => rest
  }

  /** The rows the accuracy of a scope is taken over: the three stores'
      rows in turn for all stores, the store's own rows otherwise. */
  function ScopeSamples(scope: Scope, data: PerStore<seq<Row>>): seq<real>
  {
    match scope
    case AllStores => Samples(data.london) + Samples(data.copenhagen) + Samples(data.paris)
    case Single(s) => Samples(data.Get(s))
  }

  function Sum(xs: seq<real>): real
  {
    if |xs| == 0 then 0.0 else xs[0] + Sum(xs[1..])
  }

  /** `np.mean(accuracy_values) if accuracy_values else 92.0` */
  function BaseAccuracy(xs: seq<real>): real
  {
    if |xs| == 0 then 92.0 else Sum(xs) / |xs| as real
  }

  datatype AccuracyTriple = AccuracyTriple(today: real, threeDays: real, week: real)

  /** The source prints "N/A" for a value exactly 0.0. */
  predicate ShowsNotAvailable(x: real)
  {
    x == 0.0
  }

  function Jittered(base: real, width: real, u: real): real
    requires width > 0.0
    requires 0.0 <= u < 1.0
  {
    Clamp(base + UniformReal(-width, width, u), 88.0, 98.0)
  }

  /** `calculate_forecast_accuracy(scope, stores_data, aggregate_data,
      selected_date)` with today and the three uniform draws as parameters.
      A date after today gives the all-zero sentinel; otherwise each value
      is the base accuracy plus its own jitter (half-width 0.5, 0.3, 0.2)
      clipped to [88, 98], so it never equals the sentinel. */
  function ForecastAccuracy(scope: Scope, data: PerStore<seq<Row>>, selected: int, today: int,
                            u1: real, u2: real, u3: real): (r: AccuracyTriple)
    requires 0.0 <= u1 < 1.0 && 0.0 <= u2 < 1.0 && 0.0 <= u3 < 1.0
    ensures selected > today ==> r == AccuracyTriple(0.0, 0.0, 0.0)
    ensures selected <= today ==> 88.0 <= r.today <= 98.0 && 88.0 <= r.threeDays <= 98.0 && 88.0 <= r.week <= 98.0
    ensures ShowsNotAvailable(r.today) <==> selected > today
    ensures ShowsNotAvailable(r.threeDays) <==> selected > today
    ensures ShowsNotAvailable(r.week) <==> selected > today
  {
    if selected > today then AccuracyTriple(0.0, 0.0, 0.0)
    else
      var base := BaseAccuracy(ScopeSamples(scope, data));
      AccuracyTriple(Jittered(base, 0.5, u1), Jittered(base, 0.3, u2), Jittered(base, 0.2, u3))
  }

  // ---------------------------------------------------------------------
  // Properties
  // ---------------------------------------------------------------------

  predicate NonNegativeSeries(data: PerStore<seq<Row>>)
  {
    NonNegative(data.london) && NonNegative(data.copenhagen) && NonNegative(data.paris)
  }

  predicate InPercentRange(xs: seq<real>)
  {
    forall k :: 0 <= k < |xs| ==> 0.0 <= xs[k] <= 100.0
  }

  lemma {:induction false} SamplesInRange(rows: seq<Row>)
    requires NonNegative(rows)
    ensures InPercentRange(Samples(rows))
    decreases |rows|
  {
    if |rows| > 0 {
      assert NonNegative(rows[1..]) by {
        forall i | 0 <= i < |rows| - 1 ensures rows[1..][i] == rows[i + 1] { }
      }
      SamplesInRange(rows[1..]);
    }
  }

  lemma {:induction false} SumInRange(xs: seq<real>)
    requires InPercentRange(xs)
    ensures 0.0 <= Sum(xs) <= 100.0 * |xs| as real
    decreases |xs|
  {
    if |xs| > 0 {
      assert InPercentRange(xs[1..]) by {
        forall k | 0 <= k < |xs| - 1 ensures xs[1..][k] == xs[k + 1] { }
      }
      SumInRange(xs[1..]);
    }
  }

  /** The base accuracy is a percentage: a mean of values in [0, 100], or 92. */
  lemma BaseInRange(xs: seq<real>)
    requires InPercentRange(xs)
    ensures 0.0 <= BaseAccuracy(xs) <= 100.0
  {
    if |xs| > 0 {
      SumInRange(xs);
      MeanBelow(Sum(xs), 100.0, |xs| as real);
    }
  }

  lemma ScopeSamplesInRange(scope: Scope, data: PerStore<seq<Row>>)
    requires NonNegativeSeries(data)
    ensures InPercentRange(ScopeSamples(scope, data))
  {
    SamplesInRange(data.london);
    SamplesInRange(data.copenhagen);
    SamplesInRange(data.paris);
    assert NonNegative(data.Get(London)) && NonNegative(data.Get(Copenhagen)) && NonNegative(data.Get(Paris));
  }

  /** Clipping never moves two values further apart. */
  lemma ClampNonExpansive(x: real, y: real, lo: real, hi: real)
    requires lo <= hi
    ensures -(x - y) <= Clamp(x, lo, hi) - Clamp(y, lo, hi) <= x - y || x - y <= Clamp(x, lo, hi) - Clamp(y, lo, hi) <= -(x - y)
  {
  }

  lemma ClampWithin(base: real, j: real, width: real, lo: real, hi: real)
    requires lo <= hi
    requires -width <= j <= width
    ensures -width <= Clamp(base + j, lo, hi) - Clamp(base, lo, hi) <= width
  {
    ClampNonExpansive(base + j, base, lo, hi);
  }

  /** Each value of a non-future triple lies within its jitter half-width of
      the clipped base accuracy. */
  lemma AccuracyNearBase(scope: Scope, data: PerStore<seq<Row>>, selected: int, today: int,
                         u1: real, u2: real, u3: real)
    requires 0.0 <= u1 < 1.0 && 0.0 <= u2 < 1.0 && 0.0 <= u3 < 1.0
    requires selected <= today
    ensures var r := ForecastAccuracy(scope, data, selected, today, u1, u2, u3);
      var c := Clamp(BaseAccuracy(ScopeSamples(scope, data)), 88.0, 98.0);
      && -0.5 <= r.today - c <= 0.5
      && -0.3 <= r.threeDays - c <= 0.3
      && -0.2 <= r.week - c <= 0.2
  {
    var base := BaseAccuracy(ScopeSamples(scope, data));
    ClampWithin(base, UniformReal(-0.5, 0.5, u1), 0.5, 88.0, 98.0);
    ClampWithin(base, UniformReal(-0.3, 0.3, u2), 0.3, 88.0, 98.0);
    ClampWithin(base, UniformReal(-0.2, 0.2, u3), 0.2, 88.0, 98.0);
  }

  /** Without any observed row the base is the 92% default, so the three
      values fall in [91.5, 92.5], [91.7, 92.3] and [91.8, 92.2]. */
  lemma NoObservationsDefaultTo92(scope: Scope, data: PerStore<seq<Row>>, selected: int, today: int,
                                  u1: real, u2: real, u3: real)
    requires 0.0 <= u1 < 1.0 && 0.0 <= u2 < 1.0 && 0.0 <= u3 < 1.0
    requires selected <= today
    requires |ScopeSamples(scope, data)| == 0
    ensures var r := ForecastAccuracy(scope, data, selected, today, u1, u2, u3);
      && 91.5 <= r.today <= 92.5
      && 91.7 <= r.threeDays <= 92.3
      && 91.8 <= r.week <= 92.2
  {
    AccuracyNearBase(scope, data, selected, today, u1, u2, u3);
  }

  predicate AllPerfect(xs: seq<real>)
  {
    forall k :: 0 <= k < |xs| ==> xs[k] == 100.0
  }

  lemma {:induction false} PerfectSum(xs: seq<real>)
    requires AllPerfect(xs)
    ensures Sum(xs) == 100.0 * |xs| as real
    decreases |xs|
  {
    if |xs| > 0 {
      assert AllPerfect(xs[1..]) by {
        forall k | 0 <= k < |xs| - 1 ensures xs[1..][k] == xs[k + 1] { }
      }
      PerfectSum(xs[1..]);
    }
  }

  /** A perfect forecast on the observed rows shows the 98% ceiling on all
      three values: the base is 100 and every jitter stays above 98. */
  lemma PerfectForecastShowsCeiling(scope: Scope, data: PerStore<seq<Row>>, selected: int, today: int,
                                    u1: real, u2: real, u3: real)
    requires 0.0 <= u1 < 1.0 && 0.0 <= u2 < 1.0 && 0.0 <= u3 < 1.0
    requires selected <= today
    requires |ScopeSamples(scope, data)| > 0
    requires AllPerfect(ScopeSamples(scope, data))
    ensures ForecastAccuracy(scope, data, selected, today, u1, u2, u3) == AccuracyTriple(98.0, 98.0, 98.0)
  {
    var xs := ScopeSamples(scope, data);
    PerfectSum(xs);
    var n := |xs| as real;
    MeanOfConstant(Sum(xs), 100.0, n);
    assert BaseAccuracy(xs) == 100.0;
    CeilingAfterJitter(0.5, u1);
    CeilingAfterJitter(0.3, u2);
    CeilingAfterJitter(0.2, u3);
  }

  lemma CeilingAfterJitter(width: real, u: real)
    requires 0.0 < width <= 0.5
    requires 0.0 <= u < 1.0
    ensures Jittered(100.0, width, u) == 98.0
  {
    assert UniformReal(-width, width, u) >= -width;
  }
}
