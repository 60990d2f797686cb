/** The cross-store table: London's label column, one traffic column per
    store, and their row-wise total. */
module Aggregation {
  import opened Basics
  import opened Generation

  datatype AggregateRow = AggregateRow(period: string, london: int, copenhagen: int, paris: int, total: int)

  predicate SameLength(data: PerStore<seq<Row>>)
  {
    |data.london| == |data.copenhagen| && |data.copenhagen| == |data.paris|
  }

  /** `calculate_aggregate_data`: the table has London's labels and row
      count, each store's predicted traffic in its own column and the sum of
      the three in the total column. Assigning a column of another length
      raises in the source, which the model reports as `None`. */
  function Aggregate(data: PerStore<seq<Row>>): (agg: Option<seq<AggregateRow>>)
    ensures agg.Some? <==> SameLength(data)
    ensures agg.Some? ==> |agg.value| == |data.london|
    ensures agg.Some? ==> forall i :: 0 <= i < |agg.value| ==>
      && agg.value[i].period == data.london[i].period
      && agg.value[i].london == data.london[i].predicted
      && agg.value[i].copenhagen == data.copenhagen[i].predicted
      && agg.value[i].paris == data.paris[i].predicted
      && agg.value[i].total == data.london[i].predicted + data.copenhagen[i].predicted + data.paris[i].predicted
  {
    if !SameLength(data) then None
    else
      Some(seq(|data.london|, i requires 0 <= i < |data.london| =>
        var l, c, p := data.london[i].predicted, data.copenhagen[i].predicted, data.paris[i].predicted;
        AggregateRow(data.london[i].period, l, c, p, l + c + p)))
  }
}

/** Total traffic, potential revenue and staffing efficiency for a scope,
    and the revenue impact of optimal staffing. */
module Kpis {
  import opened Basics
  import opened Generation
  import opened Fleet
  import opened Aggregation

  /** "All Stores (Aggregate)" or one store. */
  datatype Scope = AllStores | Single(store: Store)

  function SumPredicted(rows: seq<Row>): int
  {
    if |rows| == 0 then 0 else rows[0].predicted + SumPredicted(rows[1..])
  }

  function SumTotals(agg: seq<AggregateRow>): int
  {
    if |agg| == 0 then 0 else agg[0].total + SumTotals(agg[1..])
  }

  function FleetPredicted(data: PerStore<seq<Row>>): int
  {
    SumPredicted(data.london) + SumPredicted(data.copenhagen) + SumPredicted(data.paris)
  }

  lemma {:induction false} SumTotalsOfColumns(agg: seq<AggregateRow>, l: seq<Row>, c: seq<Row>, p: seq<Row>)
    requires |agg| == |l| == |c| == |p|
    requires forall i :: 0 <= i < |agg| ==> agg[i].total == l[i].predicted + c[i].predicted + p[i].predicted
    ensures SumTotals(agg) == SumPredicted(l) + SumPredicted(c) + SumPredicted(p)
    decreases |agg|
  {
    if |agg| > 0 {
      SumTotalsOfColumns(agg[1..], l[1..], c[1..], p[1..]);
    }
  }

  /** Aggregate sum: summing the table's total column gives the traffic of
      the three stores together. */
  lemma AggregateTotalIsFleetTraffic(data: PerStore<seq<Row>>)
    requires SameLength(data)
    ensures SumTotals(Aggregate(data).value) == FleetPredicted(data)
  {
    SumTotalsOfColumns(Aggregate(data).value, data.london, data.copenhagen, data.paris);
  }

  /** Total traffic of a scope: the aggregate table's total column for all
      stores, the store's own predicted traffic otherwise. */
  function TotalTraffic(scope: Scope, data: PerStore<seq<Row>>, agg: seq<AggregateRow>): int
  {
    match scope
    case AllStores => SumTotals(agg)
    case Single(s) => SumPredicted(data.Get(s))
  }

  /** `int(total * 0.20 * 931.25)`: 20% conversion at 931.25 kr a sale, i.e.
      186.25 kr a visit. */
  function Revenue(total: int): (r: int)
    ensures total >= 0 ==> 0 <= r && 4 * r <= 745 * total < 4 * r + 4
  {
    TruncDiv(745 * total, 4)
  }

  /** `day_names.index(row['Day'])` */
  function DayIndex(period: string): (k: Option<nat>)
    ensures k.Some? <==> period in DayNames
    ensures k.Some? ==> k.value < DayCount && DayNames[k.value] == period
  {
    if period == "Monday" then Some(0)
    else if period == "Tuesday" then Some(1)
    else if period == "Wednesday" then Some(2)
    else if period == "Thursday" then Some(3)
    else if period == "Friday" then Some(4)
    else if period == "Saturday" then Some(5)
    else if period == "Sunday" then Some(6)
    else None
  }

  /** The source looks a daily row's date up by its day name, and raises for
      any other label. */
  predicate Datable(mode: ViewMode, rows: seq<Row>)
  {
    mode == Daily ==> forall i :: 0 <= i < |rows| ==> rows[i].period in DayNames
  }

  /** The calendar date a row stands for: the selected date for an hourly
      row, the matching day of the selected date's Monday-to-Sunday week for
      a daily row. */
  function RowDate(mode: ViewMode, selected: int, period: string): (d: int)
    requires mode == Daily ==> period in DayNames
    ensures mode == Hourly ==> d == selected
    ensures mode == Daily ==> WeekStart(selected) <= d < WeekStart(selected) + 7
    ensures mode == Daily ==> DayNames[Weekday(d)] == period
  {
    match mode
    case Hourly => selected
    case Daily =>
      var k := DayIndex(period).value;
      var d := WeekStart(selected) + k;
      assert Weekday(d) == k by {
        assert (d - 1) % 7 == ((WeekStart(selected) - 1) + k) % 7;
      }
      d
  }

  /** Staffing a row realizes: the baseline on a day logged as legacy, the
      AI recommendation on a day logged as AI or not logged at all. */
  function RealizedStaff(row: Row, decision: Option<Decision>): (r: int)
    ensures decision == Some(UsedLegacy) ==> r == row.baseline
    ensures decision != Some(UsedLegacy) ==> r == row.ai
  {
    match decision
    case Some(UsedLegacy) => row.baseline
    case _ => row.ai
  }

  function Lookup(log: DayLog, day: int): (d: Option<Decision>)
    ensures d.Some? <==> day in log
    ensures d.Some? ==> d.value == log[day]
  {
    if day in log then Some(log[day]) else None
  }

  /** The realized staffing of a store's rows under its decision log. */
  function RealizedSum(rows: seq<Row>, log: DayLog, mode: ViewMode, selected: int): int
    requires Datable(mode, rows)
  {
    if |rows| == 0 then 0
    else
      RealizedStaff(rows[0], Lookup(log, RowDate(mode, selected, rows[0].period)))
        + RealizedSum(rows[1..], log, mode, selected)
  }

  /** `int(realized_fte / forecasted_fte * 100)`, or 100 when nothing is
      forecast. Both FTE figures divide the staffing sums by 50, which
      cancels. */
  function Efficiency(realized: int, forecast: int): (e: int)
    ensures forecast <= 0 ==> e == 100
    ensures forecast > 0 && realized >= 0 ==> 0 <= e && e * forecast <= 100 * realized < e * forecast + forecast
  {
    if forecast > 0 then TruncDiv(100 * realized, forecast) else 100
  }

  datatype KpiSet = KpiSet(totalTraffic: int, revenue: int, efficiency: int)

  predicate DatableAll(mode: ViewMode, data: PerStore<seq<Row>>)
  {
    Datable(mode, data.london) && Datable(mode, data.copenhagen) && Datable(mode, data.paris)
  }

  function FleetRealized(data: PerStore<seq<Row>>, history: PerStore<DayLog>, mode: ViewMode, selected: int): int
    requires DatableAll(mode, data)
  {
    RealizedSum(data.london, history.london, mode, selected)
      + RealizedSum(data.copenhagen, history.copenhagen, mode, selected)
      + RealizedSum(data.paris, history.paris, mode, selected)
  }

  /** The predicted traffic of a scope: the three stores' rows in turn, or
      the store's own rows. */
  function ScopeTraffic(scope: Scope, data: PerStore<seq<Row>>): int
  {
    match scope
    case AllStores => FleetPredicted(data)
    case Single(s) => SumPredicted(data.Get(s))
  }

  /** The realized staffing of a scope, pooled over the stores for all
      stores. */
  function ScopeRealized(scope: Scope, data: PerStore<seq<Row>>, history: PerStore<DayLog>, mode: ViewMode, selected: int): int
    requires DatableAll(mode, data)
  {
    match scope
    case AllStores => FleetRealized(data, history, mode, selected)
    case Single(s) =>
      assert Datable(mode, data.Get(s));
      RealizedSum(data.Get(s), history.Get(s), mode, selected)
  }

  /** `calculate_kpis(scope, stores_data, aggregate_data)` with the view
      mode, the selected date and the decision history as parameters. The
      total is read off the aggregate table for all stores, which is the
      three stores' traffic together; revenue is 186.25 kr a visit,
      truncated; efficiency is the realized staffing as a truncated
      percentage of the forecast traffic of the scope, pooled over the
      stores for all stores, and never above 93 when every row follows the
      AI. */
  function ComputeKpis(scope: Scope, data: PerStore<seq<Row>>, agg: seq<AggregateRow>,
                       history: PerStore<DayLog>, mode: ViewMode, selected: int): (k: KpiSet)
    requires DatableAll(mode, data)
    ensures scope.Single? ==> k.totalTraffic == ScopeTraffic(scope, data)
    ensures scope == AllStores && SameLength(data) && agg == Aggregate(data).value ==>
      k.totalTraffic == ScopeTraffic(scope, data)
    ensures k.totalTraffic >= 0 ==> 0 <= k.revenue && 4 * k.revenue <= 745 * k.totalTraffic < 4 * k.revenue + 4
    ensures ScopeTraffic(scope, data) <= 0 ==> k.efficiency == 100
    ensures var r, f := ScopeRealized(scope, data, history, mode, selected), ScopeTraffic(scope, data);
      f > 0 && r >= 0 ==> 0 <= k.efficiency && k.efficiency * f <= 100 * r < k.efficiency * f + f
    ensures ScopeFollowsAi(scope, data, history, mode, selected) && ScopeTraffic(scope, data) > 0 ==>
      k.efficiency <= 93
  {
    var total := TotalTraffic(scope, data, agg);
    var r, f := ScopeRealized(scope, data, history, mode, selected), ScopeTraffic(scope, data);
    var efficiency := Efficiency(r, f);
    assert scope == AllStores && SameLength(data) && agg == Aggregate(data).value ==> total == f by {
      if scope == AllStores && SameLength(data) && agg == Aggregate(data).value {
        AggregateTotalIsFleetTraffic(data);
      }
    }
    assert ScopeFollowsAi(scope, data, history, mode, selected) && f > 0 ==> efficiency <= 93 by {
      if ScopeFollowsAi(scope, data, history, mode, selected) && f > 0 {
        ScopeAdoptionAtMost93(scope, data, history, mode, selected);
      }
    }
    KpiSet(total, Revenue(total), efficiency)
  }

  /** For all stores, the total traffic read off the aggregate table is the
      sum of the three stores' traffic, and so is the revenue's basis. */
  lemma FleetKpiTotals(data: PerStore<seq<Row>>, history: PerStore<DayLog>, mode: ViewMode, selected: int)
    requires SameLength(data)
    requires DatableAll(mode, data)
    ensures var k := ComputeKpis(AllStores, data, Aggregate(data).value, history, mode, selected);
      k.totalTraffic == SumPredicted(data.london) + SumPredicted(data.copenhagen) + SumPredicted(data.paris)
  {
    AggregateTotalIsFleetTraffic(data);
  }

  // ---------------------------------------------------------------------
  // Efficiency properties
  // ---------------------------------------------------------------------

  /** No row of the series falls on a day logged as legacy. */
  predicate NoLegacyDay(rows: seq<Row>, log: DayLog, mode: ViewMode, selected: int)
    requires Datable(mode, rows)
  {
    forall i :: 0 <= i < |rows| ==> Lookup(log, RowDate(mode, selected, rows[i].period)) != Some(UsedLegacy)
  }

  /** When every row follows the AI, the realized staffing is at most 93% of
      the forecast traffic. */
  lemma {:induction false} FollowingAiRealizes93(rows: seq<Row>, log: DayLog, mode: ViewMode, selected: int)
    requires Datable(mode, rows)
    requires AiConsistent(rows)
    requires NonNegative(rows)
    requires NoLegacyDay(rows, log, mode, selected)
    ensures 0 <= RealizedSum(rows, log, mode, selected)
    ensures 100 * RealizedSum(rows, log, mode, selected) <= 93 * SumPredicted(rows)
    decreases |rows|
  {
    if |rows| > 0 {
      var tail := rows[1..];
      assert Datable(mode, tail) && AiConsistent(tail) && NonNegative(tail) by {
        forall i | 0 <= i < |tail| ensures tail[i] == rows[i + 1] { }
      }
      assert NoLegacyDay(tail, log, mode, selected) by {
        forall i | 0 <= i < |tail| ensures tail[i] == rows[i + 1] { }
      }
      FollowingAiRealizes93(tail, log, mode, selected);
      assert rows[0].ai == AiStaffing(rows[0].predicted);
    }
  }

  /** Full AI adoption never shows 100% efficiency while there is traffic:
      the realized figure uses the 0.93 AI staffing and the forecast uses the
      raw traffic, so the ratio stays at or below 93. */
  lemma FullAdoptionEfficiencyAtMost93(rows: seq<Row>, log: DayLog, mode: ViewMode, selected: int)
    requires Datable(mode, rows)
    requires AiConsistent(rows)
    requires NonNegative(rows)
    requires NoLegacyDay(rows, log, mode, selected)
    ensures SumPredicted(rows) > 0 ==> Efficiency(RealizedSum(rows, log, mode, selected), SumPredicted(rows)) <= 93
    ensures SumPredicted(rows) <= 0 ==> Efficiency(RealizedSum(rows, log, mode, selected), SumPredicted(rows)) == 100
  {
    FollowingAiRealizes93(rows, log, mode, selected);
    var r, f := RealizedSum(rows, log, mode, selected), SumPredicted(rows);
    if f > 0 {
      EfficiencyAtMost93(r, f);
    }
  }

  lemma EfficiencyAtMost93(r: int, f: int)
    requires f > 0 && r >= 0
    requires 100 * r <= 93 * f
    ensures Efficiency(r, f) <= 93
  {
    var e := Efficiency(r, f);
    CancelFactor(e, 94, f);
  }

  /** Every row of a store's series follows the AI: generated rows (AI
      staffing consistent, traffic non-negative) with no legacy decision on
      their dates. */
  predicate FollowsAi(rows: seq<Row>, log: DayLog, mode: ViewMode, selected: int)
    requires Datable(mode, rows)
  {
    AiConsistent(rows) && NonNegative(rows) && NoLegacyDay(rows, log, mode, selected)
  }

  predicate ScopeFollowsAi(scope: Scope, data: PerStore<seq<Row>>, history: PerStore<DayLog>, mode: ViewMode, selected: int)
    requires DatableAll(mode, data)
  {
    match scope
    case AllStores =>
      && FollowsAi(data.london, history.london, mode, selected)
      && FollowsAi(data.copenhagen, history.copenhagen, mode, selected)
      && FollowsAi(data.paris, history.paris, mode, selected)
    case Single(s) =>
      assert Datable(mode, data.Get(s));
      FollowsAi(data.Get(s), history.Get(s), mode, selected)
  }

  /** Full adoption caps the efficiency card at 93 for one store and, pooled,
      for all stores. */
  lemma ScopeAdoptionAtMost93(scope: Scope, data: PerStore<seq<Row>>, history: PerStore<DayLog>, mode: ViewMode, selected: int)
    requires DatableAll(mode, data)
    requires ScopeFollowsAi(scope, data, history, mode, selected)
    ensures ScopeTraffic(scope, data) > 0 ==>
      Efficiency(ScopeRealized(scope, data, history, mode, selected), ScopeTraffic(scope, data)) <= 93
  {
    match scope
    case AllStores =>
      FollowingAiRealizes93(data.london, history.london, mode, selected);
      FollowingAiRealizes93(data.copenhagen, history.copenhagen, mode, selected);
      FollowingAiRealizes93(data.paris, history.paris, mode, selected);
      if FleetPredicted(data) > 0 {
        EfficiencyAtMost93(FleetRealized(data, history, mode, selected), FleetPredicted(data));
      }
    case Single(s) =>
      assert Datable(mode, data.Get(s));
      FullAdoptionEfficiencyAtMost93(data.Get(s), history.Get(s), mode, selected);
  }

  /** Pooling: the all-stores efficiency lies between the lowest and highest
      per-store efficiency, because the pooled ratio is a mediant of the
      per-store ratios (it is not their average). */
  lemma PooledEfficiencyBetweenStores(r: PerStore<int>, f: PerStore<int>)
    requires forall s: Store :: f.Get(s) > 0 && r.Get(s) >= 0
    ensures
      var eL, eC, eP := Efficiency(r.london, f.london), Efficiency(r.copenhagen, f.copenhagen), Efficiency(r.paris, f.paris);
      var pooled := Efficiency(r.london + r.copenhagen + r.paris, f.london + f.copenhagen + f.paris);
      && (pooled >= eL || pooled >= eC || pooled >= eP)
      && (pooled <= eL || pooled <= eC || pooled <= eP)
  {
    assert f.Get(London) > 0 && f.Get(Copenhagen) > 0 && f.Get(Paris) > 0;
    assert r.Get(London) >= 0 && r.Get(Copenhagen) >= 0 && r.Get(Paris) >= 0;
    Mediant(r.london, r.copenhagen, r.paris, f.london, f.copenhagen, f.paris);
  }

  lemma Mediant(r1: int, r2: int, r3: int, f1: int, f2: int, f3: int)
    requires f1 > 0 && f2 > 0 && f3 > 0
    requires r1 >= 0 && r2 >= 0 && r3 >= 0
    ensures
      var e1, e2, e3 := Efficiency(r1, f1), Efficiency(r2, f2), Efficiency(r3, f3);
      var pooled := Efficiency(r1 + r2 + r3, f1 + f2 + f3);
      && (pooled >= e1 || pooled >= e2 || pooled >= e3)
      && (pooled <= e1 || pooled <= e2 || pooled <= e3)
  {
    var e1, e2, e3 := Efficiency(r1, f1), Efficiency(r2, f2), Efficiency(r3, f3);
    var F := f1 + f2 + f3;
    var pooled := Efficiency(r1 + r2 + r3, F);
    var lo := Min3(e1, e2, e3);
    var hi := Max3(e1, e2, e3);
    SumBelow(lo, e1, e2, e3, f1, f2, f3, 100 * r1, 100 * r2, 100 * r3);
    SumAbove(hi, e1, e2, e3, f1, f2, f3, 100 * r1, 100 * r2, 100 * r3);
    assert 100 * (r1 + r2 + r3) == 100 * r1 + 100 * r2 + 100 * r3;
    SuccTimes(pooled, F);
    CancelFactor(lo, pooled + 1, F);
    SuccTimes(hi, F);
    CancelFactor(pooled, hi + 1, F);
  }

  function Min3(a: int, b: int, c: int): (m: int)
    ensures m <= a && m <= b && m <= c
    ensures m == a || m == b || m == c
  {
    if a <= b && a <= c then a else if b <= c then b else c
  }

  function Max3(a: int, b: int, c: int): (m: int)
    ensures m >= a && m >= b && m >= c
    ensures m == a || m == b || m == c
  {
    if a >= b && a >= c then a else if b >= c then b else c
  }

  lemma MulMono(a: int, b: int, c: int)
    requires a <= b
    requires c >= 0
    ensures a * c <= b * c
  {
    assert b * c - a * c == (b - a) * c;
  }

  lemma SuccTimes(a: int, c: int)
    ensures (a + 1) * c == a * c + c
  {
  }

  /** A strict inequality between multiples of a positive factor holds
      between the multiplicands. */
  lemma CancelFactor(a: int, b: int, c: int)
    requires c > 0
    ensures a * c < b * c ==> a < b
  {
    if a >= b {
      MulMono(b, a, c);
    }
  }

  /** Three ratios x_i / f_i all at least `lo` sum to a ratio at least `lo`. */
  lemma SumBelow(lo: int, e1: int, e2: int, e3: int, f1: int, f2: int, f3: int, x1: int, x2: int, x3: int)
    requires lo <= e1 && lo <= e2 && lo <= e3
    requires f1 >= 0 && f2 >= 0 && f3 >= 0
    requires e1 * f1 <= x1 && e2 * f2 <= x2 && e3 * f3 <= x3
    ensures lo * (f1 + f2 + f3) <= x1 + x2 + x3
  {
    MulMono(lo, e1, f1);
    MulMono(lo, e2, f2);
    MulMono(lo, e3, f3);
    assert lo * (f1 + f2 + f3) == lo * f1 + lo * f2 + lo * f3;
  }

  /** Three ratios x_i / f_i all below `hi + 1` sum to a ratio below `hi + 1`. */
  lemma SumAbove(hi: int, e1: int, e2: int, e3: int, f1: int, f2: int, f3: int, x1: int, x2: int, x3: int)
    requires e1 <= hi && e2 <= hi && e3 <= hi
    requires f1 >= 0 && f2 >= 0 && f3 >= 0
    requires x1 < e1 * f1 + f1 && x2 < e2 * f2 + f2 && x3 < e3 * f3 + f3
    ensures x1 + x2 + x3 < hi * (f1 + f2 + f3) + (f1 + f2 + f3)
  {
    MulMono(e1, hi, f1);
    MulMono(e2, hi, f2);
    MulMono(e3, hi, f3);
    assert hi * (f1 + f2 + f3) == hi * f1 + hi * f2 + hi * f3;
  }

  // ---------------------------------------------------------------------
  // Revenue impact
  // ---------------------------------------------------------------------

  /** `int(total * 0.05 * 0.20 * 931.25)`: a 5% conversion improvement on
      the 186.25 kr a visit, i.e. 9.3125 kr a visit. */
  function RevenueImpact(total: int): (r: int)
    ensures total >= 0 ==> 0 <= r && 16 * r <= 149 * total < 16 * r + 16
  {
    TruncDiv(149 * total, 16)
  }

  /** The impact figure shown per day: the whole impact for an hourly (one
      day) view, a seventh of it, floored, for a daily (one week) view. */
  function ImpactPerDay(mode: ViewMode, impact: int): (d: int)
    ensures mode == Hourly ==> d == impact
    ensures mode == Daily ==> 7 * d <= impact < 7 * d + 7
  {
    match mode
    case Hourly => impact
    case Daily => impact / 7
  }

  /** The weekly impact is shown only for a daily view. */
  function ImpactPerWeek(mode: ViewMode, impact: int): (w: Option<int>)
    ensures w.Some? <==> mode == Daily
    ensures w.Some? ==> w.value == impact
  {
    match mode
    case Hourly => None
    case Daily => Some(impact)
  }

  /** The revenue impact is the potential revenue scaled by the 5%
      improvement: exactly a twentieth of it, floored. */
  lemma ImpactIsTwentiethOfRevenue(total: int)
    requires total >= 0
    ensures RevenueImpact(total) == Revenue(total) / 20
  {
    var x := 745 * total;
    var q := Revenue(total);
    var i := RevenueImpact(total);
    assert 4 * q <= x < 4 * q + 4;
    assert 80 * i <= x < 80 * i + 80;
    var d := q / 20;
    assert 20 * d <= q < 20 * d + 20;
    assert 80 * d <= x < 80 * d + 80;
  }
}
