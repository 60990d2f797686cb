/** One render of the dashboard: generate the three stores' series, apply
    the session's adjustments, aggregate, and derive the KPI cards, the
    revenue impact, the accuracy triple and the adoption figures. */
module Dashboard {
  import opened Basics
  import opened Generation
  import opened Fleet
  import opened Adjustment
  import opened Aggregation
  import opened Kpis
  import opened Accuracy
  import opened Session
  import opened History

  datatype Screen = Screen(
    data: PerStore<seq<Row>>,
    aggregate: seq<AggregateRow>,
    kpis: KpiSet,
    impactPerDay: int,
    impactPerWeek: Option<int>,
    accuracy: AccuracyTriple,
    adoption: AdoptionRates)

  lemma {:induction false} SumPredictedNonNegative(rows: seq<Row>)
    requires NonNegative(rows)
    ensures SumPredicted(rows) >= 0
    decreases |rows|
  {
    if |rows| > 0 {
      assert NonNegative(rows[1..]) by {
        forall i | 0 <= i < |rows| - 1 ensures rows[1..][i] == rows[i + 1] { }
      }
      SumPredictedNonNegative(rows[1..]);
    }
  }

  lemma FleetTrafficNonNegative(data: PerStore<seq<Row>>)
    requires forall s: Store :: NonNegative(data.Get(s))
    ensures FleetPredicted(data) >= 0
    ensures forall s: Store :: SumPredicted(data.Get(s)) >= 0
  {
    forall s: Store ensures SumPredicted(data.Get(s)) >= 0 {
      SumPredictedNonNegative(data.Get(s));
    }
    assert SumPredicted(data.Get(London)) >= 0;
    assert SumPredicted(data.Get(Copenhagen)) >= 0;
    assert SumPredicted(data.Get(Paris)) >= 0;
  }

  /** The series the dashboard shows: generated, then adjusted. They keep
      the view's labels in order, non-negative predictions and consistent AI
      staffing. */
  function ShownSeries(st: SessionState, selected: int, now: Clock, streams: PerStore<seq<real>>): (data: PerStore<seq<Row>>)
    requires WellFormed(st)
    requires ValidStreams(st.mode, streams)
    ensures forall s: Store :: Labels(data.Get(s)) == ModeLabels(st.mode)
    ensures forall s: Store :: NonNegative(data.Get(s)) && AiConsistent(data.Get(s))
  {
    var generated := GenerateAll(st.mode, selected, now, streams);
    var data := ApplyAdjustments(generated, st.adjustments);
    assert forall s: Store :: NonNegative(data.Get(s)) by {
      forall s: Store ensures NonNegative(data.Get(s)) {
        WellFormedPercentages(st, s);
        AdjustmentKeepsTrafficNonNegative(generated.Get(s), st.adjustments.Get(s));
      }
    }
    data
  }

  /** Series with the view's labels and non-negative traffic can be
      tabulated: they have equal lengths, their daily labels are day names,
      and every traffic sum is non-negative. */
  lemma ShownSeriesTabulate(data: PerStore<seq<Row>>, mode: ViewMode)
    requires forall s: Store :: Labels(data.Get(s)) == ModeLabels(mode) && NonNegative(data.Get(s))
    ensures SameLength(data)
    ensures DatableAll(mode, data)
    ensures |Aggregate(data).value| == BucketCount(mode)
    ensures forall scope :: ScopeTraffic(scope, data) >= 0
  {
    assert Labels(data.Get(London)) == Labels(data.Get(Copenhagen)) == Labels(data.Get(Paris)) == ModeLabels(mode);
    forall s: Store ensures Datable(mode, data.Get(s)) {
      if mode == Daily {
        forall i | 0 <= i < |data.Get(s)| ensures data.Get(s)[i].period in DayNames {
          assert data.Get(s)[i].period == Labels(data.Get(s))[i];
        }
      }
    }
    assert Datable(mode, data.Get(London)) && Datable(mode, data.Get(Copenhagen)) && Datable(mode, data.Get(Paris));
    FleetTrafficNonNegative(data);
  }

  /** One render for a scope, a selected date and "now", with the stores'
      draw streams and the three accuracy draws as parameters. The
      aggregation cannot fail on the shown series, the KPI card's total
      traffic is the traffic the revenue-impact box uses, the accuracy
      shows "N/A" exactly for a date after today, and the adoption figures
      are percentages with "Today" at 100 exactly when today's decision
      follows the AI. */
  function Render(st: SessionState, history: PerStore<DayLog>, scope: Scope, selected: int, now: Clock,
                  streams: PerStore<seq<real>>, u1: real, u2: real, u3: real): (v: Screen)
    requires WellFormed(st)
    requires ValidStreams(st.mode, streams)
    requires 0.0 <= u1 < 1.0 && 0.0 <= u2 < 1.0 && 0.0 <= u3 < 1.0
    ensures forall s: Store :: Labels(v.data.Get(s)) == ModeLabels(st.mode)
    ensures Aggregate(v.data) == Some(v.aggregate)
    ensures |v.aggregate| == BucketCount(st.mode)
    ensures v.kpis.totalTraffic == ScopeTraffic(scope, v.data)
    ensures v.kpis.totalTraffic >= 0 && v.kpis.revenue >= 0
    ensures v.impactPerDay >= 0
    ensures v.impactPerWeek.Some? <==> st.mode == Daily
    ensures ShowsNotAvailable(v.accuracy.today) <==> selected > now.today
    ensures scope == AllStores ==> v.adoption == AdoptionRates(85.0, 81.7, 83.3)
    ensures scope.Single? ==>
      && (v.adoption.today == 100.0 <==> Lookup(history.Get(scope.store), now.today) == Some(FollowedAi))
      && 0.0 <= v.adoption.threeDays <= 100.0
      && 0.0 <= v.adoption.week <= 100.0
  {
    var data := ShownSeries(st, selected, now, streams);
    ShownSeriesTabulate(data, st.mode);
    var agg := Aggregate(data).value;
    var kpis := ComputeKpis(scope, data, agg, history, st.mode, selected);
    var impact := RevenueImpact(ScopeTraffic(scope, data));
    Screen(
      data, agg, kpis,
      ImpactPerDay(st.mode, impact), ImpactPerWeek(st.mode, impact),
      ForecastAccuracy(scope, data, selected, now.today, u1, u2, u3),
      Adoptions(scope, history, now.today))
  }

  /** The revenue impact the screen shows for a week is a twentieth of the
      potential revenue on the KPI card, and the per-day figure a seventh of
      that. */
  lemma ImpactMatchesRevenueCard(st: SessionState, history: PerStore<DayLog>, scope: Scope, selected: int, now: Clock,
                                 streams: PerStore<seq<real>>, u1: real, u2: real, u3: real)
    requires WellFormed(st)
    requires ValidStreams(st.mode, streams)
    requires 0.0 <= u1 < 1.0 && 0.0 <= u2 < 1.0 && 0.0 <= u3 < 1.0
    requires st.mode == Daily
    ensures var v := Render(st, history, scope, selected, now, streams, u1, u2, u3);
      && v.impactPerWeek == Some(v.kpis.revenue / 20)
      && 7 * v.impactPerDay <= v.kpis.revenue / 20 < 7 * v.impactPerDay + 7
  {
    var v := Render(st, history, scope, selected, now, streams, u1, u2, u3);
    ImpactIsTwentiethOfRevenue(v.kpis.totalTraffic);
  }
}
