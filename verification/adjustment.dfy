/** Manual traffic adjustments: a per-store map from bucket label to a
    percentage, applied to a freshly generated series. */
module Adjustment {
  import opened Basics
  import opened Generation

  /** `int(value * (1 + pct / 100))` on a non-negative traffic figure. */
  function AdjustedTraffic(v: int, pct: int): (r: int)
    ensures v >= 0 && pct >= -100 ==> 0 <= r
    ensures v >= 0 && pct >= -100 ==> 100 * r <= v * (100 + pct) < 100 * r + 100
  {
    var scaled := v * (100 + pct);
    assert v >= 0 && pct >= -100 ==> scaled >= 0;
    TruncDiv(scaled, 100)
  }

  /** The row the source's `.values[0]` reads: the first one carrying `period`. */
  function FirstMatch(rows: seq<Row>, period: string): (r: Option<nat>)
    ensures r.Some? ==> r.value < |rows| && rows[r.value].period == period
    ensures r.Some? ==> forall j :: 0 <= j < r.value ==> rows[j].period != period
    ensures r.None? <==> forall j :: 0 <= j < |rows| ==> rows[j].period != period
  {
    if |rows| == 0 then None
    else if rows[0].period == period then Some(0)
    else match FirstMatch(rows[1..], period)
      case None => None
      case Some(k) => Some(k + 1)
  }

  /** Two series with the same labels have their first matches at the same rows. */
  lemma FirstMatchFollowsLabels(a: seq<Row>, b: seq<Row>, period: string)
    requires Labels(a) == Labels(b)
    ensures FirstMatch(a, period) == FirstMatch(b, period)
  {
    var fa, fb := FirstMatch(a, period), FirstMatch(b, period);
    assert |a| == |Labels(a)| == |Labels(b)| == |b|;
    assert forall j :: 0 <= j < |a| ==> a[j].period == Labels(a)[j] == Labels(b)[j] == b[j].period;
  }

  /** A row rewritten by an adjustment: new traffic from `from`, AI staffing
      recomputed from the new traffic; label, actual and baseline kept. */
  function AdjustRow(row: Row, from: int, pct: int): (r: Row)
    ensures r.period == row.period && r.actual == row.actual && r.baseline == row.baseline
    ensures r.predicted == AdjustedTraffic(from, pct)
    ensures r.ai == AiStaffing(r.predicted)
  {
    var adjusted := AdjustedTraffic(from, pct);
    row.(predicted := adjusted, ai := AiStaffing(adjusted))
  }

  /** One iteration of the source's loop over a store's adjustments: when
      some row carries the label, every row carrying it gets the value
      adjusted from the first such row; otherwise the frame is unchanged. */
  function ApplyEntry(rows: seq<Row>, period: string, pct: int): (r: seq<Row>)
    ensures |r| == |rows|
    ensures Labels(r) == Labels(rows)
    ensures forall j :: 0 <= j < |rows| && rows[j].period != period ==> r[j] == rows[j]
  {
    match FirstMatch(rows, period)
    case None => rows
    case Some(k) =>
      var r := seq(|rows|, j requires 0 <= j < |rows| =>
        if rows[j].period == period then AdjustRow(rows[j], rows[k].predicted, pct) else rows[j]);
      assert forall j :: 0 <= j < |rows| ==> r[j].period == rows[j].period;
      r
  }

  /** The source's loop: entries applied one after another, each reading the
      frame the earlier ones produced. */
  function ApplySequential(rows: seq<Row>, entries: seq<(string, int)>): seq<Row>
    decreases |entries|
  {
    if |entries| == 0 then rows
    else ApplySequential(ApplyEntry(rows, entries[0].0, entries[0].1), entries[1..])
  }

  /** The adjustment map as a whole, stated row by row: a row whose label has
      an entry is rewritten from the first row carrying that label; every
      other row is left as it is. Entries whose label is on no row have no
      effect. */
  function ApplyToSeries(rows: seq<Row>, adj: map<string, int>): (r: seq<Row>)
    ensures |r| == |rows|
    ensures Labels(r) == Labels(rows)
    ensures forall j :: 0 <= j < |rows| ==>
      r[j].actual == rows[j].actual && r[j].baseline == rows[j].baseline
    ensures forall j :: 0 <= j < |rows| && rows[j].period !in adj ==> r[j] == rows[j]
    ensures AiConsistent(rows) ==> AiConsistent(r)
  {
    var r := seq(|rows|, j requires 0 <= j < |rows| =>
      var period := rows[j].period;
      if period in adj then
        match FirstMatch(rows, period)
        case Some(k) => AdjustRow(rows[j], rows[k].predicted, adj[period])
        case None => rows[j]
      else rows[j]);
    assert forall j :: 0 <= j < |rows| ==> r[j].period == rows[j].period;
    r
  }

  /** The adjustment effect on a series whose labels are distinct (every
      generated series): the row carrying an adjusted label gets its own
      traffic scaled by the percentage and its AI staffing recomputed; all
      other fields and rows are unchanged. */
  lemma AdjustmentEffect(rows: seq<Row>, adj: map<string, int>, j: int)
    requires Distinct(Labels(rows))
    requires 0 <= j < |rows|
    ensures var r := ApplyToSeries(rows, adj);
      && r[j].period == rows[j].period
      && r[j].actual == rows[j].actual
      && r[j].baseline == rows[j].baseline
      && (rows[j].period in adj ==>
            r[j].predicted == AdjustedTraffic(rows[j].predicted, adj[rows[j].period])
            && r[j].ai == AiStaffing(r[j].predicted))
      && (rows[j].period !in adj ==> r[j] == rows[j])
  {
    assert FirstMatch(rows, rows[j].period).Some?;
  }

  /** Percentages of at least -100% keep every prediction non-negative. */
  lemma AdjustmentKeepsTrafficNonNegative(rows: seq<Row>, adj: map<string, int>)
    requires NonNegative(rows)
    requires forall p :: p in adj ==> adj[p] >= -100
    ensures NonNegative(ApplyToSeries(rows, adj))
  {
    var r := ApplyToSeries(rows, adj);
    forall j | 0 <= j < |rows| ensures r[j].predicted >= 0 {
      var period := rows[j].period;
      if period in adj {
        match FirstMatch(rows, period)
        case Some(k) =>
          assert r[j].predicted == AdjustedTraffic(rows[k].predicted, adj[period]);
        case None =>
      }
    }
  }

  /** Entries whose label matches no row (stale labels from the other
      granularity) can be dropped without changing the result. */
  lemma StaleEntriesIgnored(rows: seq<Row>, adj: map<string, int>)
    ensures ApplyToSeries(rows, adj)
         == ApplyToSeries(rows, map p | p in adj && p in Labels(rows) :: adj[p])
  {
    var live := map p | p in adj && p in Labels(rows) :: adj[p];
    var a, b := ApplyToSeries(rows, adj), ApplyToSeries(rows, live);
    forall j | 0 <= j < |rows| ensures a[j] == b[j] {
      assert rows[j].period == Labels(rows)[j];
    }
  }

  /** The map that a list of distinct-label entries spells. */
  function MapOf(entries: seq<(string, int)>): (m: map<string, int>)
    ensures forall p :: p in m <==> exists i :: 0 <= i < |entries| && entries[i].0 == p
  {
    if |entries| == 0 then map[]
    else
      var m := MapOf(entries[1..])[entries[0].0 := entries[0].1];
      assert forall i :: 1 <= i < |entries| ==> entries[i] == entries[1..][i - 1];
      m
  }

  predicate DistinctKeys(entries: seq<(string, int)>)
  {
    forall i, j :: 0 <= i < j < |entries| ==> entries[i].0 != entries[j].0
  }

  /** One entry followed by the rest of the map is the map with that entry
      added, when the rest does not mention the entry's label. */
  lemma EntryThenMap(rows: seq<Row>, period: string, pct: int, rest: map<string, int>)
    requires period !in rest
    ensures ApplyToSeries(ApplyEntry(rows, period, pct), rest) == ApplyToSeries(rows, rest[period := pct])
  {
    var e := ApplyEntry(rows, period, pct);
    var a, b := ApplyToSeries(e, rest), ApplyToSeries(rows, rest[period := pct]);
    forall j | 0 <= j < |rows| ensures a[j] == b[j] {
      var lbl := rows[j].period;
      assert e[j].period == Labels(e)[j] == Labels(rows)[j] == lbl;
      if lbl == period {
        assert FirstMatch(rows, period).Some?;
      } else if lbl in rest {
        FirstMatchFollowsLabels(e, rows, lbl);
        var k := FirstMatch(rows, lbl).value;
        assert e[k].period == Labels(e)[k] == Labels(rows)[k] == lbl;
      }
    }
  }

  /** The source walks a store's adjustment dictionary in its insertion order;
      since its keys are distinct, any order gives the order-free result. */
  lemma {:induction false} SequentialIsOrderFree(rows: seq<Row>, entries: seq<(string, int)>)
    requires DistinctKeys(entries)
    ensures ApplySequential(rows, entries) == ApplyToSeries(rows, MapOf(entries))
    decreases |entries|
  {
    if |entries| == 0 {
      var r := ApplyToSeries(rows, map[]);
      assert forall j :: 0 <= j < |rows| ==> r[j] == rows[j];
    } else {
      var rest := entries[1..];
      assert DistinctKeys(rest) by {
        forall i, j | 0 <= i < j < |rest| ensures rest[i].0 != rest[j].0 {
          assert rest[i] == entries[i + 1] && rest[j] == entries[j + 1];
        }
      }
      assert entries[0].0 !in MapOf(rest);
      var e := ApplyEntry(rows, entries[0].0, entries[0].1);
      SequentialIsOrderFree(e, rest);
      EntryThenMap(rows, entries[0].0, entries[0].1, MapOf(rest));
    }
  }

  /** `apply_traffic_adjustments(stores_data, adjustments_dict)`: each store's
      series is rewritten by that store's own map and no other. */
  function ApplyAdjustments(data: PerStore<seq<Row>>, adj: PerStore<map<string, int>>): (r: PerStore<seq<Row>>)
    ensures forall s: Store :: r.Get(s) == ApplyToSeries(data.Get(s), adj.Get(s))
    ensures forall s: Store :: Labels(r.Get(s)) == Labels(data.Get(s))
    ensures forall s: Store :: AiConsistent(data.Get(s)) ==> AiConsistent(r.Get(s))
  {
    PerStore(
      ApplyToSeries(data.london, adj.london),
      ApplyToSeries(data.copenhagen, adj.copenhagen),
      ApplyToSeries(data.paris, adj.paris))
  }

  /** The example of an adjustment: +20% on a predicted 150 gives 180, with
      AI staffing 167. */
  lemma AdjustmentExample()
    ensures AdjustedTraffic(150, 20) == 180
    ensures AiStaffing(AdjustedTraffic(150, 20)) == 167
  {
  }
}
