/** Session state of the adjustment tool: one map per store from bucket
    label to a non-zero slider percentage, and the view mode whose switch
    clears every map. */
module Session {
  import opened Basics
  import opened Generation
  import opened Fleet
  import opened Adjustment

  type AdjustmentMap = map<string, int>

  datatype SessionState = SessionState(mode: ViewMode, adjustments: PerStore<AdjustmentMap>)

  const NoAdjustments: PerStore<AdjustmentMap> := Uniform(map[])

  /** The state a fresh session starts in: hourly view, no adjustments. */
  const InitialSession: SessionState := SessionState(Hourly, NoAdjustments)

  /** A value the "Adjust Traffic (%)" slider can produce: -50 .. 50 in
      steps of 5. */
  predicate SliderValue(pct: int)
  {
    -50 <= pct <= 50 && pct % 5 == 0
  }

  /** Every stored entry names a bucket of the current view and holds a
      non-zero slider value. */
  predicate WellFormed(st: SessionState)
  {
    forall s: Store, p :: p in st.adjustments.Get(s) ==>
      p in ModeLabels(st.mode) && SliderValue(st.adjustments.Get(s)[p]) && st.adjustments.Get(s)[p] != 0
  }

  /** The "Apply" button for `store` and the selected bucket: a non-zero
      percentage is stored under the bucket (replacing any earlier one); a
      zero percentage removes the bucket's entry if there is one. */
  function ApplyButton(st: SessionState, store: Store, period: string, pct: int): (r: SessionState)
    ensures r.mode == st.mode
    ensures forall o: Store :: o != store ==> r.adjustments.Get(o) == st.adjustments.Get(o)
    ensures pct != 0 ==> period in r.adjustments.Get(store) && r.adjustments.Get(store)[period] == pct
    ensures pct == 0 ==> period !in r.adjustments.Get(store)
    ensures forall p :: p != period ==>
      (p in r.adjustments.Get(store) <==> p in st.adjustments.Get(store))
      && (p in r.adjustments.Get(store) ==> r.adjustments.Get(store)[p] == st.adjustments.Get(store)[p])
  {
    var m := st.adjustments.Get(store);
    var m' := if pct != 0 then m[period := pct] else m - {period};
    st.(adjustments := st.adjustments.Set(store, m'))
  }

  /** The "Reset All" button for `store`: its map is emptied, the others
      are kept. */
  function ResetAll(st: SessionState, store: Store): (r: SessionState)
    ensures r.mode == st.mode
    ensures r.adjustments.Get(store) == map[]
    ensures forall o: Store :: o != store ==> r.adjustments.Get(o) == st.adjustments.Get(o)
  {
    st.(adjustments := st.adjustments.Set(store, map[]))
  }

  /** The view-mode radio button: choosing the other mode switches to it and
      clears the maps of all three stores; choosing the current mode changes
      nothing. */
  function SwitchView(st: SessionState, mode: ViewMode): (r: SessionState)
    ensures r.mode == mode
    ensures mode != st.mode ==> forall s: Store :: r.adjustments.Get(s) == map[]
    ensures mode == st.mode ==> r == st
  {
    if mode != st.mode then SessionState(mode, NoAdjustments) else st
  }

  // ---------------------------------------------------------------------
  // Transition properties
  // ---------------------------------------------------------------------

  lemma InitialWellFormed()
    ensures WellFormed(InitialSession)
  {
  }

  /** The tool only offers the current view's buckets and slider values, so
      every transition keeps the state well formed. */
  lemma ApplyButtonPreservesWellFormed(st: SessionState, store: Store, period: string, pct: int)
    requires WellFormed(st)
    requires period in ModeLabels(st.mode)
    requires SliderValue(pct)
    ensures WellFormed(ApplyButton(st, store, period, pct))
  {
    var r := ApplyButton(st, store, period, pct);
    forall s: Store, p | p in r.adjustments.Get(s)
      ensures p in ModeLabels(r.mode) && SliderValue(r.adjustments.Get(s)[p]) && r.adjustments.Get(s)[p] != 0
    {
      if s != store || p != period {
        assert p in st.adjustments.Get(s);
      }
    }
  }

  lemma ResetAllPreservesWellFormed(st: SessionState, store: Store)
    requires WellFormed(st)
    ensures WellFormed(ResetAll(st, store))
  {
    var r := ResetAll(st, store);
    forall s: Store, p | p in r.adjustments.Get(s)
      ensures p in ModeLabels(r.mode) && SliderValue(r.adjustments.Get(s)[p]) && r.adjustments.Get(s)[p] != 0
    {
      assert s != store;
      assert p in st.adjustments.Get(s);
    }
  }

  lemma SwitchViewPreservesWellFormed(st: SessionState, mode: ViewMode)
    requires WellFormed(st)
    ensures WellFormed(SwitchView(st, mode))
  {
  }

  /** A well-formed map holds no percentage below -50. */
  lemma WellFormedPercentages(st: SessionState, s: Store)
    requires WellFormed(st)
    ensures forall p :: p in st.adjustments.Get(s) ==> st.adjustments.Get(s)[p] >= -50
  {
    var m := st.adjustments.Get(s);
    forall p | p in m ensures m[p] >= -50 {
      assert p in ModeLabels(st.mode) && SliderValue(m[p]);
    }
  }

  /** Setting a bucket that had no entry and then applying 0 to it restores
      the state exactly. */
  lemma SetThenZeroRestores(st: SessionState, store: Store, period: string, pct: int)
    requires period !in st.adjustments.Get(store)
    ensures ApplyButton(ApplyButton(st, store, period, pct), store, period, 0) == st
  {
    var m := st.adjustments.Get(store);
    var r := ApplyButton(ApplyButton(st, store, period, pct), store, period, 0);
    assert r.adjustments.Get(store) == m;
    assert r.adjustments == st.adjustments by {
      assert r.adjustments.Get(London) == st.adjustments.Get(London);
      assert r.adjustments.Get(Copenhagen) == st.adjustments.Get(Copenhagen);
      assert r.adjustments.Get(Paris) == st.adjustments.Get(Paris);
    }
  }

  /** Pressing "Apply" twice with the same slider value is the same as
      pressing it once. */
  lemma ApplyButtonIdempotent(st: SessionState, store: Store, period: string, pct: int)
    ensures ApplyButton(ApplyButton(st, store, period, pct), store, period, pct) == ApplyButton(st, store, period, pct)
  {
    var once := ApplyButton(st, store, period, pct);
    var twice := ApplyButton(once, store, period, pct);
    assert twice.adjustments.Get(store) == once.adjustments.Get(store);
    assert twice.adjustments == once.adjustments by {
      assert twice.adjustments.Get(London) == once.adjustments.Get(London);
      assert twice.adjustments.Get(Copenhagen) == once.adjustments.Get(Copenhagen);
      assert twice.adjustments.Get(Paris) == once.adjustments.Get(Paris);
    }
  }

  /** Why a zero percentage may simply be deleted: on a generated series
      (distinct labels, AI staffing consistent with traffic) a 0% entry
      rewrites nothing, so the series with the entry equals the series
      without it. */
  lemma ZeroEntryIsNoEntry(rows: seq<Row>, adj: AdjustmentMap, period: string)
    requires Distinct(Labels(rows))
    requires AiConsistent(rows)
    requires forall i :: 0 <= i < |rows| ==> rows[i].predicted >= 0
    ensures ApplyToSeries(rows, adj[period := 0]) == ApplyToSeries(rows, adj - {period})
  {
    var a, b := ApplyToSeries(rows, adj[period := 0]), ApplyToSeries(rows, adj - {period});
    forall j | 0 <= j < |rows| ensures a[j] == b[j] {
      ZeroEntryRow(rows, adj, period, j);
    }
  }

  lemma ZeroEntryRow(rows: seq<Row>, adj: AdjustmentMap, period: string, j: int)
    requires Distinct(Labels(rows))
    requires AiConsistent(rows)
    requires 0 <= j < |rows| && rows[j].predicted >= 0
    ensures ApplyToSeries(rows, adj[period := 0])[j] == ApplyToSeries(rows, adj - {period})[j]
  {
    AdjustmentEffect(rows, adj[period := 0], j);
    AdjustmentEffect(rows, adj - {period}, j);
    var v := rows[j].predicted;
    if rows[j].period == period {
      assert AdjustedTraffic(v, 0) == v;
      assert rows[j].ai == AiStaffing(v);
    }
  }

  /** "Reset All" gives the store back its generated series. */
  lemma ResetRestoresGeneratedSeries(st: SessionState, store: Store, data: PerStore<seq<Row>>)
    ensures ApplyAdjustments(data, ResetAll(st, store).adjustments).Get(store) == data.Get(store)
  {
    var rows := data.Get(store);
    var r := ApplyToSeries(rows, map[]);
    assert forall j :: 0 <= j < |rows| ==> r[j] == rows[j];
  }

  /** After a view switch the dashboard shows the freshly generated series
      of every store. */
  lemma SwitchShowsGeneratedSeries(st: SessionState, mode: ViewMode, data: PerStore<seq<Row>>)
    requires mode != st.mode
    ensures forall s: Store :: ApplyAdjustments(data, SwitchView(st, mode).adjustments).Get(s) == data.Get(s)
  {
    forall s: Store ensures ApplyToSeries(data.Get(s), map[]) == data.Get(s) {
      var rows := data.Get(s);
      var r := ApplyToSeries(rows, map[]);
      assert forall j :: 0 <= j < |rows| ==> r[j] == rows[j];
    }
  }

  /** A slider value never takes traffic of at least 2 visits to zero: the
      worst case, -50%, halves it. */
  lemma SliderKeepsTrafficPositive(v: int, pct: int)
    requires v >= 2
    requires SliderValue(pct)
    ensures AdjustedTraffic(v, pct) >= 1
  {
    assert v * (100 + pct) >= v * 50;
  }
}
