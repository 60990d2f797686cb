/** The staffing-decision history: seeded with 29 past days per store,
    overwritten for today by the "Following AI" / "Using Legacy" buttons, and
    read by the adoption summary, the 30-day calendar and the adoption
    rates. */
module History {
  import opened Basics
  import opened Kpis

  // ---------------------------------------------------------------------
  // Seeding
  // ---------------------------------------------------------------------

  /** Days of history each store is seeded with (today excluded). */
  const SeedDays: nat := 29

  /** The simulated share of days on which a store followed the AI. */
  function SeedProbability(s: Store): real
  {
    match s
    case London => 0.85
    case Copenhagen => 0.70
    case Paris => 0.90
  }

  /** Position of a store in the seeding loop (London, Copenhagen, Paris). */
  function StoreIndex(s: Store): (k: nat)
    ensures k < 3
    ensures AllStoreList[k] == s
  {
    match s
    case London => 0
    case Copenhagen => 1
    case Paris => 2
  }

  /** `1 if random.random() < p else 0` */
  function Decide(u: real, p: real): (d: Decision)
    ensures d == FollowedAi <==> u < p
  {
    if u < p then FollowedAi else UsedLegacy
  }

  /** The days `today - 1` down to `today - n`, each decided by its own
      coin, the coins for day `today - i` being `coins[offset + i - 1]`. */
  function SeedLog(today: int, coins: seq<real>, offset: nat, p: real, n: nat): (m: DayLog)
    requires offset + n <= |coins|
    ensures forall d :: d in m <==> today - n <= d < today
    ensures |m| == n
    ensures forall d :: today - n <= d < today ==> m[d] == Decide(coins[offset + (today - d) - 1], p)
  {
    if n == 0 then map[]
    else
      var prev := SeedLog(today, coins, offset, p, n - 1);
      assert today - n !in prev;
      prev[today - n := Decide(coins[offset + n - 1], p)]
  }

  /** The history a session starts with: for each store in turn, the 29
      days before today, each decided by one coin in [0, 1) against the
      store's adoption probability; 87 coins in all, store by store. */
  function SeedHistory(today: int, coins: seq<real>): (h: PerStore<DayLog>)
    requires |coins| == 3 * SeedDays
    ensures forall s: Store, d :: d in h.Get(s) <==> today - SeedDays <= d < today
    ensures forall s: Store :: |h.Get(s)| == SeedDays
    ensures forall s: Store, d :: today - SeedDays <= d < today ==>
      h.Get(s)[d] == Decide(coins[SeedDays * StoreIndex(s) + (today - d) - 1], SeedProbability(s))
  {
    PerStore(
      SeedLog(today, coins, 0, SeedProbability(London), SeedDays),
      SeedLog(today, coins, SeedDays, SeedProbability(Copenhagen), SeedDays),
      SeedLog(today, coins, 2 * SeedDays, SeedProbability(Paris), SeedDays))
  }

  /** A freshly seeded history has no decision for today, so the manager
      can still make it. */
  lemma SeedLeavesTodayOpen(today: int, coins: seq<real>)
    requires |coins| == 3 * SeedDays
    ensures forall s: Store :: today !in SeedHistory(today, coins).Get(s)
    ensures forall s: Store :: today - 1 in SeedHistory(today, coins).Get(s)
  {
  }

  // ---------------------------------------------------------------------
  // Recording today's decision
  // ---------------------------------------------------------------------

  /** The "Following AI" / "Using Legacy" buttons: today's entry of the
      store is set (overwriting an earlier choice); nothing else changes. */
  function Record(h: PerStore<DayLog>, store: Store, today: int, d: Decision): (r: PerStore<DayLog>)
    ensures today in r.Get(store) && r.Get(store)[today] == d
    ensures forall day :: day != today ==>
      (day in r.Get(store) <==> day in h.Get(store))
      && (day in h.Get(store) ==> r.Get(store)[day] == h.Get(store)[day])
    ensures forall o: Store :: o != store ==> r.Get(o) == h.Get(o)
  {
    h.Set(store, h.Get(store)[today := d])
  }

  /** Pressing a decision button again only changes the answer: the last
      press wins. */
  lemma RecordLastWins(h: PerStore<DayLog>, store: Store, today: int, d1: Decision, d2: Decision)
    ensures Record(Record(h, store, today, d1), store, today, d2) == Record(h, store, today, d2)
  {
    var a, b := Record(Record(h, store, today, d1), store, today, d2), Record(h, store, today, d2);
    assert a.Get(store) == b.Get(store);
    assert a.Get(London) == b.Get(London) && a.Get(Copenhagen) == b.Get(Copenhagen) && a.Get(Paris) == b.Get(Paris);
  }

  // ---------------------------------------------------------------------
  // Adoption summary
  // ---------------------------------------------------------------------

  function AiDaySet(log: DayLog): set<int>
  {
    set d | d in log && log[d] == FollowedAi
  }

  lemma SubsetCard(a: set<int>, b: set<int>)
    requires a <= b
    ensures |a| <= |b|
    ensures |a| == |b| ==> a == b
  {
    assert b == a + (b - a);
    if |a| == |b| {
      assert |b - a| == 0;
    }
  }

  datatype Adoption = Adoption(totalDays: nat, aiDays: nat, rate: real)

  /** One row of `get_store_adoption_summary()`: the recorded days, those
      that followed the AI, and the share of the latter as a percentage (0
      for a store with no recorded day). */
  function StoreAdoption(log: DayLog): (a: Adoption)
    ensures a.totalDays == |log|
    ensures a.aiDays == |AiDaySet(log)| && a.aiDays <= a.totalDays
    ensures 0.0 <= a.rate <= 100.0
    ensures a.totalDays == 0 ==> a.rate == 0.0
    ensures a.totalDays > 0 ==> a.rate * a.totalDays as real == 100.0 * a.aiDays as real
    ensures a.rate == 100.0 <==> a.totalDays > 0 && forall d :: d in log ==> log[d] == FollowedAi
    ensures a.rate == 0.0 <==> a.aiDays == 0
  {
    var ai := AiDaySet(log);
    SubsetCard(ai, log.Keys);
    var total := |log|;
    if total == 0 then Adoption(0, 0, 0.0)
    else
      var rate := Percent(|ai|, total);
      assert rate == 100.0 ==> forall d :: d in log ==> log[d] == FollowedAi by {
        if rate == 100.0 {
          assert ai == log.Keys;
          forall d | d in log ensures log[d] == FollowedAi {
            assert d in ai;
          }
        }
      }
      assert (forall d :: d in log ==> log[d] == FollowedAi) ==> rate == 100.0 by {
        if forall d :: d in log ==> log[d] == FollowedAi {
          assert ai == log.Keys;
        }
      }
      Adoption(total, |ai|, rate)
  }

  /** `(part / whole) * 100` for `0 <= part <= whole`, `whole > 0`. */
  function Percent(part: nat, whole: nat): (r: real)
    requires 0 <= part <= whole && whole > 0
    ensures 0.0 <= r <= 100.0
    ensures r == 100.0 <==> part == whole
    ensures r == 0.0 <==> part == 0
    ensures r * whole as real == 100.0 * part as real
  {
    var q := part as real / whole as real;
    var w := whole as real;
    assert q * w == part as real;
    assert (1.0 - q) * w == w - part as real;
    assert part == whole ==> q == 1.0 by {
      if part == whole {
        MeanOfConstant(part as real, 1.0, w);
      }
    }
    q * 100.0
  }

  /** `get_store_adoption_summary()`: one row per store. */
  function AdoptionSummary(h: PerStore<DayLog>): (r: PerStore<Adoption>)
    ensures forall s: Store :: r.Get(s) == StoreAdoption(h.Get(s))
  {
    PerStore(StoreAdoption(h.london), StoreAdoption(h.copenhagen), StoreAdoption(h.paris))
  }

  /** Recording a decision for a day with no entry adds one recorded day,
      and one AI day exactly when the decision follows the AI. */
  lemma RecordNewDayCounts(log: DayLog, today: int, d: Decision)
    requires today !in log
    ensures StoreAdoption(log[today := d]).totalDays == StoreAdoption(log).totalDays + 1
    ensures StoreAdoption(log[today := d]).aiDays
         == StoreAdoption(log).aiDays + (if d == FollowedAi then 1 else 0)
  {
    var after := AiDaySet(log[today := d]);
    if d == FollowedAi {
      assert after == AiDaySet(log) + {today};
    } else {
      assert after == AiDaySet(log);
    }
  }

  /** Overwriting an AI day with legacy removes one AI day and keeps the
      number of recorded days. */
  lemma OverwriteAiWithLegacyCounts(log: DayLog, today: int)
    requires today in log && log[today] == FollowedAi
    ensures StoreAdoption(log[today := UsedLegacy]).totalDays == StoreAdoption(log).totalDays
    ensures StoreAdoption(log[today := UsedLegacy]).aiDays + 1 == StoreAdoption(log).aiDays
  {
    assert AiDaySet(log[today := UsedLegacy]) == AiDaySet(log) - {today};
  }

  /** The regional average of the three adoption rates. Some store is at or
      below it and some store at or above it; three equal rates average to
      that rate. */
  function RegionalAverage(summary: PerStore<Adoption>): (avg: real)
    ensures summary.london.rate <= avg || summary.copenhagen.rate <= avg || summary.paris.rate <= avg
    ensures summary.london.rate >= avg || summary.copenhagen.rate >= avg || summary.paris.rate >= avg
    ensures summary.london.rate == summary.copenhagen.rate == summary.paris.rate ==> avg == summary.london.rate
  {
    (summary.london.rate + summary.copenhagen.rate + summary.paris.rate) / 3.0
  }

  /** The adoption target below which a store "needs support". */
  const AdoptionTarget: real := 80.0

  /** The stores listed under "Needs Support", in summary order. */
  function NeedsSupport(summary: PerStore<Adoption>): (r: seq<Store>)
    ensures forall s: Store :: s in r <==> summary.Get(s).rate < AdoptionTarget
    ensures forall i, j :: 0 <= i < j < |r| ==> StoreIndex(r[i]) < StoreIndex(r[j])
  {
    (if summary.london.rate < AdoptionTarget then [London] else [])
      + (if summary.copenhagen.rate < AdoptionTarget then [Copenhagen] else [])
      + (if summary.paris.rate < AdoptionTarget then [Paris] else [])
  }

  // ---------------------------------------------------------------------
  // Calendar
  // ---------------------------------------------------------------------

  /** Days shown by the calendar, ending with today. */
  const CalendarDays: nat := 30

  /** `strftime('%a')` for Monday .. Sunday. */
  const DayAbbrevs: seq<string> := ["Mon", "Tue", "Wed", "Thu", "Fri", "Sat", "Sun"]

  datatype CalendarCell = CalendarCell(date: int, decision: Option<Decision>, day: string, week: nat)

  /** `generate_implementation_calendar(store)`: the 30 days ending today,
      each with its recorded decision (if any), its weekday abbreviation and
      its week number counted from the first cell. */
  function Calendar(log: DayLog, today: int): (cal: seq<CalendarCell>)
    ensures |cal| == CalendarDays
    ensures forall i :: 0 <= i < |cal| ==> cal[i].date == today - (CalendarDays - 1) + i
    ensures forall i :: 0 <= i < |cal| ==> cal[i].day == DayAbbrevs[Weekday(cal[i].date)]
    ensures forall i :: 0 <= i < |cal| ==> 7 * cal[i].week <= i < 7 * cal[i].week + 7 && cal[i].week <= 4
    ensures forall i :: 0 <= i < |cal| ==> (cal[i].decision.Some? <==> cal[i].date in log)
    ensures forall i :: 0 <= i < |cal| && cal[i].date in log ==> cal[i].decision == Some(log[cal[i].date])
  {
    var cal := seq(CalendarDays, i requires 0 <= i < CalendarDays => CellAt(log, today - (CalendarDays - 1) + i, i));
    assert forall i :: 0 <= i < |cal| ==> cal[i] == CellAt(log, today - (CalendarDays - 1) + i, i);
    cal
  }

  function CellAt(log: DayLog, date: int, i: nat): (c: CalendarCell)
    ensures c.date == date && c.week == i / 7
    ensures c.day == DayAbbrevs[Weekday(date)]
    ensures c.decision.Some? <==> date in log
    ensures date in log ==> c.decision == Some(log[date])
  {
    CalendarCell(date, Lookup(log, date), DayAbbrevs[Weekday(date)], i / 7)
  }

  /** On a freshly seeded history the calendar shows a decision on every
      day but the last, which is today. */
  lemma SeededCalendar(today: int, coins: seq<real>, s: Store)
    requires |coins| == 3 * SeedDays
    ensures var cal := Calendar(SeedHistory(today, coins).Get(s), today);
      && (forall i :: 0 <= i < CalendarDays - 1 ==> cal[i].decision.Some?)
      && cal[CalendarDays - 1].decision == None
  {
  }

  /** After recording a decision, the calendar's last cell shows it. */
  lemma CalendarShowsRecord(h: PerStore<DayLog>, store: Store, today: int, d: Decision)
    ensures Calendar(Record(h, store, today, d).Get(store), today)[CalendarDays - 1].decision == Some(d)
  {
  }

  // ---------------------------------------------------------------------
  // Adoption rates
  // ---------------------------------------------------------------------

  /** The "Today" adoption figure: 100 when today's entry follows the AI, 0
      otherwise (no entry included). */
  function AdoptionToday(log: DayLog, today: int): (r: int)
    ensures r == 100 <==> today in log && log[today] == FollowedAi
    ensures r == 0 || r == 100
  {
    if Lookup(log, today) == Some(FollowedAi) then 100 else 0
  }

  /** Every day of the window `today - n < d <= today` has an entry. */
  predicate AllRecordedIn(log: DayLog, today: int, n: nat)
  {
    forall d :: today - n < d <= today ==> d in log
  }

  /** Every recorded day of the window followed the AI. */
  predicate AllAiIn(log: DayLog, today: int, n: nat)
  {
    forall d :: today - n < d <= today && d in log ==> log[d] == FollowedAi
  }

  /** AI days among `today`, `today - 1`, .., `today - (n - 1)`. */
  function AiInWindow(log: DayLog, today: int, n: nat): (c: nat)
    ensures c <= n
  {
    if n == 0 then 0
    else AiInWindow(log, today, n - 1) + (if Lookup(log, today - (n - 1)) == Some(FollowedAi) then 1 else 0)
  }

  /** Recorded days among the same window. */
  function RecordedInWindow(log: DayLog, today: int, n: nat): (c: nat)
    ensures c <= n
  {
    if n == 0 then 0
    else RecordedInWindow(log, today, n - 1) + (if today - (n - 1) in log then 1 else 0)
  }

  lemma {:induction false} AiWithinRecorded(log: DayLog, today: int, n: nat)
    ensures AiInWindow(log, today, n) <= RecordedInWindow(log, today, n)
    ensures AiInWindow(log, today, n) == RecordedInWindow(log, today, n) <==> AllAiIn(log, today, n)
    ensures RecordedInWindow(log, today, n) == n <==> AllRecordedIn(log, today, n)
    ensures AiInWindow(log, today, n) == n <==> AllRecordedIn(log, today, n) && AllAiIn(log, today, n)
    decreases n
  {
    if n > 0 {
      AiWithinRecorded(log, today, n - 1);
    }
  }

  /** The 3-day and week figures exactly as the source computes them: a
      missing day reads as decision 0, so the "recorded days" denominator
      is always the window length. */
  function AdoptionWindowAsWritten(log: DayLog, today: int, n: nat): (r: real)
    requires n > 0
    ensures 0.0 <= r <= 100.0
    ensures r == 100.0 <==> AllRecordedIn(log, today, n) && AllAiIn(log, today, n)
    ensures r * n as real == 100.0 * AiInWindow(log, today, n) as real
  {
    AiWithinRecorded(log, today, n);
    Percent(AiInWindow(log, today, n), n)
  }

  /** The 3-day and week figures as the source's filter of missing days
      intends: the share of AI days among the recorded days of the window,
      0 when none is recorded. */
  function AdoptionWindow(log: DayLog, today: int, n: nat): (r: real)
    ensures 0.0 <= r <= 100.0
    ensures r == 100.0 <==> RecordedInWindow(log, today, n) > 0 && AllAiIn(log, today, n)
    ensures RecordedInWindow(log, today, n) == 0 ==> r == 0.0
    ensures RecordedInWindow(log, today, n) > 0 ==>
              r * RecordedInWindow(log, today, n) as real == 100.0 * AiInWindow(log, today, n) as real
  {
    AiWithinRecorded(log, today, n);
    var recorded := RecordedInWindow(log, today, n);
    if recorded == 0 then 0.0 else Percent(AiInWindow(log, today, n), recorded)
  }

  /** Both definitions agree whenever every day of the window is recorded. */
  lemma {:induction false} WindowsAgreeWhenComplete(log: DayLog, today: int, n: nat)
    requires n > 0
    requires AllRecordedIn(log, today, n)
    ensures AdoptionWindow(log, today, n) == AdoptionWindowAsWritten(log, today, n)
  {
    AiWithinRecorded(log, today, n);
  }

  datatype AdoptionRates = AdoptionRates(today: real, threeDays: real, week: real)

  /** The adoption figures of the dashboard: fixed figures for all stores;
      for one store, 100 or 0 for today, and for the last three and seven
      days the AI days as a share of the whole window, so that a day
      without a decision counts as legacy. */
  function Adoptions(scope: Scope, h: PerStore<DayLog>, today: int): (r: AdoptionRates)
    ensures scope == AllStores ==> r == AdoptionRates(85.0, 81.7, 83.3)
    ensures scope.Single? ==> var log := h.Get(scope.store);
      && (r.today == 0.0 || r.today == 100.0)
      && (r.today == 100.0 <==> today in log && log[today] == FollowedAi)
      && 0.0 <= r.threeDays <= 100.0
      && 0.0 <= r.week <= 100.0
      && 3.0 * r.threeDays == 100.0 * AiInWindow(log, today, 3) as real
      && 7.0 * r.week == 100.0 * AiInWindow(log, today, 7) as real
      && (r.threeDays == 100.0 <==> AllRecordedIn(log, today, 3) && AllAiIn(log, today, 3))
      && (r.week == 100.0 <==> AllRecordedIn(log, today, 7) && AllAiIn(log, today, 7))
  {
    match scope
    case AllStores => AdoptionRates(85.0, 81.7, 83.3)
    case Single(s) =>
      var log := h.Get(s);
      AdoptionRates(AdoptionToday(log, today) as real, AdoptionWindowAsWritten(log, today, 3), AdoptionWindowAsWritten(log, today, 7))
  }

  /** The discrepancy: a store that followed the AI on every seeded day
      shows 66.7% for the last three days before today's decision is made,
      because today's missing entry counts as a legacy day; the intended
      figure is 100%. */
  lemma AdoptionWindowCountsMissingDayAsLegacy(today: int, coins: seq<real>, s: Store)
    requires |coins| == 3 * SeedDays
    requires forall k :: 0 <= k < |coins| ==> coins[k] < 0.70
    ensures AdoptionWindowAsWritten(SeedHistory(today, coins).Get(s), today, 3) == 200.0 / 3.0
    ensures AdoptionWindow(SeedHistory(today, coins).Get(s), today, 3) == 100.0
    ensures Adoptions(Single(s), SeedHistory(today, coins), today).threeDays == 200.0 / 3.0
  {
    var log := SeedHistory(today, coins).Get(s);
    assert today !in log;
    var k := SeedDays * StoreIndex(s);
    assert log[today - 1] == Decide(coins[k], SeedProbability(s));
    assert log[today - 2] == Decide(coins[k + 1], SeedProbability(s));
    assert SeedProbability(s) >= 0.70;
    assert Lookup(log, today) == None;
    assert Lookup(log, today - 1) == Some(FollowedAi);
    assert Lookup(log, today - 2) == Some(FollowedAi);
    assert AiInWindow(log, today, 1) == 0 && RecordedInWindow(log, today, 1) == 0;
    assert AiInWindow(log, today, 2) == 1 && RecordedInWindow(log, today, 2) == 1;
    assert AiInWindow(log, today, 3) == 2 && RecordedInWindow(log, today, 3) == 2;
  }
}
