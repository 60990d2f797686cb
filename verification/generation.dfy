/** Synthetic traffic series: one store, one selected date, one granularity.

    The dashboard re-seeds numpy from the store name before each series and
    then walks the buckets in order, drawing one `randint` per bucket and, for
    a bucket whose time has already elapsed, one extra `uniform` for the
    actual traffic right after it. The model takes the resulting stream of
    unit draws as a parameter and consumes it in exactly that order. */
module Generation {
  import opened Basics

  /** One time bucket of a series (a row of the source's DataFrame). */
  datatype Row = Row(
    period: string,
    predicted: int,
    actual: Option<int>,
    baseline: int,
    ai: int)

  /** AI-recommended staffing for a traffic figure, `int(traffic * 0.93)`. */
  function AiStaffing(traffic: int): (s: int)
    ensures traffic >= 0 ==> 0 <= s && 100 * s <= 93 * traffic < 100 * s + 100
    ensures traffic < 0 ==> s <= 0
  {
    TruncDiv(93 * traffic, 100)
  }

  /** Every row's AI staffing is the 0.93 transform of its predicted traffic. */
  predicate AiConsistent(rows: seq<Row>)
  {
    forall i :: 0 <= i < |rows| ==> rows[i].ai == AiStaffing(rows[i].predicted)
  }

  /** The labels of a series, in row order. */
  function Labels(rows: seq<Row>): (ls: seq<string>)
    ensures |ls| == |rows|
    ensures forall i :: 0 <= i < |rows| ==> ls[i] == rows[i].period
  {
    seq(|rows|, i requires 0 <= i < |rows| => rows[i].period)
  }

  /** No row predicts negative traffic. */
  predicate NonNegative(rows: seq<Row>)
  {
    forall i :: 0 <= i < |rows| ==> rows[i].predicted >= 0
  }

  predicate Distinct(ls: seq<string>)
  {
    forall i, j :: 0 <= i < j < |ls| ==> ls[i] != ls[j]
  }

  lemma VarianceBounds(p: real, v: real)
    requires p >= 0.0
    requires -0.08 <= v < 0.08
    ensures 0.92 * p <= p * (1.0 + v)
    ensures p * (1.0 + v) <= 1.08 * p
  {
    var lowGap := v + 0.08;
    var highGap := 0.08 - v;
    assert p * lowGap >= 0.0;
    assert p * highGap >= 0.0;
    assert p * (1.0 + v) - 0.92 * p == p * lowGap;
    assert 1.08 * p - p * (1.0 + v) == p * highGap;
  }

  lemma TruncBounds(p: real, x: real)
    requires 0.0 <= p
    requires 0.92 * p <= x
    requires x <= 1.08 * p
    ensures 0 <= TruncReal(x)
    ensures TruncReal(x) as real <= 1.08 * p
    ensures 0.92 * p - 1.0 < TruncReal(x) as real
  {
    var a := TruncReal(x);
    assert a as real <= x;
    assert x < a as real + 1.0;
  }

  /** Actual traffic for an elapsed bucket:
      `int(traffic * (1 + uniform(-0.08, 0.08)))`. It lies within 8% of the
      prediction (less the truncation). */
  function ActualFrom(traffic: int, u: real): (a: int)
    requires 0.0 <= u < 1.0
    ensures traffic >= 0 ==> 0 <= a
    ensures traffic >= 0 ==> a as real <= 1.08 * traffic as real
    ensures traffic >= 0 ==> 0.92 * traffic as real - 1.0 < a as real
  {
    var v := UniformReal(-0.08, 0.08, u);
    var x := traffic as real * (1.0 + v);
    if traffic >= 0 then
      var p := traffic as real;
      VarianceBounds(p, v);
      assert 0.92 * p <= x && x <= 1.08 * p;
      TruncBounds(p, x);
      TruncReal(x)
    else TruncReal(x)
  }

  /** What the loop body needs to know about one bucket: its period, the
      deterministic part of its traffic beyond the store's base level, and
      whether its time has elapsed (so that it gets an actual value). */
  datatype Bucket = Bucket(period: string, extra: int, elapsed: bool)

  /** Draws one bucket takes from the stream. */
  function Cost(b: Bucket): nat
  {
    if b.elapsed then 2 else 1
  }

  /** Draws a run of buckets takes from the stream. */
  function Consumed(bs: seq<Bucket>): nat
  {
    if |bs| == 0 then 0 else Cost(bs[0]) + Consumed(bs[1..])
  }

  lemma {:induction false} ConsumedAppend(a: seq<Bucket>, b: seq<Bucket>)
    ensures Consumed(a + b) == Consumed(a) + Consumed(b)
  {
    if |a| == 0 {
      assert a + b == b;
    } else {
      assert (a + b)[1..] == a[1..] + b;
      ConsumedAppend(a[1..], b);
    }
  }

  /** The buckets before `i` and the bucket at `i` fit inside the whole run. */
  lemma ConsumedPrefix(bs: seq<Bucket>, i: int)
    requires 0 <= i < |bs|
    ensures Consumed(bs[..i]) + Cost(bs[i]) <= Consumed(bs)
    ensures Consumed(bs[..i + 1]) == Consumed(bs[..i]) + Cost(bs[i])
  {
    var pre, mid, post := bs[..i], [bs[i]], bs[i + 1..];
    assert mid[1..] == [];
    assert Consumed(mid) == Cost(bs[i]);
    assert bs[..i + 1] == pre + mid;
    assert bs == bs[..i + 1] + post;
    ConsumedAppend(pre + mid, post);
    ConsumedAppend(pre, mid);
  }

  /** The row a bucket produces when its first draw is at position `k`. */
  function RowAt(b: Bucket, base: int, lo: int, hi: int, baseline: int, draws: seq<real>, k: nat): Row
    requires lo < hi
    requires UnitStream(draws)
    requires k + Cost(b) <= |draws|
  {
    var traffic := base + RandInt(lo, hi, draws[k]) + b.extra;
    var actual := if b.elapsed then Some(ActualFrom(traffic, draws[k + 1])) else None;
    Row(b.period, traffic, actual, baseline, AiStaffing(traffic))
  }

  /** The generator loop: walks the buckets in order and threads the stream
      position through them. */
  function Generate(bs: seq<Bucket>, base: int, lo: int, hi: int, baseline: int, draws: seq<real>, pos: nat): (rows: seq<Row>)
    requires lo < hi
    requires UnitStream(draws)
    requires pos + Consumed(bs) <= |draws|
    ensures |rows| == |bs|
    decreases |bs|
  {
    if |bs| == 0 then []
    else [RowAt(bs[0], base, lo, hi, baseline, draws, pos)]
         + Generate(bs[1..], base, lo, hi, baseline, draws, pos + Cost(bs[0]))
  }

  /** Row `i` of the loop reads its draws right after all draws of the rows
      before it. */
  lemma {:induction false} GenerateAt(bs: seq<Bucket>, base: int, lo: int, hi: int, baseline: int, draws: seq<real>, pos: nat, i: int)
    requires lo < hi
    requires UnitStream(draws)
    requires pos + Consumed(bs) <= |draws|
    requires 0 <= i < |bs|
    ensures pos + Consumed(bs[..i]) + Cost(bs[i]) <= |draws|
    ensures Generate(bs, base, lo, hi, baseline, draws, pos)[i]
         == RowAt(bs[i], base, lo, hi, baseline, draws, pos + Consumed(bs[..i]))
    decreases |bs|
  {
    ConsumedPrefix(bs, i);
    var rest := Generate(bs[1..], base, lo, hi, baseline, draws, pos + Cost(bs[0]));
    assert Generate(bs, base, lo, hi, baseline, draws, pos) == [RowAt(bs[0], base, lo, hi, baseline, draws, pos)] + rest;
    if i == 0 {
      assert bs[..0] == [];
    } else {
      ConsumedTail(bs, i);
      GenerateAt(bs[1..], base, lo, hi, baseline, draws, pos + Cost(bs[0]), i - 1);
      assert Generate(bs, base, lo, hi, baseline, draws, pos)[i] == rest[i - 1];
    }
  }

  lemma ConsumedTail(bs: seq<Bucket>, i: int)
    requires 1 <= i <= |bs|
    ensures Consumed(bs[..i]) == Cost(bs[0]) + Consumed(bs[1..][..i - 1])
  {
    assert bs[..i][1..] == bs[1..][..i - 1];
  }

  /** Row `i` of the loop, field by field, in terms of its bucket and the
      draw position the loop reaches it at. */
  lemma RowFields(bs: seq<Bucket>, base: int, lo: int, hi: int, baseline: int, draws: seq<real>, i: int)
    requires lo < hi
    requires UnitStream(draws)
    requires Consumed(bs) <= |draws|
    requires 0 <= i < |bs|
    ensures var r := Generate(bs, base, lo, hi, baseline, draws, 0)[i];
      var k := Consumed(bs[..i]);
      && k + Cost(bs[i]) <= |draws|
      && r.period == bs[i].period
      && r.predicted == base + RandInt(lo, hi, draws[k]) + bs[i].extra
      && r.actual == (if bs[i].elapsed then Some(ActualFrom(r.predicted, draws[k + 1])) else None)
      && r.baseline == baseline
      && r.ai == AiStaffing(r.predicted)
  {
    GenerateAt(bs, base, lo, hi, baseline, draws, 0, i);
  }

  // ---------------------------------------------------------------------
  // Hourly series
  // ---------------------------------------------------------------------

  /** Store constants of the hourly view. */
  datatype HourlyProfile = HourlyProfile(base: int, peakBoost: int, peakHours: set<int>)

  /** Per-store hourly constants, with the fallback profile for any other name. */
  function HourlyProfileOf(name: string): HourlyProfile
  {
    if name == "London" then HourlyProfile(110, 45, {12, 13, 17, 18, 19})
    else if name == "Copenhagen" then HourlyProfile(80, 35, {11, 14, 16, 18})
    else if name == "Paris" then HourlyProfile(90, 40, {13, 15, 17, 18})
    else HourlyProfile(100, 35, {12, 18})
  }

  /** Opening hours 9:00 .. 20:00, twelve buckets. */
  const FirstHour: int := 9
  const HourCount: int := 12

  function Digit(d: int): char
    requires 0 <= d < 10
  {
    "0123456789"[d]
  }

  /** `f"{h:02d}:00"` */
  function HourLabel(h: int): (s: string)
    requires 0 <= h < 100
    ensures |s| == 5
  {
    [Digit(h / 10), Digit(h % 10), ':', '0', '0']
  }

  lemma HourLabelInjective(h1: int, h2: int)
    requires 0 <= h1 < 100 && 0 <= h2 < 100
    requires h1 != h2
    ensures HourLabel(h1) != HourLabel(h2)
  {
  }

  lemma HourLabelsSpelled(ls: seq<string>)
    requires |ls| == HourCount
    requires forall i :: 0 <= i < HourCount ==> ls[i] == HourLabel(FirstHour + i)
    ensures ls == ["09:00", "10:00", "11:00", "12:00", "13:00", "14:00",
                   "15:00", "16:00", "17:00", "18:00", "19:00", "20:00"]
  {
    assert ls[0] == "09:00" by { assert ls[0] == HourLabel(9); }
    assert ls[1] == "10:00" by { assert ls[1] == HourLabel(10); }
    assert ls[2] == "11:00" by { assert ls[2] == HourLabel(11); }
    assert ls[3] == "12:00" by { assert ls[3] == HourLabel(12); }
    assert ls[4] == "13:00" by { assert ls[4] == HourLabel(13); }
    assert ls[5] == "14:00" by { assert ls[5] == HourLabel(14); }
    assert ls[6] == "15:00" by { assert ls[6] == HourLabel(15); }
    assert ls[7] == "16:00" by { assert ls[7] == HourLabel(16); }
    assert ls[8] == "17:00" by { assert ls[8] == HourLabel(17); }
    assert ls[9] == "18:00" by { assert ls[9] == HourLabel(18); }
    assert ls[10] == "19:00" by { assert ls[10] == HourLabel(19); }
    assert ls[11] == "20:00" by { assert ls[11] == HourLabel(20); }
  }

  /** The twelve hourly labels "09:00" .. "20:00". */
  function HourLabels(): (ls: seq<string>)
    ensures |ls| == HourCount
    ensures Distinct(ls)
    ensures ls == ["09:00", "10:00", "11:00", "12:00", "13:00", "14:00",
                   "15:00", "16:00", "17:00", "18:00", "19:00", "20:00"]
  {
    var ls := seq(HourCount, i requires 0 <= i < HourCount => HourLabel(FirstHour + i));
    forall i, j | 0 <= i < j < |ls| ensures ls[i] != ls[j] {
      HourLabelInjective(FirstHour + i, FirstHour + j);
    }
    HourLabelsSpelled(ls);
    ls
  }

  /** Whether hour bucket `i` has elapsed: every bucket of a past date, and on
      today the hours strictly before the current hour. */
  predicate HourElapsed(status: DateStatus, nowHour: int, i: int)
  {
    status == Past || (status == Today && FirstHour + i < nowHour)
  }

  /** The stream position of hour bucket `i`'s randint draw: one draw per
      earlier bucket plus one per earlier elapsed bucket. */
  function HourDrawIndex(status: DateStatus, nowHour: int, i: nat): nat
  {
    match status
    case Past => 2 * i
    case Future => i
    case Today =>
      var passed := if nowHour - FirstHour < 0 then 0 else nowHour - FirstHour;
      i + (if passed < i then passed else i)
  }

  function HourlyBuckets(p: HourlyProfile, status: DateStatus, nowHour: int): (bs: seq<Bucket>)
    ensures |bs| == HourCount
  {
    seq(HourCount, i requires 0 <= i < HourCount =>
      Bucket(
        HourLabel(FirstHour + i),
        (if FirstHour + i in p.peakHours then p.peakBoost else 0) + (9 * i) / 2,
        HourElapsed(status, nowHour, i)))
  }

  lemma {:induction false} HourlyConsumed(p: HourlyProfile, status: DateStatus, nowHour: int, i: nat)
    requires i <= HourCount
    ensures Consumed(HourlyBuckets(p, status, nowHour)[..i]) == HourDrawIndex(status, nowHour, i)
  {
    var bs := HourlyBuckets(p, status, nowHour);
    if i == 0 {
      assert bs[..0] == [];
    } else {
      HourlyConsumed(p, status, nowHour, i - 1);
      ConsumedPrefix(bs, i - 1);
    }
  }

  /** `generate_store_hourly_data(store_name, date)` with "now" and the
      store's draw stream as parameters. */
  function GenerateHourly(name: string, selected: int, now: Clock, draws: seq<real>): (rows: seq<Row>)
    requires UnitStream(draws)
    requires |draws| >= 2 * HourCount
    ensures |rows| == HourCount
  {
    var p := HourlyProfileOf(name);
    var status := StatusOf(selected, now.today);
    var bs := HourlyBuckets(p, status, now.hour);
    HourlyConsumed(p, status, now.hour, HourCount);
    assert bs[..HourCount] == bs;
    Generate(bs, p.base, -8, 12, p.base - 15, draws, 0)
  }

  /** Row `i` of an hourly series in closed form: its label, its predicted
      traffic from the draw at the position the loop reaches it, its actual
      value from the draw right after that when the hour has elapsed, the flat
      baseline and the 0.93 AI staffing. */
  lemma HourlyRow(name: string, selected: int, now: Clock, draws: seq<real>, i: int)
    requires UnitStream(draws)
    requires |draws| >= 2 * HourCount
    requires 0 <= i < HourCount
    ensures
      var rows := GenerateHourly(name, selected, now, draws);
      var p := HourlyProfileOf(name);
      var elapsed := HourElapsed(StatusOf(selected, now.today), now.hour, i);
      var k := HourDrawIndex(StatusOf(selected, now.today), now.hour, i);
      && k + (if elapsed then 2 else 1) <= |draws|
      && rows[i].period == HourLabel(FirstHour + i)
      && rows[i].predicted == p.base + RandInt(-8, 12, draws[k])
           + (if FirstHour + i in p.peakHours then p.peakBoost else 0) + (9 * i) / 2
      && rows[i].actual == (if elapsed then Some(ActualFrom(rows[i].predicted, draws[k + 1])) else None)
      && rows[i].baseline == p.base - 15
      && rows[i].ai == AiStaffing(rows[i].predicted)
  {
    var p := HourlyProfileOf(name);
    var status := StatusOf(selected, now.today);
    var bs := HourlyBuckets(p, status, now.hour);
    HourlyConsumed(p, status, now.hour, HourCount);
    assert bs[..HourCount] == bs;
    HourlyConsumed(p, status, now.hour, i);
    RowFields(bs, p.base, -8, 12, p.base - 15, draws, i);
    assert bs[i] == Bucket(HourLabel(FirstHour + i), (if FirstHour + i in p.peakHours then p.peakBoost else 0) + (9 * i) / 2, HourElapsed(status, now.hour, i));
  }

  /** Shape of an hourly series: the twelve labels "09:00" .. "20:00" in order,
      a flat baseline of base - 15, AI staffing consistent with the prediction
      on every row, and an actual value exactly on the elapsed hours. */
  lemma HourlyShape(name: string, selected: int, now: Clock, draws: seq<real>)
    requires UnitStream(draws)
    requires |draws| >= 2 * HourCount
    ensures var rows := GenerateHourly(name, selected, now, draws);
      && Labels(rows) == HourLabels()
      && AiConsistent(rows)
      && NonNegative(rows)
      && (forall i :: 0 <= i < HourCount ==> rows[i].baseline == HourlyProfileOf(name).base - 15)
      && (forall i :: 0 <= i < HourCount ==>
            (rows[i].actual.Some? <==> HourElapsed(StatusOf(selected, now.today), now.hour, i)))
  {
    forall i | 0 <= i < HourCount {
      HourlyRow(name, selected, now, draws, i);
    }
  }

  // ---------------------------------------------------------------------
  // Daily series
  // ---------------------------------------------------------------------

  /** Store constants of the daily view. */
  datatype DailyProfile = DailyProfile(base: int, weekendBoost: int, peakDays: set<int>)

  function DailyProfileOf(name: string): DailyProfile
  {
    if name == "London" then DailyProfile(950, 450, {4, 5, 6})
    else if name == "Copenhagen" then DailyProfile(720, 320, {3, 5, 6})
    else if name == "Paris" then DailyProfile(810, 380, {4, 5, 6})
    else DailyProfile(850, 350, {5, 6})
  }

  const DayCount: int := 7

  const DayNames: seq<string> :=
    ["Monday", "Tuesday", "Wednesday", "Thursday", "Friday", "Saturday", "Sunday"]

  lemma DayNamesDistinct()
    ensures |DayNames| == DayCount
    ensures Distinct(DayNames)
  {
  }

  /** Whether day bucket `i` has elapsed: every day when the selected date is
      in the past, and when it is today the days up to and including today's
      weekday. */
  predicate DayElapsed(status: DateStatus, todayWeekday: int, i: int)
  {
    status == Past || (status == Today && i <= todayWeekday)
  }

  function DayDrawIndex(status: DateStatus, todayWeekday: int, i: nat): nat
  {
    match status
    case Past => 2 * i
    case Future => i
    case Today =>
      var passed := if todayWeekday + 1 < 0 then 0 else todayWeekday + 1;
      i + (if passed < i then passed else i)
  }

  function DailyBuckets(p: DailyProfile, status: DateStatus, todayWeekday: int): (bs: seq<Bucket>)
    ensures |bs| == DayCount
  {
    seq(DayCount, i requires 0 <= i < DayCount =>
      Bucket(
        DayNames[i],
        if i in p.peakDays then p.weekendBoost else 0,
        DayElapsed(status, todayWeekday, i)))
  }

  lemma {:induction false} DailyConsumed(p: DailyProfile, status: DateStatus, todayWeekday: int, i: nat)
    requires i <= DayCount
    ensures Consumed(DailyBuckets(p, status, todayWeekday)[..i]) == DayDrawIndex(status, todayWeekday, i)
  {
    var bs := DailyBuckets(p, status, todayWeekday);
    if i == 0 {
      assert bs[..0] == [];
    } else {
      DailyConsumed(p, status, todayWeekday, i - 1);
      ConsumedPrefix(bs, i - 1);
    }
  }

  /** `generate_store_daily_data(store_name, date)` with "now" and the
      store's draw stream as parameters. */
  function GenerateDaily(name: string, selected: int, now: Clock, draws: seq<real>): (rows: seq<Row>)
    requires UnitStream(draws)
    requires |draws| >= 2 * DayCount
    ensures |rows| == DayCount
  {
    var p := DailyProfileOf(name);
    var status := StatusOf(selected, now.today);
    var bs := DailyBuckets(p, status, Weekday(now.today));
    DailyConsumed(p, status, Weekday(now.today), DayCount);
    assert bs[..DayCount] == bs;
    Generate(bs, p.base, -50, 80, p.base - 120, draws, 0)
  }

  /** Row `i` of a daily series in closed form. */
  lemma DailyRow(name: string, selected: int, now: Clock, draws: seq<real>, i: int)
    requires UnitStream(draws)
    requires |draws| >= 2 * DayCount
    requires 0 <= i < DayCount
    ensures
      var rows := GenerateDaily(name, selected, now, draws);
      var p := DailyProfileOf(name);
      var elapsed := DayElapsed(StatusOf(selected, now.today), Weekday(now.today), i);
      var k := DayDrawIndex(StatusOf(selected, now.today), Weekday(now.today), i);
      && k + (if elapsed then 2 else 1) <= |draws|
      && rows[i].period == DayNames[i]
      && rows[i].predicted == p.base + RandInt(-50, 80, draws[k])
           + (if i in p.peakDays then p.weekendBoost else 0)
      && rows[i].actual == (if elapsed then Some(ActualFrom(rows[i].predicted, draws[k + 1])) else None)
      && rows[i].baseline == p.base - 120
      && rows[i].ai == AiStaffing(rows[i].predicted)
  {
    var p := DailyProfileOf(name);
    var status := StatusOf(selected, now.today);
    var wd := Weekday(now.today);
    var bs := DailyBuckets(p, status, wd);
    DailyConsumed(p, status, wd, DayCount);
    assert bs[..DayCount] == bs;
    DailyConsumed(p, status, wd, i);
    RowFields(bs, p.base, -50, 80, p.base - 120, draws, i);
    assert bs[i] == Bucket(DayNames[i], if i in p.peakDays then p.weekendBoost else 0, DayElapsed(status, wd, i));
  }

  /** Shape of a daily series: Monday .. Sunday in order, a flat baseline of
      base - 120, consistent AI staffing, and an actual value exactly on the
      elapsed days. */
  lemma DailyShape(name: string, selected: int, now: Clock, draws: seq<real>)
    requires UnitStream(draws)
    requires |draws| >= 2 * DayCount
    ensures var rows := GenerateDaily(name, selected, now, draws);
      && Labels(rows) == DayNames
      && AiConsistent(rows)
      && NonNegative(rows)
      && (forall i :: 0 <= i < DayCount ==> rows[i].baseline == DailyProfileOf(name).base - 120)
      && (forall i :: 0 <= i < DayCount ==>
            (rows[i].actual.Some? <==> DayElapsed(StatusOf(selected, now.today), Weekday(now.today), i)))
  {
    forall i | 0 <= i < DayCount {
      DailyRow(name, selected, now, draws, i);
    }
  }
}

/** All three stores' series for one selected date and granularity. */
module Fleet {
  import opened Basics
  import opened Generation

  function BucketCount(mode: ViewMode): nat
  {
    match mode
    case Hourly => HourCount
    case Daily => DayCount
  }

  /** The bucket labels of a granularity. */
  function ModeLabels(mode: ViewMode): (ls: seq<string>)
    ensures |ls| == BucketCount(mode)
    ensures Distinct(ls)
  {
    match mode
    case Hourly => HourLabels()
    case Daily => DayNamesDistinct(); DayNames
  }

  /** Each store's own stream (the source re-seeds from the store name before
      every series) is long enough for the worst case of one randint and one
      uniform per bucket. */
  predicate ValidStreams(mode: ViewMode, streams: PerStore<seq<real>>)
  {
    forall s: Store :: UnitStream(streams.Get(s)) && |streams.Get(s)| >= 2 * BucketCount(mode)
  }

  function GenerateSeries(mode: ViewMode, name: string, selected: int, now: Clock, draws: seq<real>): (rows: seq<Row>)
    requires UnitStream(draws)
    requires |draws| >= 2 * BucketCount(mode)
    ensures Labels(rows) == ModeLabels(mode)
    ensures AiConsistent(rows)
    ensures NonNegative(rows)
    ensures mode == Hourly ==> forall i :: 0 <= i < |rows| ==> rows[i].baseline == HourlyProfileOf(name).base - 15
    ensures mode == Daily ==> forall i :: 0 <= i < |rows| ==> rows[i].baseline == DailyProfileOf(name).base - 120
  {
    match mode
    case Hourly => HourlyShape(name, selected, now, draws); GenerateHourly(name, selected, now, draws)
    case Daily => DailyShape(name, selected, now, draws); GenerateDaily(name, selected, now, draws)
  }

  /** `generate_all_stores_data(date, view_mode)`: every store's series is
      generated from its own name and its own stream; they carry the same
      ordered labels, so the stores can be aggregated row by row, every
      row's AI staffing is consistent with its prediction, and each store
      keeps its own legacy staffing level. */
  function GenerateAll(mode: ViewMode, selected: int, now: Clock, streams: PerStore<seq<real>>): (data: PerStore<seq<Row>>)
    requires ValidStreams(mode, streams)
    ensures forall s: Store :: data.Get(s) == GenerateSeries(mode, StoreName(s), selected, now, streams.Get(s))
    ensures forall s: Store :: Labels(data.Get(s)) == ModeLabels(mode)
    ensures forall s: Store :: AiConsistent(data.Get(s))
    ensures forall s: Store :: NonNegative(data.Get(s))
    ensures mode == Hourly ==>
      && (forall i :: 0 <= i < |data.london| ==> data.london[i].baseline == 95)
      && (forall i :: 0 <= i < |data.copenhagen| ==> data.copenhagen[i].baseline == 65)
      && (forall i :: 0 <= i < |data.paris| ==> data.paris[i].baseline == 75)
    ensures mode == Daily ==>
      && (forall i :: 0 <= i < |data.london| ==> data.london[i].baseline == 830)
      && (forall i :: 0 <= i < |data.copenhagen| ==> data.copenhagen[i].baseline == 600)
      && (forall i :: 0 <= i < |data.paris| ==> data.paris[i].baseline == 690)
  {
    PerStore(
      GenerateSeries(mode, StoreName(London), selected, now, streams.Get(London)),
      GenerateSeries(mode, StoreName(Copenhagen), selected, now, streams.Get(Copenhagen)),
      GenerateSeries(mode, StoreName(Paris), selected, now, streams.Get(Paris)))
  }

  /** Because an elapsed bucket takes an extra uniform draw from the same
      stream, the predicted traffic of a later bucket depends on the selected
      date: with one and the same stream, the 10:00 prediction for London on a
      past date differs from the one on a future date. */
  lemma PredictionDependsOnDrawOrder()
    ensures
      var draws := seq(2 * HourCount, k => if k == 1 then 0.5 else 0.0);
      var now := Clock(2, 12);
      UnitStream(draws) &&
      GenerateHourly("London", 1, now, draws)[1].predicted
        != GenerateHourly("London", 3, now, draws)[1].predicted
  {
    var draws := seq(2 * HourCount, k => if k == 1 then 0.5 else 0.0);
    var now := Clock(2, 12);
    assert UnitStream(draws);
    HourlyRow("London", 1, now, draws, 1);
    HourlyRow("London", 3, now, draws, 1);
    assert RandInt(-8, 12, draws[2]) == -8;
    assert RandInt(-8, 12, draws[1]) == 2;
  }
}
