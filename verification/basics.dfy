/** Shared vocabulary of the forecasting dashboard: the three stores, per-store
    tables, Python's integer truncation, clamping, and calendar arithmetic on
    day ordinals. */
module Basics {

  datatype Option<T> = None | Some(value: T)

  /** The fixed store set the dashboard works with. */
  datatype Store = London | Copenhagen | Paris

  const AllStoreList: seq<Store> := [London, Copenhagen, Paris]

  function StoreName(s: Store): string
  {
    match s
    case London => "London"
    case Copenhagen => "Copenhagen"
    case Paris => "Paris"
  }

  /** One value per store; the dashboard keeps its series, adjustment maps and
      decision histories in dictionaries keyed by the three store names. */
  datatype PerStore<T> = PerStore(london: T, copenhagen: T, paris: T)
  {
    function Get(s: Store): T
    {
      match s
      case London => london
      case Copenhagen => copenhagen
      case Paris => paris
    }

    function Set(s: Store, v: T): (r: PerStore<T>)
      ensures r.Get(s) == v
      ensures forall o: Store :: o != s ==> r.Get(o) == Get(o)
    {
      match s
      case London => this.(london := v)
      case Copenhagen => this.(copenhagen := v)
      case Paris => this.(paris := v)
    }
  }

  function Uniform<T>(v: T): (r: PerStore<T>)
    ensures forall s: Store :: r.Get(s) == v
  {
    PerStore(v, v, v)
  }

  /** Python's `int(a / b)`: division truncated toward zero. */
  function TruncDiv(a: int, b: int): (q: int)
    requires b > 0
    ensures a >= 0 ==> 0 <= q * b <= a < q * b + b
    ensures a < 0 ==> q * b - b < a <= q * b <= 0
  {
    if a >= 0 then
      DivBounds(a, b);
      a / b
    else
      DivBounds(-a, b);
      NegTimes((-a) / b, b);
      -((-a) / b)
  }

  /** Euclidean division of a non-negative number, as bounds on the quotient. */
  lemma DivBounds(a: int, b: int)
    requires a >= 0 && b > 0
    ensures 0 <= (a / b) * b <= a < (a / b) * b + b
  {
    var q, r := a / b, a % b;
    assert a == q * b + r && 0 <= r < b;
    assert q >= 0;
    assert q * b >= 0;
  }

  lemma NegTimes(q: int, b: int)
    ensures (-q) * b == -(q * b)
  {
  }

  /** Python's `int(x)` on a float: truncation toward zero. */
  function TruncReal(x: real): (r: int)
    ensures x >= 0.0 ==> r >= 0 && r as real <= x < r as real + 1.0
    ensures x < 0.0 ==> r <= 0 && r as real - 1.0 < x <= r as real
  {
    if x >= 0.0 then x.Floor else -((-x).Floor)
  }

  /** numpy's `clip(x, lo, hi)`. */
  function Clamp(x: real, lo: real, hi: real): (r: real)
    requires lo <= hi
    ensures lo <= r <= hi
    ensures lo <= x <= hi ==> r == x
    ensures x < lo ==> r == lo
    ensures x > hi ==> r == hi
  {
    if x < lo then lo else if x > hi then hi else x
  }

  /** Day of the week of a proleptic Gregorian day ordinal (day 1 is Monday
      0001-01-01), 0 = Monday .. 6 = Sunday, as Python's `date.weekday()`. */
  function Weekday(day: int): (w: int)
    ensures 0 <= w < 7
    ensures (day - w) % 7 == 1
  {
    (day - 1) % 7
  }

  /** The Monday of the week containing `day`. */
  function WeekStart(day: int): (m: int)
    ensures m <= day < m + 7
    ensures Weekday(m) == 0
  {
    day - Weekday(day)
  }

  /** Where a selected date lies relative to today. */
  datatype DateStatus = Past | Today | Future

  function StatusOf(selected: int, today: int): (st: DateStatus)
    ensures st == Past <==> selected < today
    ensures st == Today <==> selected == today
    ensures st == Future <==> selected > today
  {
    if selected < today then Past
    else if selected == today then Today
    else Future
  }

  /** The two granularities of the dashboard. */
  datatype ViewMode = Hourly | Daily

  /** A store's staffing decision for one day: `1` (following the AI
      recommendation) or `0` (using the legacy system). */
  datatype Decision = FollowedAi | UsedLegacy

  /** One store's decisions by day ordinal (the source keys them by the
      date's `YYYY-MM-DD` rendering, which is injective). */
  type DayLog = map<int, Decision>

  /** "Now" as the dashboard reads it from the wall clock. */
  datatype Clock = Clock(today: int, hour: int)

  /** A stream of draws from a uniform [0, 1) generator. */
  predicate UnitStream(draws: seq<real>)
  {
    forall k :: 0 <= k < |draws| ==> 0.0 <= draws[k] < 1.0
  }

  /** numpy's `randint(lo, hi)` fed by one unit draw: an integer in [lo, hi). */
  function RandInt(lo: int, hi: int, u: real): (r: int)
    requires lo < hi
    requires 0.0 <= u < 1.0
    ensures lo <= r < hi
  {
    var span := (hi - lo) as real;
    assert 0.0 <= span * u < span;
    lo + (span * u).Floor
  }

  /** numpy's `uniform(lo, hi)` fed by one unit draw. */
  function UniformReal(lo: real, hi: real, u: real): (r: real)
    requires lo < hi
    requires 0.0 <= u < 1.0
    ensures lo <= r
    ensures r < hi
  {
    ScaleBelow(lo, hi, u);
    lo + (hi - lo) * u
  }

  lemma ScaleBelow(lo: real, hi: real, u: real)
    requires lo < hi
    requires 0.0 <= u < 1.0
    ensures lo <= lo + (hi - lo) * u
    ensures lo + (hi - lo) * u < hi
  {
    var d := hi - lo;
    var e := 1.0 - u;
    assert d * e > 0.0;
    assert hi - (lo + d * u) == d * e;
  }

  /** Dividing a multiple of `n` by `n` gives the factor back. */
  lemma MeanOfConstant(s: real, c: real, n: real)
    requires n > 0.0
    requires s == c * n
    ensures s / n == c
  {
    var q := s / n;
    assert q * n == s;
    assert (q - c) * n == 0.0;
  }

  /** A non-negative sum of `n` values, each at most `c`, has a mean in [0, c]. */
  lemma MeanBelow(s: real, c: real, n: real)
    requires n > 0.0
    requires 0.0 <= s <= c * n
    ensures 0.0 <= s / n <= c
  {
    var q := s / n;
    assert q * n == s;
    assert (c - q) * n >= 0.0;
  }
}
