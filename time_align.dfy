/** Calendar arithmetic the route asks of moment.js, on integer epoch milliseconds in one
    fixed zone at UTC offset 0: `startOf(unit)`, `get(unit)`, `add(k, unit)`, and the
    route's own `adjustMaxTime`. */
module TimeAlign {

  /** The moment.js unit names the route's UNIT_MAPPING produces. moment.js itself knows
      no 'nanosecond'. */
  datatype Unit = Nanosecond | Millisecond | Second | Minute | Hour | Day

  const SecondMs := 1000
  const MinuteMs := 60000
  const HourMs := 3600000
  const DayMs := 86400000

  /** 1970-01-01 was a Thursday, weekday 4 when Sunday is 0. */
  const EpochWeekday := 4

  predicate IsMomentUnit(u: Unit) { u != Nanosecond }

  /** Length of one `u` in milliseconds; every unit has a fixed length in a zone
      without daylight saving time. */
  function Length(u: Unit): (len: int)
    requires IsMomentUnit(u)
    ensures len >= 1
  {
    match u
    case Millisecond => 1
    case Second => SecondMs
    case Minute => MinuteMs
    case Hour => HourMs
    case Day => DayMs
  }

  /** How many values the calendar field `get(u)` takes. */
  function Cycle(u: Unit): (c: int)
    requires IsMomentUnit(u)
    ensures c >= 1
  {
    match u
    case Millisecond => 1000
    case Second => 60
    case Minute => 60
    case Hour => 24
    case Day => 7
  }

  /** The field's value on the epoch's first `u`: only the weekday does not start at 0. */
  function Phase(u: Unit): nat
  {
    if u == Day then EpochWeekday else 0
  }

  /** `moment(t).startOf(u)`: the start of the `u` that contains `t`. */
  function StartOf(t: int, u: Unit): (s: int)
    requires IsMomentUnit(u)
    ensures s <= t < s + Length(u)
    ensures s % Length(u) == 0 && s / Length(u) == t / Length(u)
  {
    DivModUnique(t - t % Length(u), Length(u), t / Length(u), 0);
    t - t % Length(u)
  }

  /** `moment(t).get(u)`: the millisecond of the second, the second of the minute, the
      minute of the hour, the hour of the day, and for 'day' the weekday (Sunday is 0). */
  function Field(t: int, u: Unit): (f: int)
    requires IsMomentUnit(u)
    ensures 0 <= f < Cycle(u)
  {
    (t / Length(u) + Phase(u)) % Cycle(u)
  }

  /** `moment(t).add(k, u)`. */
  function Add(t: int, k: int, u: Unit): int
    requires IsMomentUnit(u)
  {
    t + k * Length(u)
  }

  /** Going back `j` whole units from an aligned instant lowers its field by `j`, as long
      as the field does not wrap around. */
  lemma StepBack(s: int, j: int, u: Unit)
    requires IsMomentUnit(u) && s % Length(u) == 0
    requires 0 <= j <= Field(s, u)
    ensures Add(s, -j, u) % Length(u) == 0
    ensures Field(Add(s, -j, u), u) == Field(s, u) - j
  {
    var len, c := Length(u), Cycle(u);
    var b := s / len;
    assert s == b * len;
    assert Add(s, -j, u) == (b - j) * len;
    DivModUnique(Add(s, -j, u), len, b - j, 0);
    var q := b + Phase(u);
    var f := Field(s, u);
    assert q == (q / c) * c + f;
    DivModUnique(q - j, c, q / c, f - j);
  }

  function Abs(n: int): nat
  {
    if n < 0 then -n else n
  }

  /** `adjustMaxTime`: the start of the `u` containing `t`, moved back by its field value
      modulo `count`, so that the field becomes a multiple of `count`. JavaScript's `%`
      takes the sign of its left operand and the field is never negative, so a negative
      count snaps as its absolute value does. */
  function AdjustMaxTime(t: int, count: int, u: Unit): (r: int)
    requires IsMomentUnit(u) && count != 0
    ensures r <= t && r % Length(u) == 0
    ensures Field(r, u) % Abs(count) == 0
    ensures StartOf(t, u) - Abs(count) * Length(u) < r <= StartOf(t, u)
    ensures Abs(count) == 1 ==> r == StartOf(t, u)
  {
    var start := StartOf(t, u);
    var remainder := Field(start, u) % Abs(count);
    SnapFacts(start, Abs(count), u);
    Add(start, -1 * remainder, u)
  }

  lemma SnapFacts(start: int, count: int, u: Unit)
    requires IsMomentUnit(u) && count >= 1 && start % Length(u) == 0
    ensures var rem := Field(start, u) % count;
      && 0 <= rem <= Field(start, u)
      && Add(start, -rem, u) % Length(u) == 0
      && Field(Add(start, -rem, u), u) % count == 0
      && start - count * Length(u) < Add(start, -rem, u) <= start
      && (count == 1 ==> rem == 0)
  {
    var f := Field(start, u);
    var rem := f % count;
    ModAtMost(f, count);
    StepBack(start, rem, u);
    DivModUnique(f - rem, count, f / count, 0);
    MulAtLeast(count - rem, Length(u));
    if rem >= 1 {
      MulAtLeast(rem, Length(u));
    }
    if count == 1 {
      DivModUnique(f, 1, f, 0);
    }
  }

  /** An aligned instant no later than `t` lies a whole number of units below the
      start of the `u` containing `t`. */
  lemma AlignedBelow(t: int, u: Unit, x: int)
    requires IsMomentUnit(u) && x % Length(u) == 0 && x <= t
    ensures var j := (StartOf(t, u) - x) / Length(u); j >= 0 && x == Add(StartOf(t, u), -j, u)
  {
    var len := Length(u);
    var s := StartOf(t, u);
    assert x == (x / len) * len;
    assert s == (s / len) * len;
    assert s - x == (s / len - x / len) * len;
    DivModUnique(s - x, len, s / len - x / len, 0);
    MulSign(x / len - s / len, len);
  }

  /** No aligned instant after the snapped time and up to `t` has a field divisible by
      `count`: `adjustMaxTime` snaps to the nearest such instant below. */
  lemma AdjustMaxTimeNearest(t: int, count: int, u: Unit, x: int)
    requires IsMomentUnit(u) && count != 0
    requires x % Length(u) == 0 && AdjustMaxTime(t, count, u) < x <= t
    ensures Field(x, u) % Abs(count) != 0
  {
    var len := Length(u);
    var s := StartOf(t, u);
    var f := Field(s, u);
    var c := Abs(count);
    var rem := f % c;
    assert AdjustMaxTime(t, count, u) == s - rem * len;
    ModAtMost(f, c);
    AlignedBelow(t, u, x);
    var j := (s - x) / len;
    assert x == s - j * len;
    BelowBy(j, rem, len);
    StepBack(s, j, u);
    assert Field(x, u) == f - j;
    DivModUnique(f - j, c, f / c, rem - j);
  }

  /** Fewer units back means a later instant. */
  lemma BelowBy(j: int, rem: int, len: int)
    requires len >= 1 && rem * len > j * len
    ensures j < rem
  {
    assert (j - rem) * len == j * len - rem * len;
    MulSign(j - rem, len);
  }

  /** `a * c >= c` for positive `a` and `c`. */
  lemma {:induction false} MulAtLeast(a: int, c: int)
    requires a >= 1 && c >= 1
    ensures a * c >= c
    decreases a
  {
    if a > 1 {
      MulAtLeast(a - 1, c);
      assert a * c == (a - 1) * c + c;
    }
  }

  /** Euclidean quotient and remainder are unique. */
  lemma DivModUnique(x: int, c: int, q: int, r: int)
    requires c >= 1 && x == q * c + r && 0 <= r < c
    ensures x / c == q && x % c == r
  {
    var q', r' := x / c, x % c;
    assert x == q' * c + r';
    assert (q - q') * c == r' - r;
    MulSign(q - q', c);
  }

  /** The remainder of a natural number is at most the number. */
  lemma ModAtMost(f: int, c: int)
    requires f >= 0 && c >= 1
    ensures 0 <= f % c <= f && f == (f / c) * c + f % c
  {
    MulSign(f / c, c);
  }

  /** A product with a positive factor keeps the sign of the other factor. */
  lemma MulSign(a: int, c: int)
    requires c >= 1
    ensures a >= 1 ==> a * c >= c
    ensures a <= -1 ==> a * c <= -c
  {
    if a >= 1 {
      MulAtLeast(a, c);
    } else if a <= -1 {
      MulAtLeast(-a, c);
      assert a * c == -((-a) * c);
    }
  }

  /** Snapping an already snapped time changes nothing. */
  lemma AdjustMaxTimeIdempotent(t: int, count: int, u: Unit)
    requires IsMomentUnit(u) && count != 0
    ensures AdjustMaxTime(AdjustMaxTime(t, count, u), count, u) == AdjustMaxTime(t, count, u)
  {
    var r := AdjustMaxTime(t, count, u);
    assert StartOf(r, u) == r;
  }

  /** A negative count snaps exactly as its absolute value does. */
  lemma AdjustMaxTimeNegated(t: int, count: int, u: Unit)
    requires IsMomentUnit(u) && count != 0
    ensures AdjustMaxTime(t, -count, u) == AdjustMaxTime(t, count, u)
  {
  }

  /** The last multiple of five minutes since the epoch at or before `t`. */
  function FiveMinuteFloor(t: int): int
  {
    t - t % (5 * MinuteMs)
  }

  /** Snapping a minute timestamp to a five-minute field boundary is snapping it to a
      multiple of five minutes, since five divides the sixty minutes of an hour. */
  lemma FiveMinuteSnap(t: int)
    ensures AdjustMaxTime(t, 5, Minute) == t - t % (5 * MinuteMs)
  {
    var q, e := t / MinuteMs, t % MinuteMs;
    var b := q % 60;
    var a := q / 60;
    var c, d := b / 5, b % 5;
    assert Field(StartOf(t, Minute), Minute) == b;
    assert q == 5 * (12 * a + c) + d;
    DivModUnique(q, 5, 12 * a + c, d);
    assert t == 300000 * (12 * a + c) + (60000 * d + e);
    DivModUnique(t, 300000, 12 * a + c, 60000 * d + e);
  }
}
