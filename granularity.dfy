/** The route's granularity helpers: `adjustGranularity`, which coarsens a
    `"<count>_<UNIT>"` token, and `toMetricGranularity`, which maps its unit to a
    moment.js unit. */
module Granularity {
  import opened JsText
  import opened TimeAlign

  /** The two-element array `[count, unit]` both helpers build from a token: the count
      through `parseInt`, the unit as the second piece of `split('_')` (None when the
      token has no `_`, i.e. undefined). */
  datatype Token = Token(count: Number, unit: Option<string>)

  function Parse(s: string): (t: Token)
    ensures t.unit.Some? ==> '_' !in t.unit.value
  {
    var pieces := FirstTwoPieces(s, '_');
    Token(ParseInt(pieces.0), pieces.1)
  }

  /** How `+` renders the unit element: undefined becomes "undefined". */
  function UnitText(u: Option<string>): string
  {
    match u
    case None => "undefined"
    case Some(x) => x
  }

  /** `granularity[0] + "_" + granularity[1]`. */
  function Format(t: Token): string
  {
    NumberToString(t.count) + "_" + UnitText(t.unit)
  }

  predicate IsSubMinute(u: Option<string>)
  {
    u == Some("NANOSECONDS") || u == Some("MILLISECONDS") || u == Some("SECONDS")
  }

  /** `Math.max(count, 5)`, which is NaN when the count is. */
  function AtLeastFive(c: Number): Number
  {
    match c
    case NaN => NaN
    case Num(n) => Num(if n >= 5 then n else 5)
  }

  /** The two rewrites of `adjustGranularity`, applied one after the other. */
  function Coarsen(t: Token): Token
  {
    var t1 := if IsSubMinute(t.unit) then Token(Num(5), Some("MINUTES")) else t;
    if t1.unit == Some("MINUTES") then Token(AtLeastFive(t1.count), Some("MINUTES")) else t1
  }

  /** `adjustGranularity(attrGranularity)`. */
  function AdjustGranularity(s: string): (r: string)
    ensures IsSubMinute(Parse(s).unit) ==> r == "5_MINUTES"
    ensures Parse(s).unit == Some("MINUTES") ==>
      r == NumberToString(AtLeastFive(Parse(s).count)) + "_MINUTES"
    ensures !IsSubMinute(Parse(s).unit) && Parse(s).unit != Some("MINUTES") ==> r == Format(Parse(s))
  {
    CoarsenCases(Parse(s));
    Format(Coarsen(Parse(s)))
  }

  lemma CoarsenCases(t: Token)
    ensures IsSubMinute(t.unit) ==> Format(Coarsen(t)) == "5_MINUTES"
    ensures t.unit == Some("MINUTES") ==> Format(Coarsen(t)) == NumberToString(AtLeastFive(t.count)) + "_MINUTES"
    ensures !IsSubMinute(t.unit) && t.unit != Some("MINUTES") ==> Format(Coarsen(t)) == Format(t)
  {
    if IsSubMinute(t.unit) {
      assert Coarsen(t) == Token(Num(5), Some("MINUTES"));
      assert NumberToString(Num(5)) == "5";
    } else if t.unit == Some("MINUTES") {
      assert Coarsen(t) == Token(AtLeastFive(t.count), Some("MINUTES"));
    } else {
      assert Coarsen(t) == t;
    }
  }

  /** Reading back a formatted token gives its count and the text of its unit. */
  lemma ParseOfFormat(t: Token)
    requires t.unit.Some? ==> '_' !in t.unit.value
    ensures Parse(Format(t)) == Token(t.count, Some(UnitText(t.unit)))
  {
    NumberToStringHasNoUnderscore(t.count);
    assert Format(t) == NumberToString(t.count) + ['_'] + UnitText(t.unit);
    PiecesOfJoin(NumberToString(t.count), UnitText(t.unit), '_');
    ParseIntOfNumberToString(t.count);
  }

  /** A normalised token is never sub-minute, and a minute token counts at least five
      minutes (or is NaN, as `Math.max` leaves it). */
  lemma AdjustGranularityCoarse(s: string)
    ensures var g := Parse(AdjustGranularity(s));
      && !IsSubMinute(g.unit)
      && (g.unit == Some("MINUTES") ==> g.count.NaN? || g.count.n >= 5)
  {
    var t := Coarsen(Parse(s));
    CoarsenFacts(Parse(s));
    assert AdjustGranularity(s) == Format(t);
    ParseOfFormat(t);
    UnitTextKeepsClass(t.unit);
  }

  /** Rendering a unit that is not sub-minute keeps it so, and only MINUTES renders as
      MINUTES. */
  lemma UnitTextKeepsClass(u: Option<string>)
    requires !IsSubMinute(u)
    ensures !IsSubMinute(Some(UnitText(u)))
    ensures Some(UnitText(u)) == Some("MINUTES") ==> u == Some("MINUTES")
  {
    UndefinedIsNoUnit();
  }

  lemma UndefinedIsNoUnit()
    ensures !IsSubMinute(Some("undefined")) && Some("undefined") != Some("MINUTES")
    ensures UnitOf(Some("undefined")).None?
  {
  }

  /** What `Coarsen` guarantees of the unit and count it leaves behind. */
  lemma CoarsenFacts(t: Token)
    ensures !IsSubMinute(Coarsen(t).unit)
    ensures Coarsen(t).unit == Some("MINUTES") ==> Coarsen(t).count.NaN? || Coarsen(t).count.n >= 5
    ensures Coarsen(t).unit == Some("MINUTES") || Coarsen(t) == t
    ensures Coarsen(t).unit != Some("MINUTES") ==> !IsSubMinute(t.unit) && t.unit != Some("MINUTES")
  {
  }

  /** Normalising twice is normalising once. */
  lemma AdjustGranularityIdempotent(s: string)
    ensures AdjustGranularity(AdjustGranularity(s)) == AdjustGranularity(s)
  {
    var t := Coarsen(Parse(s));
    CoarsenFacts(Parse(s));
    assert AdjustGranularity(s) == Format(t);
    ParseOfFormat(t);
    var t' := Parse(Format(t));
    assert t'.count == t.count && UnitText(t'.unit) == UnitText(t.unit);
    UndefinedIsNoUnit();
    CoarsenFacts(t');
    assert Coarsen(t') == t';
    assert AdjustGranularity(Format(t)) == Format(Coarsen(t'));
  }

  /** A decimal `HOURS`, `DAYS` or other non-minute token comes back unchanged, and so
      does a minute token of five or more. */
  lemma AdjustGranularityKeeps(count: int, unit: string)
    requires '_' !in unit && !IsSubMinute(Some(unit))
    requires unit == "MINUTES" ==> count >= 5
    ensures AdjustGranularity(IntToString(count) + "_" + unit) == IntToString(count) + "_" + unit
  {
    ParseOfFormat(Token(Num(count), Some(unit)));
  }

  /** The value of the route's UNIT_MAPPING for a unit name; undefined for any other. */
  function UnitOf(name: Option<string>): Option<Unit>
  {
    match name
    case Some("NANOSECONDS") => Some(Nanosecond)
    case Some("MILLISECONDS") => Some(Millisecond)
    case Some("SECONDS") => Some(Second)
    case Some("MINUTES") => Some(Minute)
    case Some("HOURS") => Some(Hour)
    case Some("DAYS") => Some(Day)
    case _ => None
  }

  /** `[count, unit]` as `toMetricGranularity` returns it. */
  datatype MetricGranularity = MetricGranularity(count: Number, unit: Option<Unit>)

  /** `toMetricGranularity(attrGranularity)`. */
  function ToMetricGranularity(s: string): (g: MetricGranularity)
    ensures g.count == Parse(s).count
    ensures g.unit.Some? <==>
      (Parse(s).unit.Some? &&
       Parse(s).unit.value in {"NANOSECONDS", "MILLISECONDS", "SECONDS", "MINUTES", "HOURS", "DAYS"})
  {
    var t := Parse(s);
    MetricGranularity(t.count, UnitOf(t.unit))
  }

  /** A token the metric branch can snap by, as the metric metadata supplies it: one
      of the six unit names, and a count that survives normalisation as a non-zero
      number. Sub-minute counts are replaced by 5 and minute counts raised to at least
      5, so only a NaN minute count and a NaN or zero hour or day count are refused. */
  predicate WellFormed(s: string)
  {
    var t := Parse(s);
    && UnitOf(t.unit).Some?
    && (IsSubMinute(t.unit) || (t.count.Num? && (t.unit == Some("MINUTES") || t.count.n != 0)))
  }

  /** After normalisation a well-formed token names a minute, hour or day unit with a
      non-zero count, five or more for minutes. */
  lemma WellFormedAdjusted(s: string)
    requires WellFormed(s)
    ensures var g := ToMetricGranularity(AdjustGranularity(s));
      && g.count.Num? && g.count.n != 0
      && g.unit.Some? && g.unit.value in {Minute, Hour, Day}
      && (g.unit == Some(Minute) ==> g.count.n >= 5)
  {
    var t := Coarsen(Parse(s));
    CoarsenKnownUnit(Parse(s));
    var g := AdjustGranularity(s);
    assert g == Format(t);
    ParseOfFormat(t);
    assert ToMetricGranularity(g) == MetricGranularity(t.count, UnitOf(Some(UnitText(t.unit))));
  }

  lemma CoarsenKnownUnit(p: Token)
    requires UnitOf(p.unit).Some?
    requires IsSubMinute(p.unit) || (p.count.Num? && (p.unit == Some("MINUTES") || p.count.n != 0))
    ensures var t := Coarsen(p);
      && t.count.Num? && t.count.n != 0
      && UnitOf(Some(UnitText(t.unit))).Some?
      && UnitOf(Some(UnitText(t.unit))).value in {Minute, Hour, Day}
      && (UnitOf(Some(UnitText(t.unit))) == Some(Minute) ==> t.count.n >= 5)
  {
    if IsSubMinute(p.unit) {
    } else if p.unit == Some("MINUTES") {
    } else {
      assert p.unit == Some("HOURS") || p.unit == Some("DAYS");
    }
  }

  /** A decimal count, `_` and a unit name read back as that count and unit. */
  lemma ParseDecimal(s: string, n: int, unit: string)
    requires '_' !in unit && s == IntToString(n) + "_" + unit
    ensures Parse(s) == Token(Num(n), Some(unit))
  {
    NumberToStringHasNoUnderscore(Num(n));
    assert s == IntToString(n) + ['_'] + unit;
    PiecesOfJoin(IntToString(n), unit, '_');
    ParseIntOfIntToString(n);
  }

  /** A run of digits, `_` and a unit name read back as the digits' value and the
      unit, whatever zeros lead the digits. */
  lemma ParseDigits(d: string, unit: string)
    requires AllDigits(d) && |d| > 0 && '_' !in unit
    ensures Parse(d + "_" + unit) == Token(Num(DigitsValue(d)), Some(unit))
  {
    assert forall i :: 0 <= i < |d| ==> d[i] != '_';
    assert d + "_" + unit == d + ['_'] + unit;
    PiecesOfJoin(d, unit, '_');
    ParseIntOfDigits(d);
  }

  /** `"01_DAYS"` reads as one day. */
  lemma LeadingZeroDay(s: string)
    requires s == "01_DAYS"
    ensures Parse(s) == Token(Num(1), Some("DAYS"))
  {
    var d, unit := "01", "DAYS";
    assert s == d + "_" + unit;
    assert DigitsValue(d) == 1 by {
      assert d[..1] == "0";
      assert d[..1][..0] == [];
    }
    ParseDigits(d, unit);
  }

  /** A sub-minute token is coarsened to five minutes. */
  lemma SubMinuteAdjusted(s: string)
    requires IsSubMinute(Parse(s).unit)
    ensures Parse(AdjustGranularity(s)) == Token(Num(5), Some("MINUTES"))
  {
    var five := IntToString(5);
    assert five == "5";
    ParseDecimal(AdjustGranularity(s), 5, "MINUTES");
  }

  /** A `MINUTES` token maps to the moment.js minute unit with its count. */
  lemma MinutesGranularity(s: string, n: Number)
    requires Parse(s) == Token(n, Some("MINUTES"))
    ensures ToMetricGranularity(s) == MetricGranularity(n, Some(Minute))
  {
  }

  /** A token of any unit but a sub-minute one or `MINUTES` reads back unchanged once
      normalised. */
  lemma CoarseTokenKept(s: string)
    requires Parse(s).unit.Some? && !IsSubMinute(Parse(s).unit) && Parse(s).unit != Some("MINUTES")
    ensures Parse(AdjustGranularity(s)) == Parse(s)
  {
    ParseOfFormat(Parse(s));
  }

  /** An `HOURS` token maps to the moment.js hour unit with its count. */
  lemma HoursGranularity(s: string, n: Number)
    requires Parse(s) == Token(n, Some("HOURS"))
    ensures ToMetricGranularity(s) == MetricGranularity(n, Some(Hour))
  {
  }

  /** A `DAYS` token maps to the moment.js day unit with its count. */
  lemma DaysGranularity(s: string, n: Number)
    requires Parse(s) == Token(n, Some("DAYS"))
    ensures ToMetricGranularity(s) == MetricGranularity(n, Some(Day))
  {
  }

  /** Any token reading as one day (`"1_DAYS"`, but also `"01_DAYS"`) is normalised to
      `"1_DAYS"`, which reads as one day again. */
  lemma OneDayAdjusted(s: string)
    requires Parse(s) == Token(Num(1), Some("DAYS"))
    ensures AdjustGranularity(s) == "1_DAYS"
    ensures Parse(AdjustGranularity(s)) == Token(Num(1), Some("DAYS"))
  {
    CoarseTokenKept(s);
    assert AdjustGranularity(s) == Format(Token(Num(1), Some("DAYS")));
    OneDayFormat();
  }

  lemma OneDayFormat()
    ensures Format(Token(Num(1), Some("DAYS"))) == "1_DAYS"
  {
    var one := IntToString(1);
    assert one == "1";
  }

  /** A minute token is never the day token the metric branch displays hourly. */
  lemma MinutesIsNotOneDay(s: string)
    requires Parse(s).unit == Some("MINUTES")
    ensures s != "1_DAYS"
  {
    if s == "1_DAYS" {
      OneDayToken(s);
    }
  }

  lemma OneDayToken(s: string)
    requires s == "1_DAYS"
    ensures Parse(s) == Token(Num(1), Some("DAYS"))
  {
    var one := IntToString(1);
    assert one == "1";
    ParseDecimal(s, 1, "DAYS");
  }

  lemma ThirtySecondsToken(s: string)
    requires s == "30_SECONDS"
    ensures Parse(s) == Token(Num(30), Some("SECONDS"))
  {
    var thirty := IntToString(30);
    assert thirty == "30";
    ParseDecimal(s, 30, "SECONDS");
  }

  /** A token of seconds, whatever its count, is a well-formed, sub-minute token. */
  lemma SecondsToken(s: string)
    requires Parse(s).unit == Some("SECONDS")
    ensures WellFormed(s) && IsSubMinute(Parse(s).unit)
  {
  }
}
