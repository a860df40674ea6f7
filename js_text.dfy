/** The few JavaScript string and number behaviours the root-cause route relies on:
    `parseInt(s, 10)`, `String(n)` for an integer-valued number, the first two pieces
    of `s.split(sep)`, and `startsWith`. */
module JsText {

  datatype Option<T> = None | Some(value: T)

  /** A JavaScript number as `parseInt` produces it: an integer, or NaN. */
  datatype Number = Num(n: int) | NaN

  predicate IsDigit(c: char) { '0' <= c <= '9' }

  predicate AllDigits(s: string) { forall i :: 0 <= i < |s| ==> IsDigit(s[i]) }

  /** The ASCII whitespace that `parseInt` skips before the number. */
  predicate IsWhitespace(c: char)
  {
    c == ' ' || c == '\t' || c == '\n' || c == '\r' || c as int == 11 || c as int == 12
  }

  function DigitValue(c: char): nat
    requires IsDigit(c)
  {
    c as int - '0' as int
  }

  function DigitChar(d: nat): (c: char)
    requires d < 10
    ensures IsDigit(c) && DigitValue(c) == d
  {
    ('0' as int + d) as char
  }

  /** Decimal rendering of a natural number, without leading zeros. */
  function NatToString(n: nat): (s: string)
    ensures |s| > 0 && AllDigits(s)
    ensures s[0] != '-' && s[0] != '_'
    decreases n
  {
    if n < 10 then [DigitChar(n)] else NatToString(n / 10) + [DigitChar(n % 10)]
  }

  /** `String(n)` for an integer-valued JavaScript number. */
  function IntToString(n: int): (s: string)
  {
    if n < 0 then "-" + NatToString(-n) else NatToString(n)
  }

  /** `String(x)` for a number that came out of `parseInt`. */
  function NumberToString(x: Number): (s: string)
  {
    match x
    case NaN => "NaN"
    case Num(n) => IntToString(n)
  }

  /** The value of a run of decimal digits, read most significant first. */
  function DigitsValue(s: string): nat
    requires AllDigits(s)
  {
    if s == [] then 0 else DigitsValue(s[..|s| - 1]) * 10 + DigitValue(s[|s| - 1])
  }

  /** Length of the longest prefix of `s` made of decimal digits. */
  function DigitRun(s: string): (k: nat)
    ensures k <= |s|
    ensures forall i :: 0 <= i < k ==> IsDigit(s[i])
    ensures k < |s| ==> !IsDigit(s[k])
  {
    if s == [] || !IsDigit(s[0]) then 0 else 1 + DigitRun(s[1..])
  }

  /** `s` with its leading whitespace removed. */
  function TrimStart(s: string): (t: string)
    ensures |t| <= |s| && t == s[|s| - |t|..]
    ensures t != [] ==> !IsWhitespace(t[0])
  {
    if s != [] && IsWhitespace(s[0]) then TrimStart(s[1..]) else s
  }

  /** `parseInt(s, 10)`: leading whitespace, an optional sign, then the longest run of
      digits; NaN when there is no digit. */
  function ParseInt(s: string): (r: Number)
  {
    var t := TrimStart(s);
    var negative := |t| > 0 && t[0] == '-';
    var body := if |t| > 0 && (t[0] == '-' || t[0] == '+') then t[1..] else t;
    var k := DigitRun(body);
    var v: int := if k == 0 then 0 else DigitsValue(body[..k]);
    if k == 0 then NaN else Num(if negative then -v else v)
  }

  /** Index of the first `c` in `s`, or `|s|` when there is none. */
  function IndexOf(s: string, c: char): (i: nat)
    ensures i <= |s|
    ensures forall j :: 0 <= j < i ==> s[j] != c
    ensures i < |s| ==> s[i] == c
  {
    if s == [] then 0 else if s[0] == c then 0 else 1 + IndexOf(s[1..], c)
  }

  /** The first two pieces of `s.split(sep)`, as `const [a, b] = s.split(sep)` binds them;
      the second is `None` (undefined) when `s` holds no `sep`. */
  function FirstTwoPieces(s: string, sep: char): (r: (string, Option<string>))
    ensures sep !in r.0 && (r.1.Some? ==> sep !in r.1.value)
    ensures r.1.None? <==> sep !in s
    ensures r.1.None? ==> r.0 == s
    ensures r.1.Some? ==>
      var n := |r.0| + 1 + |r.1.value|;
      && n <= |s| && s[..|r.0|] == r.0 && s[|r.0|] == sep
      && s[|r.0| + 1..n] == r.1.value
      && (n == |s| || s[n] == sep)
  {
    var i := IndexOf(s, sep);
    if i == |s| then (s, None)
    else
      var rest := s[i + 1..];
      (s[..i], Some(rest[..IndexOf(rest, sep)]))
  }

  predicate StartsWith(s: string, prefix: string)
  {
    |prefix| <= |s| && s[..|prefix|] == prefix
  }

  /** Splitting a string built around one separator gives back its two parts. */
  lemma PiecesOfJoin(a: string, b: string, sep: char)
    requires sep !in a && sep !in b
    ensures FirstTwoPieces(a + [sep] + b, sep) == (a, Some(b))
  {
    var s := a + [sep] + b;
    var i := IndexOf(s, sep);
    assert s[|a|] == sep;
    assert i == |a|;
    assert s[..i] == a;
    var rest := s[i + 1..];
    assert rest == b;
    assert IndexOf(rest, sep) == |b|;
    assert rest[..|b|] == b;
  }

  lemma {:induction false} DigitRunOfDigits(s: string)
    requires AllDigits(s)
    ensures DigitRun(s) == |s|
  {
    if s != [] {
      DigitRunOfDigits(s[1..]);
    }
  }

  lemma {:induction false} DigitsValueOfNatToString(n: nat)
    ensures DigitsValue(NatToString(n)) == n
    decreases n
  {
    var s := NatToString(n);
    if n >= 10 {
      DigitsValueOfNatToString(n / 10);
      assert s[..|s| - 1] == NatToString(n / 10);
    }
  }

  /** `parseInt(String(n), 10) === n` for every integer `n`. */
  lemma ParseIntOfIntToString(n: int)
    ensures ParseInt(IntToString(n)) == Num(n)
  {
    var m: nat := if n < 0 then -n else n;
    var digits := NatToString(m);
    var s := IntToString(n);
    DigitRunOfDigits(digits);
    DigitsValueOfNatToString(m);
    assert digits[..|digits|] == digits;
    assert !IsWhitespace(s[0]);
    assert TrimStart(s) == s;
    var body := if s[0] == '-' || s[0] == '+' then s[1..] else s;
    assert body == digits;
    assert DigitRun(body) == |digits|;
  }

  /** `parseInt(d, 10)` of a non-empty run of digits, leading zeros allowed, is the
      value of the run. */
  lemma ParseIntOfDigits(d: string)
    requires AllDigits(d) && |d| > 0
    ensures ParseInt(d) == Num(DigitsValue(d))
  {
    DigitRunOfDigits(d);
    assert !IsWhitespace(d[0]);
    assert TrimStart(d) == d;
    assert d[..|d|] == d;
  }

  /** `parseInt(String(x), 10)` gives `x` back, NaN included. */
  lemma ParseIntOfNumberToString(x: Number)
    ensures ParseInt(NumberToString(x)) == x
  {
    if x.Num? {
      ParseIntOfIntToString(x.n);
    }
  }

  lemma NumberToStringHasNoUnderscore(x: Number)
    ensures '_' !in NumberToString(x)
  {
    if x.Num? {
      var d := NatToString(if x.n < 0 then -x.n else x.n);
      assert forall i :: 0 <= i < |d| ==> d[i] != '_';
      assert NumberToString(x) == (if x.n < 0 then "-" + d else d);
    }
  }
}
