/** Number-to-text conversions used by the exposition lines: Python's
    `str(int)`, `int(float)` (truncation) and fixed-point `f"{v:.Nf}"`,
    each with a reader that takes the text back to its value. */
module Numerals {
  import opened Wrappers
  import opened Text

  predicate IsDigit(c: char) { '0' <= c <= '9' }

  predicate AllDigits(s: string) { forall i :: 0 <= i < |s| ==> IsDigit(s[i]) }

  function DigitChar(d: nat): (c: char)
    requires d < 10
    ensures IsDigit(c) && c as int - '0' as int == d
  {
    (d + '0' as int) as char
  }

  function DigitValue(c: char): nat
    requires IsDigit(c)
  {
    c as int - '0' as int
  }

  function Pow10(p: nat): (r: nat)
    ensures r >= 1
  {
    if p == 0 then 1 else 10 * Pow10(p - 1)
  }

  /** `n` with `p` zero digits appended, that is n * 10^p. */
  function Shift(n: nat, p: nat): (r: nat)
    ensures n == 0 ==> r == 0
  {
    if p == 0 then n else 10 * Shift(n, p - 1)
  }

  /** `x` with its point moved `p` places to the right, that is x * 10^p. */
  function Scale(x: real, p: nat): (r: real)
    ensures x >= 0.0 ==> r >= 0.0
  {
    if p == 0 then x else 10.0 * Scale(x, p - 1)
  }

  lemma {:induction false} ShiftIsProduct(n: nat, p: nat)
    ensures Shift(n, p) == n * Pow10(p)
  {
    if p > 0 {
      ShiftIsProduct(n, p - 1);
      MulTen(n, Pow10(p - 1));
    }
  }

  lemma MulTen(x: int, y: int)
    ensures 10 * (x * y) == x * (10 * y)
  {
  }

  lemma {:induction false} ScaleIsProduct(x: real, p: nat)
    ensures Scale(x, p) == x * Pow10(p) as real
  {
    if p > 0 {
      ScaleIsProduct(x, p - 1);
      assert 10.0 * (x * Pow10(p - 1) as real) == x * (10 * Pow10(p - 1)) as real;
    }
  }

  lemma {:induction false} ScaleNegate(x: real, p: nat)
    ensures Scale(-x, p) == -Scale(x, p)
  {
    if p > 0 {
      ScaleNegate(x, p - 1);
    }
  }

  function Abs(x: real): real { if x < 0.0 then -x else x }

  /** Python's `max` and `min` on two floats. */
  function Max(a: real, b: real): real { if a >= b then a else b }

  function Min(a: real, b: real): real { if a <= b then a else b }

  /** Decimal digits of `n`, most significant first, without leading zeros:
      Python's `str(n)` for a non-negative int. */
  function NatToString(n: nat): (s: string)
    ensures |s| >= 1 && AllDigits(s)
  {
    if n < 10 then [DigitChar(n)] else NatToString(n / 10) + [DigitChar(n % 10)]
  }

  /** Python's `str(i)` for any int. */
  function IntToString(i: int): string
  {
    if i < 0 then "-" + NatToString(-i) else NatToString(i)
  }

  /** The number a string of decimal digits denotes (leading zeros allowed). */
  function DigitsValue(s: string): nat
    requires AllDigits(s)
  {
    if s == [] then 0 else 10 * DigitsValue(s[..|s| - 1]) + DigitValue(s[|s| - 1])
  }

  /** Reads integer text back: an optional minus sign, then one or more digits. */
  function ParseInt(s: string): Option<int>
  {
    if |s| >= 2 && s[0] == '-' && AllDigits(s[1..]) then Some(-(DigitsValue(s[1..]) as int))
    else if |s| >= 1 && AllDigits(s) then Some(DigitsValue(s) as int)
    else None
  }

  lemma {:induction false} NatToStringValue(n: nat)
    ensures DigitsValue(NatToString(n)) == n
  {
    if n >= 10 {
      var s := NatToString(n);
      assert s[..|s| - 1] == NatToString(n / 10);
      NatToStringValue(n / 10);
    } else {
      var s := NatToString(n);
      assert s[..|s| - 1] == [];
    }
  }

  /** Integer text is read back as the integer it was made from. */
  lemma IntToStringRoundTrip(i: int)
    ensures ParseInt(IntToString(i)) == Some(i)
  {
    if i < 0 {
      var s := IntToString(i);
      assert s[1..] == NatToString(-i);
      NatToStringValue(-i);
    } else {
      NatToStringValue(i);
    }
  }

  /** Distinct integers have distinct texts. */
  lemma IntToStringInjective(i: int, j: int)
    ensures IntToString(i) == IntToString(j) ==> i == j
  {
    IntToStringRoundTrip(i);
    IntToStringRoundTrip(j);
  }

  /** Rounds to the nearest integer; an exact half goes to the even neighbour. */
  function RoundHalfEven(x: real): (q: int)
    ensures -0.5 <= q as real - x <= 0.5
    ensures x >= 0.0 ==> q >= 0
  {
    var f := x.Floor;
    var d := x - f as real;
    if d < 0.5 then f else if d > 0.5 then f + 1 else if f % 2 == 0 then f else f + 1
  }

  /** Python's `int(x)` on a float: truncation toward zero. */
  function Trunc(x: real): (r: int)
    ensures 0.0 <= x ==> 0 <= r && r as real <= x < r as real + 1.0
    ensures x < 0.0 ==> r <= 0 && x <= r as real < x + 1.0
  {
    if x >= 0.0 then x.Floor else -((-x).Floor)
  }

  /** `|v|` in units of the last of `places` decimal places, rounded half to even. */
  function ScaledMagnitude(v: real, places: nat): nat
  {
    RoundHalfEven(Scale(Abs(v), places))
  }

  /** `f"{v:.Nf}"` with N = `places`: an optional minus sign, the whole part,
      a point and exactly `places` fraction digits of `|v|` rounded at that place. */
  function FixedPoint(v: real, places: nat): string
    requires places >= 1
  {
    var q := ScaledMagnitude(v, places);
    (if v < 0.0 then "-" else "") + Unsigned(q, places)
  }

  /** The unsigned text of `q` units of the last of `places` decimal places:
      the whole units, a point and the remaining `places` digits. */
  function Unsigned(q: nat, places: nat): string
  {
    NatToString(WholeUnits(q, places)) + "." + LastDigits(q, places)
  }

  /** `q` with its last `places` decimal digits dropped. */
  function WholeUnits(q: nat, places: nat): nat
  {
    if places == 0 then q else WholeUnits(q / 10, places - 1)
  }

  /** The last `places` decimal digits of `q`, leading zeros included. */
  function LastDigits(q: nat, places: nat): (s: string)
    ensures |s| == places && AllDigits(s)
  {
    if places == 0 then "" else LastDigits(q / 10, places - 1) + [DigitChar(q % 10)]
  }

  /** Text made only of digits, minus signs and points, as every number
      the renderers write is. */
  predicate NumberText(s: string)
  {
    forall i :: 0 <= i < |s| ==> IsDigit(s[i]) || s[i] == '-' || s[i] == '.'
  }

  lemma IntToStringNumber(i: int)
    ensures NumberText(IntToString(i))
  {
  }

  lemma FixedPointNumber(v: real, places: nat)
    requires places >= 1
    ensures NumberText(FixedPoint(v, places))
  {
  }

  /** The whole units shifted back past the last digits give `q` again. */
  lemma {:induction false} WholeAndLastDigits(q: nat, places: nat)
    ensures Shift(WholeUnits(q, places), places) + DigitsValue(LastDigits(q, places)) == q
  {
    if places > 0 {
      WholeAndLastDigits(q / 10, places - 1);
      var s := LastDigits(q, places);
      assert s[..|s| - 1] == LastDigits(q / 10, places - 1);
    }
  }

  /** A decimal number as written: `units` in the last of `places` decimal
      places, so it stands for units / 10^places. */
  datatype Decimal = Decimal(units: int, places: nat)

  /** Reads fixed-point text back: optional minus, digits, a point, digits. */
  function ParseFixed(s: string): Option<Decimal>
  {
    if |s| >= 1 && s[0] == '-' then
      match ParseUnsignedFixed(s[1..])
      case Some(d) => Some(Decimal(-d.units, d.places))
      case None => None
    else ParseUnsignedFixed(s)
  }

  function ParseUnsignedFixed(s: string): Option<Decimal>
  {
    var i := IndexOf(s, '.');
    if 1 <= i && i + 1 < |s| && AllDigits(s[..i]) && AllDigits(s[i + 1..]) then
      Some(Decimal(Shift(DigitsValue(s[..i]), |s| - i - 1) + DigitsValue(s[i + 1..]), |s| - i - 1))
    else None
  }

  /** Number of characters after the first point of `s`. */
  function FractionDigits(s: string): int
  {
    |s| - IndexOf(s, '.') - 1
  }

  /** Digits, a point and digits read back as the units they spell out. */
  lemma ParseDigitsPointDigits(u: string, ws: string, fs: string)
    requires |ws| >= 1 && |fs| >= 1 && AllDigits(ws) && AllDigits(fs)
    requires u == ws + "." + fs
    ensures IsDigit(u[0])
    ensures FractionDigits(u) == |fs|
    ensures ParseUnsignedFixed(u) == Some(Decimal(Shift(DigitsValue(ws), |fs|) + DigitsValue(fs), |fs|))
  {
    assert '.' !in ws by {
      forall j | 0 <= j < |ws| ensures ws[j] != '.' { assert IsDigit(ws[j]); }
    }
    IndexOfAfter(ws, '.', fs);
    ParseAtPoint(u, ws, fs);
  }

  lemma ParseAtPoint(u: string, ws: string, fs: string)
    requires |ws| >= 1 && |fs| >= 1 && AllDigits(ws) && AllDigits(fs)
    requires u == ws + "." + fs && IndexOf(u, '.') == |ws|
    ensures ParseUnsignedFixed(u) == Some(Decimal(Shift(DigitsValue(ws), |fs|) + DigitsValue(fs), |fs|))
  {
    var i := IndexOf(u, '.');
    assert u[..i] == ws;
    assert u[i + 1..] == fs;
  }

  /** The unsigned text of `q` units reads back as `q` units at `places` places. */
  lemma UnsignedRoundTrip(q: nat, places: nat)
    requires places >= 1
    ensures var u := Unsigned(q, places);
      && FractionDigits(u) == places
      && IsDigit(u[0])
      && ParseUnsignedFixed(u) == Some(Decimal(q, places))
  {
    var w := WholeUnits(q, places);
    var ws := NatToString(w);
    var fs := LastDigits(q, places);
    WholeAndLastDigits(q, places);
    NatToStringValue(w);
    ParseDigitsPointDigits(Unsigned(q, places), ws, fs);
  }

  /** A leading minus sign negates what the unsigned text reads as. */
  lemma NegatedParse(u: string)
    requires |u| >= 1 && IsDigit(u[0]) && ParseUnsignedFixed(u).Some?
    ensures ParseFixed(u) == ParseUnsignedFixed(u)
    ensures var d := ParseUnsignedFixed(u).value;
      ParseFixed("-" + u) == Some(Decimal(-d.units, d.places))
    ensures FractionDigits("-" + u) == FractionDigits(u)
  {
    var r := "-" + u;
    assert r[1..] == u;
    assert r == [r[0]] + u;
    IndexOfAfter([], '-', u);
    assert IndexOf(r, '.') == IndexOf(u, '.') + 1;
  }

  /** The signed count of units that fixed-point text of `v` stands for. */
  function SignedUnits(v: real, places: nat): int
  {
    if v < 0.0 then -(ScaledMagnitude(v, places) as int) else ScaledMagnitude(v, places)
  }

  lemma ScaledMagnitudeBound(v: real, places: nat)
    ensures -0.5 <= ScaledMagnitude(v, places) as real - Scale(Abs(v), places) <= 0.5
  {
  }

  /** The signed count of units is `v` scaled to the last place and rounded:
      it differs from `v * 10^places` by at most a half. */
  lemma SignedUnitsBound(v: real, places: nat)
    ensures -0.5 <= SignedUnits(v, places) as real - Scale(v, places) <= 0.5
  {
    ScaledMagnitudeBound(v, places);
    if v < 0.0 {
      ScaleNegate(-v, places);
    }
  }

  /** Fixed-point text has exactly `places` digits after its point and reads
      back as the signed count of units it was made from. */
  lemma FixedPointRoundTrip(v: real, places: nat)
    requires places >= 1
    ensures FractionDigits(FixedPoint(v, places)) == places
    ensures ParseFixed(FixedPoint(v, places)) == Some(Decimal(SignedUnits(v, places), places))
  {
    var q := ScaledMagnitude(v, places);
    var u := Unsigned(q, places);
    UnsignedRoundTrip(q, places);
    NegatedParse(u);
    if v < 0.0 {
      assert FixedPoint(v, places) == "-" + u;
    } else {
      assert FixedPoint(v, places) == u;
    }
  }

  /** What fixed-point text reads back as is within half a unit in the last
      place of the number it was made from. */
  lemma FixedPointAccuracy(v: real, places: nat)
    requires places >= 1
    ensures var d := ParseFixed(FixedPoint(v, places));
      && d.Some? && d.value.places == places
      && -0.5 <= d.value.units as real - Scale(v, places) <= 0.5
  {
    FixedPointRoundTrip(v, places);
    SignedUnitsBound(v, places);
  }
}
