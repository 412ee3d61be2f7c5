/**
  Scalar values as the reference tables hold them, and the Python operations the
  rule engine applies to them: `str()`, `==`, `isin` membership and
  `str.capitalize`.
 */
module Cells {

  /** A table cell as a CSV reader produces it. Floating-point cells are not modelled. */
  datatype Cell = Text(s: string) | Int(i: int) | Bool(b: bool) | NaN

  /** A request flag typed `Optional[bool]`: true, false or absent (`None`). */
  datatype Flag = Yes | No | Absent {
    /** Python truthiness: only `True` is truthy, `False` and `None` are not. */
    predicate Truthy() {
      this == Yes
    }
  }

  /** `str()` of an optional boolean flag. */
  function FlagText(f: Flag): (r: string)
    ensures r == "True" <==> f == Yes
    ensures r == "False" <==> f == No
    ensures r == "None" <==> f == Absent
  {
    match f
    case Yes => "True"
    case No => "False"
    case Absent => "None"
  }

  function Digit(d: nat): (c: char)
    requires d < 10
    ensures '0' <= c <= '9'
  {
    "0123456789"[d]
  }

  predicate IsDigit(c: char) {
    '0' <= c <= '9'
  }

  /** Decimal rendering of a natural number, as `str()` prints an int. */
  function NatToDecimal(n: nat): (r: string)
    ensures |r| > 0
    ensures forall k | 0 <= k < |r| :: IsDigit(r[k])
    ensures r[0] == '0' ==> n == 0
    decreases n
  {
    if n < 10 then [Digit(n)] else NatToDecimal(n / 10) + [Digit(n % 10)]
  }

  /** The number a string of decimal digits denotes. */
  function DecimalValue(s: string): nat
    requires forall k | 0 <= k < |s| :: IsDigit(s[k])
  {
    if |s| == 0 then 0
    else
      assert IsDigit(s[|s| - 1]);
      DecimalValue(s[..|s| - 1]) * 10 + (s[|s| - 1] as int - '0' as int)
  }

  /** Reading back the decimal rendering gives the number again, so `str()` is injective on ints. */
  lemma {:induction false} DecimalRoundTrip(n: nat)
    ensures DecimalValue(NatToDecimal(n)) == n
    decreases n
  {
    if n >= 10 {
      DecimalRoundTrip(n / 10);
      var r := NatToDecimal(n);
      assert r[..|r| - 1] == NatToDecimal(n / 10);
    }
  }

  /** `str()` of a cell; `astype(str)` applies it to a whole column. */
  function Str(c: Cell): string {
    match c
    case Text(s) => s
    case Int(i) => if i < 0 then "-" + NatToDecimal(-i) else NatToDecimal(i)
    case Bool(b) => if b then "True" else "False"
    case NaN => "nan"
  }

  /** Two natural numbers have the same decimal rendering only if they are equal. */
  lemma NatToDecimalInjective(x: nat, y: nat)
    requires NatToDecimal(x) == NatToDecimal(y)
    ensures x == y
  {
    DecimalRoundTrip(x);
    DecimalRoundTrip(y);
  }

  /** The rendering of an int starts with a minus sign exactly when the int is negative. */
  lemma StrIntSign(x: int)
    ensures |Str(Int(x))| > 0
    ensures Str(Int(x))[0] == '-' <==> x < 0
    ensures x < 0 ==> Str(Int(x))[1..] == NatToDecimal(-x)
  {
  }

  /** Two integer cells print alike exactly when they are the same number. */
  lemma StrIntInjective(x: int, y: int)
    ensures Str(Int(x)) == Str(Int(y)) <==> x == y
  {
    if Str(Int(x)) == Str(Int(y)) {
      StrIntSign(x);
      StrIntSign(y);
      if x < 0 {
        NatToDecimalInjective(-x, -y);
      } else {
        NatToDecimalInjective(x, y);
      }
    }
  }

  function BoolAsInt(b: bool): int {
    if b then 1 else 0
  }

  /**
    Python's `==` between two scalars, which pandas also applies when a column
    is compared with a scalar: NaN equals nothing, not even NaN; `True == 1`
    and `False == 0`; a string never equals a number.
   */
  predicate PyEq(a: Cell, b: Cell) {
    match (a, b)
    case (Text(x), Text(y)) => x == y
    case (Int(x), Int(y)) => x == y
    case (Bool(x), Bool(y)) => x == y
    case (Int(x), Bool(y)) => x == BoolAsInt(y)
    case (Bool(x), Int(y)) => BoolAsInt(x) == y
    case _ => false
  }

  /** pandas' `isin` membership test: like `==`, except that missing values match each other. */
  predicate IsinEq(a: Cell, b: Cell) {
    PyEq(a, b) || (a == NaN && b == NaN)
  }

  /** Equality and `isin` agree with plain identity on text cells, and never confuse text with anything else. */
  lemma TextEquality(a: Cell, t: string)
    ensures PyEq(a, Text(t)) <==> a == Text(t)
    ensures IsinEq(a, Text(t)) <==> a == Text(t)
  {
  }

  function UpperAscii(c: char): char {
    if 'a' <= c <= 'z' then (c as int - 32) as char else c
  }

  function LowerAscii(c: char): char {
    if 'A' <= c <= 'Z' then (c as int + 32) as char else c
  }

  function LowerAll(s: string): (r: string)
    ensures |r| == |s|
    ensures forall k | 0 <= k < |s| :: r[k] == LowerAscii(s[k])
  {
    if |s| == 0 then "" else [LowerAscii(s[0])] + LowerAll(s[1..])
  }

  /** Python's `str.capitalize` on ASCII text: the first letter upper-case, every other letter lower-case. */
  function Capitalize(s: string): (r: string)
    ensures |r| == |s|
    ensures |s| > 0 ==> r[0] == UpperAscii(s[0])
    ensures forall k | 1 <= k < |s| :: r[k] == LowerAscii(s[k])
  {
    if |s| == 0 then "" else [UpperAscii(s[0])] + LowerAll(s[1..])
  }

  /** The textual form of a flag is already capitalized, so the filter's `capitalize()` leaves it alone. */
  lemma CapitalizeFlagText(f: Flag)
    ensures Capitalize(FlagText(f)) == FlagText(f)
  {
  }
}
