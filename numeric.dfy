/**
 * Numbers as the Go code sees them: 64-bit signed integers with wrap-around,
 * `fmt.Sscanf(s, "%d", &v)`, and `util.Round(x, places)` on
 * amounts of money.
 */
module Numeric {
  import opened Wrappers
  import opened Text

  const MinInt64: int := -0x8000_0000_0000_0000
  const MaxInt64: int := 0x7FFF_FFFF_FFFF_FFFF
  const TwoTo64: int := 0x1_0000_0000_0000_0000

  predicate InInt64(n: int)
  {
    MinInt64 <= n <= MaxInt64
  }

  /** Two's-complement wrap-around of Go's `int` arithmetic. */
  function WrapInt64(n: int): (r: int)
    ensures InInt64(r)
    ensures (r - n) % TwoTo64 == 0
    ensures InInt64(n) ==> r == n
  {
    (n - MinInt64) % TwoTo64 + MinInt64
  }

  // ---------------------------------------------------------------- fmt.Sscanf "%d"

  /** The input after the blanks `fmt.Sscanf` skips before a number (not newlines). */
  function SkipBlanks(s: string): (r: string)
    ensures |r| <= |s| && r == s[|s| - |r|..]
    ensures r == [] || r[0] == '\n' || !IsSpace(r[0])
  {
    if s != [] && IsSpace(s[0]) && s[0] != '\n' then
      var r := SkipBlanks(s[1..]);
      assert s[1..][|s[1..]| - |r|..] == s[|s| - |r|..];
      r
    else s
  }

  /** The number of decimal digits at the start of `s`. */
  function LeadingDigits(s: string): (k: nat)
    ensures k <= |s| && AllDigits(s[..k])
    ensures k < |s| ==> !IsDigit(s[k])
  {
    if s != [] && IsDigit(s[0]) then
      var k := 1 + LeadingDigits(s[1..]);
      assert s[..k] == [s[0]] + s[1..][..k - 1];
      k
    else 0
  }

  /**
   * `fmt.Sscanf(s, "%d", &v)`: blanks, an optional sign, then the longest run of
   * digits, which must be present and fit in 64 bits. Text after the number is
   * ignored. On failure (`None`) Go leaves `v` untouched.
   */
  function ScanInt(s: string): (r: Option<int>)
    ensures r.Some? ==> InInt64(r.value)
  {
    var t := SkipBlanks(s);
    var signed := t != [] && (t[0] == '+' || t[0] == '-');
    var u := if signed then t[1..] else t;
    var k := LeadingDigits(u);
    if k == 0 then None
    else
      var magnitude := DigitsValue(u[..k]);
      var v: int := if signed && t[0] == '-' then 0 - magnitude else magnitude;
      if InInt64(v) then Some(v) else None
  }

  /** `fmt.Sscanf` into a variable that starts at zero. */
  function ScanIntOrZero(s: string): int
  {
    ScanInt(s).GetOr(0)
  }

  /** Scanning reads back any digit string whose value fits in 64 bits. */
  lemma ScanDigits(s: string)
    requires s != [] && AllDigits(s) && DigitsValue(s) <= MaxInt64
    ensures ScanInt(s) == Some(DigitsValue(s))
  {
    assert IsDigit(s[0]);
    assert !IsSpace(s[0]);
    assert SkipBlanks(s) == s;
    LeadingDigitsAll(s);
    assert s[..|s|] == s;
  }

  lemma {:induction false} LeadingDigitsAll(s: string)
    requires AllDigits(s)
    ensures LeadingDigits(s) == |s|
  {
    if s != [] {
      LeadingDigitsAll(s[1..]);
    }
  }

  /** `%0Nd` followed by `%d` is the identity on non-negative 64-bit numbers. */
  lemma ScanZeroPad(n: nat, width: int)
    requires n <= MaxInt64
    ensures ScanInt(ZeroPad(n, width)) == Some(n)
  {
    ScanDigits(ZeroPad(n, width));
  }

  // ---------------------------------------------------------------- util.Round

  /** The nearest integer, halves rounded away from zero (`math.Round`). */
  function RoundHalfAway(x: real): (r: int)
    ensures x >= 0.0 ==> r >= 0 && x - 0.5 < r as real <= x + 0.5
    ensures x < 0.0 ==> r <= 0 && x - 0.5 <= r as real < x + 0.5
  {
    if x >= 0.0 then (x + 0.5).Floor else -((-x + 0.5).Floor)
  }

  function Scale(places: nat): (s: real)
    ensures s >= 1.0
  {
    Pow10(places) as real
  }

  /** `util.Round(x, places)`: `x` rounded to `places` decimals, halves away from zero. */
  function Round(x: real, places: nat): (r: real)
    ensures -0.5 / Scale(places) <= r - x <= 0.5 / Scale(places)
    ensures IsMultipleOfUnit(r, places)
  {
    var k := RoundHalfAway(x * Scale(places));
    UnitsBounds(x * Scale(places), k, Scale(places));
    UnitsWhole(k, places);
    k as real / Scale(places)
  }

  /** Dividing a rounding of `y` back by the scale stays within half a unit of `y / s`. */
  lemma UnitsBounds(y: real, k: int, s: real)
    requires s >= 1.0 && k as real - 0.5 <= y <= k as real + 0.5
    ensures -0.5 / s <= k as real / s - y / s <= 0.5 / s
  {
    assert k as real / s - y / s == (k as real - y) / s;
  }

  lemma UnitsWhole(k: int, places: nat)
    ensures IsMultipleOfUnit(k as real / Scale(places), places)
  {
    var s := Scale(places);
    var r := k as real / s;
    var y := r * s;
    assert y == k as real;
    assert IsWhole(y);
    assert y == r * Scale(places);
  }

  predicate IsWhole(y: real)
  {
    y.Floor as real == y
  }

  /** `x` is a whole number of units of `10^-places`. */
  predicate IsMultipleOfUnit(x: real, places: nat)
  {
    IsWhole(x * Scale(places))
  }

  /** `Round` is the rounded count of units divided back by the scale. */
  lemma RoundIsQuotient(x: real, places: nat)
    ensures Round(x, places) == RoundHalfAway(x * Scale(places)) as real / Scale(places)
  {
  }

  /** Rounding an integer gives it back. */
  lemma RoundHalfAwayInteger(k: int)
    ensures RoundHalfAway(k as real) == k
  {
  }

  /** Rounding is idempotent: an already rounded amount is left as it is. */
  lemma RoundIdempotent(x: real, places: nat)
    requires IsMultipleOfUnit(x, places)
    ensures Round(x, places) == x
  {
    var s := Scale(places);
    var xs := x * s;
    assert xs == x * Scale(places);
    var k := xs.Floor;
    assert xs == k as real;
    RoundHalfAwayInteger(k);
    assert RoundHalfAway(x * Scale(places)) == k;
    assert k as real / s == x;
  }

  /** Rounding commutes with negation (halves go away from zero on both sides). */
  lemma RoundNegate(x: real, places: nat)
    ensures Round(-x, places) == -Round(x, places)
  {
    var s := Scale(places);
    var xs := x * s;
    assert (-x) * s == -xs;
    var k := RoundHalfAway(xs);
    assert RoundHalfAway(-xs) == -k;
    assert (-k) as real / s == -(k as real / s);
  }

  /** Sums and differences of rounded amounts stay rounded. */
  lemma MultipleOfUnitAdd(x: real, y: real, places: nat)
    requires IsMultipleOfUnit(x, places) && IsMultipleOfUnit(y, places)
    ensures IsMultipleOfUnit(x + y, places) && IsMultipleOfUnit(x - y, places)
  {
    var s := Scale(places);
    var xs, ys := x * s, y * s;
    assert xs == x * Scale(places) && ys == y * Scale(places);
    assert IsWhole(xs) && IsWhole(ys);
    WholeSum(x, y, s);
    var zs, ds := (x + y) * s, (x - y) * s;
    assert zs == (x + y) * Scale(places) && ds == (x - y) * Scale(places);
  }

  lemma WholeSum(x: real, y: real, s: real)
    requires IsWhole(x * s) && IsWhole(y * s)
    ensures IsWhole((x + y) * s) && IsWhole((x - y) * s)
  {
    Distributes(x, y, s);
    WholeAddSub(x * s, y * s);
  }

  lemma Distributes(x: real, y: real, s: real)
    ensures (x + y) * s == x * s + y * s && (x - y) * s == x * s - y * s
  {
  }

  lemma WholeAddSub(u: real, v: real)
    requires IsWhole(u) && IsWhole(v)
    ensures IsWhole(u + v) && IsWhole(u - v)
  {
    var a, b := u.Floor, v.Floor;
    IntIsWhole(a + b);
    IntIsWhole(a - b);
    assert u + v == (a + b) as real;
    assert u - v == (a - b) as real;
  }

  lemma IntIsWhole(n: int)
    ensures IsWhole(n as real)
  {
  }

  lemma ZeroIsMultipleOfUnit(places: nat)
    ensures IsMultipleOfUnit(0.0, places)
  {
  }
}
