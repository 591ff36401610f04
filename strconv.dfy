/**
 * The two `strconv` conversions the product import reads its numbers with, as
 * the import uses them: the error is dropped and only the value is kept.
 */
module Strconv {
  import opened Wrappers
  import opened Text
  import Numeric

  /** The bounds of Go's `int` on a 64-bit platform. */
  const MaxInt: int := 0x7FFF_FFFF_FFFF_FFFF
  const MinInt: int := -0x8000_0000_0000_0000

  /** A leading '+' or '-' is dropped; the rest must be the digits. */
  function Unsigned(s: string): string
  {
    if |s| > 0 && (s[0] == '-' || s[0] == '+') then s[1..] else s
  }

  predicate Negative(s: string)
  {
    |s| > 0 && s[0] == '-'
  }

  /** The largest value `strconv.ParseUint` holds in 64 bits. */
  const MaxUint64: int := 0xFFFF_FFFF_FFFF_FFFF

  /** The run of digits at the start of `s`. */
  function DigitRun(s: string): (r: string)
    ensures AllDigits(r) && |r| <= |s| && r == s[..|r|]
    ensures |r| < |s| ==> !IsDigit(s[|r|])
  {
    s[..Numeric.LeadingDigits(s)]
  }

  /**
   * The value `strconv.Atoi(s)` returns beside its error. After the sign, the
   * digits are read from the left (`ParseUint`): a digit that takes the value
   * past 64 bits is a range error at once, and the result is the nearest bound
   * of `int`, whatever follows; a character other than a digit met before that
   * (white space included), a lone sign or an empty string is a syntax error,
   * and the result is 0. Strings of fewer than 19 bytes, which take `Atoi`'s
   * fast path, cannot reach the bound, so the rule covers them too.
   */
  function AtoiValue(s: string): (v: int)
    ensures MinInt <= v <= MaxInt
  {
    var body := Unsigned(s);
    if DigitsValue(DigitRun(body)) > MaxUint64 then (if Negative(s) then MinInt else MaxInt)
    else if body == [] || !AllDigits(body) then 0
    else
      var m: int := DigitsValue(body);
      if Negative(s) then (if m > -MinInt then MinInt else -m)
      else if m > MaxInt then MaxInt else m
  }

  /**
   * Digits whose value does not fit in 64 unsigned bits clamp to the bound of
   * their sign, whatever text follows them: the range error comes before any
   * syntax error.
   */
  lemma AtoiOverflowIgnoresTail(digits: string, rest: string)
    requires AllDigits(digits) && DigitsValue(digits) > MaxUint64
    ensures AtoiValue(digits + rest) == MaxInt
    ensures AtoiValue("-" + (digits + rest)) == MinInt
  {
    var s := digits + rest;
    assert s[0] == digits[0];
    assert Unsigned(s) == s;
    RunCoversDigits(digits, rest);
    OverflowClamps(s);
    MinusSign(s);
    OverflowClamps("-" + s);
  }

  /** A leading minus is read as the sign and dropped from the digits. */
  lemma MinusSign(s: string)
    ensures Negative("-" + s) && Unsigned("-" + s) == s
  {
    assert ("-" + s)[1..] == s;
  }

  /** A digit run past 64 bits decides `Atoi` by the sign alone. */
  lemma OverflowClamps(s: string)
    requires DigitsValue(DigitRun(Unsigned(s))) > MaxUint64
    ensures AtoiValue(s) == if Negative(s) then MinInt else MaxInt
  {
  }

  /** The digit run of `digits + rest` extends `digits`, so its value is at least theirs. */
  lemma RunCoversDigits(digits: string, rest: string)
    requires AllDigits(digits)
    ensures DigitsValue(DigitRun(digits + rest)) >= DigitsValue(digits)
  {
    var s := digits + rest;
    var run := DigitRun(s);
    RunAtLeast(s, |digits|);
    assert run == digits + run[|digits|..];
    DigitsValueGrows(digits, run[|digits|..]);
  }

  /** Digits at the front of a string lie inside its digit run. */
  lemma {:induction false} RunAtLeast(s: string, k: nat)
    requires k <= |s| && AllDigits(s[..k])
    ensures |DigitRun(s)| >= k
  {
    if k > 0 {
      assert IsDigit(s[..k][0]);
      assert s[1..][..k - 1] == s[..k][1..];
      RunAtLeast(s[1..], k - 1);
    }
  }

  /** Appending digits never lowers the value. */
  lemma {:induction false} DigitsValueGrows(a: string, b: string)
    requires AllDigits(a) && AllDigits(b)
    ensures DigitsValue(a + b) >= DigitsValue(a)
  {
    if b != [] {
      var b' := b[..|b| - 1];
      assert (a + b)[..|a + b| - 1] == a + b';
      DigitsValueGrows(a, b');
    } else {
      assert a + b == a;
    }
  }

  /** Every `int` printed in decimal reads back as itself. */
  lemma AtoiIntToString(n: int)
    requires MinInt <= n <= MaxInt
    ensures AtoiValue(IntToString(n)) == n
  {
    var body := Unsigned(IntToString(n));
    if n < 0 {
      var d := NatToString(-n);
      assert ("-" + d)[1..] == d;
    }
    Numeric.LeadingDigitsAll(body);
    assert DigitRun(body) == body;
  }

  /** A number with a leading character that is neither a sign nor a digit, such as a space, reads as 0. */
  lemma AtoiUntrimmed(s: string)
    requires |s| > 0 && !IsDigit(s[0]) && s[0] != '-' && s[0] != '+'
    ensures AtoiValue(s) == 0
  {
  }

  /** The value of digits `ip` before and `fp` after a decimal point. */
  function DecimalValue(ip: string, fp: string): (r: real)
    requires AllDigits(ip) && AllDigits(fp)
    ensures r >= 0.0
  {
    DigitsValue(ip) as real + DigitsValue(fp) as real / Pow10(|fp|) as real
  }

  /**
   * `strconv.ParseFloat(s, 64)` on the plain decimal notation: an optional sign,
   * then digits with at most one decimal point and at least one digit. `None`
   * stands for the syntax error.
   */
  function ParseDecimal(s: string): (r: Option<real>)
  {
    var body := Unsigned(s);
    var dot := FirstIndexOfChar(body, '.');
    var ip := body[..dot];
    var fp := if dot < |body| then body[dot + 1..] else "";
    if !AllDigits(ip) || !AllDigits(fp) || (ip == [] && fp == []) then None
    else
      var m := DecimalValue(ip, fp);
      Some(if Negative(s) then -m else m)
  }

  /** The value `ParseFloat` returns beside its error: 0 on a syntax error. */
  function ParseFloatValue(s: string): real
  {
    ParseDecimal(s).GetOr(0.0)
  }

  /** A point and a comma are alike once the comma is replaced: "10,50" reads as 10.5. */
  lemma DecimalComma(ip: string, fp: string)
    requires AllDigits(ip) && AllDigits(fp) && ip != []
    ensures ParseFloatValue(ReplaceAllChar(ip + [','] + fp, ',', '.')) == DecimalValue(ip, fp)
    ensures ParseFloatValue(ReplaceAllChar(ip + ['.'] + fp, ',', '.')) == DecimalValue(ip, fp)
  {
    CommaReplaced(ip, fp, ',');
    CommaReplaced(ip, fp, '.');
    PointParsed(ip, fp);
  }

  lemma CommaReplaced(ip: string, fp: string, sep: char)
    requires AllDigits(ip) && AllDigits(fp) && (sep == ',' || sep == '.')
    ensures ReplaceAllChar(ip + [sep] + fp, ',', '.') == ip + ['.'] + fp
  {
    var t := ip + [sep] + fp;
    var r := ReplaceAllChar(t, ',', '.');
    assert forall i :: 0 <= i < |ip| ==> t[i] == ip[i];
    assert forall i :: |ip| < i < |t| ==> t[i] == fp[i - |ip| - 1];
    assert forall i :: 0 <= i < |t| ==> r[i] == (ip + ['.'] + fp)[i];
  }

  lemma PointParsed(ip: string, fp: string)
    requires AllDigits(ip) && AllDigits(fp) && ip != []
    ensures ParseDecimal(ip + ['.'] + fp) == Some(DecimalValue(ip, fp))
  {
    var s := ip + ['.'] + fp;
    assert Unsigned(s) == s;
    assert !Negative(s);
    assert forall j :: 0 <= j < |ip| ==> s[j] == ip[j] && s[j] != '.';
    assert s[|ip|] == '.';
    assert FirstIndexOfChar(s, '.') == |ip|;
    assert s[..|ip|] == ip && s[|ip| + 1..] == fp;
  }
}
