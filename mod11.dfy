/**
 * The SRI modulo-11 check digit that completes the 49-digit access key
 * (`util.CalcularDigitoModulo11`). The Go function walks the BYTES of the key from
 * the right, weighting them 2, 3, 4, 5, 6, 7, 2, 3, ... and maps the weighted sum
 * to a digit.
 */
module Mod11 {
  import opened Text

  /** `int(clave[i] - '0')`: byte subtraction wraps modulo 256, so the value is never negative. */
  function ByteDigit(b: Byte): (d: int)
    ensures 0 <= d < 256
    ensures 48 <= b <= 57 ==> d == b - 48
  {
    if b >= 48 then b - 48 else b + 208
  }

  /** The weight of the byte `k` positions from the right (k = 0 for the last byte). */
  function Weight(k: nat): (w: int)
    ensures 2 <= w <= 7
  {
    2 + k % 6
  }

  /** Weighted sum of `bs`, its last byte weighted `Weight(k)`, the one before `Weight(k + 1)`, ... */
  function WeightedSumFrom(bs: Bytes, k: nat): (sum: int)
    ensures sum >= 0
  {
    if bs == [] then 0
    else ByteDigit(bs[|bs| - 1]) * Weight(k) + WeightedSumFrom(bs[..|bs| - 1], k + 1)
  }

  /** The weighted sum the algorithm computes over the whole byte string. */
  function WeightedSum(bs: Bytes): (sum: int)
    ensures sum >= 0
  {
    WeightedSumFrom(bs, 0)
  }

  /** The digit for a weighted sum: 11 - (sum mod 11), where 11 becomes 0 and 10 becomes 1. */
  function DigitForSum(sum: nat): (d: int)
    ensures 0 <= d <= 9
    ensures sum % 11 == 0 ==> d == 0
    ensures sum % 11 == 1 ==> d == 1
    ensures sum % 11 >= 2 ==> d == 11 - sum % 11
  {
    var v := 11 - sum % 11;
    if v == 11 then 0 else if v == 10 then 1 else v
  }

  /** The check digit of a string, as a specification. */
  function CheckDigit(clave: string): (d: int)
    ensures 0 <= d <= 9
  {
    DigitForSum(WeightedSum(Utf8(clave)))
  }

  /** The weight sequence after `factor++` and the reset to 2 past 7. */
  lemma WeightStep(k: nat)
    ensures Weight(k + 1) == if Weight(k) + 1 > 7 then 2 else Weight(k) + 1
  {
  }

  /** The weights cycle with period six. */
  lemma WeightCycle(k: nat)
    ensures Weight(k + 6) == Weight(k)
    ensures Weight(6 * (k / 6)) == 2
  {
  }

  /** Prepending a byte adds it with the weight of its distance from the right end. */
  lemma {:induction false} WeightedSumPrepend(b: Byte, t: Bytes, k: nat)
    ensures WeightedSumFrom([b] + t, k) == ByteDigit(b) * Weight(k + |t|) + WeightedSumFrom(t, k)
  {
    var s := [b] + t;
    if t != [] {
      assert s[|s| - 1] == t[|t| - 1];
      assert s[..|s| - 1] == [b] + t[..|t| - 1];
      WeightedSumPrepend(b, t[..|t| - 1], k + 1);
    } else {
      assert s[..|s| - 1] == [];
    }
  }

  /** One loop step: the suffix from `i` adds byte `i` at weight `Weight(|bs| - 1 - i)`. */
  lemma SuffixStep(bs: Bytes, i: nat)
    requires i < |bs|
    ensures WeightedSum(bs[i..]) == ByteDigit(bs[i]) * Weight(|bs| - 1 - i) + WeightedSum(bs[i + 1..])
  {
    assert bs[i..] == [bs[i]] + bs[i + 1..];
    WeightedSumPrepend(bs[i], bs[i + 1..], 0);
  }

  /** Go's `int(b - '0')` on a byte is the wrapped difference. */
  lemma ByteDigitWraps(b: Byte)
    ensures (b as int - 48) % 256 == ByteDigit(b)
  {
  }

  /** One turn of the loop keeps the running sum and the factor in step with the suffix. */
  lemma LoopStep(bs: Bytes, i: nat, suma: int, factor: int)
    requires i < |bs|
    requires suma == WeightedSum(bs[i + 1..]) && factor == Weight(|bs| - 1 - i)
    ensures suma + ByteDigit(bs[i]) * factor == WeightedSum(bs[i..])
    ensures (if factor + 1 > 7 then 2 else factor + 1) == Weight(|bs| - i)
  {
    SuffixStep(bs, i);
    WeightStep(|bs| - 1 - i);
  }

  /** The loop of `util.CalcularDigitoModulo11`, from the last byte to the first. */
  method SumWeightedBytes(bs: Bytes) returns (suma: int)
    ensures suma == WeightedSum(bs)
  {
    var n := |bs|;
    suma := 0;
    var factor: int := 2;
    var i := n - 1;
    while i >= 0
      invariant -1 <= i < n
      invariant suma == WeightedSum(bs[i + 1..])
      invariant factor == Weight(n - 1 - i)
    {
      var d: int := (bs[i] as int - 48) % 256;
      ByteDigitWraps(bs[i]);
      LoopStep(bs, i, suma, factor);
      suma := suma + d * factor;
      factor := factor + 1;
      if factor > 7 {
        factor := 2;
      }
      i := i - 1;
    }
    assert bs[0..] == bs;
  }

  /** `util.CalcularDigitoModulo11`: the weighted sum of the key's bytes, mapped to a digit. */
  method CalcularDigitoModulo11(clave: string) returns (digito: int)
    ensures digito == CheckDigit(clave)
    ensures 0 <= digito <= 9
  {
    var suma := SumWeightedBytes(Utf8(clave));
    var residuo := suma % 11;
    digito := 11 - residuo;
    if digito == 11 {
      digito := 0;
    } else if digito == 10 {
      digito := 1;
    }
  }

  /** The empty key has sum 0, so its digit is 0. */
  lemma EmptyKeyDigit()
    ensures CheckDigit("") == 0
  {
  }

  /**
   * The digit closes the checksum: unless the weighted sum leaves remainder 1
   * (where the scheme substitutes 1 for 10), the sum plus the digit is a multiple of 11.
   */
  lemma DigitClosesSum(clave: string)
    ensures WeightedSum(Utf8(clave)) % 11 != 1 ==>
      (WeightedSum(Utf8(clave)) + CheckDigit(clave)) % 11 == 0
  {
  }

  /** For ASCII digits every byte contributes its decimal value. */
  lemma {:induction false} DigitStringSum(s: string, k: nat)
    requires AllDigits(s)
    ensures IsAscii(s)
    ensures WeightedSumFrom(Utf8(s), k) == DecimalWeightedSum(s, k)
  {
    AsciiUtf8(s);
    if s != [] {
      var bs := Utf8(s);
      var p := s[..|s| - 1];
      AsciiUtf8(p);
      assert bs[..|bs| - 1] == Utf8(p);
      DigitStringSum(p, k + 1);
    }
  }

  /** The weighted sum read directly off the decimal digits, as the SRI scheme states it. */
  function DecimalWeightedSum(s: string, k: nat): int
    requires AllDigits(s)
  {
    if s == [] then 0
    else DigitValue(s[|s| - 1]) * Weight(k) + DecimalWeightedSum(s[..|s| - 1], k + 1)
  }
}
