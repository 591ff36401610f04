/**
 * String and byte helpers with the semantics of the Go standard-library calls the
 * services use: `len` on a string (a UTF-8 byte count), `strings.Index`,
 * `strings.Contains`, `strings.Replace(s, old, new, 1)`, `strings.Split`,
 * `strings.TrimSpace`, `strings.HasPrefix`, case mapping, and the decimal digit
 * strings printed by `fmt`.
 */
module Text {

  type Byte = x: int | 0 <= x < 256
  type Bytes = seq<Byte>

  // ---------------------------------------------------------------- UTF-8

  /** The UTF-8 encoding of one Unicode scalar value. */
  function EncodeChar(c: char): (r: Bytes)
    ensures 1 <= |r| <= 4
    ensures |r| == 1 <==> c as int < 0x80
  {
    var n := c as int;
    if n < 0x80 then [n]
    else if n < 0x800 then [0xC0 + n / 64, 0x80 + n % 64]
    else if n < 0x10000 then [0xE0 + n / 4096, 0x80 + (n / 64) % 64, 0x80 + n % 64]
    else [0xF0 + n / 262144, 0x80 + (n / 4096) % 64, 0x80 + (n / 64) % 64, 0x80 + n % 64]
  }

  /** The bytes Go stores for a string. */
  function Utf8(s: string): Bytes
  {
    if s == [] then [] else EncodeChar(s[0]) + Utf8(s[1..])
  }

  /** Go's `len(s)` for a string: its length in UTF-8 bytes. */
  function ByteLen(s: string): nat
  {
    |Utf8(s)|
  }

  predicate IsAscii(s: string)
  {
    forall i :: 0 <= i < |s| ==> s[i] as int < 0x80
  }

  /** For ASCII text the byte string is the code points themselves. */
  lemma {:induction false} AsciiUtf8(s: string)
    requires IsAscii(s)
    ensures |Utf8(s)| == |s|
    ensures forall i :: 0 <= i < |s| ==> Utf8(s)[i] == s[i] as int
  {
    if s != [] {
      AsciiUtf8(s[1..]);
    }
  }

  /** Every character takes at least one byte, so only the empty string has length 0. */
  lemma {:induction false} ByteLenAtLeastCharCount(s: string)
    ensures ByteLen(s) >= |s|
    ensures ByteLen(s) == 0 <==> s == []
  {
    if s != [] {
      ByteLenAtLeastCharCount(s[1..]);
    }
  }

  // ---------------------------------------------------------------- searching

  /** `pat` occurs in `s` starting at index `i`. */
  predicate OccursAt(s: string, pat: string, i: int)
  {
    0 <= i && i + |pat| <= |s| && s[i..i + |pat|] == pat
  }

  function IndexFrom(s: string, pat: string, from: nat): (r: int)
    decreases |s| + 1 - from
    ensures r == -1 || (from <= r && OccursAt(s, pat, r))
    ensures r == -1 ==> forall j :: from <= j ==> !OccursAt(s, pat, j)
    ensures r != -1 ==> forall j :: from <= j < r ==> !OccursAt(s, pat, j)
  {
    if from + |pat| > |s| then -1
    else if s[from..from + |pat|] == pat then from
    else IndexFrom(s, pat, from + 1)
  }

  /** Go's `strings.Index`: the first occurrence of `pat`, or -1. */
  function IndexOf(s: string, pat: string): (r: int)
    ensures r == -1 <==> forall j :: !OccursAt(s, pat, j)
    ensures r != -1 ==> OccursAt(s, pat, r)
    ensures forall j :: 0 <= j < r ==> !OccursAt(s, pat, j)
  {
    IndexFrom(s, pat, 0)
  }

  /** Go's `strings.Contains`. */
  predicate Contains(s: string, pat: string)
  {
    IndexOf(s, pat) >= 0
  }

  lemma ContainsAt(s: string, pat: string, i: int)
    requires OccursAt(s, pat, i)
    ensures Contains(s, pat)
  {
  }

  /** A string contains every piece it was concatenated from. */
  lemma ContainsMiddle(a: string, x: string, b: string)
    ensures Contains(a + x + b, x)
  {
    assert (a + x + b)[|a|..|a| + |x|] == x;
    ContainsAt(a + x + b, x, |a|);
  }

  /** Containment is transitive: a piece of a piece is a piece of the whole. */
  lemma ContainsTrans(a: string, b: string, c: string)
    requires Contains(a, b) && Contains(b, c)
    ensures Contains(a, c)
  {
    var i := IndexOf(a, b);
    var j := IndexOf(b, c);
    assert a[i..i + |b|] == b;
    forall k | 0 <= k < |c|
      ensures a[i + j + k] == c[k]
    {
      assert a[i + j + k] == a[i..i + |b|][j + k];
      assert b[j..j + |c|][k] == c[k];
    }
    assert a[i + j..i + j + |c|] == c;
    ContainsAt(a, c, i + j);
  }

  /** Text added on either side keeps a piece a piece. */
  lemma ContainsWiden(a: string, s: string, b: string, x: string)
    requires Contains(s, x)
    ensures Contains(a + s + b, x) && Contains(a + s, x) && Contains(s + b, x)
  {
    var i := IndexOf(s, x);
    assert (a + s + b)[|a| + i..|a| + i + |x|] == x;
    ContainsAt(a + s + b, x, |a| + i);
    assert (a + s)[|a| + i..|a| + i + |x|] == x;
    ContainsAt(a + s, x, |a| + i);
    assert (s + b)[i..i + |x|] == x;
    ContainsAt(s + b, x, i);
  }

  /** A piece of either operand is a piece of the concatenation. */
  lemma ContainsJoin(s: string, t: string, x: string)
    ensures Contains(s, x) ==> Contains(s + t, x)
    ensures Contains(t, x) ==> Contains(s + t, x)
  {
    if Contains(s, x) {
      ContainsWiden([], s, t, x);
      assert [] + s + t == s + t;
    }
    if Contains(t, x) {
      ContainsWiden(s, t, [], x);
      assert s + t + [] == s + t;
    }
  }

  /** The middle operand of a concatenation occurs right after the first. */
  lemma PieceAt(a: string, x: string, b: string)
    ensures OccursAt(a + x + b, x, |a|)
  {
    assert (a + x + b)[|a|..|a| + |x|] == x;
  }

  /** An occurrence survives appending text. */
  lemma OccursAtExtend(s: string, t: string, x: string, i: int)
    requires OccursAt(s, x, i)
    ensures OccursAt(s + t, x, i)
  {
    assert (s + t)[i..i + |x|] == s[i..i + |x|];
  }

  lemma ContainsSelf(x: string)
    ensures Contains(x, x)
  {
    assert x[0..|x|] == x;
    ContainsAt(x, x, 0);
  }

  /** Go's `strings.HasPrefix`. */
  predicate HasPrefix(s: string, prefix: string)
  {
    |prefix| <= |s| && s[..|prefix|] == prefix
  }

  /** The first index of `c` in `s`, or `|s|` when there is none. */
  function FirstIndexOfChar(s: string, c: char): (r: nat)
    ensures r <= |s|
    ensures forall j :: 0 <= j < r ==> s[j] != c
    ensures r < |s| ==> s[r] == c
  {
    if s == [] then 0
    else if s[0] == c then 0
    else 1 + FirstIndexOfChar(s[1..], c)
  }

  /** Go's `strings.Replace(s, target, repl, 1)`: replace the first occurrence only. */
  function ReplaceFirst(s: string, target: string, repl: string): (r: string)
    ensures target == "" ==> r == repl + s
    ensures target != "" && !Contains(s, target) ==> r == s
    ensures target != "" && Contains(s, target) ==>
      var i := IndexOf(s, target);
      |r| == |s| - |target| + |repl| && r[..i] == s[..i] && r[i..i + |repl|] == repl
      && r[i + |repl|..] == s[i + |target|..]
  {
    if target == "" then repl + s
    else
      var i := IndexOf(s, target);
      if i < 0 then s else s[..i] + repl + s[i + |target|..]
  }

  /** Replacing the first `target` by `block + target` inserts `block` right before it. */
  lemma InsertBefore(s: string, target: string, block: string)
    requires target != "" && Contains(s, target)
    ensures var i := IndexOf(s, target);
      ReplaceFirst(s, target, block + target) == s[..i] + block + s[i..]
    ensures Contains(ReplaceFirst(s, target, block + target), block)
  {
    var i := IndexOf(s, target);
    assert s[i..] == target + s[i + |target|..] by {
      assert s[i..i + |target|] == target;
    }
    assert s[..i] + (block + target) + s[i + |target|..] == s[..i] + block + s[i..];
    ContainsMiddle(s[..i], block, s[i..]);
  }

  /** Go's `strings.ReplaceAll(s, string(a), string(b))` for single characters. */
  function ReplaceAllChar(s: string, a: char, b: char): (r: string)
    ensures |r| == |s|
    ensures forall i :: 0 <= i < |s| ==> r[i] == if s[i] == a then b else s[i]
  {
    if s == [] then [] else [if s[0] == a then b else s[0]] + ReplaceAllChar(s[1..], a, b)
  }

  // ---------------------------------------------------------------- fmt.Sprintf with %s verbs

  /**
   * `fmt.Sprintf` on a format whose only verbs are `%s`: the literal pieces of
   * the format with the arguments in between, the k-th argument after the k-th piece.
   */
  function Format(pieces: seq<string>, args: seq<string>): string
    requires |pieces| == |args| + 1
  {
    if args == [] then pieces[0] else pieces[0] + args[0] + Format(pieces[1..], args[1..])
  }

  /** The text opens with the first piece of the format. */
  lemma FormatStart(pieces: seq<string>, args: seq<string>)
    requires |pieces| == |args| + 1
    ensures HasPrefix(Format(pieces, args), pieces[0])
  {
    if args != [] {
      var r := Format(pieces, args);
      assert r == pieces[0] + (args[0] + Format(pieces[1..], args[1..]));
      assert r[..|pieces[0]|] == pieces[0];
    }
  }

  /** Every argument appears verbatim, between the two pieces around its verb. */
  lemma {:induction false} FormatSlot(pieces: seq<string>, args: seq<string>, k: nat)
    requires |pieces| == |args| + 1 && k < |args|
    ensures Contains(Format(pieces, args), pieces[k] + args[k] + pieces[k + 1])
  {
    var r := Format(pieces, args);
    var rest := Format(pieces[1..], args[1..]);
    assert r == pieces[0] + args[0] + rest;
    if k == 0 {
      FormatStart(pieces[1..], args[1..]);
      var tail := rest[|pieces[1]|..];
      assert rest == pieces[1] + tail;
      assert r == [] + (pieces[0] + args[0] + pieces[1]) + tail;
      ContainsMiddle([], pieces[0] + args[0] + pieces[1], tail);
    } else {
      FormatSlot(pieces[1..], args[1..], k - 1);
      assert pieces[1..][k - 1] + args[1..][k - 1] + pieces[1..][k] == pieces[k] + args[k] + pieces[k + 1];
      ContainsJoin(pieces[0] + args[0], rest, pieces[k] + args[k] + pieces[k + 1]);
    }
  }

  /** A concatenation of three strings contains each of them. */
  lemma ContainsThree(a: string, x: string, b: string)
    ensures Contains(a + x + b, a) && Contains(a + x + b, x) && Contains(a + x + b, b)
  {
    ContainsMiddle([], a, x + b);
    assert [] + a + (x + b) == a + x + b;
    ContainsMiddle(a, x, b);
    ContainsMiddle(a + x, b, []);
    assert a + x + b + [] == a + x + b;
  }

  /** Hence every argument and every piece occurs in the text. */
  lemma FormatHas(pieces: seq<string>, args: seq<string>, k: nat)
    requires |pieces| == |args| + 1 && k < |args|
    ensures Contains(Format(pieces, args), args[k])
    ensures Contains(Format(pieces, args), pieces[k]) && Contains(Format(pieces, args), pieces[k + 1])
  {
    var r := Format(pieces, args);
    var slot := pieces[k] + args[k] + pieces[k + 1];
    FormatSlot(pieces, args, k);
    ContainsThree(pieces[k], args[k], pieces[k + 1]);
    ContainsTrans(r, slot, args[k]);
    ContainsTrans(r, slot, pieces[k]);
    ContainsTrans(r, slot, pieces[k + 1]);
  }

  // ---------------------------------------------------------------- splitting

  /** The parts joined back together with the separator between them. */
  function Join(parts: seq<string>, sep: char): string
    requires |parts| >= 1
  {
    if |parts| == 1 then parts[0] else parts[0] + [sep] + Join(parts[1..], sep)
  }

  /** Go's `strings.Split(s, string(sep))`. */
  function Split(s: string, sep: char): (parts: seq<string>)
    decreases |s|
    ensures |parts| >= 1
    ensures forall p <- parts :: sep !in p
    ensures Join(parts, sep) == s
    ensures |parts| == multiset(s)[sep] + 1
  {
    var i := FirstIndexOfChar(s, sep);
    if i == |s| then
      assert sep !in s;
      [s]
    else
      var rest := Split(s[i + 1..], sep);
      assert s == s[..i] + [sep] + s[i + 1..];
      assert multiset(s) == multiset(s[..i]) + multiset([sep]) + multiset(s[i + 1..]);
      assert sep !in s[..i];
      [s[..i]] + rest
  }

  // ---------------------------------------------------------------- white space

  /** Go's `unicode.IsSpace`. */
  predicate IsSpace(c: char)
  {
    var n := c as int;
    (0x09 <= n <= 0x0D) || n == 0x20 || n == 0x85 || n == 0xA0 || n == 0x1680
    || (0x2000 <= n <= 0x200A) || n == 0x2028 || n == 0x2029 || n == 0x202F
    || n == 0x205F || n == 0x3000
  }

  function TrimLeft(s: string): (r: string)
    ensures |r| <= |s| && r == s[|s| - |r|..]
    ensures r == [] || !IsSpace(r[0])
    ensures forall i :: 0 <= i < |s| - |r| ==> IsSpace(s[i])
  {
    if s != [] && IsSpace(s[0]) then TrimLeft(s[1..]) else s
  }

  function TrimRight(s: string): (r: string)
    ensures |r| <= |s| && r == s[..|r|]
    ensures r == [] || !IsSpace(r[|r| - 1])
    ensures forall i :: |r| <= i < |s| ==> IsSpace(s[i])
  {
    if s != [] && IsSpace(s[|s| - 1]) then TrimRight(s[..|s| - 1]) else s
  }

  /** Go's `strings.TrimSpace`: no leading or trailing white space is left. */
  function TrimSpace(s: string): (r: string)
    ensures r == [] || (!IsSpace(r[0]) && !IsSpace(r[|r| - 1]))
  {
    TrimRight(TrimLeft(s))
  }

  // ---------------------------------------------------------------- case mapping

  /**
   * Go's `unicode.ToLower` on one rune, as far as it matters for comparisons with
   * ASCII words: ASCII capitals, and the two non-ASCII runes whose lower case is
   * ASCII (U+0130 to 'i', the Kelvin sign U+212A to 'k'). Every other rune is left
   * as it is, which does not change the outcome of such a comparison.
   */
  function LowerChar(c: char): char
  {
    if 'A' <= c <= 'Z' then (c as int + 32) as char
    else if c as int == 0x130 then 'i'
    else if c as int == 0x212A then 'k'
    else c
  }

  /** Go's `unicode.ToUpper` on one rune, as far as it matters for comparisons with ASCII words. */
  function UpperChar(c: char): char
  {
    if 'a' <= c <= 'z' then (c as int - 32) as char
    else if c as int == 0x131 then 'I'
    else if c as int == 0x17F then 'S'
    else c
  }

  function ToLower(s: string): (r: string)
    ensures |r| == |s| && forall i :: 0 <= i < |s| ==> r[i] == LowerChar(s[i])
  {
    if s == [] then [] else [LowerChar(s[0])] + ToLower(s[1..])
  }

  function ToUpper(s: string): (r: string)
    ensures |r| == |s| && forall i :: 0 <= i < |s| ==> r[i] == UpperChar(s[i])
  {
    if s == [] then [] else [UpperChar(s[0])] + ToUpper(s[1..])
  }

  // ---------------------------------------------------------------- decimal digits

  predicate IsDigit(c: char)
  {
    '0' <= c <= '9'
  }

  predicate AllDigits(s: string)
  {
    forall i :: 0 <= i < |s| ==> IsDigit(s[i])
  }

  function DigitChar(d: nat): (c: char)
    requires d < 10
    ensures IsDigit(c)
  {
    ('0' as int + d) as char
  }

  function DigitValue(c: char): (d: nat)
    requires IsDigit(c)
    ensures d < 10 && DigitChar(d) == c
  {
    c as int - '0' as int
  }

  /** The value of a string of decimal digits, most significant first. */
  function DigitsValue(s: string): nat
    requires AllDigits(s)
  {
    if s == [] then 0 else DigitsValue(s[..|s| - 1]) * 10 + DigitValue(s[|s| - 1])
  }

  /** `fmt.Sprintf("%d", n)` for a non-negative `n`. */
  function NatToString(n: nat): (r: string)
    ensures |r| >= 1 && AllDigits(r)
    ensures DigitsValue(r) == n
    ensures n < 10 <==> |r| == 1
  {
    if n < 10 then
      [DigitChar(n)]
    else
      var r := NatToString(n / 10) + [DigitChar(n % 10)];
      assert r[..|r| - 1] == NatToString(n / 10);
      r
  }

  /** `fmt.Sprintf("%d", n)`. */
  function IntToString(n: int): (r: string)
    ensures |r| >= 1
    ensures n >= 0 ==> AllDigits(r) && DigitsValue(r) == n
  {
    if n < 0 then "-" + NatToString(-n) else NatToString(n)
  }

  function Zeros(k: nat): (r: string)
    ensures |r| == k && AllDigits(r)
    ensures forall i :: 0 <= i < k ==> r[i] == '0'
  {
    if k == 0 then [] else "0" + Zeros(k - 1)
  }

  /** Leading zeros add nothing to the value of a digit string. */
  lemma {:induction false} LeadingZerosValue(k: nat, s: string)
    requires AllDigits(s)
    ensures AllDigits(Zeros(k) + s) && DigitsValue(Zeros(k) + s) == DigitsValue(s)
  {
    var t := Zeros(k) + s;
    if s == [] {
      assert t == Zeros(k);
      ZerosValue(k);
    } else {
      assert t[..|t| - 1] == Zeros(k) + s[..|s| - 1];
      LeadingZerosValue(k, s[..|s| - 1]);
    }
  }

  lemma {:induction false} ZerosValue(k: nat)
    ensures DigitsValue(Zeros(k)) == 0
  {
    if k > 0 {
      assert Zeros(k)[..k - 1] == Zeros(k - 1);
      ZerosValue(k - 1);
    }
  }

  /** Left-pad a digit string with zeros up to `width` characters. */
  function PadZeros(s: string, width: int): (r: string)
    ensures |r| == if |s| >= width then |s| else width
    ensures r == Zeros(|r| - |s|) + s
  {
    if |s| >= width then
      assert Zeros(0) == "";
      s
    else
      Zeros(width - |s|) + s
  }

  /**
   * `fmt.Sprintf("%0*d", width, n)`: zero padding to `width` characters, the sign
   * (for a negative `n`) counting towards the width and preceding the zeros.
   */
  function ZeroPad(n: int, width: int): (r: string)
    ensures n >= 0 ==> |r| == (if |NatToString(n)| >= width then |NatToString(n)| else width)
    ensures n >= 0 ==> AllDigits(r) && DigitsValue(r) == n
  {
    if n < 0 then "-" + PadZeros(NatToString(-n), width - 1)
    else
      var d := NatToString(n);
      var r := PadZeros(d, width);
      assert r == Zeros(|r| - |d|) + d;
      LeadingZerosValue(|r| - |d|, d);
      r
  }

  /** Numbers below 10^k print in at most k digits. */
  lemma {:induction false} NatToStringLength(n: nat, k: nat)
    requires n < Pow10(k)
    ensures |NatToString(n)| <= k || (k == 0 && |NatToString(n)| == 1)
  {
    if n >= 10 {
      assert k >= 2;
      NatToStringLength(n / 10, k - 1);
    }
  }

  function Pow10(k: nat): (p: nat)
    ensures p >= 1
  {
    if k == 0 then 1 else 10 * Pow10(k - 1)
  }

  /** A string of k digits has a value below 10^k. */
  lemma {:induction false} DigitsValueBound(s: string)
    requires AllDigits(s)
    ensures DigitsValue(s) < Pow10(|s|)
  {
    if s != [] {
      DigitsValueBound(s[..|s| - 1]);
    }
  }

  /** Zero padding to width k of a number below 10^k yields exactly k digits. */
  lemma ZeroPadWidth(n: nat, k: nat)
    requires 1 <= k && n < Pow10(k)
    ensures |ZeroPad(n, k)| == k && AllDigits(ZeroPad(n, k)) && DigitsValue(ZeroPad(n, k)) == n
  {
    NatToStringLength(n, k);
  }
}
