/**
 * The pieces of Python's string semantics that the JV-Data field decoders
 * rely on: `str.isspace` and `str.strip`, slicing with Python's index
 * rules, `int()` applied to a `str`, and decimal formatting with `str()`
 * and the `:02d` format specification. Whitespace and digits follow Python
 * on ASCII only; any character is admitted, but one beyond ASCII is never
 * whitespace here, where Python also strips `U+00A0`, `U+3000` and others.
 */
module PyText {
  import opened Wrappers

  /** A record as the stream delivers it, each byte read as one character:
      Shift-JIS decoding is taken as the identity. */
  type Bytes = string

  /** Python's `str.isspace` on ASCII: tab, line feed, vertical tab, form feed,
      carriage return, the separators 0x1C to 0x1F, and space. */
  predicate IsSpace(c: char) {
    var n := c as int;
    (9 <= n <= 13) || (28 <= n <= 32)
  }

  predicate IsDigit(c: char) {
    '0' <= c <= '9'
  }

  predicate AllDigits(s: string) {
    forall i :: 0 <= i < |s| ==> IsDigit(s[i])
  }

  predicate AllSpace(s: string) {
    forall i :: 0 <= i < |s| ==> IsSpace(s[i])
  }

  /** The shape `str.strip` returns: no whitespace at either end. */
  predicate IsStripped(s: string) {
    s == [] || (!IsSpace(s[0]) && !IsSpace(s[|s| - 1]))
  }

  /** Python's `str.strip()` with no argument: leading and trailing
      whitespace removed. */
  function Strip(s: string): (r: string)
    ensures IsStripped(r)
    ensures |r| <= |s|
    ensures r == [] <==> AllSpace(s)
    ensures IsStripped(s) ==> r == s
  {
    if s == [] then []
    else if IsSpace(s[0]) then Strip(s[1..])
    else if IsSpace(s[|s| - 1]) then Strip(s[..|s| - 1])
    else s
  }

  /** A slice bound normalised as Python does: a negative bound counts from
      the end, and the result is clamped to the sequence. */
  function SliceBound(i: int, n: nat): (b: nat)
    ensures b <= n
    ensures 0 <= i <= n ==> b == i
    ensures i > n ==> b == n
  {
    if i < 0 then (if i + n < 0 then 0 else i + n) else if i > n then n else i
  }

  /** Python's `s[a:b]`, which never fails whatever the bounds. */
  function PySlice<T>(s: seq<T>, a: int, b: int): (r: seq<T>)
    ensures |r| <= |s|
    ensures 0 <= a <= b ==> r == s[SliceBound(a, |s|)..SliceBound(b, |s|)]
    ensures 0 <= a <= b ==> |r| <= b - a
  {
    var lo, hi := SliceBound(a, |s|), SliceBound(b, |s|);
    if lo < hi then s[lo..hi] else []
  }

  /** The body of a Python decimal literal: digits, where a single underscore
      may stand between two digits. */
  predicate IsDigitRun(t: string) {
    |t| > 0 && IsDigit(t[0]) && IsDigit(t[|t| - 1]) &&
    (forall i :: 0 <= i < |t| ==> IsDigit(t[i]) || t[i] == '_') &&
    (forall i, j :: 0 <= i < |t| && 0 <= j < |t| && j == i + 1 ==> IsDigit(t[i]) || IsDigit(t[j]))
  }

  function DigitValue(c: char): (d: nat)
    requires IsDigit(c)
    ensures d < 10
  {
    c as int - '0' as int
  }

  /** The number the digits of `t` spell, underscores ignored. */
  function DigitsValue(t: string): nat {
    if |t| == 0 then 0
    else if IsDigit(t[|t| - 1]) then 10 * DigitsValue(t[..|t| - 1]) + DigitValue(t[|t| - 1])
    else DigitsValue(t[..|t| - 1])
  }

  /** Python's `int(s)` for a `str` `s`: `None` where Python raises `ValueError`.
      Surrounding whitespace is ignored. */
  function PyInt(s: string): (r: Option<int>)
    ensures AllSpace(s) ==> r.None?
    ensures IsStripped(s) ==> r == IntLiteral(s)
  {
    IntLiteral(Strip(s))
  }

  /** A stripped decimal integer literal: one optional sign, then digits with
      single underscores between them. */
  function IntLiteral(t: string): (r: Option<int>)
    ensures r.Some? ==> |t| > 0
  {
    if |t| > 0 && (t[0] == '+' || t[0] == '-') then
      if IsDigitRun(t[1..]) then
        var v: int := DigitsValue(t[1..]);
        Some(if t[0] == '-' then -v else v)
      else None
    else if IsDigitRun(t) then Some(DigitsValue(t))
    else None
  }

  function DigitChar(d: nat): (c: char)
    requires d < 10
    ensures IsDigit(c) && DigitValue(c) == d
  {
    ('0' as int + d) as char
  }

  /** `str(n)` for a natural number. */
  function NatToDecimal(n: nat): (r: string)
    ensures |r| > 0 && AllDigits(r)
    ensures |r| == 1 <==> n < 10
  {
    if n < 10 then [DigitChar(n)] else NatToDecimal(n / 10) + [DigitChar(n % 10)]
  }

  /** `str(n)` for any integer. */
  function IntToDecimal(n: int): (r: string)
    ensures |r| > 0 && IsStripped(r)
    ensures n >= 0 <==> AllDigits(r)
  {
    if n < 0 then "-" + NatToDecimal(-n) else NatToDecimal(n)
  }

  /** `f"{n:02d}"`: zero-padded after the sign to at least two characters. */
  function Pad2(n: int): (r: string)
    ensures |r| >= 2
    ensures 0 <= n < 100 ==> |r| == 2 && AllDigits(r)
  {
    if 0 <= n < 10 then "0" + NatToDecimal(n) else IntToDecimal(n)
  }

  /** `k` zero characters. */
  function Zeros(k: nat): (r: string)
    ensures |r| == k && forall i :: 0 <= i < k ==> r[i] == '0'
  {
    if k == 0 then [] else Zeros(k - 1) + "0"
  }

  /** `n` written in at least `width` digits with leading zeros: a numeric
      field of a fixed-width record. */
  function ZeroPadded(n: nat, width: nat): (r: string)
    ensures |r| >= width && AllDigits(r)
    ensures |NatToDecimal(n)| <= width ==> |r| == width
  {
    var d := NatToDecimal(n);
    if |d| < width then Zeros(width - |d|) + d else d
  }

  lemma AllDigitsIsRun(t: string)
    requires |t| > 0 && AllDigits(t)
    ensures IsDigitRun(t) && IsStripped(t)
  {
  }

  /** Reading back what `str` wrote gives the number again. */
  lemma {:induction false} DigitsValueOfDecimal(n: nat)
    ensures DigitsValue(NatToDecimal(n)) == n
  {
    if n >= 10 {
      var r := NatToDecimal(n);
      assert r[..|r| - 1] == NatToDecimal(n / 10);
      DigitsValueOfDecimal(n / 10);
    }
  }

  /** `int(s)` on plain digits is their decimal value. */
  lemma PyIntOfDigits(t: string)
    requires |t| > 0 && AllDigits(t)
    ensures PyInt(t) == Some(DigitsValue(t))
  {
    AllDigitsIsRun(t);
  }

  /** `int("-" + d)` is minus the value of the digits `d`. */
  lemma PyIntOfNegative(d: string)
    requires |d| > 0 && AllDigits(d)
    ensures PyInt("-" + d) == Some(-(DigitsValue(d) as int))
  {
    var r := "-" + d;
    assert IsStripped(r);
    assert r[1..] == d;
    AllDigitsIsRun(d);
  }

  /** `int(str(n)) == n` for every integer. */
  lemma PyIntOfDecimal(n: int)
    ensures PyInt(IntToDecimal(n)) == Some(n)
  {
    if n < 0 {
      var d := NatToDecimal(-n);
      assert IntToDecimal(n) == "-" + d;
      PyIntOfNegative(d);
      DigitsValueOfDecimal(-n);
    } else {
      PyIntOfNatDecimal(n);
    }
  }

  lemma PyIntOfNatDecimal(n: nat)
    ensures PyInt(NatToDecimal(n)) == Some(n)
  {
    PyIntOfDigits(NatToDecimal(n));
    DigitsValueOfDecimal(n);
  }

  lemma {:induction false} ZerosValue(k: nat)
    ensures DigitsValue(Zeros(k)) == 0
  {
    if k > 0 {
      assert Zeros(k)[..k - 1] == Zeros(k - 1);
      ZerosValue(k - 1);
    }
  }

  /** Leading zeros do not change the value of a digit string. */
  lemma {:induction false} LeadingZerosIgnored(k: nat, t: string)
    requires AllDigits(t)
    ensures DigitsValue(Zeros(k) + t) == DigitsValue(t)
  {
    if t == [] {
      assert Zeros(k) + t == Zeros(k);
      ZerosValue(k);
    } else {
      var u := Zeros(k) + t;
      assert u[..|u| - 1] == Zeros(k) + t[..|t| - 1];
      LeadingZerosIgnored(k, t[..|t| - 1]);
    }
  }

  /** A zero-padded numeric field parses back to its number: "0" gives 0, never None. */
  lemma PyIntOfZeroPadded(n: nat, width: nat)
    ensures PyInt(ZeroPadded(n, width)) == Some(n)
  {
    var d := NatToDecimal(n);
    DigitsValueOfDecimal(n);
    if |d| < width {
      LeadingZerosIgnored(width - |d|, d);
    }
    PyIntOfDigits(ZeroPadded(n, width));
  }

  /** Formatting two digits with `:02d` gives the same two digits back. */
  lemma Pad2OfTwoDigits(a: char, b: char)
    requires IsDigit(a) && IsDigit(b)
    ensures DigitsValue([a, b]) == 10 * DigitValue(a) + DigitValue(b)
    ensures Pad2(DigitsValue([a, b])) == [a, b]
  {
    assert [a, b][..1] == [a];
    assert [a][..0] == [];
    assert DigitsValue([a]) == DigitValue(a);
    var v := 10 * DigitValue(a) + DigitValue(b);
    assert DigitsValue([a, b]) == v;
    assert DigitChar(DigitValue(b)) == b;
    if DigitValue(a) == 0 {
      assert a == '0';
      assert Pad2(v) == "0" + [DigitChar(DigitValue(b))];
    } else {
      assert v / 10 == DigitValue(a) && v % 10 == DigitValue(b);
      assert DigitChar(DigitValue(a)) == a;
      assert NatToDecimal(v) == NatToDecimal(DigitValue(a)) + [DigitChar(DigitValue(b))];
    }
  }

  /** `str(int(d))` is `d` for one digit. */
  lemma OneDigitRoundTrip(a: char)
    requires IsDigit(a)
    ensures PyInt([a]) == Some(DigitValue(a))
    ensures IntToDecimal(DigitValue(a)) == [a]
  {
    assert [a][..0] == [];
    PyIntOfDigits([a]);
    assert DigitChar(DigitValue(a)) == a;
  }
}
