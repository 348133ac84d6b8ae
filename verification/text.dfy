/**
 * Text and byte helpers the driver relies on: Python's str(int) and
 * str.zfill for the outgoing magnitude, str.encode("UTF-8") for the bytes
 * written to the port, and bytes.rstrip() plus a digits-only reading of
 * float() for the incoming display fields.
 */
module Text {

  /** An octet on the serial line. */
  type byte = x: int | 0 <= x < 256

  // ---------------------------------------------------------------------
  // Decimal digits
  // ---------------------------------------------------------------------

  predicate IsDigit(c: char) {
    '0' <= c <= '9'
  }

  predicate AllDigits(s: string) {
    forall i :: 0 <= i < |s| ==> IsDigit(s[i])
  }

  function DigitOf(c: char): (d: nat)
    requires IsDigit(c)
    ensures d < 10
  {
    c as int - '0' as int
  }

  function DigitChar(d: nat): (c: char)
    requires d < 10
    ensures IsDigit(c) && DigitOf(c) == d
  {
    ('0' as int + d) as char
  }

  /** The value of a digit string read most significant digit first; "" reads as 0. */
  function DecimalValue(s: string): nat
    requires AllDigits(s)
  {
    if s == [] then 0 else DecimalValue(s[..|s| - 1]) * 10 + DigitOf(s[|s| - 1])
  }

  /** Python's str(n) for a non-negative int: digits only, no superfluous leading zero. */
  function Decimal(n: nat): (s: string)
    ensures 1 <= |s| && AllDigits(s)
    ensures |s| > 1 ==> s[0] != '0'
  {
    if n < 10 then [DigitChar(n)] else Decimal(n / 10) + [DigitChar(n % 10)]
  }

  /** Reading back what Decimal wrote gives the number. */
  lemma {:induction false} DecimalRoundTrip(n: nat)
    ensures DecimalValue(Decimal(n)) == n
  {
    if n >= 10 {
      var s := Decimal(n / 10);
      DecimalRoundTrip(n / 10);
      assert (s + [DigitChar(n % 10)])[..|s|] == s;
    } else {
      assert [DigitChar(n)][..0] == [];
    }
  }

  function Pow10(k: nat): (p: nat)
    ensures p >= 1
  {
    if k == 0 then 1 else 10 * Pow10(k - 1)
  }

  /** str(n) has at most k characters exactly when n < 10^k. */
  lemma {:induction false} DecimalLength(n: nat, k: nat)
    requires k >= 1
    ensures |Decimal(n)| <= k <==> n < Pow10(k)
  {
    if n >= 10 {
      if k == 1 {
        assert Pow10(1) == 10;
      } else {
        DecimalLength(n / 10, k - 1);
      }
    } else {
      PowAtLeastTen(k);
    }
  }

  lemma {:induction false} PowAtLeastTen(k: nat)
    requires k >= 1
    ensures Pow10(k) >= 10
  {
    if k > 1 {
      PowAtLeastTen(k - 1);
    }
  }

  /** Python's str(i) for any int. */
  function PyStr(i: int): (s: string)
    ensures i >= 0 ==> s == Decimal(i)
    ensures i < 0 ==> |s| >= 2 && s[0] == '-' && s[1..] == Decimal(-i)
  {
    if i < 0 then "-" + Decimal(-i) else Decimal(i)
  }

  function Zeros(k: nat): (z: string)
    ensures |z| == k && AllDigits(z)
    ensures forall i :: 0 <= i < k ==> z[i] == '0'
  {
    seq(k, _ => '0')
  }

  /**
   * Python's str.zfill(width): pad on the left with '0' up to width
   * characters, keeping a leading sign in front of the padding.
   */
  function ZFill(s: string, width: nat): (r: string)
    ensures |r| == if |s| >= width then |s| else width
    ensures |s| >= width ==> r == s
    ensures |s| < width && (|s| == 0 || (s[0] != '+' && s[0] != '-')) ==>
              r[..width - |s|] == Zeros(width - |s|) && r[width - |s|..] == s
    ensures |s| < width && |s| > 0 && (s[0] == '+' || s[0] == '-') ==>
              r[0] == s[0] && r[1..width - |s| + 1] == Zeros(width - |s|) && r[width - |s| + 1..] == s[1..]
  {
    if |s| >= width then s
    else if |s| > 0 && (s[0] == '+' || s[0] == '-') then [s[0]] + Zeros(width - |s|) + s[1..]
    else Zeros(width - |s|) + s
  }

  /** Leading zeros do not change the value of a digit string. */
  lemma {:induction false} LeadingZerosValue(k: nat, s: string)
    requires AllDigits(s)
    ensures AllDigits(Zeros(k) + s)
    ensures DecimalValue(Zeros(k) + s) == DecimalValue(s)
  {
    var t := Zeros(k) + s;
    assert forall i :: 0 <= i < |t| ==> IsDigit(t[i]) by {
      forall i | 0 <= i < |t| ensures IsDigit(t[i]) {
        if i < k { assert t[i] == Zeros(k)[i]; } else { assert t[i] == s[i - k]; }
      }
    }
    if s == [] {
      ZerosValue(k);
      assert t == Zeros(k);
    } else {
      var init := s[..|s| - 1];
      LeadingZerosValue(k, init);
      assert t[..|t| - 1] == Zeros(k) + init;
      assert t[|t| - 1] == s[|s| - 1];
    }
  }

  lemma {:induction false} ZerosValue(k: nat)
    ensures DecimalValue(Zeros(k)) == 0
  {
    if k > 0 {
      ZerosValue(k - 1);
      assert Zeros(k)[..k - 1] == Zeros(k - 1);
    }
  }

  /**
   * A number below 10^width, written with str and zfill(width), is exactly
   * width digits that read back as the number.
   */
  lemma PaddedDecimal(n: nat, width: nat)
    requires 1 <= width && n < Pow10(width)
    ensures |ZFill(Decimal(n), width)| == width
    ensures AllDigits(ZFill(Decimal(n), width))
    ensures DecimalValue(ZFill(Decimal(n), width)) == n
  {
    var s := Decimal(n);
    DecimalLength(n, width);
    DecimalRoundTrip(n);
    if |s| < width {
      var z := Zeros(width - |s|);
      assert s[0] != '+' && s[0] != '-';
      assert ZFill(s, width) == z + s;
      LeadingZerosValue(width - |s|, s);
    }
  }

  /** A number of 10^width or more is not cut down by zfill(width). */
  lemma WideDecimal(n: nat, width: nat)
    requires 1 <= width && Pow10(width) <= n
    ensures ZFill(Decimal(n), width) == Decimal(n)
    ensures |ZFill(Decimal(n), width)| > width
  {
    DecimalLength(n, width);
  }

  // ---------------------------------------------------------------------
  // Bytes
  // ---------------------------------------------------------------------

  /** One Unicode scalar value in UTF-8. */
  function Utf8Char(c: char): (bs: seq<byte>)
    ensures 1 <= |bs| <= 4
    ensures c as int < 0x80 <==> bs == [c as int]
  {
    var n := c as int;
    if n < 0x80 then [n]
    else if n < 0x800 then [0xC0 + n / 0x40, 0x80 + n % 0x40]
    else if n < 0x1_0000 then [0xE0 + n / 0x1000, 0x80 + (n / 0x40) % 0x40, 0x80 + n % 0x40]
    else [0xF0 + (n / 0x4_0000) % 8, 0x80 + (n / 0x1000) % 0x40, 0x80 + (n / 0x40) % 0x40, 0x80 + n % 0x40]
  }

  /**
   * Python's str.encode("UTF-8"): each character's one to four bytes in
   * order (AsciiBytes: ASCII text becomes one byte per character, its code).
   */
  function Utf8(s: string): (bs: seq<byte>)
    ensures |s| <= |bs| <= 4 * |s|
  {
    if s == [] then [] else Utf8(s[..|s| - 1]) + Utf8Char(s[|s| - 1])
  }

  predicate IsAscii(s: string) {
    forall i :: 0 <= i < |s| ==> s[i] as int < 0x80
  }

  /** Bytes read as text one byte per character (how float() sees an ASCII field). */
  function AsciiText(bs: seq<byte>): (t: string)
    ensures |t| == |bs|
    ensures forall i :: 0 <= i < |bs| ==> t[i] as int == bs[i]
  {
    seq(|bs|, i requires 0 <= i < |bs| => bs[i] as char)
  }

  /** On ASCII text UTF-8 is one byte per character, and reading the bytes back gives the text. */
  lemma {:induction false} AsciiBytes(s: string)
    requires IsAscii(s)
    ensures |Utf8(s)| == |s|
    ensures forall i :: 0 <= i < |s| ==> Utf8(s)[i] == s[i] as int
    ensures AsciiText(Utf8(s)) == s
  {
    if s != [] {
      var init := s[..|s| - 1];
      AsciiBytes(init);
      assert Utf8(s) == Utf8(init) + [s[|s| - 1] as int];
    }
  }

  lemma DigitsAreAscii(s: string)
    requires AllDigits(s)
    ensures IsAscii(s)
  {
  }

  /** Appending one character appends its encoding. */
  lemma Utf8Snoc(s: string, c: char)
    ensures Utf8(s + [c]) == Utf8(s) + Utf8Char(c)
  {
    assert (s + [c])[..|s|] == s;
  }

  /** Encoding one more character of a string appends that character's bytes. */
  lemma Utf8Prefix(s: string, i: nat)
    requires i < |s|
    ensures Utf8(s[..i + 1]) == Utf8(s[..i]) + Utf8Char(s[i])
  {
    assert s[..i + 1] == s[..i] + [s[i]];
    Utf8Snoc(s[..i], s[i]);
  }

  /** The whitespace bytes bytes.rstrip() removes: tab, LF, VT, FF, CR and space. */
  predicate IsSpace(b: byte) {
    b == 0x20 || 0x09 <= b <= 0x0D
  }

  /** Python's bytes.rstrip() with no argument. */
  function RStrip(bs: seq<byte>): (r: seq<byte>)
    ensures |r| <= |bs| && r == bs[..|r|]
    ensures forall i :: |r| <= i < |bs| ==> IsSpace(bs[i])
    ensures |r| > 0 ==> !IsSpace(r[|r| - 1])
  {
    if |bs| > 0 && IsSpace(bs[|bs| - 1]) then RStrip(bs[..|bs| - 1]) else bs
  }
}
