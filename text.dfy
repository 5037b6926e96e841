/** Decimal rendering of integers as JavaScript's template literals and
    `String.prototype.padStart` produce it, and the digit parsing that
    inverts it. */
module Text {

  predicate IsDigit(c: char) {
    '0' <= c <= '9'
  }

  predicate AllDigits(s: string) {
    forall i :: 0 <= i < |s| ==> IsDigit(s[i])
  }

  function DigitChar(d: nat): (c: char)
    requires d < 10
    ensures IsDigit(c) && c as int - '0' as int == d
  {
    ('0' as int + d) as char
  }

  /** `${n}` for a non-negative integer: no leading zeros, "0" for zero. */
  function NatToString(n: nat): string
    decreases n
  {
    if n < 10 then [DigitChar(n)] else NatToString(n / 10) + [DigitChar(n % 10)]
  }

  /** `${i}` for any integer: a minus sign before the magnitude. */
  function IntToString(i: int): string {
    if i < 0 then "-" + NatToString(-i) else NatToString(i)
  }

  /** `s.padStart(width, [pad])`: pad characters in front until the length is `width`. */
  function PadStart(s: string, width: nat, pad: char): (r: string)
    ensures |s| >= width ==> r == s
    ensures |s| < width ==> |r| == width && r[width - |s|..] == s
    ensures forall i :: 0 <= i < |r| - |s| ==> r[i] == pad
  {
    if |s| >= width then s else seq(width - |s|, _ => pad) + s
  }

  /** A two-digit field as dayjs renders MM, DD, HH and mm. */
  function Pad2(n: nat): string {
    PadStart(NatToString(n), 2, '0')
  }

  /** The value of a string of decimal digits (leading zeros allowed). */
  function DigitsValue(s: string): nat
    requires AllDigits(s)
  {
    if s == [] then 0
    else DigitsValue(s[..|s| - 1]) * 10 + (s[|s| - 1] as int - '0' as int)
  }

  function Pow10(w: nat): nat {
    if w == 0 then 1 else 10 * Pow10(w - 1)
  }

  /** Rendering a number and reading its digits back gives the number, and
      a number below 10^w needs at most w digits. */
  lemma {:induction false} NatToStringValue(n: nat, w: nat)
    requires n < Pow10(w)
    ensures AllDigits(NatToString(n))
    ensures DigitsValue(NatToString(n)) == n
    ensures 1 <= |NatToString(n)| <= (if w == 0 then 1 else w)
  {
    if n >= 10 {
      assert Pow10(0) == 1 && Pow10(1) == 10;
      NatToStringValue(n / 10, w - 1);
      var s := NatToString(n);
      assert s[..|s| - 1] == NatToString(n / 10);
    }
  }

  /** Leading zeros do not change the value of a digit string. */
  lemma {:induction false} LeadingZerosValue(k: nat, s: string)
    requires AllDigits(s)
    ensures AllDigits(seq(k, _ => '0') + s)
    ensures DigitsValue(seq(k, _ => '0') + s) == DigitsValue(s)
    decreases |s|, k
  {
    var z := seq(k, _ => '0');
    var t := z + s;
    assert AllDigits(t) by {
      forall i | 0 <= i < |t| ensures IsDigit(t[i]) {
        if i < k { assert t[i] == '0'; } else { assert t[i] == s[i - k]; }
      }
    }
    if s == [] {
      if k > 0 {
        assert t[..|t| - 1] == seq(k - 1, _ => '0') + [];
        LeadingZerosValue(k - 1, []);
      }
    } else {
      assert t[..|t| - 1] == z + s[..|s| - 1];
      LeadingZerosValue(k, s[..|s| - 1]);
    }
  }

  /** A zero-padded field of width w reads back as the number it renders. */
  lemma PaddedValue(n: nat, w: nat)
    requires 1 <= w && n < Pow10(w)
    ensures |PadStart(NatToString(n), w, '0')| == w
    ensures AllDigits(PadStart(NatToString(n), w, '0'))
    ensures DigitsValue(PadStart(NatToString(n), w, '0')) == n
  {
    var s := NatToString(n);
    NatToStringValue(n, w);
    if |s| < w {
      LeadingZerosValue(w - |s|, s);
    }
  }
}
