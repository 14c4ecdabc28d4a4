/**
 * Decimal text of integers as the controller produces it: `str(n)` for an
 * integer, `s.zfill(width)` for left padding with zeros, and a parser that
 * reads such text back (used to state what the generated commands mean).
 */
module Decimal {
  import opened Wrappers

  predicate IsDigit(c: char) {
    '0' <= c <= '9'
  }

  predicate AllDigits(s: string) {
    forall i :: 0 <= i < |s| ==> IsDigit(s[i])
  }

  function DigitChar(d: int): (c: char)
    requires 0 <= d < 10
    ensures IsDigit(c) && DigitValue(c) == d
  {
    ('0' as int + d) as char
  }

  function DigitValue(c: char): int
    requires IsDigit(c)
  {
    c as int - '0' as int
  }

  /** `str(n)` for a non-negative integer: its digits, most significant first. */
  function NatToString(n: nat): string
    decreases n
  {
    if n < 10 then [DigitChar(n)] else NatToString(n / 10) + [DigitChar(n % 10)]
  }

  /** `str(k)` for any integer: a minus sign in front of the digits of `-k` when `k < 0`. */
  function IntToString(k: int): string {
    if k < 0 then "-" + NatToString(-k) else NatToString(k)
  }

  /** The number a string of digits denotes (the empty string denotes 0). */
  function DigitsValue(s: string): nat
    requires AllDigits(s)
    decreases |s|
  {
    if s == [] then 0 else DigitsValue(s[..|s| - 1]) * 10 + DigitValue(s[|s| - 1])
  }

  /** Reads an optionally negative decimal integer; None for anything else. */
  function ParseInt(s: string): Option<int> {
    if |s| > 1 && s[0] == '-' && AllDigits(s[1..]) then Some(-(DigitsValue(s[1..]) as int))
    else if |s| > 0 && AllDigits(s) then Some(DigitsValue(s))
    else None
  }

  function Zeros(k: nat): (z: string)
    ensures |z| == k && AllDigits(z)
    ensures forall i :: 0 <= i < k ==> z[i] == '0'
  {
    seq(k, _ => '0')
  }

  /** Python's `s.zfill(width)`: zeros inserted after a leading sign, up to `width` characters. */
  function ZFill(s: string, width: int): string {
    if |s| >= width then s
    else if |s| > 0 && (s[0] == '+' || s[0] == '-') then [s[0]] + Zeros(width - |s|) + s[1..]
    else Zeros(width - |s|) + s
  }

  /** `str(n).zfill(2)`, the form used for bank directories and display fields. */
  function Padded(n: int): string {
    ZFill(IntToString(n), 2)
  }

  /** `str(n)` is a non-empty string of digits without a redundant leading zero that denotes `n`. */
  lemma {:induction false} NatToStringCorrect(n: nat)
    ensures |NatToString(n)| > 0 && AllDigits(NatToString(n))
    ensures DigitsValue(NatToString(n)) == n
    ensures |NatToString(n)| > 1 ==> NatToString(n)[0] != '0'
    ensures n < 10 ==> |NatToString(n)| == 1
    ensures 10 <= n < 100 ==> |NatToString(n)| == 2
    decreases n
  {
    if n >= 10 {
      var s := NatToString(n / 10);
      NatToStringCorrect(n / 10);
      var t := s + [DigitChar(n % 10)];
      assert t[..|t| - 1] == s;
      assert DigitsValue(t) == (n / 10) * 10 + n % 10;
    }
  }

  /** Leading zeros do not change the value of a digit string. */
  lemma {:induction false} LeadingZerosValue(k: nat, s: string)
    requires AllDigits(s)
    ensures AllDigits(Zeros(k) + s) && DigitsValue(Zeros(k) + s) == DigitsValue(s)
    decreases |s|
  {
    var t := Zeros(k) + s;
    assert AllDigits(t) by {
      forall i | 0 <= i < |t| ensures IsDigit(t[i]) {
        if i < k { assert t[i] == Zeros(k)[i]; } else { assert t[i] == s[i - k]; }
      }
    }
    if s == [] {
      assert t == Zeros(k);
      ZerosValue(k);
    } else {
      var p := s[..|s| - 1];
      LeadingZerosValue(k, p);
      assert t[..|t| - 1] == Zeros(k) + p;
      assert t[|t| - 1] == s[|s| - 1];
    }
  }

  lemma {:induction false} ZerosValue(k: nat)
    ensures DigitsValue(Zeros(k)) == 0
    decreases k
  {
    if k > 0 {
      assert Zeros(k)[..k - 1] == Zeros(k - 1);
      ZerosValue(k - 1);
    }
  }

  /** Reading back `str(k)` gives `k`, for every integer. */
  lemma IntToStringRoundTrip(k: int)
    ensures ParseInt(IntToString(k)) == Some(k)
  {
    NatToStringCorrect(if k < 0 then -k else k);
    if k < 0 {
      var s := IntToString(k);
      assert s[1..] == NatToString(-k);
    } else {
      assert IsDigit(NatToString(k)[0]);
    }
  }

  /** `zfill` pads to exactly `width` characters, never shortens, and keeps the number a digit string denotes. */
  lemma ZFillCorrect(s: string, width: int)
    ensures |ZFill(s, width)| == if |s| >= width then |s| else width
    ensures |s| > 0 && AllDigits(s) ==> AllDigits(ZFill(s, width)) && DigitsValue(ZFill(s, width)) == DigitsValue(s)
  {
    if |s| < width && |s| > 0 && AllDigits(s) {
      assert IsDigit(s[0]);
      LeadingZerosValue(width - |s|, s);
    }
  }

  /** For 0..99 the padded form is exactly two digits that denote the number; a single digit gets a leading '0'. */
  lemma PaddedTwoDigits(n: int)
    requires 0 <= n <= 99
    ensures |Padded(n)| == 2 && AllDigits(Padded(n)) && DigitsValue(Padded(n)) == n
    ensures n < 10 <==> Padded(n)[0] == '0'
  {
    NatToStringCorrect(n);
    ZFillCorrect(IntToString(n), 2);
    if n >= 10 {
      assert NatToString(n) == NatToString(n / 10) + [DigitChar(n % 10)];
      assert Padded(n)[0] == DigitChar(n / 10);
    }
  }

  /** For any integer the padded form has at least two characters, so its first two can be displayed. */
  lemma PaddedAtLeastTwo(n: int)
    ensures |Padded(n)| >= 2
  {
    ZFillCorrect(IntToString(n), 2);
  }
}
