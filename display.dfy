/**
 * The 4-digit segment display (`bank_segment_update`,
 * `clip_segment_update`): digits 0-1 show a bank, digits 2-3 a clip number,
 * each as the first two characters of `str(n).zfill(2)`.
 */
module Display {
  import opened Decimal

  /** The two characters written for `n`. */
  function Field(n: int): (f: string)
    ensures |f| == 2
    ensures 0 <= n <= 99 ==> AllDigits(f) && DigitsValue(f) == n && (n < 10 <==> f[0] == '0')
  {
    PaddedAtLeastTwo(n);
    if 0 <= n <= 99 then
      PaddedTwoDigits(n);
      assert Padded(n)[..2] == Padded(n);
      Padded(n)[..2]
    else
      Padded(n)[..2]
  }

  /** The bank on show: the pending one while shift is held, else the current one. */
  function DisplayedBank(shiftPressed: bool, pendingBank: int, currentBank: int): (b: int)
    ensures shiftPressed ==> b == pendingBank
    ensures !shiftPressed ==> b == currentBank
  {
    if shiftPressed then pendingBank else currentBank
  }

  /** A number of three or more digits is cut to its first two. */
  lemma FieldTruncates(n: int)
    requires n >= 100
    ensures |NatToString(n)| > 2 && Field(n) == NatToString(n)[..2]
  {
    NatToStringCorrect(n);
    NatToStringLength(n);
  }

  lemma {:induction false} NatToStringLength(n: nat)
    ensures n >= 10 ==> |NatToString(n)| >= 2
    ensures n >= 100 ==> |NatToString(n)| > 2
    decreases n
  {
    if n >= 10 {
      NatToStringLength(n / 10);
      NatToStringCorrect(n / 10);
    }
  }
}
