/**
 * The stopwatch text of the `Timer` component (src/components/Timer.tsx:12-13,37):
 * whole seconds, a dot, and hundredths of a second in two digits.
 */
module TimerDisplay {
  import Decimal

  /** JavaScript's `%`: the remainder takes the sign of the dividend. */
  function JsRemainder(a: int, b: int): (r: int)
    requires b > 0
    ensures a >= 0 ==> 0 <= r < b
    ensures a < 0 ==> -b < r <= 0
    ensures a >= 0 ==> r == a % b
    ensures exists q :: a == q * b + r
  {
    var rem := if a >= 0 then a % b else -((-a) % b);
    assert a == (if a >= 0 then a / b else -((-a) / b)) * b + rem;
    rem
  }

  /** `Math.floor(elapsed / 1000)`; Dafny's `/` by a positive divisor already rounds down. */
  function Seconds(elapsed: int): (s: int)
    ensures s * 1000 <= elapsed < s * 1000 + 1000
  {
    elapsed / 1000
  }

  /** `Math.floor((elapsed % 1000) / 10)`, the hundredths of the current second. */
  function Hundredths(elapsed: int): (h: int)
    ensures elapsed >= 0 ==> 0 <= h <= 99
    ensures elapsed >= 0 ==> h == (elapsed % 1000) / 10
  {
    JsRemainder(elapsed, 1000) / 10
  }

  /** `s.padStart(n, c)`: `c` repeated in front of `s` up to length `n`. */
  function PadStart(s: string, n: nat, c: char): (r: string)
    ensures |s| >= n ==> r == s
    ensures |s| < n ==> |r| == n && r[n - |s|..] == s
    ensures forall i :: 0 <= i < |r| - |s| ==> r[i] == c
    decreases n - |s|
  {
    if |s| >= n then s else PadStart([c] + s, n, c)
  }

  /** The text the component shows for `elapsed` milliseconds. */
  function Display(elapsed: int): (r: string)
    ensures elapsed >= 0 ==> |r| >= 4 && r[|r| - 3] == '.'
  {
    var text := Decimal.IntToString(Seconds(elapsed)) + "." + PadStart(Decimal.IntToString(Hundredths(elapsed)), 2, '0');
    if elapsed >= 0 then TwoDigits(Hundredths(elapsed)); text else text
  }

  /** For a non-negative time, seconds and hundredths pin it down to within 10 ms from below. */
  lemma DisplayBounds(elapsed: int)
    requires elapsed >= 0
    ensures Seconds(elapsed) >= 0 && 0 <= Hundredths(elapsed) <= 99
    ensures Seconds(elapsed) * 1000 + Hundredths(elapsed) * 10 <= elapsed
    ensures elapsed < Seconds(elapsed) * 1000 + Hundredths(elapsed) * 10 + 10
  {
  }

  /** A later time never shows an earlier (seconds, hundredths) pair. */
  lemma DisplayMonotone(e1: int, e2: int)
    requires 0 <= e1 <= e2
    ensures Seconds(e1) < Seconds(e2) || (Seconds(e1) == Seconds(e2) && Hundredths(e1) <= Hundredths(e2))
  {
    DisplayBounds(e1);
    DisplayBounds(e2);
    if Seconds(e1) == Seconds(e2) {
      assert Hundredths(e1) * 10 <= e1 - Seconds(e1) * 1000;
      assert e2 - Seconds(e2) * 1000 < Hundredths(e2) * 10 + 10;
    }
  }

  /** Two digits: the decimal text of a number 0..99 left-padded with '0'. */
  lemma {:induction false} TwoDigits(h: int)
    requires 0 <= h <= 99
    ensures PadStart(Decimal.IntToString(h), 2, '0') == [Decimal.DigitChar(h / 10), Decimal.DigitChar(h % 10)]
  {
    if h >= 10 {
      assert Decimal.NatToString(h) == Decimal.NatToString(h / 10) + [Decimal.DigitChar(h % 10)];
    }
  }

  /**
   * For a non-negative time the text is the decimal of the whole seconds, a
   * dot, and exactly two digits that spell the hundredths.
   */
  lemma DisplayFormat(elapsed: int)
    requires elapsed >= 0
    ensures var h := Hundredths(elapsed);
            Display(elapsed) == Decimal.NatToString(elapsed / 1000) + "." +
                                [Decimal.DigitChar(h / 10), Decimal.DigitChar(h % 10)]
  {
    DisplayBounds(elapsed);
    TwoDigits(Hundredths(elapsed));
  }
}
