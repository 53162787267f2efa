/**
 * The inactivity warning's clock face: the countdown in seconds split into
 * minutes and seconds, each written in decimal and left-padded with '0' to
 * two characters, joined by ':'. Nothing is shown while the warning is
 * closed.
 */
module SessionWarning {
  import opened Outcomes
  import opened Text

  /** `Math.floor(countdown / 60)`. */
  function Minutes(countdown: int): int
  {
    countdown / 60
  }

  /** `countdown % 60`: JavaScript's remainder takes the sign of the dividend. */
  function Seconds(countdown: int): int
  {
    if countdown >= 0 then countdown % 60 else -((-countdown) % 60)
  }

  /** For a countdown that is not negative the two parts recompose it, with seconds below a minute. */
  lemma SplitRecomposes(countdown: nat)
    ensures Minutes(countdown) * 60 + Seconds(countdown) == countdown
    ensures 0 <= Seconds(countdown) < 60
    ensures 0 <= Minutes(countdown)
  {
  }

  /** `n.toString()` for an integer. */
  function IntToString(n: int): string
  {
    if n < 0 then "-" + NatToString(-n) else NatToString(n)
  }

  /** The rendered clock, or nothing while the warning is closed. */
  function Clock(isOpen: bool, countdown: int): (face: Option<string>)
    ensures face.Some? <==> isOpen
  {
    if !isOpen then None
    else Some(PadZero(IntToString(Minutes(countdown)), 2) + ":" + PadZero(IntToString(Seconds(countdown)), 2))
  }

  lemma {:induction false} NatToStringValue(n: nat)
    ensures DigitsValue(NatToString(n)) == n
    decreases n
  {
    if n >= 10 {
      var s := NatToString(n);
      NatToStringValue(n / 10);
      assert s[..|s| - 1] == NatToString(n / 10);
    }
  }

  lemma NatToStringShort(n: nat)
    requires n < 100
    ensures |NatToString(n)| <= 2
  {
    if n >= 10 {
      assert NatToString(n / 10) == [DigitChar(n / 10)];
    }
  }

  /** Leading zeros do not change the value of a digit string. */
  lemma {:induction false} LeadingZeroValue(s: string)
    requires AllDigits(s)
    ensures AllDigits(['0'] + s)
    ensures DigitsValue(['0'] + s) == DigitsValue(s)
    decreases |s|
  {
    if s != [] {
      var front := s[..|s| - 1];
      LeadingZeroValue(front);
      assert (['0'] + s)[..|['0'] + s| - 1] == ['0'] + front;
    }
  }

  /** Any number of leading zeros leaves the value alone. */
  lemma {:induction false} ZerosValue(k: nat, s: string)
    requires AllDigits(s)
    ensures AllDigits(Zeros(k) + s)
    ensures DigitsValue(Zeros(k) + s) == DigitsValue(s)
    decreases k
  {
    if k > 0 {
      LeadingZeroValue(s);
      ZerosValue(k - 1, ['0'] + s);
      assert Zeros(k) + s == Zeros(k - 1) + (['0'] + s);
    } else {
      assert Zeros(k) + s == s;
    }
  }

  lemma PadZeroValue(s: string, width: nat)
    requires AllDigits(s)
    ensures AllDigits(PadZero(s, width))
    ensures DigitsValue(PadZero(s, width)) == DigitsValue(s)
  {
    if |s| < width {
      ZerosValue(width - |s|, s);
    }
  }

  /** A padded part reads back as the number it shows. */
  lemma PartReadsBack(n: nat)
    ensures AllDigits(PadZero(IntToString(n), 2))
    ensures DigitsValue(PadZero(IntToString(n), 2)) == n
  {
    NatToStringValue(n);
    PadZeroValue(NatToString(n), 2);
  }

  /**
   * While the warning is open and the countdown is below 100 minutes, the
   * face is exactly five characters `MM:SS`, and its two halves read back
   * as the minutes and the seconds.
   */
  lemma ClockFace(countdown: nat)
    requires countdown < 6000
    ensures var face := Clock(true, countdown).value;
      && |face| == 5
      && face[2] == ':'
      && AllDigits(face[..2]) && AllDigits(face[3..])
      && DigitsValue(face[..2]) == Minutes(countdown)
      && DigitsValue(face[3..]) == Seconds(countdown)
  {
    var m, sec := Minutes(countdown), Seconds(countdown);
    NatToStringShort(m);
    NatToStringShort(sec);
    PartReadsBack(m);
    PartReadsBack(sec);
    var mm, ss := PadZero(IntToString(m), 2), PadZero(IntToString(sec), 2);
    var face := mm + ":" + ss;
    assert face[..2] == mm;
    assert face[3..] == ss;
  }
}
