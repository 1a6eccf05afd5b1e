/**
 * The export progress indicator: hidden unless visible, a rounded percentage, and the remaining
 * time written as "<s>s" under a minute and "<m>m <s>s" from a minute on.
 */
module Progress {
  import opened Wrappers
  import opened JsNumbers

  /** `Math.round((progress / total) * 100)`; a zero total would divide by zero. */
  function Percentage(progress: real, total: real): (r: int)
    requires total > 0.0
    ensures 0.0 <= progress <= total ==> 0 <= r <= 100
  {
    var ratio := progress / total;
    if 0.0 <= progress <= total then RatioBounds(progress, total); Round(ratio * 100.0)
    else Round(ratio * 100.0)
  }

  lemma RatioBounds(progress: real, total: real)
    requires total > 0.0 && 0.0 <= progress <= total
    ensures 0.0 <= progress / total <= 1.0
  {
    assert progress / total * total == progress;
  }

  /** More labels done never shows a smaller percentage. */
  lemma PercentageMonotone(p1: real, p2: real, total: real)
    requires total > 0.0 && p1 <= p2
    ensures Percentage(p1, total) <= Percentage(p2, total)
  {
    assert p1 / total <= p2 / total by {
      assert p2 / total - p1 / total == (p2 - p1) / total;
    }
    assert p1 / total * 100.0 <= p2 / total * 100.0;
  }

  /** The decimal digits of a natural number, most significant first. */
  function NatDigits(n: nat): (r: string)
    ensures |r| >= 1 && forall i :: 0 <= i < |r| ==> '0' <= r[i] <= '9'
    decreases n
  {
    if n < 10 then [Digit(n)] else NatDigits(n / 10) + [Digit(n % 10)]
  }

  function Digit(d: nat): (c: char)
    requires d < 10
    ensures '0' <= c <= '9' && c as int - '0' as int == d
  {
    ('0' as int + d) as char
  }

  /** The value of a string of decimal digits. */
  function DigitsValue(s: string): nat
    requires forall i :: 0 <= i < |s| ==> '0' <= s[i] <= '9'
    decreases |s|
  {
    if |s| == 0 then 0 else DigitsValue(s[..|s| - 1]) * 10 + (s[|s| - 1] as int - '0' as int)
  }

  /** Reading the digits back gives the number. */
  lemma {:induction false} NatDigitsRoundTrip(n: nat)
    ensures DigitsValue(NatDigits(n)) == n
    decreases n
  {
    if n >= 10 {
      NatDigitsRoundTrip(n / 10);
      var s := NatDigits(n);
      assert s[..|s| - 1] == NatDigits(n / 10);
    }
  }

  /** A template literal's `${n}` for an integer. */
  function IntText(n: int): (r: string)
    ensures n >= 0 ==> r == NatDigits(n)
    ensures n < 0 ==> r == "-" + NatDigits(-n)
  {
    if n >= 0 then NatDigits(n) else "-" + NatDigits(-n)
  }

  /** `formatTime`. */
  function FormatTime(seconds: real): string {
    if seconds < 60.0 then IntText(Round(seconds)) + "s"
    else
      var minutes := (seconds / 60.0).Floor;
      var remainingSeconds := Round(JsRem(seconds, 60.0));
      IntText(minutes) + "m " + IntText(remainingSeconds) + "s"
  }

  /** Under a minute the text is "<n>s", and its digits read back as the rounded seconds. */
  lemma FormatTimeUnderAMinute(seconds: real)
    requires 0.0 <= seconds < 60.0
    ensures var r := FormatTime(seconds);
      && |r| >= 2 && r[|r| - 1] == 's'
      && 0 <= Round(seconds) <= 60
      && r[..|r| - 1] == NatDigits(Round(seconds))
      && DigitsValue(r[..|r| - 1]) == Round(seconds)
  {
    var r := FormatTime(seconds);
    assert r[..|r| - 1] == NatDigits(Round(seconds));
    NatDigitsRoundTrip(Round(seconds));
  }

  /**
   * From a minute on, the minutes and the remainder split the time exactly, and the shown
   * seconds are in [0, 60] (60 when the remainder rounds up).
   */
  lemma {:induction false} FormatTimeParts(seconds: real)
    requires seconds >= 60.0
    ensures var minutes := (seconds / 60.0).Floor;
      && FormatTime(seconds) == IntText(minutes) + "m " + IntText(Round(JsRem(seconds, 60.0))) + "s"
      && minutes >= 1
      && minutes as real * 60.0 + JsRem(seconds, 60.0) == seconds
      && 0 <= Round(JsRem(seconds, 60.0)) <= 60
  {
    var minutes := (seconds / 60.0).Floor;
    assert JsRemQuotient(seconds, 60.0) == minutes;
    assert seconds / 60.0 >= 1.0;
  }

  /** What the indicator shows when it is visible. */
  datatype Shown = Shown(percentage: int, timeText: Option<string>, counter: (real, real))

  /** Nothing is rendered unless `isVisible`; the time is shown only when an estimate is given. */
  function Render(isVisible: bool, progress: real, total: real, eta: Option<real>): (r: Option<Shown>)
    requires isVisible ==> total > 0.0
    ensures !isVisible <==> r.None?
    ensures r.Some? ==> r.value.percentage == Percentage(progress, total) && r.value.counter == (progress, total)
    ensures r.Some? ==> (r.value.timeText.Some? <==> eta.Some?)
    ensures r.Some? && eta.Some? ==> r.value.timeText == Some(FormatTime(eta.value))
  {
    if !isVisible then None
    else Some(Shown(Percentage(progress, total), if eta.Some? then Some(FormatTime(eta.value)) else None, (progress, total)))
  }
}
