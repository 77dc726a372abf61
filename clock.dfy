/**
 * The "HH:MM" text that controllers/status_controller.js and
 * controllers/datetime_controller.js both build in `updateClock`, and the
 * truthiness test both apply to their `clockTimer` handle.
 */
module Clock {
  import opened Wrappers
  import opened Numbers
  import DateTime

  /** `if (s.length == 1) s = '0' + s`. */
  function Pad(s: string): (r: string)
    ensures |r| == (if |s| == 1 then 2 else |s|)
    ensures r[|r| - |s|..] == s
    ensures |r| > |s| ==> r[0] == '0'
  {
    if |s| == 1 then "0" + s else s
  }

  /**
   * The clock text for the hours and minutes of a Date. For two-digit
   * fields it is the two zero-padded fields around ':', 5 characters.
   */
  function ClockText(hours: int, minutes: int): (r: string)
    ensures 0 <= hours < 100 && 0 <= minutes < 100 ==> r == TwoDigits(hours) + ":" + TwoDigits(minutes) && |r| == 5
  {
    PadTwoDigits(hours);
    PadTwoDigits(minutes);
    Pad(Decimal(hours)) + ":" + Pad(Decimal(minutes))
  }

  lemma PadTwoDigits(n: int)
    ensures 0 <= n < 100 ==> Pad(Decimal(n)) == TwoDigits(n)
  {
    if 0 <= n < 100 {
      PadAgreesWithTrimpad(n);
    }
  }

  /** On 0..99 the clock padding agrees with the date formatter's trimpad. */
  lemma PadAgreesWithTrimpad(n: int)
    requires 0 <= n < 100
    ensures Pad(Decimal(n)) == DateTime.Trimpad(Decimal(n)) == TwoDigits(n)
  {
    DecimalLength(n);
    DateTime.TrimpadTwoDigits(n);
  }

  /** Unlike trimpad, the clock padding never cuts a longer numeral. */
  lemma PadKeepsLongNumerals(n: int)
    requires n >= 10 || n < 0
    ensures Pad(Decimal(n)) == Decimal(n)
  {
    if n < 0 {
      assert |Decimal(n)| == |Decimal(-n)| + 1;
    }
  }

  /** Where the two fields sit in "XX:YY". */
  lemma Split(x: string, y: string)
    requires |x| == 2 && |y| == 2
    ensures (x + ":" + y)[..2] == x && (x + ":" + y)[3..] == y
  {
  }

  /** The hours and the minutes can be read back off an in-range clock text. */
  lemma ClockTextFields(hours: int, minutes: int)
    requires 0 <= hours < 24 && 0 <= minutes < 60
    ensures ClockText(hours, minutes)[..2] == TwoDigits(hours)
    ensures ClockText(hours, minutes)[3..] == TwoDigits(minutes)
  {
    Split(TwoDigits(hours), TwoDigits(minutes));
  }

  /** Distinct in-range times give distinct clock texts. */
  lemma ClockTextInjective(h1: int, m1: int, h2: int, m2: int)
    requires 0 <= h1 < 24 && 0 <= m1 < 60 && 0 <= h2 < 24 && 0 <= m2 < 60
    ensures ClockText(h1, m1) == ClockText(h2, m2) ==> h1 == h2 && m1 == m2
  {
    ClockTextFields(h1, m1);
    ClockTextFields(h2, m2);
  }

  /**
   * `if (this.clockTimer)`: a handle is truthy unless null or 0. Every
   * handle `setInterval` returns is an integer greater than zero, so a
   * stored handle is always cleared; null never is.
   */
  predicate Truthy(handle: Option<int>): (r: bool)
    ensures handle.Some? && handle.value > 0 ==> r
    ensures handle.None? ==> !r
  {
    handle.Some? && handle.value != 0
  }
}
