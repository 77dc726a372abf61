/**
 * controllers/datetime_controller.js: an "HH:MM" clock rewritten by an
 * interval timer on every tick, with no change detection.
 */
module DatetimeController {
  import opened Wrappers
  import opened Numbers
  import Clock

  class DatetimeController {
    const hasClockTarget: bool
    var clockTimer: Option<int>
    /** The clock target's innerHTML as last written by the controller (None: as rendered). */
    var clockHtml: Option<string>

    /** `initialize`. */
    constructor (hasClock: bool)
      ensures hasClockTarget == hasClock && clockTimer == None && clockHtml == None
    {
      hasClockTarget := hasClock;
      clockTimer := None;
      clockHtml := None;
    }

    /** `updateClock`: writes "HH:MM" on every call when the clock target exists. */
    method UpdateClock(hours: int, minutes: int) returns (written: bool)
      modifies this`clockHtml
      ensures written == hasClockTarget
      ensures clockHtml == if written then Some(Clock.ClockText(hours, minutes)) else old(clockHtml)
    {
      var h := Decimal(hours);
      if |h| == 1 {
        h := "0" + h;
      }
      var m := Decimal(minutes);
      if |m| == 1 {
        m := "0" + m;
      }
      written := false;
      if hasClockTarget {
        clockHtml := Some(h + ":" + m);
        written := true;
      }
    }

    /** `connect`: draws the clock and always stores the interval handle. */
    method Connect(hours: int, minutes: int, handle: int)
      modifies this`clockHtml, this`clockTimer
      ensures clockHtml == if hasClockTarget then Some(Clock.ClockText(hours, minutes)) else old(clockHtml)
      ensures clockTimer == Some(handle)
    {
      var _ := UpdateClock(hours, minutes);
      clockTimer := Some(handle);
    }

    /** `disconnect`: clears a truthy timer handle and nulls it; otherwise does nothing. */
    method Disconnect() returns (cleared: Option<int>)
      modifies this`clockTimer
      ensures Clock.Truthy(old(clockTimer)) ==> cleared == old(clockTimer) && clockTimer == None
      ensures !Clock.Truthy(old(clockTimer)) ==> cleared == None && clockTimer == old(clockTimer)
      ensures !Clock.Truthy(clockTimer)
    {
      cleared := None;
      if Clock.Truthy(clockTimer) {
        cleared := clockTimer;
        clockTimer := None;
      }
    }
  }

  /**
   * Connected with a clock target: every tick rewrites the text, even an
   * identical one, and disconnecting twice clears the handle once.
   */
  method Lifecycle(hours: int, minutes: int, handle: int)
    returns (rewritten: bool, text: Option<string>, first: Option<int>, again: Option<int>)
    requires handle != 0
    ensures rewritten
    ensures text == Some(Clock.ClockText(hours, minutes))
    ensures first == Some(handle) && again == None
  {
    var c := new DatetimeController(true);
    c.Connect(hours, minutes, handle);
    rewritten := c.UpdateClock(hours, minutes);
    text := c.clockHtml;
    first := c.Disconnect();
    again := c.Disconnect();
  }
}
