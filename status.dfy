/**
 * controllers/status_controller.js: a status line showing the current path
 * and an "HH:MM" clock refreshed by an interval timer.
 *
 * The Stimulus targets are fixed booleans (present or not); `new Date()` is
 * replaced by the hours and minutes it would report; `setInterval` by the
 * handle it returns; `requestAnimationFrame` by a pending flag per target
 * that AnimationFrame consumes.
 */
module Status {
  import opened Wrappers
  import opened Numbers
  import Clock

  class StatusController {
    const hasPathTarget: bool
    const hasTimeTarget: bool
    var currentPath: string
    var currentTime: Option<string>
    var clockTimer: Option<int>
    /** A frame callback will copy currentPath into the path target. */
    var pathFramePending: bool
    /** A frame callback will copy currentTime into the time target. */
    var timeFramePending: bool
    /** What the controller has written into each target (None: as rendered). */
    var pathText: Option<string>
    var timeText: Option<string>

    /** `initialize`. */
    constructor (pathname: string, hasPath: bool, hasTime: bool)
      ensures hasPathTarget == hasPath && hasTimeTarget == hasTime
      ensures currentPath == pathname && currentTime == None && clockTimer == None
      ensures !pathFramePending && !timeFramePending && pathText == None && timeText == None
    {
      hasPathTarget, hasTimeTarget := hasPath, hasTime;
      currentPath := pathname;
      currentTime := None;
      clockTimer := None;
      pathFramePending, timeFramePending := false, false;
      pathText, timeText := None, None;
    }

    /** `updatePath`: schedules a write of currentPath, unchanged, into the path target. */
    method UpdatePath() returns (scheduled: bool)
      modifies this`pathFramePending
      ensures scheduled == hasPathTarget
      ensures pathFramePending == (old(pathFramePending) || scheduled)
    {
      scheduled := false;
      if hasPathTarget {
        pathFramePending := true;
        scheduled := true;
      }
    }

    /**
     * `updateClock`: formats the time and, only when the text differs from
     * currentTime, stores it and schedules a display write.
     */
    method UpdateClock(hours: int, minutes: int) returns (changed: bool)
      modifies this`currentTime, this`timeFramePending
      ensures changed <==> hasTimeTarget && old(currentTime) != Some(Clock.ClockText(hours, minutes))
      ensures currentTime == if hasTimeTarget then Some(Clock.ClockText(hours, minutes)) else old(currentTime)
      ensures timeFramePending == (old(timeFramePending) || changed)
    {
      changed := false;
      if hasTimeTarget {
        var h := Decimal(hours);
        if |h| == 1 {
          h := "0" + h;
        }
        var m := Decimal(minutes);
        if |m| == 1 {
          m := "0" + m;
        }
        var newTime := h + ":" + m;
        if Some(newTime) != currentTime {
          currentTime := Some(newTime);
          timeFramePending := true;
          changed := true;
        }
      }
    }

    /** The next animation frame: the scheduled callbacks write the fields' values at that time. */
    method AnimationFrame()
      modifies this`pathText, this`timeText, this`pathFramePending, this`timeFramePending
      ensures pathText == if old(pathFramePending) then Some(currentPath) else old(pathText)
      ensures timeText == if old(timeFramePending) then currentTime else old(timeText)
      ensures !pathFramePending && !timeFramePending
    {
      if pathFramePending {
        pathText := Some(currentPath);
      }
      if timeFramePending {
        timeText := currentTime;
      }
      pathFramePending, timeFramePending := false, false;
    }

    /** `connect`: the interval is started only when a time target exists. */
    method Connect(hours: int, minutes: int, handle: int)
      modifies this`pathFramePending, this`currentTime, this`timeFramePending, this`clockTimer
      ensures pathFramePending == (old(pathFramePending) || hasPathTarget)
      ensures currentTime == if hasTimeTarget then Some(Clock.ClockText(hours, minutes)) else old(currentTime)
      ensures timeFramePending ==
        (old(timeFramePending) || (hasTimeTarget && old(currentTime) != Some(Clock.ClockText(hours, minutes))))
      ensures clockTimer == if hasTimeTarget then Some(handle) else old(clockTimer)
    {
      if hasPathTarget {
        var _ := UpdatePath();
      }
      if hasTimeTarget {
        var _ := UpdateClock(hours, minutes);
        clockTimer := Some(handle);
      }
    }

    /** `disconnect`: clears a truthy timer handle and nulls it; otherwise does nothing. */
    method Disconnect() returns (cleared: Option<int>)
      modifies this`clockTimer
      ensures Clock.Truthy(old(clockTimer)) ==> cleared == old(clockTimer) && clockTimer == None
      ensures !Clock.Truthy(old(clockTimer)) ==> cleared == None && clockTimer == old(clockTimer)
      ensures !Clock.Truthy(clockTimer)
    {
      cleared := None;
      if Clock.Truthy(clockTimer) {
        cleared := clockTimer;
        clockTimer := None;
      }
    }
  }

  /**
   * Connected with a time target: a second tick within the same minute
   * changes nothing and schedules nothing; the next frame shows the time.
   */
  method SameMinuteTwice(pathname: string, hours: int, minutes: int, handle: int)
    returns (second: bool, shown: Option<string>)
    ensures !second
    ensures shown == Some(Clock.ClockText(hours, minutes))
  {
    var c := new StatusController(pathname, true, true);
    c.Connect(hours, minutes, handle);
    second := c.UpdateClock(hours, minutes);
    c.AnimationFrame();
    shown := c.timeText;
  }

  /** Connected with a time target, the first disconnect clears the handle and the second clears nothing. */
  method DisconnectTwice(pathname: string, hours: int, minutes: int, handle: int)
    returns (first: Option<int>, again: Option<int>)
    requires handle != 0
    ensures first == Some(handle) && again == None
  {
    var c := new StatusController(pathname, false, true);
    c.Connect(hours, minutes, handle);
    first := c.Disconnect();
    again := c.Disconnect();
  }
}
