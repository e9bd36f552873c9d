/** The stateful half of the reminder store (src/stores/reminder.ts): the refs it keeps,
    the interval timers it arms and clears, the pause/resume state machine and the
    firing of reminders. Each timer callback is a method the host calls; the clock is
    an argument, and every synchronous call runs at one instant. */
module Reminder {
  import opened Wrappers
  import opened Types
  import opened ReminderPolicy

  /** A `setInterval` registration: the id the host handed out and its period. */
  datatype Timer = Timer(id: nat, periodMs: int)

  function TimerIds(t: Option<Timer>): set<nat>
  {
    if t.Some? then {t.value.id} else {}
  }

  class ReminderStore {
    // timer handles (`waterTimerId`, `sitTimerId`, `tooltipTimerId`); None is null
    var waterTimer: Option<Timer>
    var sitTimer: Option<Timer>
    var tooltipTimer: Option<Timer>
    // instants of the last reminders, in epoch milliseconds
    var lastWaterReminder: int
    var lastSitReminder: int
    // the countdowns last computed, in seconds
    var waterCountdown: int
    var sitCountdown: int
    var isInitialized: bool
    // pause state
    var isPaused: bool
    var pausedAt: Option<int>
    var pausedWaterRemaining: int
    var pausedSitRemaining: int
    // the host's side of the timers: the ids of the intervals it will call back,
    // and the id its next `setInterval` returns
    var armed: set<nat>
    var nextTimerId: nat

    /** No interval is leaked or shared: the host calls back exactly the timers the
        store holds, each under its own id. Countdowns are never negative. */
    ghost predicate Valid()
      reads this
    {
      && armed == TimerIds(waterTimer) + TimerIds(sitTimer) + TimerIds(tooltipTimer)
      && TimerIds(waterTimer) !! TimerIds(sitTimer)
      && TimerIds(waterTimer) !! TimerIds(tooltipTimer)
      && TimerIds(sitTimer) !! TimerIds(tooltipTimer)
      && nextTimerId >= 1 && (forall id :: id in armed ==> 1 <= id < nextTimerId)
      && waterCountdown >= 0 && sitCountdown >= 0
      && pausedWaterRemaining >= 0 && pausedSitRemaining >= 0
      && (isPaused ==> pausedAt.Some?)
    }

    /** The store as it is created: both kinds start counting at `now`. */
    constructor (now: Clock)
      ensures Valid()
      ensures lastWaterReminder == now.epochMs && lastSitReminder == now.epochMs
      ensures waterTimer.None? && sitTimer.None? && tooltipTimer.None? && armed == {}
      ensures !isInitialized && !isPaused && pausedAt.None?
      ensures waterCountdown == 0 && sitCountdown == 0
      ensures pausedWaterRemaining == 0 && pausedSitRemaining == 0
    {
      waterTimer, sitTimer, tooltipTimer := None, None, None;
      lastWaterReminder, lastSitReminder := now.epochMs, now.epochMs;
      waterCountdown, sitCountdown := 0, 0;
      isInitialized := false;
      isPaused, pausedAt := false, None;
      pausedWaterRemaining, pausedSitRemaining := 0, 0;
      armed, nextTimerId := {}, 1;
    }

    /** The water countdown `calculateCountdowns` would store at `nowMs`. */
    function WaterCountdownAt(settings: Settings, nowMs: int): int
      reads this
    {
      if isPaused then pausedWaterRemaining
      else Remaining(settings.waterReminderEnabled, settings.waterIntervalMinutes, lastWaterReminder, nowMs)
    }

    /** The sitting countdown `calculateCountdowns` would store at `nowMs`. */
    function SitCountdownAt(settings: Settings, nowMs: int): int
      reads this
    {
      if isPaused then pausedSitRemaining
      else Remaining(settings.sitReminderEnabled, settings.sitIntervalMinutes, lastSitReminder, nowMs)
    }

    /** `updateTrayTooltip`: the text it sends to the tray (the send itself, and its
        failures, are outside the model) is the rendering of the stored state's content. */
    method UpdateTrayTooltip(settings: Settings) returns (text: string)
      ensures text == RenderTray(TrayContent(settings, isPaused, waterCountdown, sitCountdown))
    {
      text := TooltipText(settings, isPaused, waterCountdown, sitCountdown);
      TooltipRendersContent(settings, isPaused, waterCountdown, sitCountdown);
    }

    /** The host's `setInterval`: a fresh id is armed. */
    method SetInterval(periodMs: int) returns (t: Timer)
      modifies this`armed, this`nextTimerId
      ensures t == Timer(old(nextTimerId), periodMs) && t.id >= old(nextTimerId)
      ensures armed == old(armed) + {t.id} && nextTimerId == old(nextTimerId) + 1
    {
      t := Timer(nextTimerId, periodMs);
      armed := armed + {t.id};
      nextTimerId := nextTimerId + 1;
    }

    /** The host's `clearInterval`: the id is no longer called back. */
    method ClearInterval(t: Timer)
      modifies this`armed
      ensures armed == old(armed) - {t.id}
    {
      armed := armed - {t.id};
    }

    /** `calculateCountdowns`: frozen at the snapshot while paused, otherwise
        recomputed from the last reminder instants. */
    method CalculateCountdowns(settings: Settings, now: Clock)
      requires Valid()
      modifies this`waterCountdown, this`sitCountdown
      ensures Valid()
      ensures waterCountdown == WaterCountdownAt(settings, now.epochMs)
      ensures sitCountdown == SitCountdownAt(settings, now.epochMs)
      ensures old(isPaused) ==> waterCountdown == pausedWaterRemaining && sitCountdown == pausedSitRemaining
    {
      if isPaused {
        waterCountdown := pausedWaterRemaining;
        sitCountdown := pausedSitRemaining;
        return;
      }
      if settings.waterReminderEnabled {
        var elapsed := (now.epochMs - lastWaterReminder) / 1000;
        var interval := settings.waterIntervalMinutes * 60;
        waterCountdown := Max(0, interval - elapsed);
      } else {
        waterCountdown := 0;
      }
      if settings.sitReminderEnabled {
        var elapsed := (now.epochMs - lastSitReminder) / 1000;
        var interval := settings.sitIntervalMinutes * 60;
        sitCountdown := Max(0, interval - elapsed);
      } else {
        sitCountdown := 0;
      }
    }

    /** `startTooltipTimer`: re-arm the one-second aggregator, then run it once at
        once; the result is the text published to the tray. */
    method StartTooltipTimer(settings: Settings, now: Clock) returns (published: string)
      requires Valid()
      modifies this`tooltipTimer, this`armed, this`nextTimerId, this`waterCountdown, this`sitCountdown
      ensures Valid()
      ensures tooltipTimer == Some(Timer(old(nextTimerId), 1000))
      ensures armed == old(armed) - TimerIds(old(tooltipTimer)) + {old(nextTimerId)}
      ensures waterCountdown == WaterCountdownAt(settings, now.epochMs)
      ensures sitCountdown == SitCountdownAt(settings, now.epochMs)
      ensures published == RenderTray(TrayContent(settings, isPaused, waterCountdown, sitCountdown))
    {
      if tooltipTimer.Some? {
        ClearInterval(tooltipTimer.value);
      }
      var t := SetInterval(1000);
      tooltipTimer := Some(t);
      CalculateCountdowns(settings, now);
      published := UpdateTrayTooltip(settings);
    }

    /** One tick of the aggregator: recompute, then publish. */
    method TooltipTimerFired(settings: Settings, now: Clock) returns (published: string)
      requires Valid() && tooltipTimer.Some?
      modifies this`waterCountdown, this`sitCountdown
      ensures Valid()
      ensures waterCountdown == WaterCountdownAt(settings, now.epochMs)
      ensures sitCountdown == SitCountdownAt(settings, now.epochMs)
      ensures published == RenderTray(TrayContent(settings, isPaused, waterCountdown, sitCountdown))
    {
      CalculateCountdowns(settings, now);
      published := UpdateTrayTooltip(settings);
    }

    /** `sendWaterReminder`: when the policy allows it, deliver the notification
        (delivery and its failures are outside the model) and record the instant the
        awaited delivery returned, `deliveredMs`; otherwise change nothing. */
    method SendWaterReminder(settings: Settings, now: Clock, deliveredMs: int) returns (sent: bool)
      requires Valid()
      modifies this`lastWaterReminder
      ensures Valid()
      ensures sent == CanSendReminder(settings, now, isPaused)
      ensures lastWaterReminder == if sent then deliveredMs else old(lastWaterReminder)
    {
      if !CanSendReminder(settings, now, isPaused) {
        return false;
      }
      lastWaterReminder := deliveredMs;
      sent := true;
    }

    /** `sendSitReminder`, the same for the sitting reminder. */
    method SendSitReminder(settings: Settings, now: Clock, deliveredMs: int) returns (sent: bool)
      requires Valid()
      modifies this`lastSitReminder
      ensures Valid()
      ensures sent == CanSendReminder(settings, now, isPaused)
      ensures lastSitReminder == if sent then deliveredMs else old(lastSitReminder)
    {
      if !CanSendReminder(settings, now, isPaused) {
        return false;
      }
      lastSitReminder := deliveredMs;
      sent := true;
    }

    /** The water interval's callback. A suppressed firing leaves the last reminder
        instant alone, so the next attempt stays on the original schedule. */
    method WaterTimerFired(settings: Settings, now: Clock, deliveredMs: int) returns (sent: bool)
      requires Valid() && waterTimer.Some?
      modifies this`lastWaterReminder
      ensures Valid()
      ensures sent <==> settings.waterReminderEnabled && CanSendReminder(settings, now, isPaused)
      ensures isPaused ==> !sent
      ensures lastWaterReminder == if sent then deliveredMs else old(lastWaterReminder)
    {
      sent := false;
      if settings.waterReminderEnabled && !isPaused {
        sent := SendWaterReminder(settings, now, deliveredMs);
      }
    }

    /** The sitting interval's callback. */
    method SitTimerFired(settings: Settings, now: Clock, deliveredMs: int) returns (sent: bool)
      requires Valid() && sitTimer.Some?
      modifies this`lastSitReminder
      ensures Valid()
      ensures sent <==> settings.sitReminderEnabled && CanSendReminder(settings, now, isPaused)
      ensures isPaused ==> !sent
      ensures lastSitReminder == if sent then deliveredMs else old(lastSitReminder)
    {
      sent := false;
      if settings.sitReminderEnabled && !isPaused {
        sent := SendSitReminder(settings, now, deliveredMs);
      }
    }

    /** `startWaterTimer`: drop any previous water interval, restart the countdown
        at `now` and arm an interval of the configured period. */
    method StartWaterTimer(settings: Settings, now: Clock)
      requires Valid()
      modifies this`waterTimer, this`armed, this`nextTimerId, this`lastWaterReminder
      ensures Valid()
      ensures lastWaterReminder == now.epochMs
      ensures waterTimer == Some(Timer(old(nextTimerId), settings.waterIntervalMinutes * 60 * 1000))
      ensures armed == old(armed) - TimerIds(old(waterTimer)) + {old(nextTimerId)}
    {
      var intervalMs := settings.waterIntervalMinutes * 60 * 1000;
      if waterTimer.Some? {
        ClearInterval(waterTimer.value);
      }
      lastWaterReminder := now.epochMs;
      var t := SetInterval(intervalMs);
      waterTimer := Some(t);
    }

    /** `startSitTimer`, the same for the sitting reminder. */
    method StartSitTimer(settings: Settings, now: Clock)
      requires Valid()
      modifies this`sitTimer, this`armed, this`nextTimerId, this`lastSitReminder
      ensures Valid()
      ensures lastSitReminder == now.epochMs
      ensures sitTimer == Some(Timer(old(nextTimerId), settings.sitIntervalMinutes * 60 * 1000))
      ensures armed == old(armed) - TimerIds(old(sitTimer)) + {old(nextTimerId)}
    {
      var intervalMs := settings.sitIntervalMinutes * 60 * 1000;
      if sitTimer.Some? {
        ClearInterval(sitTimer.value);
      }
      lastSitReminder := now.epochMs;
      var t := SetInterval(intervalMs);
      sitTimer := Some(t);
    }

    /** `clearAllTimers`: afterwards no handle is held and the host calls nothing
        back; on a store that holds no timer it changes nothing. */
    method ClearAllTimers()
      requires Valid()
      modifies this`waterTimer, this`sitTimer, this`tooltipTimer, this`armed
      ensures Valid()
      ensures waterTimer.None? && sitTimer.None? && tooltipTimer.None? && armed == {}
      ensures old(waterTimer).None? && old(sitTimer).None? && old(tooltipTimer).None? ==> armed == old(armed)
    {
      if waterTimer.Some? {
        ClearInterval(waterTimer.value);
        waterTimer := None;
      }
      if sitTimer.Some? {
        ClearInterval(sitTimer.value);
        sitTimer := None;
      }
      if tooltipTimer.Some? {
        ClearInterval(tooltipTimer.value);
        tooltipTimer := None;
      }
    }

    /** `pauseReminders`: a no-op while paused; otherwise freeze the countdowns last
        stored (not recomputed ones) and publish the tooltip. */
    method PauseReminders(settings: Settings, now: Clock) returns (published: Option<string>)
      requires Valid()
      modifies this`isPaused, this`pausedAt, this`pausedWaterRemaining, this`pausedSitRemaining
      ensures Valid()
      ensures old(isPaused) ==> (published.None? && pausedAt == old(pausedAt)
        && pausedWaterRemaining == old(pausedWaterRemaining) && pausedSitRemaining == old(pausedSitRemaining))
      ensures !old(isPaused) ==> (pausedAt == Some(now.epochMs)
        && pausedWaterRemaining == waterCountdown && pausedSitRemaining == sitCountdown
        && published == Some(RenderTray(TrayContent(settings, isPaused, waterCountdown, sitCountdown))))
      ensures isPaused
    {
      if isPaused {
        return None;
      }
      isPaused := true;
      pausedAt := Some(now.epochMs);
      pausedWaterRemaining := waterCountdown;
      pausedSitRemaining := sitCountdown;
      var text := UpdateTrayTooltip(settings);
      published := Some(text);
    }

    /** The first half of `resumeReminders`: move each kind's last reminder instant so
        that its frozen countdown goes on from `now`; a kind frozen at 0 is left alone. */
    method ShiftPausedSchedules(settings: Settings, now: Clock)
      modifies this`lastWaterReminder, this`lastSitReminder
      ensures lastWaterReminder == if pausedWaterRemaining > 0
        then ResumedLast(settings.waterIntervalMinutes, pausedWaterRemaining, now.epochMs)
        else old(lastWaterReminder)
      ensures lastSitReminder == if pausedSitRemaining > 0
        then ResumedLast(settings.sitIntervalMinutes, pausedSitRemaining, now.epochMs)
        else old(lastSitReminder)
      ensures pausedWaterRemaining > 0 ==> forall t :: t >= now.epochMs ==>
        Remaining(true, settings.waterIntervalMinutes, lastWaterReminder, t)
          == Max(0, pausedWaterRemaining - (t - now.epochMs) / 1000)
      ensures pausedSitRemaining > 0 ==> forall t :: t >= now.epochMs ==>
        Remaining(true, settings.sitIntervalMinutes, lastSitReminder, t)
          == Max(0, pausedSitRemaining - (t - now.epochMs) / 1000)
    {
      if pausedWaterRemaining > 0 {
        var interval := settings.waterIntervalMinutes * 60;
        var elapsed := interval - pausedWaterRemaining;
        lastWaterReminder := now.epochMs - elapsed * 1000;
        ResumedCountdownAlwaysContinues(settings.waterIntervalMinutes, pausedWaterRemaining, now.epochMs);
      }
      if pausedSitRemaining > 0 {
        var interval := settings.sitIntervalMinutes * 60;
        var elapsed := interval - pausedSitRemaining;
        lastSitReminder := now.epochMs - elapsed * 1000;
        ResumedCountdownAlwaysContinues(settings.sitIntervalMinutes, pausedSitRemaining, now.epochMs);
      }
    }

    /** `resumeReminders`: a no-op while running; otherwise shift the schedules so the
        frozen countdowns go on from `now`, clear the snapshot and publish the tooltip. */
    method ResumeReminders(settings: Settings, now: Clock) returns (published: Option<string>)
      requires Valid()
      modifies this`isPaused, this`pausedAt, this`pausedWaterRemaining, this`pausedSitRemaining,
        this`lastWaterReminder, this`lastSitReminder
      ensures Valid()
      ensures !old(isPaused) ==> (published.None? && pausedAt == old(pausedAt)
        && pausedWaterRemaining == old(pausedWaterRemaining) && pausedSitRemaining == old(pausedSitRemaining)
        && lastWaterReminder == old(lastWaterReminder) && lastSitReminder == old(lastSitReminder))
      ensures old(isPaused) ==> (pausedAt.None? && pausedWaterRemaining == 0 && pausedSitRemaining == 0
        && published == Some(RenderTray(TrayContent(settings, isPaused, waterCountdown, sitCountdown))))
      ensures old(isPaused) ==> (lastWaterReminder ==
        if old(pausedWaterRemaining) > 0
        then ResumedLast(settings.waterIntervalMinutes, old(pausedWaterRemaining), now.epochMs)
        else old(lastWaterReminder))
      ensures old(isPaused) ==> (lastSitReminder ==
        if old(pausedSitRemaining) > 0
        then ResumedLast(settings.sitIntervalMinutes, old(pausedSitRemaining), now.epochMs)
        else old(lastSitReminder))
      ensures old(isPaused) && settings.waterReminderEnabled && old(pausedWaterRemaining) > 0 ==>
        forall t :: t >= now.epochMs ==>
          WaterCountdownAt(settings, t) == Max(0, old(pausedWaterRemaining) - (t - now.epochMs) / 1000)
      ensures old(isPaused) && settings.sitReminderEnabled && old(pausedSitRemaining) > 0 ==>
        forall t :: t >= now.epochMs ==>
          SitCountdownAt(settings, t) == Max(0, old(pausedSitRemaining) - (t - now.epochMs) / 1000)
      ensures !isPaused
    {
      if !isPaused {
        return None;
      }
      ShiftPausedSchedules(settings, now);
      isPaused := false;
      pausedAt := None;
      pausedWaterRemaining := 0;
      pausedSitRemaining := 0;
      var text := UpdateTrayTooltip(settings);
      published := Some(text);
    }

    /** `togglePause`: resume when paused, pause otherwise, with the effects of each. */
    method TogglePause(settings: Settings, now: Clock) returns (published: Option<string>)
      requires Valid()
      modifies this`isPaused, this`pausedAt, this`pausedWaterRemaining, this`pausedSitRemaining,
        this`lastWaterReminder, this`lastSitReminder
      ensures Valid()
      ensures isPaused == !old(isPaused)
      ensures published == Some(RenderTray(TrayContent(settings, isPaused, waterCountdown, sitCountdown)))
      ensures !old(isPaused) ==> (pausedAt == Some(now.epochMs)
        && pausedWaterRemaining == waterCountdown && pausedSitRemaining == sitCountdown
        && lastWaterReminder == old(lastWaterReminder) && lastSitReminder == old(lastSitReminder))
      ensures old(isPaused) ==> (pausedAt.None? && pausedWaterRemaining == 0 && pausedSitRemaining == 0)
      ensures old(isPaused) ==> (lastWaterReminder ==
        if old(pausedWaterRemaining) > 0
        then ResumedLast(settings.waterIntervalMinutes, old(pausedWaterRemaining), now.epochMs)
        else old(lastWaterReminder))
      ensures old(isPaused) ==> (lastSitReminder ==
        if old(pausedSitRemaining) > 0
        then ResumedLast(settings.sitIntervalMinutes, old(pausedSitRemaining), now.epochMs)
        else old(lastSitReminder))
      ensures old(isPaused) && settings.waterReminderEnabled && old(pausedWaterRemaining) > 0 ==>
        forall t :: t >= now.epochMs ==>
          WaterCountdownAt(settings, t) == Max(0, old(pausedWaterRemaining) - (t - now.epochMs) / 1000)
      ensures old(isPaused) && settings.sitReminderEnabled && old(pausedSitRemaining) > 0 ==>
        forall t :: t >= now.epochMs ==>
          SitCountdownAt(settings, t) == Max(0, old(pausedSitRemaining) - (t - now.epochMs) / 1000)
    {
      if isPaused {
        published := ResumeReminders(settings, now);
      } else {
        published := PauseReminders(settings, now);
      }
    }

    /** `restartReminders`: tear every timer down, clear the pause flag (only the
        flag: the snapshot and pause instant are left as they were), restart the
        enabled kinds at `now` and start the aggregator. */
    method RestartReminders(settings: Settings, now: Clock) returns (published: string)
      requires Valid()
      modifies this`waterTimer, this`sitTimer, this`tooltipTimer, this`armed, this`nextTimerId, this`isPaused,
        this`lastWaterReminder, this`lastSitReminder, this`waterCountdown, this`sitCountdown
      ensures Valid()
      ensures !isPaused
      ensures pausedAt == old(pausedAt)
      ensures pausedWaterRemaining == old(pausedWaterRemaining) && pausedSitRemaining == old(pausedSitRemaining)
      ensures isInitialized == old(isInitialized)
      ensures waterTimer.Some? <==> settings.waterReminderEnabled
      ensures sitTimer.Some? <==> settings.sitReminderEnabled
      ensures waterTimer.Some? ==> waterTimer.value.periodMs == settings.waterIntervalMinutes * 60 * 1000
      ensures sitTimer.Some? ==> sitTimer.value.periodMs == settings.sitIntervalMinutes * 60 * 1000
      ensures tooltipTimer.Some? && tooltipTimer.value.periodMs == 1000
      ensures lastWaterReminder == if settings.waterReminderEnabled then now.epochMs else old(lastWaterReminder)
      ensures lastSitReminder == if settings.sitReminderEnabled then now.epochMs else old(lastSitReminder)
      ensures waterCountdown == WaterCountdownAt(settings, now.epochMs)
      ensures sitCountdown == SitCountdownAt(settings, now.epochMs)
      ensures published == RenderTray(TrayContent(settings, isPaused, waterCountdown, sitCountdown))
    {
      ClearAllTimers();
      isPaused := false;
      if settings.waterReminderEnabled {
        StartWaterTimer(settings, now);
      }
      if settings.sitReminderEnabled {
        StartSitTimer(settings, now);
      }
      published := StartTooltipTimer(settings, now);
    }

    /** `initReminders`: the first call (after the settings have been loaded, which
        is outside the model) restarts everything and marks the store initialised;
        every later call does nothing. */
    method InitReminders(settings: Settings, now: Clock) returns (published: Option<string>)
      requires Valid()
      modifies this`waterTimer, this`sitTimer, this`tooltipTimer, this`armed, this`nextTimerId, this`isPaused,
        this`lastWaterReminder, this`lastSitReminder, this`waterCountdown, this`sitCountdown, this`isInitialized
      ensures Valid()
      ensures isInitialized
      ensures old(isInitialized) ==> published.None? && unchanged(this)
      ensures !old(isInitialized) ==> (!isPaused && pausedAt == old(pausedAt)
        && pausedWaterRemaining == old(pausedWaterRemaining) && pausedSitRemaining == old(pausedSitRemaining))
      ensures !old(isInitialized) ==> ((waterTimer.Some? <==> settings.waterReminderEnabled)
        && (sitTimer.Some? <==> settings.sitReminderEnabled)
        && (waterTimer.Some? ==> waterTimer.value.periodMs == settings.waterIntervalMinutes * 60 * 1000)
        && (sitTimer.Some? ==> sitTimer.value.periodMs == settings.sitIntervalMinutes * 60 * 1000)
        && tooltipTimer.Some? && tooltipTimer.value.periodMs == 1000)
      ensures !old(isInitialized) ==>
        (lastWaterReminder == if settings.waterReminderEnabled then now.epochMs else old(lastWaterReminder))
        && (lastSitReminder == if settings.sitReminderEnabled then now.epochMs else old(lastSitReminder))
      ensures !old(isInitialized) ==> (waterCountdown == WaterCountdownAt(settings, now.epochMs)
        && sitCountdown == SitCountdownAt(settings, now.epochMs)
        && published == Some(RenderTray(TrayContent(settings, isPaused, waterCountdown, sitCountdown))))
    {
      if isInitialized {
        return None;
      }
      var text := RestartReminders(settings, now);
      isInitialized := true;
      published := Some(text);
    }
  }
}
