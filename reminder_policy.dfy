/** The pure half of the reminder store (src/stores/reminder.ts): the work-time and
    do-not-disturb policies, the countdown arithmetic, `formatCountdown` and the text of
    the tray tooltip. The wall clock is an explicit `Clock` argument. */
module ReminderPolicy {
  import opened Wrappers
  import opened Types
  import opened Text

  /** A reading of the wall clock: milliseconds since the epoch and the local
      weekday (0 = Sunday), hour and minute that `Date` reports for it. */
  datatype Clock = Clock(epochMs: int, weekday: int, hour: int, minute: int)

  function MinuteOfDay(now: Clock): int
  {
    now.hour * 60 + now.minute
  }

  /** The work-time window: inclusive at both ends, never wrapping. */
  predicate InWorkWindow(start: int, end: int, minute: int)
  {
    start <= minute <= end
  }

  /** The do-not-disturb window: inclusive at both ends; when it starts after it ends
      it spans midnight and is the union of the evening and the morning ranges. */
  predicate InDndWindow(start: int, end: int, minute: int)
  {
    if start > end then minute >= start || minute <= end else start <= minute <= end
  }

  /** `isInWorkTime`. A bound that does not parse is NaN in the source, and every
      comparison with NaN is false, so such a window contains no minute. */
  predicate IsInWorkTime(settings: Settings, now: Clock)
  {
    if !settings.workTimeEnabled then true
    else if now.weekday !in settings.workDays then false
    else match (ParseTimeOfDay(settings.workStartTime), ParseTimeOfDay(settings.workEndTime))
      case (Some(start), Some(end)) => InWorkWindow(start, end, MinuteOfDay(now))
      case _ => false
  }

  /** `isInDndTime`, with the same NaN reading of unparsable bounds. */
  predicate IsInDndTime(settings: Settings, now: Clock)
  {
    if !settings.dndEnabled then false
    else match (ParseTimeOfDay(settings.dndStartTime), ParseTimeOfDay(settings.dndEndTime))
      case (Some(start), Some(end)) => InDndWindow(start, end, MinuteOfDay(now))
      case _ => false
  }

  /** `canSendReminder`. */
  predicate CanSendReminder(settings: Settings, now: Clock, isPaused: bool)
  {
    IsInWorkTime(settings, now) && !IsInDndTime(settings, now) && !isPaused
  }

  /** `formatCountdown`: "mm:ss" with both fields padded to at least two digits. */
  function FormatCountdown(seconds: int): string
  {
    if seconds <= 0 then "00:00" else Pad2(seconds / 60) + ":" + Pad2(seconds % 60)
  }

  function Max(a: int, b: int): int { if a >= b then a else b }

  /** Whole seconds between two instants, `Math.floor((now - last) / 1000)`; Dafny's
      division by a positive divisor rounds down, as `Math.floor` does. */
  function ElapsedSeconds(lastMs: int, nowMs: int): int
  {
    (nowMs - lastMs) / 1000
  }

  /** One kind's countdown as `calculateCountdowns` computes it while running. */
  function Remaining(enabled: bool, intervalMinutes: int, lastMs: int, nowMs: int): (r: int)
    ensures r >= 0
  {
    if !enabled then 0 else Max(0, intervalMinutes * 60 - ElapsedSeconds(lastMs, nowMs))
  }

  /** The last-reminder instant `resumeReminders` writes back so that `remaining`
      seconds are left of the interval at `nowMs`. */
  function ResumedLast(intervalMinutes: int, remaining: int, nowMs: int): int
  {
    nowMs - (intervalMinutes * 60 - remaining) * 1000
  }

  const TooltipHeader: string := "健康提醒助手"
  const PausedLine: string := "\U{23F8}\U{FE0F} 已暂停"

  function WaterLine(countdown: int): string { "\U{1F4A7} 喝水: " + FormatCountdown(countdown) }

  function SitLine(countdown: int): string { "\U{1F6B6} 久坐: " + FormatCountdown(countdown) }

  /** The string `updateTrayTooltip` accumulates line by line, before trimming. */
  function TooltipRaw(settings: Settings, isPaused: bool, waterCountdown: int, sitCountdown: int): string
  {
    var t0 := TooltipHeader + "\n";
    var t1 := if isPaused then t0 + PausedLine + "\n" else t0;
    var t2 := if settings.waterReminderEnabled && waterCountdown > 0 then t1 + WaterLine(waterCountdown) + "\n" else t1;
    if settings.sitReminderEnabled && sitCountdown > 0 then t2 + SitLine(sitCountdown) else t2
  }

  /** The string `updateTrayTooltip` sends: the accumulated text, trimmed. */
  function TooltipText(settings: Settings, isPaused: bool, waterCountdown: int, sitCountdown: int): string
  {
    Trim(TooltipRaw(settings, isPaused, waterCountdown, sitCountdown))
  }

  /** What one line of the tray tooltip reports. */
  datatype TrayLine = Header | PausedNote | WaterDue(seconds: int) | SitDue(seconds: int)

  /** What the tooltip reports: the header, the paused marker while paused, and one
      line per enabled kind whose countdown is still running, in that order. */
  function TrayContent(settings: Settings, isPaused: bool, waterCountdown: int, sitCountdown: int): seq<TrayLine>
  {
    [Header]
    + (if isPaused then [PausedNote] else [])
    + (if settings.waterReminderEnabled && waterCountdown > 0 then [WaterDue(waterCountdown)] else [])
    + (if settings.sitReminderEnabled && sitCountdown > 0 then [SitDue(sitCountdown)] else [])
  }

  function LineText(line: TrayLine): string
  {
    match line
    case Header => TooltipHeader
    case PausedNote => PausedLine
    case WaterDue(seconds) => WaterLine(seconds)
    case SitDue(seconds) => SitLine(seconds)
  }

  function LineTexts(lines: seq<TrayLine>): (r: seq<string>)
    ensures |r| == |lines|
  {
    if |lines| == 0 then [] else LineTexts(lines[..|lines| - 1]) + [LineText(lines[|lines| - 1])]
  }

  /** The text of a tooltip content: its lines' texts joined by line breaks. */
  function RenderTray(lines: seq<TrayLine>): string
  {
    JoinLines(LineTexts(lines))
  }

  /** Lines joined by "\n", with no line break after the last one. */
  function JoinLines(lines: seq<string>): string
  {
    if |lines| == 0 then ""
    else if |lines| == 1 then lines[0]
    else JoinLines(lines[..|lines| - 1]) + "\n" + lines[|lines| - 1]
  }

  // ---------------------------------------------------------------------------
  // Properties of the policy predicates

  /** The three cases of `isInWorkTime` for well-formed bounds. */
  lemma WorkTimeCases(settings: Settings, now: Clock, start: int, end: int)
    requires ParseTimeOfDay(settings.workStartTime) == Some(start)
    requires ParseTimeOfDay(settings.workEndTime) == Some(end)
    ensures !settings.workTimeEnabled ==> IsInWorkTime(settings, now)
    ensures settings.workTimeEnabled && now.weekday !in settings.workDays ==> !IsInWorkTime(settings, now)
    ensures settings.workTimeEnabled && now.weekday in settings.workDays ==>
      (IsInWorkTime(settings, now) <==> start <= now.hour * 60 + now.minute <= end)
  {
  }

  /** The three cases of `isInDndTime` for well-formed bounds. */
  lemma DndTimeCases(settings: Settings, now: Clock, start: int, end: int)
    requires ParseTimeOfDay(settings.dndStartTime) == Some(start)
    requires ParseTimeOfDay(settings.dndEndTime) == Some(end)
    ensures !settings.dndEnabled ==> !IsInDndTime(settings, now)
    ensures settings.dndEnabled && start > end ==>
      (IsInDndTime(settings, now) <==> now.hour * 60 + now.minute >= start || now.hour * 60 + now.minute <= end)
    ensures settings.dndEnabled && start <= end ==>
      (IsInDndTime(settings, now) <==> start <= now.hour * 60 + now.minute <= end)
  {
  }

  /** A bound that does not parse (NaN in the source) makes its window empty: an
      enabled work-time policy then never holds and do-not-disturb never does. */
  lemma MalformedBoundsNeverMatch(settings: Settings, now: Clock)
    ensures settings.workTimeEnabled
      && (ParseTimeOfDay(settings.workStartTime).None? || ParseTimeOfDay(settings.workEndTime).None?)
      ==> !IsInWorkTime(settings, now)
    ensures ParseTimeOfDay(settings.dndStartTime).None? || ParseTimeOfDay(settings.dndEndTime).None?
      ==> !IsInDndTime(settings, now)
  {
  }

  /** Work time with "09:00".."18:00" on a working day: both ends are inside the
      window, the minutes just outside them are not. */
  lemma WorkTimeBoundaries(settings: Settings, day: int)
    requires settings.workTimeEnabled && day in settings.workDays
    requires settings.workStartTime == "09:00" && settings.workEndTime == "18:00"
    ensures IsInWorkTime(settings, Clock(0, day, 9, 0))
    ensures IsInWorkTime(settings, Clock(0, day, 18, 0))
    ensures !IsInWorkTime(settings, Clock(0, day, 8, 59))
    ensures !IsInWorkTime(settings, Clock(0, day, 18, 1))
  {
    ParseTwoDigitFields("09:00");
    ParseTwoDigitFields("18:00");
  }

  /** A wrapped do-not-disturb window is a union, not an exclusion: it holds every
      minute except those strictly between its end and its start. */
  lemma DndWrapIsComplement(start: int, end: int, minute: int)
    requires start > end
    ensures InDndWindow(start, end, minute) <==> !(end < minute < start)
  {
  }

  /** Both shapes of the do-not-disturb window are one circular interval: a minute
      is inside iff going forward from the start reaches it no later than the end. */
  lemma DndWindowIsCircular(start: int, end: int, minute: int)
    requires 0 <= start < 1440 && 0 <= end < 1440 && 0 <= minute < 1440
    ensures InDndWindow(start, end, minute) <==> (minute - start) % 1440 <= (end - start) % 1440
  {
    if minute >= start {
      assert (minute - start) % 1440 == minute - start;
    } else {
      assert (minute - start) % 1440 == minute - start + 1440;
    }
    if end >= start {
      assert (end - start) % 1440 == end - start;
    } else {
      assert (end - start) % 1440 == end - start + 1440;
    }
  }

  /** With do-not-disturb from "22:00" to "08:00", 23:00 and 02:00 are quiet
      and noon is not. */
  lemma DndOvernightExample(settings: Settings, day: int)
    requires settings.dndEnabled
    requires settings.dndStartTime == "22:00" && settings.dndEndTime == "08:00"
    ensures IsInDndTime(settings, Clock(0, day, 23, 0))
    ensures IsInDndTime(settings, Clock(0, day, 2, 0))
    ensures !IsInDndTime(settings, Clock(0, day, 12, 0))
  {
    ParseTwoDigitFields("22:00");
    ParseTwoDigitFields("08:00");
  }

  /** A disabled policy never restricts, and a pause always blocks. */
  lemma CanSendReminderCases(settings: Settings, now: Clock, isPaused: bool)
    ensures isPaused ==> !CanSendReminder(settings, now, isPaused)
    ensures !settings.workTimeEnabled && !settings.dndEnabled ==> (CanSendReminder(settings, now, isPaused) <==> !isPaused)
    ensures CanSendReminder(settings, now, isPaused) <==>
      IsInWorkTime(settings, now) && !IsInDndTime(settings, now) && !isPaused
  {
  }

  // ---------------------------------------------------------------------------
  // Properties of the countdown

  /** A running countdown lies between 0 and the whole interval, and reaches 0
      exactly when a whole interval has elapsed. */
  lemma CountdownBounds(intervalMinutes: int, lastMs: int, nowMs: int)
    requires intervalMinutes >= 0 && nowMs >= lastMs
    ensures 0 <= Remaining(true, intervalMinutes, lastMs, nowMs) <= intervalMinutes * 60
    ensures Remaining(true, intervalMinutes, lastMs, nowMs) == 0 <==>
      ElapsedSeconds(lastMs, nowMs) >= intervalMinutes * 60
    ensures Remaining(true, intervalMinutes, lastMs, nowMs) ==
      intervalMinutes * 60 - ElapsedSeconds(lastMs, nowMs) || ElapsedSeconds(lastMs, nowMs) >= intervalMinutes * 60
  {
    assert ElapsedSeconds(lastMs, nowMs) >= 0;
  }

  /** A disabled kind shows no countdown. */
  lemma DisabledCountdownIsZero(intervalMinutes: int, lastMs: int, nowMs: int)
    ensures Remaining(false, intervalMinutes, lastMs, nowMs) == 0
  {
  }

  /** Restarting a kind at `nowMs` shows the whole interval. */
  lemma FreshCountdownIsWholeInterval(intervalMinutes: int, nowMs: int)
    requires intervalMinutes >= 0
    ensures Remaining(true, intervalMinutes, nowMs, nowMs) == intervalMinutes * 60
  {
  }

  lemma {:induction false} DivShift(a: int, k: int)
    ensures (a + k * 1000) / 1000 == a / 1000 + k
  {
    var q, r := a / 1000, a % 1000;
    assert a == q * 1000 + r && 0 <= r < 1000;
    assert a + k * 1000 == (q + k) * 1000 + r;
  }

  /** After a resume at `resumeMs` with `frozen` seconds left, the countdown goes on
      from `frozen`: `d` milliseconds later it shows `frozen` minus the whole seconds
      in `d`, so the paused time is not counted. At `d = 0` it shows `frozen` exactly. */
  lemma ResumedCountdownContinues(intervalMinutes: int, frozen: int, resumeMs: int, d: int)
    requires frozen > 0 && d >= 0
    ensures Remaining(true, intervalMinutes, ResumedLast(intervalMinutes, frozen, resumeMs), resumeMs + d)
      == Max(0, frozen - d / 1000)
    ensures Remaining(true, intervalMinutes, ResumedLast(intervalMinutes, frozen, resumeMs), resumeMs) == frozen
  {
    var last := ResumedLast(intervalMinutes, frozen, resumeMs);
    DivShift(d, intervalMinutes * 60 - frozen);
    assert resumeMs + d - last == d + (intervalMinutes * 60 - frozen) * 1000;
    DivShift(0, intervalMinutes * 60 - frozen);
    assert resumeMs - last == 0 + (intervalMinutes * 60 - frozen) * 1000;
  }

  /** `ResumedCountdownContinues` for every later instant at once. */
  lemma ResumedCountdownAlwaysContinues(intervalMinutes: int, frozen: int, resumeMs: int)
    requires frozen > 0
    ensures forall t :: t >= resumeMs ==>
      Remaining(true, intervalMinutes, ResumedLast(intervalMinutes, frozen, resumeMs), t)
        == Max(0, frozen - (t - resumeMs) / 1000)
  {
    forall t | t >= resumeMs
      ensures Remaining(true, intervalMinutes, ResumedLast(intervalMinutes, frozen, resumeMs), t)
        == Max(0, frozen - (t - resumeMs) / 1000)
    {
      ResumedCountdownContinues(intervalMinutes, frozen, resumeMs, t - resumeMs);
    }
  }

  /** Pausing at `pauseMs` with a freshly computed countdown and resuming at any later
      `resumeMs` shows, at the resume, the countdown the pause saw. */
  lemma PauseResumeRoundTrip(intervalMinutes: int, lastMs: int, pauseMs: int, resumeMs: int)
    requires Remaining(true, intervalMinutes, lastMs, pauseMs) > 0
    ensures var frozen := Remaining(true, intervalMinutes, lastMs, pauseMs);
      Remaining(true, intervalMinutes, ResumedLast(intervalMinutes, frozen, resumeMs), resumeMs) == frozen
  {
    ResumedCountdownContinues(intervalMinutes, Remaining(true, intervalMinutes, lastMs, pauseMs), resumeMs, 0);
  }

  // ---------------------------------------------------------------------------
  // Properties of the rendered text

  /** `formatCountdown` renders every non-positive count as "00:00". A positive count
      renders as a minutes field, a colon and a seconds field: the minutes field is
      `floor(seconds / 60)` in decimal padded to at least two digits, the seconds field
      is `seconds % 60` in exactly two digits, and read back as "minutes:seconds" the
      text gives the count again. */
  lemma FormatCountdownRoundTrip(seconds: int)
    ensures seconds <= 0 ==> FormatCountdown(seconds) == "00:00"
    ensures seconds > 0 ==> var f := FormatCountdown(seconds);
      && |f| >= 5 && f[|f| - 3] == ':'
      && AllDigits(f[..|f| - 3]) && |f[..|f| - 3]| >= 2 && DigitsValue(f[..|f| - 3]) == seconds / 60
      && f[..|f| - 3] == PadStart(NatToString(seconds / 60), 2, '0')
      && AllDigits(f[|f| - 2..]) && DigitsValue(f[|f| - 2..]) == seconds % 60
      && f[|f| - 2..] == PadStart(NatToString(seconds % 60), 2, '0')
    ensures seconds > 0 ==> ParseTimeOfDay(FormatCountdown(seconds)) == Some(seconds)
  {
    if seconds > 0 {
      var minutes, rest := seconds / 60, seconds % 60;
      assert FormatCountdown(seconds) == Pad2(minutes) + ":" + Pad2(rest);
      PaddedFields(minutes, rest);
      ParseTimeOfDayRoundTrip(minutes, rest);
    }
  }

  /** The fields of two padded numbers joined by a colon, the second below 100. */
  lemma PaddedFields(m: nat, r: nat)
    requires r < 100
    ensures var f := Pad2(m) + ":" + Pad2(r);
      && |f| >= 5 && f[|f| - 3] == ':'
      && AllDigits(f[..|f| - 3]) && |f[..|f| - 3]| >= 2 && DigitsValue(f[..|f| - 3]) == m
      && f[..|f| - 3] == PadStart(NatToString(m), 2, '0')
      && AllDigits(f[|f| - 2..]) && DigitsValue(f[|f| - 2..]) == r
      && f[|f| - 2..] == PadStart(NatToString(r), 2, '0')
  {
    Pad2Value(m);
    Pad2Value(r);
    Pad2IsPadStart(m);
    Pad2IsPadStart(r);
    ColonFields(Pad2(m), Pad2(r));
  }

  /** The two fields of `a + ":" + b` when `b` is two characters long. */
  lemma ColonFields(a: string, b: string)
    requires |b| == 2
    ensures var f := a + ":" + b;
      |f| == |a| + 3 && f[|f| - 3] == ':' && f[..|f| - 3] == a && f[|f| - 2..] == b
  {
    var f := a + ":" + b;
    assert f[..|a|] == a;
    assert f[|a| + 1..] == b;
  }

  lemma FormatCountdownExamples()
    ensures FormatCountdown(65) == "01:05"
    ensures FormatCountdown(0) == "00:00"
    ensures FormatCountdown(-5) == "00:00"
    ensures FormatCountdown(2700) == "45:00"
  {
    assert NatToString(1) == "1" && NatToString(5) == "5";
    assert NatToString(0) == "0" && NatToString(45) == NatToString(4) + "5";
  }

  lemma JoinLinesFirst(lines: seq<string>)
    requires |lines| >= 1 && |lines[0]| >= 1
    ensures |JoinLines(lines)| >= 1 && JoinLines(lines)[0] == lines[0][0]
  {
    if |lines| > 1 {
      JoinLinesFirst(lines[..|lines| - 1]);
    }
  }

  lemma JoinLinesSnoc(lines: seq<string>, x: string)
    requires |lines| >= 1
    ensures JoinLines(lines + [x]) == JoinLines(lines) + "\n" + x
  {
    assert (lines + [x])[..|lines|] == lines;
  }

  lemma JoinLinesLast(lines: seq<string>)
    requires |lines| >= 1 && |lines[|lines| - 1]| >= 1
    ensures |JoinLines(lines)| >= 1
    ensures JoinLines(lines)[|JoinLines(lines)| - 1] == lines[|lines| - 1][|lines[|lines| - 1]| - 1]
  {
  }

  lemma TrimEndOfNewline(s: string)
    requires |s| >= 1 && !IsWhitespace(s[|s| - 1])
    ensures TrimEnd(s + "\n") == s && TrimEnd(s) == s
  {
    assert (s + "\n")[..|s|] == s;
  }

  lemma FormatCountdownEnds(seconds: int)
    ensures |FormatCountdown(seconds)| >= 1
    ensures IsDigit(FormatCountdown(seconds)[|FormatCountdown(seconds)| - 1])
  {
    if seconds > 0 {
      Pad2Value(seconds % 60);
    }
  }

  /** The accumulation pattern of `updateTrayTooltip`, over arbitrary line texts:
      each shown line but the sitting one is followed by a break. */
  lemma {:induction false} AccumulatedIsJoined(header: string, p: string, w: string, z: string, showP: bool, showW: bool, showZ: bool)
    ensures
      var t1 := if showP then header + "\n" + p + "\n" else header + "\n";
      var t2 := if showW then t1 + w + "\n" else t1;
      var t3 := if showZ then t2 + z else t2;
      var lines := [header] + (if showP then [p] else []) + (if showW then [w] else []) + (if showZ then [z] else []);
      t3 == JoinLines(lines) + (if showZ then "" else "\n")
  {
    var l0 := [header];
    var l1 := l0 + (if showP then [p] else []);
    var l2 := l1 + (if showW then [w] else []);
    var l3 := l2 + (if showZ then [z] else []);
    var t1 := if showP then header + "\n" + p + "\n" else header + "\n";
    var t2 := if showW then t1 + w + "\n" else t1;
    var t3 := if showZ then t2 + z else t2;
    assert JoinLines(l0) == header;
    if showP { JoinLinesSnoc(l0, p); } else { assert l1 == l0; }
    assert t1 == JoinLines(l1) + "\n";
    if showW { JoinLinesSnoc(l1, w); } else { assert l2 == l1; }
    assert t2 == JoinLines(l2) + "\n";
    if showZ {
      JoinLinesSnoc(l2, z);
      assert t3 == JoinLines(l3) + "";
    } else {
      assert l3 == l2;
    }
  }

  predicate SolidEnds(line: string)
  {
    |line| >= 1 && !IsWhitespace(line[0]) && !IsWhitespace(line[|line| - 1])
  }

  /** Trimming lines whose first line does not start and whose last line does not end
      with white space, joined and perhaps followed by one break, gives back the
      joined lines. */
  lemma TrimJoinedLines(lines: seq<string>, tail: string)
    requires |lines| >= 1 && SolidEnds(lines[0]) && SolidEnds(lines[|lines| - 1])
    requires tail == "" || tail == "\n"
    ensures Trim(JoinLines(lines) + tail) == JoinLines(lines)
  {
    var joined := JoinLines(lines);
    JoinLinesLast(lines);
    JoinLinesFirst(lines);
    TrimEndOfNewline(joined);
    assert joined + "" == joined;
    TrimStartKeeps(joined);
  }

  lemma TrimStartKeeps(s: string)
    requires |s| >= 1 && !IsWhitespace(s[0])
    ensures TrimStart(s) == s
  {
  }

  lemma HeaderSolid() ensures SolidEnds(TooltipHeader) && SolidEnds(PausedLine) {}

  lemma DigitIsSolid(c: char)
    requires IsDigit(c)
    ensures !IsWhitespace(c)
  {
  }

  lemma LabelledSolid(prefix: string, field: string)
    requires |prefix| >= 1 && !IsWhitespace(prefix[0])
    requires |field| >= 1 && IsDigit(field[|field| - 1])
    ensures SolidEnds(prefix + field)
  {
    DigitIsSolid(field[|field| - 1]);
    var line := prefix + field;
    assert line[0] == prefix[0];
    assert line[|line| - 1] == field[|field| - 1];
  }

  lemma WaterLineSolid(countdown: int) ensures SolidEnds(WaterLine(countdown))
  {
    FormatCountdownEnds(countdown);
    LabelledSolid("\U{1F4A7} 喝水: ", FormatCountdown(countdown));
  }

  lemma SitLineSolid(countdown: int) ensures SolidEnds(SitLine(countdown))
  {
    FormatCountdownEnds(countdown);
    LabelledSolid("\U{1F6B6} 久坐: ", FormatCountdown(countdown));
  }

  lemma {:induction false} OptionalLinesSolid(header: string, p: string, w: string, z: string, showP: bool, showW: bool, showZ: bool)
    requires SolidEnds(header) && SolidEnds(p) && SolidEnds(w) && SolidEnds(z)
    ensures var lines := [header] + (if showP then [p] else []) + (if showW then [w] else []) + (if showZ then [z] else []);
      SolidEnds(lines[0]) && SolidEnds(lines[|lines| - 1])
  {
  }

  lemma {:induction false} TrimAccumulated(header: string, p: string, w: string, z: string, showP: bool, showW: bool, showZ: bool)
    requires SolidEnds(header) && SolidEnds(p) && SolidEnds(w) && SolidEnds(z)
    ensures
      var t1 := if showP then header + "\n" + p + "\n" else header + "\n";
      var t2 := if showW then t1 + w + "\n" else t1;
      var t3 := if showZ then t2 + z else t2;
      var lines := [header] + (if showP then [p] else []) + (if showW then [w] else []) + (if showZ then [z] else []);
      Trim(t3) == JoinLines(lines)
  {
    var lines := [header] + (if showP then [p] else []) + (if showW then [w] else []) + (if showZ then [z] else []);
    AccumulatedIsJoined(header, p, w, z, showP, showW, showZ);
    OptionalLinesSolid(header, p, w, z, showP, showW, showZ);
    TrimJoinedLines(lines, if showZ then "" else "\n");
  }

  lemma {:induction false} LineTextsAppend(a: seq<TrayLine>, b: seq<TrayLine>)
    ensures LineTexts(a + b) == LineTexts(a) + LineTexts(b)
  {
    if |b| > 0 {
      assert (a + b)[..|a + b| - 1] == a + b[..|b| - 1];
      LineTextsAppend(a, b[..|b| - 1]);
    } else {
      assert a + b == a;
    }
  }

  lemma {:induction false} LineTextsOfParts(a: seq<TrayLine>, b: seq<TrayLine>, c: seq<TrayLine>, d: seq<TrayLine>)
    ensures LineTexts(a + b + c + d) == LineTexts(a) + LineTexts(b) + LineTexts(c) + LineTexts(d)
  {
    LineTextsAppend(a + b + c, d);
    LineTextsAppend(a + b, c);
    LineTextsAppend(a, b);
  }

  lemma OptionalLineText(show: bool, line: TrayLine)
    ensures LineTexts(if show then [line] else []) == if show then [LineText(line)] else []
  {
  }

  /** Each line of the content renders as the line `updateTrayTooltip` appends for it. */
  lemma ContentTexts(settings: Settings, isPaused: bool, waterCountdown: int, sitCountdown: int)
    ensures LineTexts(TrayContent(settings, isPaused, waterCountdown, sitCountdown))
      == [TooltipHeader] + (if isPaused then [PausedLine] else [])
        + (if settings.waterReminderEnabled && waterCountdown > 0 then [WaterLine(waterCountdown)] else [])
        + (if settings.sitReminderEnabled && sitCountdown > 0 then [SitLine(sitCountdown)] else [])
  {
    var showW := settings.waterReminderEnabled && waterCountdown > 0;
    var showZ := settings.sitReminderEnabled && sitCountdown > 0;
    LineTextsOfParts([Header], if isPaused then [PausedNote] else [],
      if showW then [WaterDue(waterCountdown)] else [], if showZ then [SitDue(sitCountdown)] else []);
    OptionalLineText(true, Header);
    OptionalLineText(isPaused, PausedNote);
    OptionalLineText(showW, WaterDue(waterCountdown));
    OptionalLineText(showZ, SitDue(sitCountdown));
  }

  /** The text `updateTrayTooltip` sends is the rendering of the tooltip's content:
      its lines joined by line breaks, with the break after the last line trimmed
      away and nothing else. */
  lemma TooltipRendersContent(settings: Settings, isPaused: bool, waterCountdown: int, sitCountdown: int)
    ensures TooltipText(settings, isPaused, waterCountdown, sitCountdown)
      == RenderTray(TrayContent(settings, isPaused, waterCountdown, sitCountdown))
  {
    ContentTexts(settings, isPaused, waterCountdown, sitCountdown);
    HeaderSolid();
    WaterLineSolid(waterCountdown);
    SitLineSolid(sitCountdown);
    TrimAccumulated(TooltipHeader, PausedLine, WaterLine(waterCountdown), SitLine(sitCountdown),
      isPaused, settings.waterReminderEnabled && waterCountdown > 0, settings.sitReminderEnabled && sitCountdown > 0);
  }

  /** What the content reports: the header first, the paused marker exactly while
      paused, and a kind's countdown exactly when it is enabled and still running. */
  lemma TrayContentShows(settings: Settings, isPaused: bool, waterCountdown: int, sitCountdown: int)
    ensures var content := TrayContent(settings, isPaused, waterCountdown, sitCountdown);
      && content[0] == Header
      && (PausedNote in content <==> isPaused)
      && (WaterDue(waterCountdown) in content <==> settings.waterReminderEnabled && waterCountdown > 0)
      && (SitDue(sitCountdown) in content <==> settings.sitReminderEnabled && sitCountdown > 0)
      && (forall line :: line in content && line.WaterDue? ==> line == WaterDue(waterCountdown))
      && (forall line :: line in content && line.SitDue? ==> line == SitDue(sitCountdown))
  {
  }
}
