/**
 * The decision logic of the main window (gui/main_window.py): the automatic
 * monitor loop (scheduled and idle triggers), the bookkeeping of a finished
 * sync run, the log-level filter, the texts of the cooldown and idle labels,
 * and the coalescing of idle-label updates. Widgets, threads and the clock
 * are left out: a run thread is a pending run that a later event finishes,
 * and the wall-clock is an input.
 */
module Gui {
  import opened Wrappers
  import opened Text
  import opened Cooldown
  import opened Idle
  import Config

  // ------------------------------------------------------------ log filter

  /** The rank `_should_log_level` gives a level name; unknown names rank as INFO. */
  function Priority(level: string): (p: int)
    ensures p in {10, 20, 30, 40, 50}
    ensures Upper(level) == "DEBUG" ==> p == 10
    ensures Upper(level) == "INFO" || Upper(level) == "SUCCESS" ==> p == 20
    ensures Upper(level) == "WARNING" ==> p == 30
    ensures Upper(level) == "ERROR" ==> p == 40
    ensures Upper(level) == "CRITICAL" ==> p == 50
    ensures Upper(level) !in {"DEBUG", "INFO", "SUCCESS", "WARNING", "ERROR", "CRITICAL"} ==> p == 20
  {
    var u := Upper(level);
    if u == "DEBUG" then 10
    else if u == "WARNING" then 30
    else if u == "ERROR" then 40
    else if u == "CRITICAL" then 50
    else 20
  }

  /**
   * `_should_log_level(level)`: the message's rank reaches the configured
   * one; when reading the configured level raised (`None`), INFO is the bar.
   */
  predicate ShouldLogLevel(level: string, configLevel: Option<string>)
  {
    Priority(level) >= (match configLevel case Some(c) => Priority(c) case None => 20)
  }

  /** A string without lower-case ASCII letters is its own upper-casing. */
  lemma UpperUnchanged(s: string)
    requires forall i :: 0 <= i < |s| ==> !('a' <= s[i] <= 'z')
    ensures Upper(s) == s
  {
  }

  lemma UpperOfLower(s: string)
    ensures Upper(Lower(s)) == Upper(s)
  {
  }

  /** The filter is a threshold: whatever passes, every level ranked at least as high passes too. */
  lemma ShouldLogLevelMonotone(level: string, higher: string, configLevel: Option<string>)
    requires ShouldLogLevel(level, configLevel) && Priority(higher) >= Priority(level)
    ensures ShouldLogLevel(higher, configLevel)
  {
  }

  /** CRITICAL always passes; DEBUG passes only when DEBUG is configured. */
  lemma ShouldLogLevelExtremes(configLevel: Option<string>)
    ensures ShouldLogLevel("CRITICAL", configLevel)
    ensures ShouldLogLevel("DEBUG", configLevel) <==> configLevel.Some? && Upper(configLevel.value) == "DEBUG"
  {
    UpperUnchanged("CRITICAL");
    UpperUnchanged("DEBUG");
  }

  /** Level names compare without regard to case. */
  lemma ShouldLogLevelIgnoresCase(level: string, configLevel: Option<string>)
    ensures ShouldLogLevel(Lower(level), configLevel) == ShouldLogLevel(level, configLevel)
    ensures configLevel.Some? ==> ShouldLogLevel(level, Some(Lower(configLevel.value))) == ShouldLogLevel(level, configLevel)
  {
    UpperOfLower(level);
    if configLevel.Some? {
      UpperOfLower(configLevel.value);
    }
  }

  // ------------------------------------------------------------ label texts

  /** `format_idle_time_seconds`: the unit bands chosen by comparing with 60 and 3600. */
  function FormatIdleTimeSeconds(total: nat): string
  {
    if total < 60 then NatToString(total) + "秒"
    else if total < 3600 then NatToString(total / 60) + "分钟" + NatToString(total % 60) + "秒"
    else NatToString(total / 3600) + "小时" + NatToString((total % 3600) / 60) + "分钟" + NatToString(total % 60) + "秒"
  }

  /** The window's formatter and the idle detector's `format_idle_time` render every duration alike. */
  lemma FormatTwins(total: nat)
    ensures FormatIdleTimeSeconds(total) == FormatIdleTime(total)
  {
    FormatIdleTimeUnits(total);
  }

  /** Python's `round(s / 60)`: to the nearest minute, a tie to the even one. */
  function RoundMinutes(s: nat): (m: nat)
    ensures -30 <= s - 60 * m <= 30
    ensures s - 60 * m == 30 ==> m % 2 == 0
    ensures s - 60 * m == -30 ==> m % 2 == 0
  {
    var q, r := s / 60, s % 60;
    if r < 30 then q
    else if r > 30 then q + 1
    else if q % 2 == 0 then q
    else q + 1
  }

  const NoCooldown: string := "无冷却"

  /**
   * `update_cooldown_display_only`'s text for the remaining cooldown in
   * seconds: none, whole minutes from one minute up, seconds below that.
   */
  function CooldownText(remaining: int): (t: string)
    ensures t == NoCooldown <==> remaining <= 0
    ensures remaining >= 60 ==> t == NatToString(RoundMinutes(remaining)) + "分钟" && RoundMinutes(remaining) >= 1
    ensures 0 < remaining < 60 ==> t == NatToString(remaining) + "秒"
  {
    if remaining <= 0 then NoCooldown
    else
      var t := if remaining >= 60 then NatToString(RoundMinutes(remaining)) + "分钟" else NatToString(remaining) + "秒";
      assert IsDigit(t[0]) && !IsDigit(NoCooldown[0]);
      t
  }

  // ------------------------------------------------------------ schedule match

  /** Some entry of `days`, lower-cased, equals `name`. */
  predicate LowerIn(days: seq<string>, name: string)
  {
    exists i :: 0 <= i < |days| && Lower(days[i]) == name
  }

  /** `current_time.strftime("%H:%M")`. */
  function ClockText(hour: nat, minute: nat): string
  {
    Pad2(hour) + ":" + Pad2(minute)
  }

  /**
   * The scheduled trigger's match as written: the clock text equals the
   * configured time string; unless `daily` is listed (in any case), the
   * lower-cased weekday must be listed too.
   */
  predicate ScheduleMatches(hour: nat, minute: nat, weekday: string, time: string, days: seq<string>)
  {
    if LowerIn(days, "daily") then ClockText(hour, minute) == time
    else ClockText(hour, minute) == time && LowerIn(days, Lower(weekday))
  }

  /** A time written with a one-digit hour, such as `5:00`: `str(hour) + ":" + f"{minute:02d}"`. */
  function UnpaddedTime(hour: nat, minute: nat): string
  {
    NatToString(hour) + ":" + Pad2(minute)
  }

  /** The clock text always has a digit where a one-digit-hour time has its colon. */
  lemma ClockTextSecondDigit(hour: nat, minute: nat)
    ensures IsDigit(ClockText(hour, minute)[1])
  {
    assert ClockText(hour, minute)[1] == Pad2(hour)[1];
  }

  /** The configuration check accepts every time with a one-digit hour. */
  lemma UnpaddedTimeAccepted(h: nat, m: nat)
    requires h < 10 && m < 60
    ensures Config.TimeAccepted(Config.JStr(UnpaddedTime(h, m)))
  {
    assert ':' !in NatToString(h) && ':' !in Pad2(m) by {
      assert AllDigits(NatToString(h)) && AllDigits(Pad2(m));
    }
    ParseNatToString(h);
    ParsePad2(m);
    Config.TimeAcceptedOf(NatToString(h), Pad2(m));
  }

  /** A one-digit-hour time has its colon second. */
  lemma UnpaddedColon(h: nat, m: nat)
    requires h < 10
    ensures UnpaddedTime(h, m)[1] == ':'
  {
    assert NatToString(h) == [DigitChar(h)];
  }

  /**
   * Only a zero-padded `HH:MM` string can ever match: the configuration
   * check accepts every time with a one-digit hour (`5:00`, say), and no
   * clock reading matches one.
   */
  lemma UnpaddedTimeNeverFires(h: nat, m: nat, hour: nat, minute: nat, weekday: string, days: seq<string>)
    requires h < 10 && m < 60
    ensures Config.TimeAccepted(Config.JStr(UnpaddedTime(h, m)))
    ensures !ScheduleMatches(hour, minute, weekday, UnpaddedTime(h, m), days)
  {
    UnpaddedTimeAccepted(h, m);
    UnpaddedColon(h, m);
    ClockTextSecondDigit(hour, minute);
    assert ClockText(hour, minute) != UnpaddedTime(h, m);
  }

  /** The hour and minute of a time string, parsed the way the configuration check parses them. */
  function ParseClockTime(time: string): (r: Option<(int, int)>)
    ensures Config.TimeAccepted(Config.JStr(time)) ==> r.Some? && 0 <= r.value.0 <= 23 && 0 <= r.value.1 <= 59
  {
    var parts := Split(time, ':');
    if |parts| == 2 && ParseInt(parts[0]).Some? && ParseInt(parts[1]).Some?
    then Some((ParseInt(parts[0]).value, ParseInt(parts[1]).value))
    else None
  }

  /** The intended match: the clock's hour and minute are the ones the time string denotes. */
  predicate ScheduleMatchesCorrected(hour: nat, minute: nat, weekday: string, time: string, days: seq<string>)
  {
    ParseClockTime(time) == Some((hour as int, minute as int)) &&
    (LowerIn(days, "daily") || LowerIn(days, Lower(weekday)))
  }

  /** Every time the configuration check accepts fires at the minute it names, on a listed day. */
  lemma AcceptedTimeFires(time: string, weekday: string, days: seq<string>)
    requires Config.TimeAccepted(Config.JStr(time))
    requires LowerIn(days, "daily") || LowerIn(days, Lower(weekday))
    ensures ParseClockTime(time).Some?
    ensures ScheduleMatchesCorrected(ParseClockTime(time).value.0 as nat, ParseClockTime(time).value.1 as nat, weekday, time, days)
  {
  }

  /** A zero-padded clock text parses back to its hour and minute. */
  lemma ParseClockText(h: nat, m: nat)
    ensures ParseClockTime(ClockText(h, m)) == Some((h as int, m as int))
  {
    assert ':' !in Pad2(h) && ':' !in Pad2(m) by {
      assert AllDigits(Pad2(h)) && AllDigits(Pad2(m));
    }
    Config.SplitAtColon(Pad2(h), Pad2(m));
    ParsePad2(h);
    ParsePad2(m);
  }

  /** Different readings of the clock have different texts. */
  lemma ClockTextInjective(h: nat, m: nat, hour: nat, minute: nat)
    requires ClockText(hour, minute) == ClockText(h, m)
    ensures hour == h && minute == m
  {
    ParseClockText(h, m);
    ParseClockText(hour, minute);
  }

  /** On zero-padded times the corrected match and the written one agree. */
  lemma CorrectedAgreesOnPadded(h: nat, m: nat, hour: nat, minute: nat, weekday: string, days: seq<string>)
    ensures ScheduleMatchesCorrected(hour, minute, weekday, ClockText(h, m), days) <==>
            ScheduleMatches(hour, minute, weekday, ClockText(h, m), days)
  {
    ParseClockText(h, m);
    if ClockText(hour, minute) == ClockText(h, m) {
      ClockTextInjective(h, m, hour, minute);
    }
  }

  // ------------------------------------------------------------ monitor loop

  /** What started a sync run. */
  datatype Source = Manual | Scheduled | IdleTrigger

  /** How a run thread ended: the workflow returned true or false, or it raised. */
  datatype RunResult = Succeeded | Failed | Crashed

  /** The configuration values one pass of the monitor loop reads. */
  datatype GuiSettings = GuiSettings(idleEnabled: bool, scheduledEnabled: bool, idleMinutes: int,
                                     cooldownMinutes: int, time: string, days: seq<string>)

  /** One reading of the clock (seconds, hour, minute, weekday name) and of the idle time. */
  datatype Moment = Moment(now: int, hour: nat, minute: nat, weekday: string, idleMs: nat)

  /** `idle_seconds >= idle_minutes * 60`, with idle time in milliseconds. */
  predicate AtThreshold(idleMs: nat, idleMinutes: int)
  {
    idleMs >= idleMinutes * 60_000
  }

  /**
   * The state the monitor loop and the run threads share: the loop's two
   * locals, the window's run flag, counters and stamps, the global cooldown's
   * trigger time, and the run thread in flight, if any.
   */
  datatype LoopState = LoopState(
    lastScheduledCheck: Option<int>, lastIdleTriggered: bool,
    running: bool, active: Option<Source>,
    successes: nat, errors: nat, lastSync: Option<int>, lastIdleTriggerTime: Option<int>,
    cooldown: Option<int>)

  /** The run flag is set exactly while a run thread is in flight. */
  predicate Consistent(st: LoopState)
  {
    st.running <==> st.active.Some?
  }

  /** Start a run thread. */
  function Spawn(st: LoopState, src: Source): LoopState
  {
    st.(running := true, active := Some(src))
  }

  /** The scheduled-trigger part of one pass: the new state and whether it spawned a run. */
  function ScheduledPhase(st: LoopState, cfg: GuiSettings, m: Moment): (LoopState, bool)
  {
    if !cfg.scheduledEnabled then (st, false)
    else if st.lastScheduledCheck.Some? && m.now - st.lastScheduledCheck.value < 60 then (st, false)
    else
      var checked := st.(lastScheduledCheck := Some(m.now));
      if ScheduleMatches(m.hour, m.minute, m.weekday, cfg.time, cfg.days) &&
         !InCooldown(st.cooldown, cfg.cooldownMinutes, m.now) && !st.running
      then (Spawn(checked, Scheduled), true)
      else (checked, false)
  }

  /** The idle-trigger part of one pass: fire on the rising edge of the threshold only. */
  function IdlePhase(st: LoopState, cfg: GuiSettings, m: Moment): (LoopState, bool)
  {
    if !cfg.idleEnabled then (st.(lastIdleTriggered := false), false)
    else
      var reached := AtThreshold(m.idleMs, cfg.idleMinutes);
      var seen := st.(lastIdleTriggered := reached);
      if reached && !st.lastIdleTriggered && !InCooldown(st.cooldown, cfg.cooldownMinutes, m.now) && !st.running
      then (Spawn(seen.(lastIdleTriggerTime := Some(m.now)), IdleTrigger), true)
      else (seen, false)
  }

  /** The outcome of one pass: the new state, the run it spawned, and the seconds it then sleeps. */
  datatype Pass = Pass(state: LoopState, spawned: Option<Source>, sleep: int)

  /** One pass of `monitor_loop`. */
  function Iterate(st: LoopState, cfg: GuiSettings, m: Moment): Pass
  {
    if !(cfg.idleEnabled || cfg.scheduledEnabled) then Pass(st, None, 30)
    else
      var (s1, sched) := ScheduledPhase(st, cfg, m);
      var (s2, idle) := IdlePhase(s1, cfg, m);
      Pass(s2, if sched then Some(Scheduled) else if idle then Some(IdleTrigger) else None, 5)
  }

  /**
   * The end of a run thread: exactly one counter moves; success records the
   * sync time; the cooldown is stamped after a success, and after a failure
   * unless the idle trigger started the run; a run that raised stamps
   * nothing. The run flag is cleared in every case.
   */
  function Finish(st: LoopState, result: RunResult, now: int): LoopState
  {
    match st.active
    case None => st
    case Some(src) =>
      var cleared := st.(running := false, active := None);
      match result
      case Succeeded => cleared.(successes := st.successes + 1, lastSync := Some(now), cooldown := Some(now))
      case Failed => cleared.(errors := st.errors + 1, cooldown := if src == IdleTrigger then st.cooldown else Some(now))
      case Crashed => cleared.(errors := st.errors + 1)
  }

  /** `run_sync_workflow`: the button does nothing while a run is in flight, and ignores the cooldown. */
  function ManualRequest(st: LoopState): (LoopState, bool)
  {
    if st.running then (st, false) else (Spawn(st, Manual), true)
  }

  /** A run is spawned only when none is in flight and the cooldown is over; nothing else starts or clears one. */
  lemma SpawnNeedsFreeSlot(st: LoopState, cfg: GuiSettings, m: Moment)
    ensures Iterate(st, cfg, m).spawned.Some? ==>
      !st.running && !InCooldown(st.cooldown, cfg.cooldownMinutes, m.now) &&
      Iterate(st, cfg, m).state.active == Iterate(st, cfg, m).spawned
    ensures Iterate(st, cfg, m).spawned.None? ==>
      Iterate(st, cfg, m).state.running == st.running && Iterate(st, cfg, m).state.active == st.active
    ensures Iterate(st, cfg, m).state.cooldown == st.cooldown
    ensures Iterate(st, cfg, m).state.successes == st.successes && Iterate(st, cfg, m).state.errors == st.errors
  {
  }

  /**
   * The idle trigger fires only on the rising edge: idle time at the
   * threshold now and below it on the previous pass. The edge state follows
   * the reading while idle triggering is on, is reset while it is off (and
   * the schedule is on), and is kept while both are off.
   */
  lemma IdleEdge(st: LoopState, cfg: GuiSettings, m: Moment)
    ensures Iterate(st, cfg, m).spawned == Some(IdleTrigger) ==>
      cfg.idleEnabled && AtThreshold(m.idleMs, cfg.idleMinutes) && !st.lastIdleTriggered
    ensures cfg.idleEnabled ==> Iterate(st, cfg, m).state.lastIdleTriggered == AtThreshold(m.idleMs, cfg.idleMinutes)
    ensures !cfg.idleEnabled && cfg.scheduledEnabled ==> !Iterate(st, cfg, m).state.lastIdleTriggered
    ensures !cfg.idleEnabled && !cfg.scheduledEnabled ==> Iterate(st, cfg, m) == Pass(st, None, 30)
  {
  }

  /** Staying idle never fires twice: the second of two passes at the threshold spawns no idle run. */
  lemma StayingIdleNeverRefires(st: LoopState, cfg: GuiSettings, m1: Moment, m2: Moment)
    requires cfg.idleEnabled && AtThreshold(m1.idleMs, cfg.idleMinutes)
    ensures Iterate(Iterate(st, cfg, m1).state, cfg, m2).spawned != Some(IdleTrigger)
  {
    IdleEdge(st, cfg, m1);
    IdleEdge(Iterate(st, cfg, m1).state, cfg, m2);
  }

  /**
   * A rising edge with no run in flight and the cooldown over does start a
   * run: the idle one, unless the schedule check of the same pass started one.
   */
  lemma RisingEdgeFires(st: LoopState, cfg: GuiSettings, m: Moment)
    requires cfg.idleEnabled && AtThreshold(m.idleMs, cfg.idleMinutes) && !st.lastIdleTriggered
    requires !st.running && !InCooldown(st.cooldown, cfg.cooldownMinutes, m.now)
    ensures Iterate(st, cfg, m).spawned.Some?
    ensures Iterate(st, cfg, m).spawned == Some(IdleTrigger) ==> Iterate(st, cfg, m).state.lastIdleTriggerTime == Some(m.now)
  {
  }

  /**
   * Schedule checks are at least 60 seconds apart: within a minute of a
   * check no scheduled run starts, and a scheduled run needs a match.
   */
  lemma ScheduleThrottled(st: LoopState, cfg: GuiSettings, m: Moment)
    ensures st.lastScheduledCheck.Some? && m.now - st.lastScheduledCheck.value < 60 ==>
      Iterate(st, cfg, m).spawned != Some(Scheduled) &&
      Iterate(st, cfg, m).state.lastScheduledCheck == st.lastScheduledCheck
    ensures Iterate(st, cfg, m).state.lastScheduledCheck != st.lastScheduledCheck ==>
      Iterate(st, cfg, m).state.lastScheduledCheck == Some(m.now)
    ensures Iterate(st, cfg, m).spawned == Some(Scheduled) ==>
      ScheduleMatches(m.hour, m.minute, m.weekday, cfg.time, cfg.days) &&
      Iterate(st, cfg, m).state.lastScheduledCheck == Some(m.now)
  {
  }

  /** Two passes less than a minute apart start at most one scheduled run. */
  lemma OneScheduledRunPerMinute(st: LoopState, cfg: GuiSettings, m1: Moment, m2: Moment)
    requires m1.now <= m2.now < m1.now + 60
    requires Iterate(st, cfg, m1).spawned == Some(Scheduled)
    ensures Iterate(Iterate(st, cfg, m1).state, cfg, m2).spawned != Some(Scheduled)
  {
    ScheduleThrottled(st, cfg, m1);
    ScheduleThrottled(Iterate(st, cfg, m1).state, cfg, m2);
  }

  /**
   * The end of a run moves exactly one counter and clears the run flag; the
   * cooldown is stamped after a success, after a failed manual or scheduled
   * run, and never after a failed idle run or a run that raised.
   */
  lemma FinishBookkeeping(st: LoopState, result: RunResult, now: int)
    requires st.active.Some?
    ensures var after := Finish(st, result, now);
      after.successes + after.errors == st.successes + st.errors + 1 &&
      (after.successes == st.successes + 1 <==> result == Succeeded) &&
      !after.running && after.active.None? &&
      (after.cooldown == Some(now) <==> result == Succeeded || (result == Failed && st.active.value != IdleTrigger) || st.cooldown == Some(now)) &&
      (result == Crashed || (result == Failed && st.active.value == IdleTrigger) ==> after.cooldown == st.cooldown) &&
      (after.lastSync == if result == Succeeded then Some(now) else st.lastSync)
  {
  }

  /** A manual request while a run is in flight changes nothing; otherwise it starts a manual run, whatever the cooldown. */
  lemma ManualRequestGuard(st: LoopState)
    ensures st.running ==> ManualRequest(st) == (st, false)
    ensures !st.running ==>
      ManualRequest(st).1 && ManualRequest(st).0.active == Some(Manual) && ManualRequest(st).0.cooldown == st.cooldown
  {
  }

  /** Every step keeps the run flag in step with the run in flight. */
  lemma StepsKeepConsistent(st: LoopState, cfg: GuiSettings, m: Moment, result: RunResult, now: int)
    requires Consistent(st)
    ensures Consistent(Iterate(st, cfg, m).state)
    ensures Consistent(Finish(st, result, now))
    ensures Consistent(ManualRequest(st).0)
  {
  }

  /** What happens between two looks at the window: a pass of the monitor loop, a button press, or the run thread ending. */
  datatype Event = Tick(cfg: GuiSettings, m: Moment) | Press | Done(result: RunResult, now: int)

  function Apply(st: LoopState, e: Event): LoopState
  {
    match e
    case Tick(cfg, m) => Iterate(st, cfg, m).state
    case Press => ManualRequest(st).0
    case Done(result, now) => Finish(st, result, now)
  }

  /** The state after a sequence of events. */
  function Replay(st: LoopState, events: seq<Event>): LoopState
    decreases |events|
  {
    if events == [] then st else Apply(Replay(st, events[..|events| - 1]), events[|events| - 1])
  }

  /** The number of events that end a run in flight. */
  function Completions(st: LoopState, events: seq<Event>): nat
    decreases |events|
  {
    if events == [] then 0
    else
      var init := events[..|events| - 1];
      Completions(st, init) + (if events[|events| - 1].Done? && Replay(st, init).active.Some? then 1 else 0)
  }

  /**
   * Over any sequence of events the run flag stays in step with the run in
   * flight, and every completed run is counted exactly once.
   */
  lemma {:induction false} ReplayBookkeeping(st: LoopState, events: seq<Event>)
    requires Consistent(st)
    ensures Consistent(Replay(st, events))
    ensures Replay(st, events).successes + Replay(st, events).errors == st.successes + st.errors + Completions(st, events)
    decreases |events|
  {
    if events != [] {
      var init := events[..|events| - 1];
      ReplayBookkeeping(st, init);
      var before := Replay(st, init);
      var e := events[|events| - 1];
      match e
      case Tick(cfg, m) =>
        StepsKeepConsistent(before, cfg, m, Succeeded, 0);
        SpawnNeedsFreeSlot(before, cfg, m);
      case Press =>
        StepsKeepConsistent(before, GuiSettings(false, false, 0, 0, "", []), Moment(0, 0, 0, "", 0), Succeeded, 0);
      case Done(result, now) =>
        StepsKeepConsistent(before, GuiSettings(false, false, 0, 0, "", []), Moment(0, 0, 0, "", 0), result, now);
        if before.active.Some? {
          FinishBookkeeping(before, result, now);
        }
    }
  }

  // ------------------------------------------------------------ the window

  /** How `root.after` behaved when an idle-label update was queued. */
  datatype AfterOutcome = Queued | NotInMainLoop | OtherFailure

  class MainWindow {
    /** The process-wide cooldown manager. */
    const cooldown: GlobalCooldownManager
    var isRunningSync: bool
    var syncSuccessCount: nat
    var syncErrorCount: nat
    var lastSyncTime: Option<int>
    var lastIdleTriggerTime: Option<int>
    /** The run thread in flight and what started it. */
    var activeRun: Option<Source>
    /** The two locals `monitor_loop` keeps between passes. */
    var lastScheduledCheck: Option<int>
    var lastIdleStateTriggered: bool
    /** The idle-time label and its update queue. */
    var idleLabel: string
    var lastIdleDisplayText: string
    var guiUpdatePending: bool
    var pendingIdleText: Option<string>
    /** The cooldown label. */
    var cooldownLabel: string
    var lastCooldownDisplayText: string

    /** The window's share of the loop state. */
    function State(): LoopState
      reads this, cooldown
    {
      LoopState(lastScheduledCheck, lastIdleStateTriggered, isRunningSync, activeRun,
                syncSuccessCount, syncErrorCount, lastSyncTime, lastIdleTriggerTime, cooldown.lastTriggerTime)
    }

    predicate Valid()
      reads this, cooldown
    {
      Consistent(State())
    }

    /**
     * `__init__`: nothing has run, and the global cooldown is reset so every
     * start begins without a cooldown.
     */
    constructor (manager: GlobalCooldownManager, writeOk: bool)
      modifies manager
      ensures Valid() && cooldown == manager
      ensures State() == LoopState(None, false, false, None, 0, 0, None, None, None)
      ensures !guiUpdatePending && pendingIdleText.None? && lastIdleDisplayText == "" && lastCooldownDisplayText == ""
    {
      cooldown := manager;
      isRunningSync := false;
      syncSuccessCount, syncErrorCount := 0, 0;
      lastSyncTime := None;
      activeRun := None;
      lastScheduledCheck := None;
      lastIdleStateTriggered := false;
      idleLabel, lastIdleDisplayText := "", "";
      guiUpdatePending := false;
      pendingIdleText := None;
      cooldownLabel, lastCooldownDisplayText := "", "";
      lastIdleTriggerTime := None;
      new;
      manager.ResetCooldown(writeOk);
    }

    /** The scheduled-trigger part of a pass, throttled to one check a minute. */
    method ScheduledPass(cfg: GuiSettings, m: Moment) returns (spawned: bool)
      modifies this`lastScheduledCheck, this`isRunningSync, this`activeRun
      ensures (State(), spawned) == ScheduledPhase(old(State()), cfg, m)
    {
      spawned := false;
      if cfg.scheduledEnabled {
        if lastScheduledCheck.None? || m.now - lastScheduledCheck.value >= 60 {
          lastScheduledCheck := Some(m.now);
          if ScheduleMatches(m.hour, m.minute, m.weekday, cfg.time, cfg.days) {
            var blocked := cooldown.IsInCooldown(cfg.cooldownMinutes, m.now);
            if !blocked && !isRunningSync {
              isRunningSync := true;
              activeRun := Some(Scheduled);
              spawned := true;
            }
          }
        }
      }
    }

    /** The idle-trigger part of a pass: fire on the rising edge only. */
    method IdlePass(cfg: GuiSettings, m: Moment) returns (spawned: bool)
      modifies this`lastIdleStateTriggered, this`lastIdleTriggerTime, this`isRunningSync, this`activeRun
      ensures (State(), spawned) == IdlePhase(old(State()), cfg, m)
    {
      spawned := false;
      if cfg.idleEnabled {
        var reached := m.idleMs >= cfg.idleMinutes * 60_000;
        if reached && !lastIdleStateTriggered {
          var blocked := cooldown.IsInCooldown(cfg.cooldownMinutes, m.now);
          if !blocked && !isRunningSync {
            lastIdleTriggerTime := Some(m.now);
            isRunningSync := true;
            activeRun := Some(IdleTrigger);
            spawned := true;
          }
        }
        lastIdleStateTriggered := reached;
      } else {
        lastIdleStateTriggered := false;
      }
    }

    /** One pass of `monitor_loop`; returns the run it spawned and the seconds it sleeps. */
    method MonitorPass(cfg: GuiSettings, m: Moment) returns (spawned: Option<Source>, sleep: int)
      modifies this`lastScheduledCheck, this`lastIdleStateTriggered, this`lastIdleTriggerTime,
               this`isRunningSync, this`activeRun
      ensures (State(), spawned, sleep) == (Iterate(old(State()), cfg, m).state, Iterate(old(State()), cfg, m).spawned, Iterate(old(State()), cfg, m).sleep)
    {
      if !(cfg.idleEnabled || cfg.scheduledEnabled) {
        return None, 30;
      }
      var sched := ScheduledPass(cfg, m);
      var idle := IdlePass(cfg, m);
      spawned := if sched then Some(Scheduled) else if idle then Some(IdleTrigger) else None;
      sleep := 5;
    }

    /** `run_sync_workflow`: the sync button. */
    method RunSyncWorkflow() returns (started: bool)
      modifies this
      ensures (State(), started) == ManualRequest(old(State()))
      ensures idleLabel == old(idleLabel) && cooldownLabel == old(cooldownLabel)
    {
      if isRunningSync {
        return false;
      }
      isRunningSync := true;
      activeRun := Some(Manual);
      started := true;
    }

    /** The end of the run thread in flight: its bookkeeping and `finally` clause. */
    method FinishRun(result: RunResult, now: int, writeOk: bool)
      modifies this, cooldown
      ensures State() == Finish(old(State()), result, now)
      ensures idleLabel == old(idleLabel) && cooldownLabel == old(cooldownLabel)
    {
      if activeRun.None? {
        return;
      }
      var src := activeRun.value;
      match result {
        case Succeeded =>
          syncSuccessCount := syncSuccessCount + 1;
          lastSyncTime := Some(now);
          cooldown.UpdateLastTriggerTime(now, writeOk);
        case Failed =>
          syncErrorCount := syncErrorCount + 1;
          if src != IdleTrigger {
            cooldown.UpdateLastTriggerTime(now, writeOk);
          }
        case Crashed =>
          syncErrorCount := syncErrorCount + 1;
      }
      isRunningSync := false;
      activeRun := None;
    }

    /** The window driven through a sequence of events. */
    method Drive(events: seq<Event>, writeOk: bool)
      requires Valid()
      modifies this, cooldown
      ensures Valid()
      ensures State() == Replay(old(State()), events)
    {
      ghost var start := State();
      ReplayBookkeeping(start, []);
      var i := 0;
      while i < |events|
        invariant 0 <= i <= |events|
        invariant State() == Replay(start, events[..i])
        invariant Valid()
      {
        assert events[..i + 1][..i] == events[..i];
        ReplayBookkeeping(start, events[..i + 1]);
        match events[i] {
          case Tick(cfg, m) =>
            var _, _ := MonitorPass(cfg, m);
          case Press =>
            var _ := RunSyncWorkflow();
          case Done(result, now) =>
            FinishRun(result, now, writeOk);
        }
        i := i + 1;
      }
      assert events[..i] == events;
    }

    /**
     * `_schedule_gui_update`: queue the text unless an update is already
     * pending. When the main loop has not started the queue is emptied; any
     * other failure leaves the update pending for good.
     */
    method ScheduleGuiUpdate(text: string, after: AfterOutcome)
      modifies this`guiUpdatePending, this`pendingIdleText
      ensures old(guiUpdatePending) ==> guiUpdatePending && pendingIdleText == old(pendingIdleText)
      ensures !old(guiUpdatePending) && after != NotInMainLoop ==> guiUpdatePending && pendingIdleText == Some(text)
      ensures !old(guiUpdatePending) && after == NotInMainLoop ==> !guiUpdatePending && pendingIdleText.None?
    {
      if !guiUpdatePending {
        guiUpdatePending := true;
        pendingIdleText := Some(text);
        if after == NotInMainLoop {
          guiUpdatePending := false;
          pendingIdleText := None;
        }
      }
    }

    /** `_perform_gui_update`: show the pending text, if there is one and it is not empty. */
    method PerformGuiUpdate(labelExists: bool)
      modifies this`guiUpdatePending, this`pendingIdleText, this`idleLabel, this`lastIdleDisplayText
      ensures !guiUpdatePending
      ensures labelExists && old(pendingIdleText).Some? && old(pendingIdleText).value != "" ==>
        idleLabel == lastIdleDisplayText == old(pendingIdleText).value && pendingIdleText.None?
      ensures !(labelExists && old(pendingIdleText).Some? && old(pendingIdleText).value != "") ==>
        idleLabel == old(idleLabel) && lastIdleDisplayText == old(lastIdleDisplayText) && pendingIdleText == old(pendingIdleText)
    {
      if labelExists && pendingIdleText.Some? && pendingIdleText.value != "" {
        idleLabel := pendingIdleText.value;
        lastIdleDisplayText := pendingIdleText.value;
        pendingIdleText := None;
      }
      guiUpdatePending := false;
    }

    /** `update_system_idle_display`: queue the formatted idle time when it differs from the one shown. */
    method UpdateSystemIdleDisplay(idleMs: nat, after: AfterOutcome)
      modifies this`guiUpdatePending, this`pendingIdleText
      ensures FormatIdleTime(idleMs / 1000) == old(lastIdleDisplayText) ==>
        guiUpdatePending == old(guiUpdatePending) && pendingIdleText == old(pendingIdleText)
      ensures FormatIdleTime(idleMs / 1000) != old(lastIdleDisplayText) && !old(guiUpdatePending) && after != NotInMainLoop ==>
        guiUpdatePending && pendingIdleText == Some(FormatIdleTime(idleMs / 1000))
    {
      var text := FormatIdleTimeSeconds(idleMs / 1000);
      FormatTwins(idleMs / 1000);
      if text != lastIdleDisplayText {
        ScheduleGuiUpdate(text, after);
      }
    }

    /**
     * `update_cooldown_display_only`: recompute the cooldown text (the
     * no-cooldown text when that raised) and redraw only when it changed.
     */
    method UpdateCooldownDisplayOnly(minutes: int, now: int, raised: bool) returns (redrawn: bool)
      modifies this`cooldownLabel, this`lastCooldownDisplayText
      ensures var t := if raised then NoCooldown else CooldownText(RemainingSeconds(cooldown.lastTriggerTime, minutes, now));
        lastCooldownDisplayText == t && (redrawn <==> t != old(lastCooldownDisplayText)) &&
        cooldownLabel == (if redrawn then t else old(cooldownLabel))
    {
      var text := NoCooldown;
      if !raised {
        var remaining := cooldown.GetRemainingCooldownSeconds(minutes, now);
        text := CooldownText(remaining);
      }
      redrawn := text != lastCooldownDisplayText;
      if redrawn {
        cooldownLabel := text;
        lastCooldownDisplayText := text;
      }
    }
  }
}
