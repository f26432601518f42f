/**
 * The command-line monitoring service (core/sync_monitor.py): it registers
 * the scheduled sync tasks, polls the idle time every ten seconds, and runs
 * the sync workflow as a child process, gated by the global cooldown.
 */
module Monitor {
  import opened Wrappers
  import opened Text
  import opened Cooldown
  import opened Scheduler
  import opened Idle
  import opened SyncWorkflow

  /** The configuration values the service reads through the typed getters. */
  datatype MonitorSettings = MonitorSettings(
    idleEnabled: bool, idleMinutes: int, cooldownMinutes: int,
    scheduledEnabled: bool, time: string, days: seq<string>)

  const DailyTaskName: string := "每日同步任务"

  function WeeklyTaskName(day: string): string { "每" + day + "同步任务" }

  /** One weekly task per entry that names a weekday, in list order. */
  function WeeklyPlan(days: seq<string>, time: string): seq<(Kind, string)>
    decreases |days|
  {
    if days == [] then []
    else
      var d := days[|days| - 1];
      WeeklyPlan(days[..|days| - 1], time) + (if Lower(d) in Weekdays then [(Weekly(d, time), WeeklyTaskName(d))] else [])
  }

  /** The tasks `_setup_scheduled_tasks` registers. */
  function Planned(enabled: bool, time: string, days: seq<string>): seq<(Kind, string)>
  {
    if !enabled then []
    else if "daily" in days then [(Daily(time), DailyTaskName)]
    else WeeklyPlan(days, time)
  }

  /**
   * `_setup_scheduled_tasks` raises: a task is due and its time is one the
   * `schedule` library refuses. Every call passes the same time and only
   * weekday names, so the first call raises and nothing is recorded.
   */
  predicate PlanRaises(enabled: bool, time: string, days: seq<string>)
  {
    Planned(enabled, time, days) != [] && !DayTime(time)
  }

  /**
   * The weekly plan holds exactly the entries that name a weekday (compared
   * lower-cased), each as a weekly task at the configured time.
   */
  lemma {:induction false} WeeklyPlanExact(days: seq<string>, time: string)
    ensures forall e :: e in WeeklyPlan(days, time) ==>
      e.0.Weekly? && e.0.time == time && e.0.day in days && Lower(e.0.day) in Weekdays && e.1 == WeeklyTaskName(e.0.day)
    ensures forall d :: d in days && Lower(d) in Weekdays ==> (Weekly(d, time), WeeklyTaskName(d)) in WeeklyPlan(days, time)
    decreases |days|
  {
    if days != [] {
      var init := days[..|days| - 1];
      WeeklyPlanExact(init, time);
      assert days == init + [days[|days| - 1]];
    }
  }

  /** A weekday entry puts a task into the weekly plan. */
  lemma {:induction false} WeeklyPlanHas(days: seq<string>, i: nat, time: string)
    requires i < |days| && Lower(days[i]) in Weekdays
    ensures WeeklyPlan(days, time) != []
    decreases |days|
  {
    var init := days[..|days| - 1];
    if i < |days| - 1 {
      assert init[i] == days[i];
      WeeklyPlanHas(init, i, time);
    }
  }

  /**
   * Disabled: no task. `"daily"` listed (exact case): one daily task.
   * Otherwise only weekly tasks, one per weekday entry.
   */
  lemma PlannedShape(enabled: bool, time: string, days: seq<string>)
    ensures !enabled ==> Planned(enabled, time, days) == []
    ensures enabled && "daily" in days ==> Planned(enabled, time, days) == [(Daily(time), DailyTaskName)]
    ensures enabled && "daily" !in days ==>
      (forall e :: e in Planned(enabled, time, days) ==> e.0.Weekly? && Lower(e.0.day) in Weekdays) &&
      (forall d :: d in days && Lower(d) in Weekdays ==> (Weekly(d, time), WeeklyTaskName(d)) in Planned(enabled, time, days))
  {
    WeeklyPlanExact(days, time);
  }

  /** How the monitor loop ended: the stop signal's handler, or a KeyboardInterrupt. */
  datatype Ending = Signal | Interrupt

  /** One pass of the monitor loop: the time, the idle time, and how a workflow child would end. */
  datatype Tick = Tick(now: int, idleMs: nat, run: Exec)

  class SyncMonitor {
    const settings: MonitorSettings
    const scheduler: TaskScheduler
    /** The process-wide cooldown manager. */
    const cooldown: GlobalCooldownManager
    var running: bool
    var lastIdleTrigger: Option<int>
    /** `__init__` raised while registering the scheduled tasks. */
    var setupRaised: bool

    predicate Valid()
      reads this, scheduler
    {
      scheduler.Valid()
    }

    /**
     * `__init__`: a fresh scheduler, then `_setup_scheduled_tasks`.
     * `setupRaised` records that the latter raised, which in the source
     * aborts the construction.
     */
    constructor (s: MonitorSettings, manager: GlobalCooldownManager)
      ensures Valid() && settings == s && cooldown == manager && fresh(scheduler)
      ensures !running && lastIdleTrigger.None? && !scheduler.running
      ensures setupRaised == PlanRaises(s.scheduledEnabled, s.time, s.days)
      ensures Entries(scheduler.tasks) == if setupRaised then [] else Planned(s.scheduledEnabled, s.time, s.days)
    {
      settings := s;
      cooldown := manager;
      scheduler := new TaskScheduler();
      running := false;
      lastIdleTrigger := None;
      new;
      setupRaised := SetupScheduledTasks();
    }

    /**
     * `_setup_scheduled_tasks`: `"daily"` listed gives one daily task,
     * otherwise each weekday entry gives a weekly task; a refused time
     * raises out of the first registration.
     */
    method SetupScheduledTasks() returns (raised: bool)
      requires Valid()
      modifies scheduler
      ensures Valid()
      ensures raised == PlanRaises(settings.scheduledEnabled, settings.time, settings.days)
      ensures Entries(scheduler.tasks) == Entries(old(scheduler.tasks)) +
        (if raised then [] else Planned(settings.scheduledEnabled, settings.time, settings.days))
      ensures scheduler.running == old(scheduler.running)
    {
      if !settings.scheduledEnabled {
        return false;
      }
      var days := settings.days;
      if "daily" in days {
        var added := scheduler.AddDailyTask(settings.time, DailyTaskName);
        return !added;
      }
      raised := RegisterWeekly(days, settings.time);
    }

    /** The weekly branch of `_setup_scheduled_tasks`: one task per weekday entry, in order. */
    method RegisterWeekly(days: seq<string>, time: string) returns (raised: bool)
      requires Valid()
      modifies scheduler
      ensures Valid()
      ensures raised == (WeeklyPlan(days, time) != [] && !DayTime(time))
      ensures Entries(scheduler.tasks) == Entries(old(scheduler.tasks)) + (if raised then [] else WeeklyPlan(days, time))
      ensures scheduler.running == old(scheduler.running)
    {
      ghost var before := Entries(scheduler.tasks);
      var i := 0;
      while i < |days|
        invariant 0 <= i <= |days|
        invariant Valid() && scheduler.running == old(scheduler.running)
        invariant Entries(scheduler.tasks) == before + WeeklyPlan(days[..i], time)
        invariant !DayTime(time) ==> WeeklyPlan(days[..i], time) == []
      {
        assert days[..i + 1][..i] == days[..i];
        if Lower(days[i]) in Weekdays {
          var added := scheduler.AddWeeklyTask(days[i], time, WeeklyTaskName(days[i]));
          if !added {
            WeeklyPlanHas(days, i, time);
            return true;
          }
        }
        i := i + 1;
      }
      assert days[..i] == days;
      raised := false;
    }

    /**
     * `_execute_sync_workflow`: claim the global cooldown, then run
     * `sync_workflow.py run` as a child (ten-minute timeout); success is
     * exit status 0.
     */
    method ExecuteSyncWorkflow(now: int, run: Exec, writeOk: bool) returns (ok: bool, spawned: bool)
      modifies cooldown
      ensures (spawned, cooldown.lastTriggerTime) == CheckAndUpdate(old(cooldown.lastTriggerTime), settings.cooldownMinutes, now)
      ensures ok <==> spawned && CommandOk(run)
    {
      spawned := cooldown.CheckAndUpdateIfAllowed(settings.cooldownMinutes, now, writeOk);
      if !spawned {
        return false, false;
      }
      ok := CommandOk(run);
    }

    /**
     * `_check_idle_trigger`: idle long enough and the global cooldown lets
     * it through. A success has already stamped the cooldown.
     */
    method CheckIdleTrigger(now: int, idleMs: nat, writeOk: bool) returns (triggered: bool)
      modifies this`lastIdleTrigger, cooldown
      ensures triggered <==> settings.idleEnabled && IsIdleFor(idleMs, settings.idleMinutes as real) &&
                             !InCooldown(old(cooldown.lastTriggerTime), settings.cooldownMinutes, now)
      ensures triggered ==> cooldown.lastTriggerTime == Some(now) && lastIdleTrigger == Some(now)
      ensures !triggered ==> cooldown.lastTriggerTime == old(cooldown.lastTriggerTime) && lastIdleTrigger == old(lastIdleTrigger)
    {
      if !settings.idleEnabled {
        return false;
      }
      if IsIdleFor(idleMs, settings.idleMinutes as real) {
        var allowed := cooldown.CheckAndUpdateIfAllowed(settings.cooldownMinutes, now, writeOk);
        if allowed {
          lastIdleTrigger := Some(now);
          return true;
        }
      }
      triggered := false;
    }

    /**
     * One pass of the loop as written: an idle trigger is followed by
     * `_execute_sync_workflow`, whose own cooldown check sees the stamp just
     * made, so with a positive cooldown no workflow ever runs.
     */
    method MonitorStep(t: Tick, writeOk: bool) returns (triggered: bool, ran: bool)
      modifies this`lastIdleTrigger, cooldown
      ensures triggered <==> settings.idleEnabled && IsIdleFor(t.idleMs, settings.idleMinutes as real) &&
                             !InCooldown(old(cooldown.lastTriggerTime), settings.cooldownMinutes, t.now)
      ensures settings.cooldownMinutes > 0 ==> !ran
      ensures settings.cooldownMinutes <= 0 ==> (ran <==> triggered && CommandOk(t.run))
    {
      triggered := CheckIdleTrigger(t.now, t.idleMs, writeOk);
      ran := false;
      if triggered {
        var spawned;
        ran, spawned := ExecuteSyncWorkflow(t.now, t.run, writeOk);
      }
    }

    /**
     * One pass as intended: the idle trigger has already claimed the
     * cooldown, so the workflow runs without a second claim.
     */
    method MonitorStepCorrected(t: Tick, writeOk: bool) returns (triggered: bool, ran: bool)
      modifies this`lastIdleTrigger, cooldown
      ensures triggered <==> settings.idleEnabled && IsIdleFor(t.idleMs, settings.idleMinutes as real) &&
                             !InCooldown(old(cooldown.lastTriggerTime), settings.cooldownMinutes, t.now)
      ensures ran <==> triggered && CommandOk(t.run)
    {
      triggered := CheckIdleTrigger(t.now, t.idleMs, writeOk);
      ran := triggered && CommandOk(t.run);
    }

    /**
     * `start_monitoring`: a no-op when already running; otherwise start the
     * scheduler, run the loop over `ticks`, and stop. When the loop ends
     * through the signal handler, `running` is already false, so the final
     * `stop_monitoring` returns early and leaves the scheduler running.
     */
    method StartMonitoring(ticks: seq<Tick>, ending: Ending, writeOk: bool) returns (triggers: nat, runs: nat)
      requires Valid()
      modifies this, scheduler, cooldown
      ensures Valid()
      ensures old(running) ==> running && triggers == 0 && runs == 0 && scheduler.running == old(scheduler.running)
      ensures !old(running) ==> !running && (scheduler.running <==> ending == Signal)
      ensures settings.cooldownMinutes > 0 ==> runs == 0
      ensures runs <= triggers <= |ticks|
    {
      triggers, runs := 0, 0;
      if running {
        return;
      }
      running := true;
      scheduler.Start();
      var i := 0;
      while i < |ticks|
        invariant 0 <= i <= |ticks|
        invariant Valid() && running && scheduler.running
        invariant runs <= triggers <= i
        invariant settings.cooldownMinutes > 0 ==> runs == 0
      {
        var triggered, ran := MonitorStep(ticks[i], writeOk);
        if triggered { triggers := triggers + 1; }
        if ran { runs := runs + 1; }
        i := i + 1;
      }
      if ending == Signal {
        running := false;
      }
      StopMonitoring();
    }

    /** `stop_monitoring`: a no-op when not running. */
    method StopMonitoring()
      requires Valid()
      modifies this`running, scheduler`running
      ensures Valid() && !running
      ensures old(running) ==> !scheduler.running
      ensures !old(running) ==> scheduler.running == old(scheduler.running)
    {
      if !running {
        return;
      }
      running := false;
      scheduler.Stop();
    }
  }
}
