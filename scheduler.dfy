/**
 * The scheduler's bookkeeping (core/task_scheduler.py): the list of
 * registered tasks, the time each was last executed, and the running flag.
 * Jobs of the `schedule` library are opaque handles; when they fire is not
 * modelled.
 */
module Scheduler {
  import opened Wrappers
  import opened Text

  /** When a task fires. */
  datatype Kind = Daily(time: string) | Weekly(day: string, time: string) | Interval(minutes: int)

  /** One record of `self.tasks`: its kind, its name and the handle of its job. */
  datatype Task = Task(kind: Kind, name: string, job: nat)

  /** The day names `schedule.every()` has an attribute for. */
  const Weekdays: set<string> := {"monday", "tuesday", "wednesday", "thursday", "friday", "saturday", "sunday"}

  /** The unit of the job an attribute of `schedule.every()` yields. */
  datatype Unit = DayUnit | HourUnit | MinuteUnit | OtherUnit

  /**
   * `getattr(schedule.every(), name)`: the attributes that yield a job, and
   * its unit (a weekday also sets the start day, which `at` treats like a
   * day unit). Any other name raises, or yields something without `at`.
   */
  function AttributeUnit(name: string): (r: Option<Unit>)
    ensures name in Weekdays ==> r == Some(DayUnit)
    ensures r == Some(DayUnit) <==> name in Weekdays || name == "day" || name == "days"
  {
    if name in Weekdays || name in {"day", "days"} then Some(DayUnit)
    else if name in {"hour", "hours"} then Some(HourUnit)
    else if name in {"minute", "minutes"} then Some(MinuteUnit)
    else if name in {"second", "seconds", "week", "weeks"} then Some(OtherUnit)
    else None
  }

  /** A character in `'0'..top` followed by a decimal digit. */
  predicate Field(c: char, d: char, top: char) { '0' <= c <= top && IsDigit(d) }

  /** The text a `^...$` pattern sees: `$` also matches before one final newline. */
  function Body(t: string): (b: string)
    ensures |b| <= |t| && b == t[..|b|]
    ensures |b| < |t| ==> |b| == |t| - 1 && t[|t| - 1] == '\n'
  {
    if |t| > 0 && t[|t| - 1] == '\n' then t[..|t| - 1] else t
  }

  /**
   * The times `at` takes for a day-unit job: `^[0-2]\d:[0-5]\d(:[0-5]\d)?$`,
   * then an hour of at most 23.
   */
  predicate DayTime(t: string)
  {
    var b := Body(t);
    (|b| == 5 || (|b| == 8 && b[5] == ':' && Field(b[6], b[7], '5'))) &&
    Field(b[0], b[1], '2') && b[2] == ':' && Field(b[3], b[4], '5') &&
    (b[0] as int - '0' as int) * 10 + (b[1] as int - '0' as int) <= 23
  }

  /**
   * `Job.at(time_str)` does not raise: the day rule above, `(MM)?:SS` for
   * an hour unit, `:SS` for a minute unit, and no time for any other unit.
   */
  predicate AtAccepts(u: Unit, t: string)
  {
    var b := Body(t);
    match u
    case DayUnit => DayTime(t)
    case HourUnit =>
      (|b| == 3 && b[0] == ':' && Field(b[1], b[2], '5')) ||
      (|b| == 5 && Field(b[0], b[1], '5') && b[2] == ':' && Field(b[3], b[4], '5'))
    case MinuteUnit => |b| == 3 && b[0] == ':' && Field(b[1], b[2], '5')
    case OtherUnit => false
  }

  lemma Pad2Digits(n: nat)
    requires n < 100
    ensures Pad2(n) == [DigitChar(n / 10), DigitChar(n % 10)]
  {
    if n >= 10 {
      assert NatToString(n / 10) == [DigitChar(n / 10)];
    }
  }

  /** Every zero-padded `HH:MM` clock reading is a day time. */
  lemma ClockIsDayTime(h: nat, m: nat)
    requires h < 24 && m < 60
    ensures DayTime(Pad2(h) + ":" + Pad2(m))
  {
    Pad2Digits(h);
    Pad2Digits(m);
  }

  /** A one-digit hour is no day time: such a schedule raises. */
  lemma {:induction false} OneDigitHourRaises(h: nat, m: nat)
    requires h < 10 && m < 60
    ensures !DayTime(NatToString(h) + ":" + Pad2(m))
  {
    var t := NatToString(h) + ":" + Pad2(m);
    assert |t| == 4 && t[3] == Pad2(m)[1] && IsDigit(t[3]);
  }

  /** The handles of a task list. */
  function Jobs(tasks: seq<Task>): set<nat>
  {
    set t | t in tasks :: t.job
  }

  /** The kinds and names of a task list, handles left out. */
  function Entries(tasks: seq<Task>): (r: seq<(Kind, string)>)
    ensures |r| == |tasks|
    ensures forall i :: 0 <= i < |tasks| ==> r[i] == (tasks[i].kind, tasks[i].name)
  {
    if tasks == [] then [] else [(tasks[0].kind, tasks[0].name)] + Entries(tasks[1..])
  }

  /** The position of the first task with the given name. */
  function FirstNamed(tasks: seq<Task>, name: string): (r: Option<nat>)
    ensures r.None? <==> forall i :: 0 <= i < |tasks| ==> tasks[i].name != name
    ensures r.Some? ==> r.value < |tasks| && tasks[r.value].name == name &&
                        forall j :: 0 <= j < r.value ==> tasks[j].name != name
  {
    if tasks == [] then None
    else if tasks[0].name == name then Some(0)
    else match FirstNamed(tasks[1..], name)
      case None => None
      case Some(i) => Some(i + 1)
  }

  /** The task list after `remove_task(name)`. */
  function RemoveFirst(tasks: seq<Task>, name: string): seq<Task>
  {
    match FirstNamed(tasks, name)
    case None => tasks
    case Some(i) => tasks[..i] + tasks[i + 1..]
  }

  /**
   * `remove_task` drops exactly one record, the first with that name: one
   * fewer record, and the same multiset of records but that one.
   */
  lemma RemoveFirstDropsOne(tasks: seq<Task>, name: string)
    requires FirstNamed(tasks, name).Some?
    ensures |RemoveFirst(tasks, name)| == |tasks| - 1
    ensures multiset(RemoveFirst(tasks, name)) + multiset{tasks[FirstNamed(tasks, name).value]} == multiset(tasks)
  {
    DropAt(tasks, FirstNamed(tasks, name).value);
  }

  /** Dropping one task keeps the handles distinct and below `next`. */
  lemma RemoveAtHandles(tasks: seq<Task>, i: nat, next: nat)
    requires i < |tasks| && Handles(tasks, next)
    ensures Handles(tasks[..i] + tasks[i + 1..], next)
  {
    var r := tasks[..i] + tasks[i + 1..];
    assert forall k :: 0 <= k < |r| ==> r[k] == tasks[if k < i then k else k + 1];
  }

  /** Dropping one position keeps every other element. */
  lemma DropAt<T>(s: seq<T>, i: nat)
    requires i < |s|
    ensures |s[..i] + s[i + 1..]| == |s| - 1
    ensures multiset(s[..i] + s[i + 1..]) + multiset{s[i]} == multiset(s)
  {
    assert s == s[..i] + [s[i]] + s[i + 1..];
  }

  lemma JobsConcat(a: seq<Task>, b: seq<Task>)
    ensures Jobs(a + b) == Jobs(a) + Jobs(b)
  {
    assert forall t :: t in a + b <==> t in a || t in b;
  }

  /** With distinct handles, dropping one task drops exactly its handle. */
  lemma RemoveAtJobs(tasks: seq<Task>, i: nat)
    requires i < |tasks|
    requires forall x, y :: 0 <= x < y < |tasks| ==> tasks[x].job != tasks[y].job
    ensures Jobs(tasks[..i] + tasks[i + 1..]) == Jobs(tasks) - {tasks[i].job}
  {
    var front, back := tasks[..i], tasks[i + 1..];
    assert tasks == front + [tasks[i]] + back;
    JobsConcat(front + [tasks[i]], back);
    JobsConcat(front, [tasks[i]]);
    JobsConcat(front, back);
    forall k | 0 <= k < |front| ensures front[k].job != tasks[i].job {
      assert front[k] == tasks[k];
    }
    forall k | 0 <= k < |back| ensures back[k].job != tasks[i].job {
      assert back[k] == tasks[i + 1 + k];
    }
  }

  /** The handles left after `remove_task` are all but the removed task's. */
  lemma RemoveFirstJobs(tasks: seq<Task>, name: string)
    requires FirstNamed(tasks, name).Some?
    requires forall i, j :: 0 <= i < j < |tasks| ==> tasks[i].job != tasks[j].job
    ensures Jobs(RemoveFirst(tasks, name)) == Jobs(tasks) - {tasks[FirstNamed(tasks, name).value].job}
  {
    RemoveAtJobs(tasks, FirstNamed(tasks, name).value);
  }

  /** No task, no job. */
  lemma NoJobsNoTasks(tasks: seq<Task>)
    ensures Jobs(tasks) == {} <==> tasks == []
  {
    if tasks != [] {
      assert tasks[0].job in Jobs(tasks);
    }
  }

  /** Handles are distinct, and every handle in use was issued before `next`. */
  predicate Handles(tasks: seq<Task>, next: nat)
  {
    (forall i, j :: 0 <= i < j < |tasks| ==> tasks[i].job != tasks[j].job) &&
    (forall i :: 0 <= i < |tasks| ==> tasks[i].job < next)
  }

  class TaskScheduler {
    var running: bool
    var tasks: seq<Task>
    /** Task name to the time stamp of its last execution. */
    var lastExecution: map<string, string>
    /** The handles the `schedule` library holds. */
    var jobs: set<nat>
    /** The next fresh handle. */
    var nextJob: nat

    /** The library holds exactly the jobs of the recorded tasks. */
    predicate Valid()
      reads this
    {
      jobs == Jobs(tasks) && Handles(tasks, nextJob)
    }

    constructor ()
      ensures Valid() && !running && tasks == [] && lastExecution == map[] && jobs == {}
    {
      running := false;
      tasks := [];
      lastExecution := map[];
      jobs := {};
      nextJob := 0;
    }

    /** Append one task with a fresh job. */
    method Register(kind: Kind, name: string)
      requires Valid()
      modifies this
      ensures Valid()
      ensures Entries(tasks) == Entries(old(tasks)) + [(kind, name)]
      ensures running == old(running) && lastExecution == old(lastExecution)
    {
      var job := nextJob;
      tasks := tasks + [Task(kind, name, job)];
      jobs := jobs + {job};
      nextJob := nextJob + 1;
    }

    /**
     * `add_daily_task(time_str, task_func, task_name)`: `every().day.at(time_str)`
     * raises for a time a daily job refuses, before anything is recorded.
     */
    method AddDailyTask(time: string, name: string) returns (added: bool)
      requires Valid()
      modifies this
      ensures Valid()
      ensures added <==> DayTime(time)
      ensures Entries(tasks) == Entries(old(tasks)) + (if added then [(Daily(time), name)] else [])
      ensures running == old(running) && lastExecution == old(lastExecution)
    {
      if !AtAccepts(DayUnit, time) {
        return false;
      }
      Register(Daily(time), name);
      added := true;
    }

    /**
     * `add_weekly_task(day, time_str, task_func, task_name)`: the lower-cased
     * day picks an attribute of `schedule.every()` and `.at(time_str)` is
     * called on it. A name without a job attribute, or a time that job's
     * unit refuses, raises before anything is recorded; a weekday, `day` or
     * `days` takes the daily time rule, and the record says weekly in every
     * case.
     */
    method AddWeeklyTask(day: string, time: string, name: string) returns (added: bool)
      requires Valid()
      modifies this
      ensures Valid()
      ensures added <==> AttributeUnit(Lower(day)).Some? && AtAccepts(AttributeUnit(Lower(day)).value, time)
      ensures Lower(day) in Weekdays ==> (added <==> DayTime(time))
      ensures Entries(tasks) == Entries(old(tasks)) + (if added then [(Weekly(day, time), name)] else [])
      ensures running == old(running) && lastExecution == old(lastExecution)
    {
      var unit := AttributeUnit(Lower(day));
      if unit.None? || !AtAccepts(unit.value, time) {
        return false;
      }
      Register(Weekly(day, time), name);
      added := true;
    }

    /** `add_interval_task(minutes, task_func, task_name)`. */
    method AddIntervalTask(minutes: int, name: string)
      requires Valid()
      modifies this
      ensures Valid()
      ensures Entries(tasks) == Entries(old(tasks)) + [(Interval(minutes), name)]
      ensures running == old(running) && lastExecution == old(lastExecution)
    {
      Register(Interval(minutes), name);
    }

    /**
     * `_execute_task`: the execution time is recorded before the task runs,
     * and whatever the task returns or raises goes no further.
     */
    method ExecuteTask(name: string, stamp: string)
      modifies this`lastExecution
      ensures lastExecution == old(lastExecution)[name := stamp]
    {
      lastExecution := lastExecution[name := stamp];
    }

    /** `remove_task(name)`: cancel and drop the first task with that name. */
    method RemoveTask(name: string) returns (removed: bool)
      requires Valid()
      modifies this
      ensures Valid()
      ensures removed <==> exists i :: 0 <= i < |old(tasks)| && old(tasks)[i].name == name
      ensures tasks == RemoveFirst(old(tasks), name)
      ensures running == old(running) && lastExecution == old(lastExecution)
    {
      var i := 0;
      while i < |tasks|
        invariant 0 <= i <= |tasks|
        invariant tasks == old(tasks) && jobs == old(jobs) && nextJob == old(nextJob)
        invariant forall j :: 0 <= j < i ==> tasks[j].name != name
      {
        if tasks[i].name == name {
          var t := tasks;
          assert FirstNamed(t, name) == Some(i);
          RemoveFirstJobs(t, name);
          RemoveAtHandles(t, i, nextJob);
          jobs := jobs - {t[i].job};
          tasks := t[..i] + t[i + 1..];
          return true;
        }
        i := i + 1;
      }
      removed := false;
    }

    /** `get_next_run_time`: nothing when the library holds no job. */
    method GetNextRunTime(nextRun: string) returns (r: Option<string>)
      requires Valid()
      ensures r.None? <==> tasks == []
      ensures r.Some? ==> r.value == nextRun
    {
      NoJobsNoTasks(tasks);
      if jobs == {} {
        return None;
      }
      r := Some(nextRun);
    }

    /** `start`: a no-op when already running. */
    method Start()
      modifies this`running
      ensures running
    {
      if running {
        return;
      }
      running := true;
    }

    /** `stop`. */
    method Stop()
      modifies this`running
      ensures !running
    {
      running := false;
    }
  }
}
