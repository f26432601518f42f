/**
 * The OneDrive controller (core/onedrive_controller.py): finding the OneDrive
 * processes, the cached "is it running" answer, stopping, pausing, resuming
 * and starting OneDrive, the countdown that waits for a sync to finish, and
 * the exit status of its command line.
 */
module OneDrive {
  import opened Wrappers
  import opened Text
  import opened Processes
  import opened WinPaths

  /** The image names queried with `tasklist`, in order. */
  const Images: seq<string> := ["OneDrive.exe", "Microsoft.SharePoint.exe"]

  /** Lower-cased process names the tasklist path accepts. */
  const Accepted: set<string> := {"onedrive.exe", "microsoft.sharepoint.exe"}

  /** The psutil fallback only recognises this name. */
  const FallbackName: string := "onedrive.exe"

  /**
   * What one `find_onedrive_processes()` call sees: the two `tasklist` runs,
   * the live process table by PID, and what the psutil fallback walks.
   */
  datatype Snapshot = Snapshot(oneDriveRun: TasklistRun, sharePointRun: TasklistRun,
                               table: map<int, string>, walk: PsutilWalk)

  function Runs(s: Snapshot): seq<TasklistRun> { [s.oneDriveRun, s.sharePointRun] }

  /** The processes `find_onedrive_processes()` returns for a snapshot. */
  function Found(s: Snapshot): seq<Proc>
  {
    match TasklistSearch(Runs(s), Images, s.table, Accepted)
    case Some(ps) => ps
    case None => Fallback(s.walk, FallbackName)
  }

  /** `len(find_onedrive_processes()) > 0`. */
  predicate Running(s: Snapshot) { Found(s) != [] }

  /**
   * Every process found is a OneDrive process; when a `tasklist` run raised,
   * only `onedrive.exe` processes can be found, since the fallback does not
   * know the SharePoint name.
   */
  lemma FoundAccepted(s: Snapshot)
    ensures forall p :: p in Found(s) ==> Lower(p.name) in Accepted
    ensures (s.oneDriveRun.Raised? || s.sharePointRun.Raised?) ==>
      forall p :: p in Found(s) ==> Lower(p.name) == FallbackName
    ensures !(s.oneDriveRun.Raised? || s.sharePointRun.Raised?) ==>
      forall p :: p in Found(s) ==> p.pid in s.table && s.table[p.pid] == p.name
  {
    TasklistSearchRaises(Runs(s), Images, s.table, Accepted);
    TasklistSearchSound(Runs(s), Images, s.table, Accepted);
    assert Runs(s)[0] == s.oneDriveRun && Runs(s)[1] == s.sharePointRun;
  }

  /** `find_onedrive_processes()`. */
  method FindOneDriveProcesses(s: Snapshot) returns (found: seq<Proc>)
    ensures found == Found(s)
  {
    found := FindProcesses(Runs(s), Images, s.table, Accepted, s.walk, FallbackName);
  }

  /** The per-user installation, relative to the home directory. */
  const UserInstall: string := "\\AppData\\Local\\Microsoft\\OneDrive\\OneDrive.exe"

  /** The installation paths `resume_onedrive_sync` tries, in order. */
  function CandidatePaths(home: string): seq<string>
  {
    [ExpandUser("~" + UserInstall, home),
     "C:\\Program Files\\Microsoft OneDrive\\OneDrive.exe",
     "C:\\Program Files (x86)\\Microsoft OneDrive\\OneDrive.exe"]
  }

  /** The per-user installation comes first and lies under the home directory. */
  lemma UserPathFirst(home: string)
    ensures CandidatePaths(home)[0] == home + UserInstall
  {
    assert ("~" + UserInstall)[1..] == UserInstall;
  }

  /** `wait_minutes`: the argument, else the configured value, else 5 when reading the configuration raised. */
  function EffectiveWaitMinutes(waitArg: Option<int>, configMinutes: Option<int>): (m: int)
    ensures waitArg.Some? ==> m == waitArg.value
    ensures waitArg.None? && configMinutes.Some? ==> m == configMinutes.value
    ensures waitArg.None? && configMinutes.None? ==> m == 5
  {
    match waitArg
    case Some(w) => w
    case None => configMinutes.GetOr(5)
  }

  /**
   * The countdown of `wait_for_sync_complete`: announce the remaining time
   * every ten seconds, sleeping ten seconds at a time, and the last stretch
   * of at most ten seconds one second at a time. Returns the seconds slept
   * and the remaining times announced.
   */
  method Countdown(waitSeconds: int) returns (slept: int, announced: seq<int>)
    ensures slept == if waitSeconds > 0 then waitSeconds else 0
    ensures |announced| == if waitSeconds > 0 then (waitSeconds + 9) / 10 else 0
    ensures forall i :: 0 <= i < |announced| ==> announced[i] == waitSeconds - 10 * i
  {
    slept := 0;
    announced := [];
    var remaining := waitSeconds;
    while remaining > 0
      invariant waitSeconds > 0 ==> remaining > 0
      invariant waitSeconds <= 0 ==> remaining == waitSeconds
      invariant slept == waitSeconds - remaining == 10 * |announced|
      invariant forall i :: 0 <= i < |announced| ==> announced[i] == waitSeconds - 10 * i
      decreases remaining
    {
      announced := announced + [remaining];
      if remaining <= 10 {
        var i := remaining;
        while i > 0
          invariant 0 <= i <= remaining
          invariant slept == waitSeconds - i
        {
          slept := slept + 1;
          i := i - 1;
        }
        var k := |announced| - 1;
        assert waitSeconds + 9 == 10 * (k + 1) + (remaining - 1);
        return;
      }
      slept := slept + 10;
      remaining := remaining - 10;
    }
  }

  /** `main()`'s commands. */
  datatype Command = Start | Stop | Pause | Resume | Status | WaitSync

  function ParseCommand(arg: string): (r: Option<Command>)
    ensures r.Some? <==> Lower(arg) in {"start", "stop", "pause", "resume", "status", "wait-sync"}
  {
    var c := Lower(arg);
    if c == "start" then Some(Start)
    else if c == "stop" then Some(Stop)
    else if c == "pause" then Some(Pause)
    else if c == "resume" then Some(Resume)
    else if c == "status" then Some(Status)
    else if c == "wait-sync" then Some(WaitSync)
    else None
  }

  /**
   * The processes found that carry no `info`: all of those the tasklist path
   * built from a PID, and those the fallback's `psutil.pids()` loop opened.
   */
  function Uninformed(s: Snapshot): (r: seq<Proc>)
    ensures forall p :: p in r ==> p in Found(s)
  {
    match TasklistSearch(Runs(s), Images, s.table, Accepted)
    case Some(ps) => ps
    case None => FromPids(s.walk, FallbackName)
  }

  /**
   * `get_onedrive_status()` reads `proc.info['name']` for every process
   * found, so `status` raises AttributeError, which nothing catches, as soon
   * as one of them carries no `info`.
   */
  predicate StatusRaises(s: Snapshot)
  {
    Uninformed(s) != []
  }

  /**
   * The exit status of `python onedrive_controller.py <args>` as written:
   * 1 for a missing or unknown command and for a `status` that raised, 0
   * after any other known command whatever it achieved.
   */
  function ExitCodeAsWritten(args: seq<string>, succeeded: bool, s: Snapshot): (code: int)
    ensures code == 0 <==>
      (|args| >= 1 && ParseCommand(args[0]).Some? && !(ParseCommand(args[0]) == Some(Status) && StatusRaises(s)))
    ensures code != 0 ==> code == 1
  {
    if |args| < 1 then 1
    else match ParseCommand(args[0])
      case None => 1
      case Some(c) => if c == Status && StatusRaises(s) then 1 else 0
  }

  /** A failed stop, pause or resume still exits 0. */
  lemma FailedCommandExitsZero(cmd: string, s: Snapshot)
    requires Lower(cmd) in {"stop", "pause", "resume", "start"}
    ensures ExitCodeAsWritten([cmd], false, s) == 0
  {
  }

  /**
   * `status` exits 0 exactly when OneDrive is not running, or a `tasklist`
   * run raised and the fallback's processes all came from `process_iter`:
   * either it did not raise, or the `psutil.pids()` loop after it found no
   * `onedrive.exe`.
   */
  lemma StatusExit(s: Snapshot, succeeded: bool)
    ensures ExitCodeAsWritten(["status"], succeeded, s) == 0 <==>
      !Running(s) ||
      ((s.oneDriveRun.Raised? || s.sharePointRun.Raised?) &&
       !(s.walk.iterRaised && exists p :: p in s.walk.pidProcs && Lower(p.name) == FallbackName))
  {
    LowerOfLowercase("status");
    TasklistSearchRaises(Runs(s), Images, s.table, Accepted);
    assert Runs(s)[0] == s.oneDriveRun && Runs(s)[1] == s.sharePointRun;
    if s.oneDriveRun.Raised? || s.sharePointRun.Raised? {
      assert TasklistSearch(Runs(s), Images, s.table, Accepted).None?;
      FromPidsEmpty(s.walk, FallbackName);
    } else {
      assert forall i :: 0 <= i < |Runs(s)| ==> !Runs(s)[i].Raised?;
    }
  }

  /** The exit status a caller relying on it needs: 0 exactly when a known command succeeded. */
  function ExitCode(args: seq<string>, succeeded: bool): (code: int)
    ensures code == 0 <==> |args| >= 1 && ParseCommand(args[0]).Some? && succeeded
    ensures code != 0 ==> code == 1
  {
    if |args| < 1 || ParseCommand(args[0]).None? || !succeeded then 1 else 0
  }

  /** The module-level status cache, and the operations that consult it. */
  class OneDriveController {
    var cache: CacheState

    constructor ()
      ensures cache == CacheState(None, 0)
    {
      cache := CacheState(None, 0);
    }

    /** `is_onedrive_running(force_refresh)`: queries only when the cache cannot answer. */
    method IsRunning(now: int, force: bool, s: Snapshot) returns (running: bool)
      modifies this
      ensures (running, cache) == CheckRunning(old(cache), now, force, Running(s))
    {
      if !force && now - cache.timestamp < CacheSeconds && cache.result.Some? {
        return cache.result.value;
      }
      var found := FindOneDriveProcesses(s);
      running := |found| > 0;
      cache := CacheState(Some(running), now);
    }

    /** `clear_onedrive_status_cache`. */
    method ClearCache()
      modifies this
      ensures cache == CacheState(None, 0)
    {
      cache := CacheState(None, 0);
    }

    /**
     * `stop_onedrive`: `first`, `second` and `last` are what the three
     * searches see. It does not touch the status cache.
     */
    method StopOneDrive(first: Snapshot, second: Snapshot, last: Snapshot) returns (r: StopReport)
      ensures r == StopSequence(Found(first), Found(second), Found(last))
      ensures r.ok <==> !Running(first) || !Running(last)
    {
      var procs := FindOneDriveProcesses(first);
      if procs == [] {
        return StopReport(true, [], []);
      }
      var remaining := FindOneDriveProcesses(second);
      var final := FindOneDriveProcesses(last);
      r := StopReport(final == [], Pids(procs), Pids(remaining));
    }

    /** `pause_onedrive_sync`: nothing to stop when the (possibly cached) answer is "not running". */
    method PauseSync(now: int, probe: Snapshot, first: Snapshot, second: Snapshot, last: Snapshot)
      returns (ok: bool, r: StopReport)
      modifies this
      ensures cache == CheckRunning(old(cache), now, false, Running(probe)).1
      ensures !CheckRunning(old(cache), now, false, Running(probe)).0 ==> ok && r == StopReport(true, [], [])
      ensures CheckRunning(old(cache), now, false, Running(probe)).0 ==>
        r == StopSequence(Found(first), Found(second), Found(last)) && ok == r.ok
    {
      var running := IsRunning(now, false, probe);
      if !running {
        return true, StopReport(true, [], []);
      }
      r := StopOneDrive(first, second, last);
      ok := r.ok;
    }

    /**
     * `resume_onedrive_sync`: launch the first candidate path that exists,
     * without waiting for OneDrive to come up. `launched` is the path handed
     * to `Popen`; `popenOk` is false when launching raised.
     */
    method ResumeSync(home: string, existing: set<string>, popenOk: bool)
      returns (ok: bool, launched: Option<string>)
      ensures launched == FirstExisting(CandidatePaths(home), existing)
      ensures ok <==> launched.Some? && popenOk
    {
      launched := PickFirstExisting(CandidatePaths(home), existing);
      ok := launched.Some? && popenOk;
    }

    /** `start_onedrive`: nothing to launch when the (possibly cached) answer is "running". */
    method StartOneDrive(now: int, probe: Snapshot, home: string, existing: set<string>, popenOk: bool)
      returns (ok: bool, launched: Option<string>)
      modifies this
      ensures cache == CheckRunning(old(cache), now, false, Running(probe)).1
      ensures CheckRunning(old(cache), now, false, Running(probe)).0 ==> ok && launched.None?
      ensures !CheckRunning(old(cache), now, false, Running(probe)).0 ==>
        launched == FirstExisting(CandidatePaths(home), existing) && (ok <==> launched.Some? && popenOk)
    {
      var running := IsRunning(now, false, probe);
      if running {
        return true, None;
      }
      ok, launched := ResumeSync(home, existing, popenOk);
    }

    /**
     * `wait_for_sync_complete(wait_minutes)`: returns at once when OneDrive
     * is not running, otherwise counts down the wait; it always succeeds.
     */
    method WaitForSyncComplete(now: int, probe: Snapshot, waitArg: Option<int>, configMinutes: Option<int>)
      returns (ok: bool, slept: int, announced: seq<int>)
      modifies this
      ensures ok
      ensures cache == CheckRunning(old(cache), now, false, Running(probe)).1
      ensures !CheckRunning(old(cache), now, false, Running(probe)).0 ==> slept == 0 && announced == []
      ensures CheckRunning(old(cache), now, false, Running(probe)).0 ==>
        var w := EffectiveWaitMinutes(waitArg, configMinutes) * 60;
        slept == (if w > 0 then w else 0) && |announced| == (if w > 0 then (w + 9) / 10 else 0)
    {
      var running := IsRunning(now, false, probe);
      if !running {
        return true, 0, [];
      }
      var minutes := EffectiveWaitMinutes(waitArg, configMinutes);
      slept, announced := Countdown(minutes * 60);
      ok := true;
    }
  }
}
