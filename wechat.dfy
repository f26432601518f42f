/**
 * The WeChat controller (core/wechat_controller.py): finding the `Weixin.exe`
 * processes, the cached "is it running" answer, stopping WeChat, locating
 * its installation and starting it, and the exit status of its command line.
 */
module WeChat {
  import opened Wrappers
  import opened Text
  import opened Processes
  import opened WinPaths

  const Image: string := "Weixin.exe"
  const LowerImage: string := "weixin.exe"

  /**
   * What one `find_wechat_processes()` call sees: the `tasklist` run, the
   * live process table by PID, and what the psutil fallback walks.
   */
  datatype Snapshot = Snapshot(run: TasklistRun, table: map<int, string>, walk: PsutilWalk)

  /** The processes `find_wechat_processes()` returns for a snapshot. */
  function Found(s: Snapshot): seq<Proc>
  {
    match TasklistSearch([s.run], [Image], s.table, {LowerImage})
    case Some(ps) => ps
    case None => Fallback(s.walk, LowerImage)
  }

  /** Both the tasklist path and the fallback only ever report `weixin.exe` processes. */
  lemma FoundAreWeChat(s: Snapshot)
    ensures forall p :: p in Found(s) ==> Lower(p.name) == LowerImage
    ensures s.run.Output? ==> forall p :: p in Found(s) ==> p.pid in s.table && s.table[p.pid] == p.name
  {
    TasklistSearchSound([s.run], [Image], s.table, {LowerImage});
    TasklistSearchRaises([s.run], [Image], s.table, {LowerImage});
  }

  method FindWeChatProcesses(s: Snapshot) returns (found: seq<Proc>)
    ensures found == Found(s)
  {
    found := FindProcesses([s.run], [Image], s.table, {LowerImage}, s.walk, LowerImage);
  }

  /** `find_wechat_process`: the first process found, or nothing. */
  method FindWeChatProcess(s: Snapshot) returns (p: Option<Proc>)
    ensures p.None? <==> Found(s) == []
    ensures p.Some? ==> p.value == Found(s)[0]
  {
    var ps := FindWeChatProcesses(s);
    p := if ps == [] then None else Some(ps[0]);
  }

  /** One uninstall-registry subkey: its `DisplayName` and `InstallLocation`, when present. */
  datatype RegEntry = RegEntry(displayName: Option<string>, installLocation: Option<string>)

  /** The registry entry names WeChat. */
  predicate NamesWeChat(e: RegEntry)
  {
    e.displayName.Some? && (Contains(e.displayName.value, "微信") || Contains(e.displayName.value, "WeChat"))
  }

  /** The existing `Weixin.exe` paths the registry walk collects, in enumeration order. */
  function RegistryHits(entries: seq<RegEntry>, existing: set<string>): (hits: seq<string>)
    ensures forall h :: h in hits ==> h in existing
    decreases |entries|
  {
    if entries == [] then []
    else
      var e := entries[|entries| - 1];
      var more := if NamesWeChat(e) && e.installLocation.Some? && NtJoin(e.installLocation.value, Image) in existing
                  then [NtJoin(e.installLocation.value, Image)] else [];
      RegistryHits(entries[..|entries| - 1], existing) + more
  }

  /** The fixed installation paths, in the order they are tried. */
  function CommonPaths(home: string): seq<string>
  {
    ["C:\\Program Files\\Tencent\\Weixin\\Weixin.exe",
     "C:\\Program Files (x86)\\Tencent\\Weixin\\Weixin.exe",
     ExpandUser("~\\AppData\\Roaming\\Tencent\\Weixin\\Weixin.exe", home),
     ExpandUser("~\\AppData\\Local\\Tencent\\Weixin\\Weixin.exe", home),
     "D:\\Program Files\\Tencent\\Weixin\\Weixin.exe",
     "E:\\Program Files\\Tencent\\Weixin\\Weixin.exe"]
  }

  /**
   * The path `find_wechat_install_path` returns: a registry hit when there is
   * one, the first one found; otherwise the first fixed path that exists.
   */
  lemma InstallPathChoice(entries: seq<RegEntry>, home: string, existing: set<string>)
    ensures RegistryHits(entries, existing) != [] ==>
      FirstExisting(RegistryHits(entries, existing) + CommonPaths(home), existing) == Some(RegistryHits(entries, existing)[0])
    ensures RegistryHits(entries, existing) == [] ==>
      FirstExisting(RegistryHits(entries, existing) + CommonPaths(home), existing) == FirstExisting(CommonPaths(home), existing)
  {
    var hits := RegistryHits(entries, existing);
    if hits != [] {
      assert hits[0] in hits;
      assert (hits + CommonPaths(home))[0] == hits[0];
    } else {
      assert hits + CommonPaths(home) == CommonPaths(home);
    }
  }

  /**
   * `find_wechat_install_path`: collect the registry hits, append the fixed
   * paths, return the first that exists. `entries` are the subkeys read
   * before the enumeration ended; it is empty when the registry cannot be
   * opened.
   */
  method FindInstallPath(entries: seq<RegEntry>, home: string, existing: set<string>) returns (path: Option<string>)
    ensures path == FirstExisting(RegistryHits(entries, existing) + CommonPaths(home), existing)
  {
    var hits := CollectRegistryHits(entries, existing);
    path := PickFirstExisting(hits + CommonPaths(home), existing);
  }

  /** The registry walk of `find_wechat_install_path`. */
  method CollectRegistryHits(entries: seq<RegEntry>, existing: set<string>) returns (hits: seq<string>)
    ensures hits == RegistryHits(entries, existing)
  {
    hits := [];
    var i := 0;
    while i < |entries|
      invariant 0 <= i <= |entries|
      invariant hits == RegistryHits(entries[..i], existing)
    {
      assert entries[..i + 1][..i] == entries[..i];
      var e := entries[i];
      if NamesWeChat(e) && e.installLocation.Some? {
        var exe := NtJoin(e.installLocation.value, Image);
        if exe in existing {
          hits := hits + [exe];
        }
      }
      i := i + 1;
    }
    assert entries[..i] == entries;
  }

  /** `main()`'s commands. */
  datatype Command = Start | Stop | Status

  function ParseCommand(arg: string): (r: Option<Command>)
    ensures r.Some? <==> Lower(arg) in {"start", "stop", "status"}
  {
    var c := Lower(arg);
    if c == "start" then Some(Start)
    else if c == "stop" then Some(Stop)
    else if c == "status" then Some(Status)
    else None
  }

  /**
   * The processes found that carry no `info`: all of those the tasklist path
   * built from a PID, and those the fallback's `psutil.pids()` loop opened.
   */
  function Uninformed(s: Snapshot): (r: seq<Proc>)
    ensures forall p :: p in r ==> p in Found(s)
  {
    match TasklistSearch([s.run], [Image], s.table, {LowerImage})
    case Some(ps) => ps
    case None => FromPids(s.walk, LowerImage)
  }

  /**
   * `get_wechat_status()` reads `proc.info['name']` for every process found,
   * so `status` raises AttributeError, which nothing catches, as soon as one
   * of them carries no `info`.
   */
  predicate StatusRaises(s: Snapshot)
  {
    Uninformed(s) != []
  }

  /**
   * The exit status of `python wechat_controller.py <args>` as written:
   * 1 for a missing or unknown command and for a `status` that raised, 0
   * after any other known command whatever it achieved.
   */
  function ExitCodeAsWritten(args: seq<string>, succeeded: bool, s: Snapshot): (code: int)
    ensures code == 0 <==>
      (|args| >= 1 && ParseCommand(args[0]).Some? && !(ParseCommand(args[0]) == Some(Status) && StatusRaises(s)))
    ensures code != 0 ==> code == 1
  {
    if |args| < 1 then 1
    else match ParseCommand(args[0])
      case None => 1
      case Some(c) => if c == Status && StatusRaises(s) then 1 else 0
  }

  /** A failed `stop` or `start` still exits 0. */
  lemma FailedStopExitsZero(s: Snapshot)
    ensures ExitCodeAsWritten(["stop"], false, s) == 0 && ExitCodeAsWritten(["start"], false, s) == 0
  {
    LowerOfLowercase("stop");
    LowerOfLowercase("start");
  }

  /**
   * `status` exits 0 exactly when WeChat is not running, or the `tasklist`
   * run raised and the fallback's processes all came from `process_iter`:
   * either it did not raise, or the `psutil.pids()` loop after it found no
   * `weixin.exe`.
   */
  lemma StatusExit(s: Snapshot, succeeded: bool)
    ensures ExitCodeAsWritten(["status"], succeeded, s) == 0 <==>
      Found(s) == [] ||
      (s.run.Raised? && !(s.walk.iterRaised && exists p :: p in s.walk.pidProcs && Lower(p.name) == LowerImage))
  {
    LowerOfLowercase("status");
    TasklistSearchRaises([s.run], [Image], s.table, {LowerImage});
    if s.run.Raised? {
      FromPidsEmpty(s.walk, LowerImage);
    } else {
      assert forall i :: 0 <= i < |[s.run]| ==> ![s.run][i].Raised?;
    }
  }

  /** The exit status a caller relying on it needs: 0 exactly when a known command succeeded. */
  function ExitCode(args: seq<string>, succeeded: bool): (code: int)
    ensures code == 0 <==> |args| >= 1 && ParseCommand(args[0]).Some? && succeeded
    ensures code != 0 ==> code == 1
  {
    if |args| < 1 || ParseCommand(args[0]).None? || !succeeded then 1 else 0
  }

  /** The module-level status cache, and the operations that consult it. */
  class WeChatController {
    var cache: CacheState

    constructor ()
      ensures cache == CacheState(None, 0)
    {
      cache := CacheState(None, 0);
    }

    /** `is_wechat_running(force_refresh)`: queries only when the cache cannot answer. */
    method IsRunning(now: int, force: bool, s: Snapshot) returns (running: bool)
      modifies this
      ensures (running, cache) == CheckRunning(old(cache), now, force, Found(s) != [])
    {
      if !force && now - cache.timestamp < CacheSeconds && cache.result.Some? {
        return cache.result.value;
      }
      var p := FindWeChatProcess(s);
      running := p.Some?;
      cache := CacheState(Some(running), now);
    }

    /** `clear_wechat_status_cache`. */
    method ClearCache()
      modifies this
      ensures cache == CacheState(None, 0)
    {
      cache := CacheState(None, 0);
    }

    /**
     * `stop_wechat`: `first`, `second` and `last` are what the three searches
     * see. The cache is cleared once a stop was attempted, whatever the
     * final search finds, and left alone when nothing was running.
     */
    method StopWeChat(first: Snapshot, second: Snapshot, last: Snapshot) returns (r: StopReport)
      modifies this
      ensures r == StopSequence(Found(first), Found(second), Found(last))
      ensures r.ok <==> Found(first) == [] || Found(last) == []
      ensures cache == if Found(first) == [] then old(cache) else CacheState(None, 0)
    {
      var procs := FindWeChatProcesses(first);
      if procs == [] {
        return StopReport(true, [], []);
      }
      var remaining := FindWeChatProcesses(second);
      var final := FindWeChatProcesses(last);
      ClearCache();
      r := StopReport(final == [], Pids(procs), Pids(remaining));
    }

    /**
     * `start_wechat(auto_login)`: nothing to do when the (possibly cached)
     * answer is "running"; otherwise launch the installation found, without
     * waiting for WeChat to come up. `popenOk` is false when launching
     * raised; `autoLogin` reports whether the delayed login thread was started.
     */
    method StartWeChat(now: int, probe: Snapshot, entries: seq<RegEntry>, home: string, existing: set<string>,
                       popenOk: bool, autoLoginWanted: bool)
      returns (ok: bool, launched: Option<string>, autoLogin: bool)
      modifies this
      ensures cache == CheckRunning(old(cache), now, false, Found(probe) != []).1
      ensures CheckRunning(old(cache), now, false, Found(probe) != []).0 ==> ok && launched.None? && !autoLogin
      ensures !CheckRunning(old(cache), now, false, Found(probe) != []).0 ==>
        launched == FirstExisting(RegistryHits(entries, existing) + CommonPaths(home), existing) &&
        (ok <==> launched.Some? && popenOk) &&
        (autoLogin <==> ok && autoLoginWanted)
    {
      var running := IsRunning(now, false, probe);
      if running {
        return true, None, false;
      }
      launched := FindInstallPath(entries, home, existing);
      if launched.None? {
        return false, None, false;
      }
      if !popenOk {
        return false, launched, false;
      }
      ok := true;
      autoLogin := autoLoginWanted;
    }
  }
}
