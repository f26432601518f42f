/**
 * The logging front end (core/logger_helper.py): the debug-mode gate, the
 * console level chosen from the configuration, the message builders, the
 * performance warning threshold, and the retention of the newest log files.
 * Handlers are record lists: `mainLog` is what reaches the main log file
 * (its logger and file handler accept every level), `guiLines` what the
 * GUI callback receives, `perfLog` the performance log when it exists.
 */
module Logging {
  import opened Wrappers
  import opened Text
  import DebugSwitches

  const DEBUG: int := 10
  const INFO: int := 20
  const WARNING: int := 30
  const ERROR: int := 40
  const CRITICAL: int := 50

  /** One log record. */
  datatype Record = Record(level: int, message: string)

  /** `getattr(logger, name, logger.info)` for the method names the helper passes. */
  function MethodLevel(name: string): (level: int)
    ensures name == "debug" ==> level == DEBUG
    ensures name == "warning" ==> level == WARNING
    ensures name == "error" ==> level == ERROR
    ensures name == "critical" ==> level == CRITICAL
    ensures name !in {"debug", "warning", "error", "critical"} ==> level == INFO
  {
    if name == "debug" then DEBUG
    else if name == "warning" then WARNING
    else if name == "error" then ERROR
    else if name == "critical" then CRITICAL
    else INFO
  }

  /** The console level `set_log_level_from_config` picks, if the name is one it knows. */
  function ConsoleLevelFor(name: string): (r: Option<int>)
    ensures r.Some? <==> name in {"debug", "info", "warning", "error"}
    ensures r.Some? ==> r.value == MethodLevel(name)
  {
    if name == "debug" then Some(DEBUG)
    else if name == "info" then Some(INFO)
    else if name == "warning" then Some(WARNING)
    else if name == "error" then Some(ERROR)
    else None
  }

  // ------------------------------------------------------------ messages

  /** ` - details` is appended only when there are details. */
  function WithDetails(message: string, details: string): (r: string)
    ensures details == [] ==> r == message
    ensures details != [] ==> r == message + " - " + details
  {
    if details == [] then message else message + " - " + details
  }

  function StatusMessage(component: string, status: string, details: string): string
  {
    WithDetails("[系统] " + component + ": " + status, details)
  }

  function ActionMessage(action: string, details: string): string
  {
    WithDetails("[用户] " + action, details)
  }

  function SyncMessage(operation: string, result: string, details: string): string
  {
    WithDetails("[同步] " + operation + ": " + result, details)
  }

  /** `sync_operation`'s level: error for a failure word, info for anything else. */
  function SyncLevel(result: string): (level: int)
    ensures level == ERROR <==> Lower(result) in {"失败", "error", "错误"}
    ensures level != ERROR ==> level == INFO
  {
    var r := Lower(result);
    if r in {"成功", "success", "完成"} then INFO
    else if r in {"失败", "error", "错误"} then ERROR
    else INFO
  }

  /** `Error`, `ERROR` and `error` all count as a failure; `Success` does not. */
  lemma SyncLevelIgnoresCase()
    ensures SyncLevel("ERROR") == ERROR && SyncLevel("Error") == ERROR
    ensures SyncLevel("Success") == INFO
  {
    assert Lower("ERROR") == "error" && Lower("Error") == "error" && Lower("Success") == "success";
  }

  /** Three digits, zero-padded. */
  function Pad3(n: nat): (r: string)
    requires n < 1000
  {
    if n < 10 then "00" + NatToString(n) else if n < 100 then "0" + NatToString(n) else NatToString(n)
  }

  /** `f"{seconds:.3f}"` for a duration held in whole milliseconds. */
  function Seconds3(ms: nat): string
  {
    NatToString(ms / 1000) + "." + Pad3(ms % 1000)
  }

  function PerfMessage(operation: string, ms: nat): string
  {
    "[性能] " + operation + " 耗时: " + Seconds3(ms) + "秒"
  }

  function OverThreshold(message: string, thresholdMs: nat): string
  {
    message + " (超过阈值" + Seconds3(thresholdMs) + "秒)"
  }

  // ------------------------------------------------------------ retention

  /** A log file found by the glob, with its modification time. */
  datatype LogFile = LogFile(name: string, mtime: int)

  predicate NewestFirst(s: seq<LogFile>)
  {
    forall i, j :: 0 <= i < j < |s| ==> s[i].mtime >= s[j].mtime
  }

  /** Insert after every file at least as new: the stable descending order. */
  function InsertDesc(f: LogFile, s: seq<LogFile>): (r: seq<LogFile>)
    ensures |r| == |s| + 1
    ensures r[0] == (if s == [] || s[0].mtime < f.mtime then f else s[0])
    ensures multiset(r) == multiset(s) + multiset{f}
  {
    if s == [] then [f]
    else if s[0].mtime >= f.mtime then
      assert s == [s[0]] + s[1..];
      [s[0]] + InsertDesc(f, s[1..])
    else [f] + s
  }

  /** `files.sort(key=mtime, reverse=True)`. */
  function SortNewestFirst(files: seq<LogFile>): (r: seq<LogFile>)
    ensures multiset(r) == multiset(files) && |r| == |files|
  {
    if files == [] then []
    else
      assert files == files[..|files| - 1] + [files[|files| - 1]];
      InsertDesc(files[|files| - 1], SortNewestFirst(files[..|files| - 1]))
  }

  lemma {:induction false} InsertKeepsOrder(f: LogFile, s: seq<LogFile>)
    requires NewestFirst(s)
    ensures NewestFirst(InsertDesc(f, s))
  {
    if s != [] && s[0].mtime >= f.mtime {
      InsertKeepsOrder(f, s[1..]);
      var r := InsertDesc(f, s);
      forall j | 0 < j < |r|
        ensures r[0].mtime >= r[j].mtime
      {
        assert r[j] in multiset(InsertDesc(f, s[1..]));
        assert r[j] in multiset(s[1..]) + multiset{f};
        if r[j] != f {
          assert r[j] in s[1..];
        }
      }
    }
  }

  /** Sorting puts the newest first. */
  lemma {:induction false} SortIsOrdered(files: seq<LogFile>)
    ensures NewestFirst(SortNewestFirst(files))
  {
    if files != [] {
      SortIsOrdered(files[..|files| - 1]);
      InsertKeepsOrder(files[|files| - 1], SortNewestFirst(files[..|files| - 1]));
    }
  }

  /**
   * The split `_cleanup_old_logs` makes when there are more than `keep`
   * files: exactly `keep` files stay, none older than any file marked for
   * deletion, and together they are the files found.
   */
  lemma KeepNewest(files: seq<LogFile>, keep: nat)
    requires |files| > keep
    ensures var sorted := SortNewestFirst(files);
      |sorted[..keep]| == keep &&
      multiset(sorted[..keep]) + multiset(sorted[keep..]) == multiset(files) &&
      (forall k, d :: k in sorted[..keep] && d in sorted[keep..] ==> k.mtime >= d.mtime)
  {
    var sorted := SortNewestFirst(files);
    SortIsOrdered(files);
    assert sorted == sorted[..keep] + sorted[keep..];
    forall k, d | k in sorted[..keep] && d in sorted[keep..]
      ensures k.mtime >= d.mtime
    {
      var i :| 0 <= i < keep && sorted[i] == k;
      var j :| 0 <= j < |sorted[keep..]| && sorted[keep..][j] == d;
      assert sorted[keep + j] == d;
    }
  }

  /**
   * The files of `marked` whose unlink succeeds, in order; `failures` maps
   * the names whose unlink raises to the error text.
   */
  function Removed(marked: seq<LogFile>, failures: map<string, string>): seq<LogFile>
  {
    if marked == [] then []
    else
      var last := marked[|marked| - 1];
      Removed(marked[..|marked| - 1], failures) + (if last.name in failures then [] else [last])
  }

  /** The main-log record of one unlink attempt. */
  function DeletionLine(f: LogFile, failures: map<string, string>): Record
  {
    if f.name in failures then Record(ERROR, "删除旧日志文件失败 " + f.name + ": " + failures[f.name])
    else Record(INFO, "已删除旧日志文件: " + f.name)
  }

  /** One main-log record per unlink attempt, in order. */
  function DeletionLines(marked: seq<LogFile>, failures: map<string, string>): (r: seq<Record>)
    ensures |r| == |marked|
    ensures forall i :: 0 <= i < |marked| ==> r[i] == DeletionLine(marked[i], failures)
  {
    if marked == [] then []
    else DeletionLines(marked[..|marked| - 1], failures) + [DeletionLine(marked[|marked| - 1], failures)]
  }

  /** The outcome of listing a log directory: the files with their times, or the error raised. */
  datatype Listing = Found(files: seq<LogFile>) | Failed(error: string)

  /** The main-log records of one cleanup: a deletion report per marked file, or the listing's error. */
  function CleanupLines(listing: Listing, keep: nat, failures: map<string, string>): seq<Record>
  {
    match listing
    case Failed(error) => [Record(ERROR, "清理日志文件失败: " + error)]
    case Found(files) => DeletionLines(ToDelete(files, keep), failures)
  }

  /** What listing each log directory gives during setup. */
  datatype SetupListings = SetupListings(main: Listing, perf: Listing, gui: Listing, icon: Listing)

  /** The main log keeps ten files, each debug log five. */
  const MainKeep: nat := 10
  const DebugKeep: nat := 5

  /**
   * The main-log records setup leaves: the main directory's cleanup, then
   * the cleanup of each debug log that is switched on.
   */
  function SetupLines(switches: DebugSwitches.DebugConfig, dirs: SetupListings, failures: map<string, string>): seq<Record>
  {
    CleanupLines(dirs.main, MainKeep, failures) +
    DebugCleanupLines(switches.performance, dirs.perf, failures) +
    DebugCleanupLines(switches.gui, dirs.gui, failures) +
    DebugCleanupLines(switches.icon, dirs.icon, failures)
  }

  /** The reports of one debug directory's cleanup, which runs only when that log is switched on. */
  function DebugCleanupLines(on: bool, listing: Listing, failures: map<string, string>): seq<Record>
  {
    if on then CleanupLines(listing, DebugKeep, failures) else []
  }

  /**
   * Setup writes nothing to the main log exactly when every directory it
   * cleans lists at most its keep count: only deletions and failures are
   * reported, one record each.
   */
  lemma QuietSetup(switches: DebugSwitches.DebugConfig, dirs: SetupListings, failures: map<string, string>)
    ensures SetupLines(switches, dirs, failures) == [] <==>
      Within(dirs.main, MainKeep) &&
      (switches.performance ==> Within(dirs.perf, DebugKeep)) &&
      (switches.gui ==> Within(dirs.gui, DebugKeep)) &&
      (switches.icon ==> Within(dirs.icon, DebugKeep))
  {
    CleanupQuiet(dirs.main, MainKeep, failures);
    CleanupQuiet(dirs.perf, DebugKeep, failures);
    CleanupQuiet(dirs.gui, DebugKeep, failures);
    CleanupQuiet(dirs.icon, DebugKeep, failures);
  }

  /** Appending four pieces one after the other appends their concatenation. */
  lemma AppendFour<T>(s: seq<T>, a: seq<T>, b: seq<T>, c: seq<T>, d: seq<T>)
    ensures s + a + b + c + d == s + (a + b + c + d)
  {
  }

  predicate Within(listing: Listing, keep: nat) { listing.Found? && |listing.files| <= keep }

  lemma CleanupQuiet(listing: Listing, keep: nat, failures: map<string, string>)
    ensures CleanupLines(listing, keep, failures) == [] <==> Within(listing, keep)
  {
  }

  /** The files beyond the newest `keep`, when there are more than `keep`. */
  function ToDelete(files: seq<LogFile>, keep: nat): seq<LogFile>
  {
    if |files| <= keep then [] else SortNewestFirst(files)[keep..]
  }

  /** Only files marked for deletion are removed, and only those that could be unlinked. */
  lemma {:induction false} RemovedAreMarked(marked: seq<LogFile>, failures: map<string, string>)
    ensures forall f :: f in Removed(marked, failures) <==> f in marked && f.name !in failures
  {
    if marked != [] {
      RemovedAreMarked(marked[..|marked| - 1], failures);
      assert marked == marked[..|marked| - 1] + [marked[|marked| - 1]];
    }
  }

  // ------------------------------------------------------------ the logger

  /** What the GUI has received after one more line, when a callback is set. */
  function Forwarded(gui: Option<seq<(string, string)>>, level: string, message: string): Option<seq<(string, string)>>
  {
    if gui.Some? then Some(gui.value + [(level, message)]) else None
  }

  /** `s.upper()` is `t` when `t` upper-cases `s` letter by letter; used for the level names. */
  lemma UpperIs(s: string, t: string)
    requires |s| == |t| && forall i :: 0 <= i < |s| ==> t[i] == UpperChar(s[i])
    ensures Upper(s) == t
  {
  }

  /** The level name the GUI sees for a sync record. */
  function SyncLevelName(result: string): string
  {
    if SyncLevel(result) == ERROR then "ERROR" else "INFO"
  }

  class LoggerHelper {
    var debugMode: bool
    /** The console handler's level; `None` when there is no console handler. */
    var consoleLevel: Option<int>
    var mainLog: seq<Record>
    /** What the GUI callback received, as (LEVEL, message); `None` while no callback is set. */
    var guiLines: Option<seq<(string, string)>>
    /** The performance log; `None` unless performance debugging is switched on. */
    var perfLog: Option<seq<Record>>

    /**
     * `__init__` through `setup_all_loggers`: the main logger, then the
     * debug loggers switched on, each followed by the cleanup of its
     * directory, whose reports go to the main log.
     */
    constructor (console: bool, switches: DebugSwitches.DebugConfig, dirs: SetupListings, failures: map<string, string>)
      ensures !debugMode && guiLines.None?
      ensures mainLog == SetupLines(switches, dirs, failures)
      ensures consoleLevel == (if console then Some(INFO) else None)
      ensures perfLog == (if switches.performance then Some([]) else None)
    {
      debugMode := false;
      consoleLevel := if console then Some(INFO) else None;
      mainLog := [];
      guiLines := None;
      perfLog := if switches.performance then Some([]) else None;
      new;
      SetupCleanups(switches, dirs, failures);
    }

    /** The cleanups of `setup_main_logger` and `setup_debug_loggers`, in order. */
    method SetupCleanups(switches: DebugSwitches.DebugConfig, dirs: SetupListings, failures: map<string, string>)
      modifies this`mainLog
      ensures mainLog == old(mainLog) + SetupLines(switches, dirs, failures)
    {
      var _ := CleanupOldLogs(dirs.main, MainKeep, failures);
      DebugCleanup(switches.performance, dirs.perf, failures);
      DebugCleanup(switches.gui, dirs.gui, failures);
      DebugCleanup(switches.icon, dirs.icon, failures);
      AppendFour(old(mainLog), CleanupLines(dirs.main, MainKeep, failures),
                 DebugCleanupLines(switches.performance, dirs.perf, failures),
                 DebugCleanupLines(switches.gui, dirs.gui, failures),
                 DebugCleanupLines(switches.icon, dirs.icon, failures));
    }

    /** One debug directory's cleanup, when that log is switched on. */
    method DebugCleanup(on: bool, listing: Listing, failures: map<string, string>)
      modifies this`mainLog
      ensures mainLog == old(mainLog) + DebugCleanupLines(on, listing, failures)
    {
      if on {
        var _ := CleanupOldLogs(listing, DebugKeep, failures);
      }
    }

    method SetGuiCallback()
      modifies this`guiLines
      ensures guiLines == Some([])
    {
      guiLines := Some([]);
    }

    /** `set_debug_mode`: the console shows debug records exactly in debug mode. */
    method SetDebugMode(enabled: bool)
      modifies this`debugMode, this`consoleLevel
      ensures debugMode == enabled
      ensures consoleLevel.Some? <==> old(consoleLevel).Some?
      ensures consoleLevel.Some? ==> consoleLevel.value == (if enabled then DEBUG else INFO)
    {
      debugMode := enabled;
      if consoleLevel.Some? {
        consoleLevel := Some(if enabled then DEBUG else INFO);
      }
    }

    /**
     * `set_log_level_from_config`: debug mode is on exactly for `debug` in
     * any case; the console level follows the four known names and stays
     * as it was for any other.
     */
    method SetLogLevelFromConfig(levelName: string)
      modifies this`debugMode, this`consoleLevel
      ensures debugMode <==> Lower(levelName) == "debug"
      ensures consoleLevel.Some? <==> old(consoleLevel).Some?
      ensures old(consoleLevel).Some? && ConsoleLevelFor(Lower(levelName)).Some? ==>
        consoleLevel == ConsoleLevelFor(Lower(levelName))
      ensures ConsoleLevelFor(Lower(levelName)).None? ==> consoleLevel == old(consoleLevel)
    {
      var name := Lower(levelName);
      debugMode := name == "debug";
      if consoleLevel.Some? {
        if name == "debug" {
          consoleLevel := Some(DEBUG);
        } else if name == "info" {
          consoleLevel := Some(INFO);
        } else if name == "warning" {
          consoleLevel := Some(WARNING);
        } else if name == "error" {
          consoleLevel := Some(ERROR);
        }
      }
    }

    /** `_log_and_gui`: the record goes to the main log, and to the GUI when a callback is set. */
    method LogAndGui(level: string, message: string)
      modifies this`mainLog, this`guiLines
      ensures mainLog == old(mainLog) + [Record(MethodLevel(Lower(level)), message)]
      ensures guiLines == Forwarded(old(guiLines), Upper(level), message)
    {
      mainLog := mainLog + [Record(MethodLevel(Lower(level)), message)];
      if guiLines.Some? {
        guiLines := Some(guiLines.value + [(Upper(level), message)]);
      }
    }

    /** `debug(message)`: nothing at all outside debug mode. */
    method Debug(message: string)
      modifies this`mainLog, this`guiLines
      ensures !debugMode ==> mainLog == old(mainLog) && guiLines == old(guiLines)
      ensures debugMode ==> mainLog == old(mainLog) + [Record(DEBUG, message)]
      ensures debugMode ==> guiLines == Forwarded(old(guiLines), "DEBUG", message)
    {
      if debugMode {
        UpperIs("debug", "DEBUG");
        LogAndGui("debug", message);
      }
    }

    method Info(message: string)
      modifies this`mainLog, this`guiLines
      ensures mainLog == old(mainLog) + [Record(INFO, message)]
      ensures guiLines == Forwarded(old(guiLines), "INFO", message)
    {
      UpperIs("info", "INFO");
      LogAndGui("info", message);
    }

    method Warning(message: string)
      modifies this`mainLog, this`guiLines
      ensures mainLog == old(mainLog) + [Record(WARNING, message)]
      ensures guiLines == Forwarded(old(guiLines), "WARNING", message)
    {
      UpperIs("warning", "WARNING");
      LogAndGui("warning", message);
    }

    method Error(message: string)
      modifies this`mainLog, this`guiLines
      ensures mainLog == old(mainLog) + [Record(ERROR, message)]
      ensures guiLines == Forwarded(old(guiLines), "ERROR", message)
    {
      UpperIs("error", "ERROR");
      LogAndGui("error", message);
    }

    method Critical(message: string)
      modifies this`mainLog, this`guiLines
      ensures mainLog == old(mainLog) + [Record(CRITICAL, message)]
      ensures guiLines == Forwarded(old(guiLines), "CRITICAL", message)
    {
      UpperIs("critical", "CRITICAL");
      LogAndGui("critical", message);
    }

    /** `print_info(*args)`: the arguments joined by spaces, at info level. */
    method PrintInfo(args: seq<string>)
      modifies this`mainLog, this`guiLines
      ensures mainLog == old(mainLog) + [Record(INFO, Join(args, ' '))]
      ensures guiLines == Forwarded(old(guiLines), "INFO", Join(args, ' '))
    {
      Info(Join(args, ' '));
    }

    method PrintWarning(args: seq<string>)
      modifies this`mainLog, this`guiLines
      ensures mainLog == old(mainLog) + [Record(WARNING, Join(args, ' '))]
      ensures guiLines == Forwarded(old(guiLines), "WARNING", Join(args, ' '))
    {
      Warning(Join(args, ' '));
    }

    method PrintError(args: seq<string>)
      modifies this`mainLog, this`guiLines
      ensures mainLog == old(mainLog) + [Record(ERROR, Join(args, ' '))]
      ensures guiLines == Forwarded(old(guiLines), "ERROR", Join(args, ' '))
    {
      Error(Join(args, ' '));
    }

    /** `print_debug(*args)`: gated like `debug`. */
    method PrintDebug(args: seq<string>)
      modifies this`mainLog, this`guiLines
      ensures !debugMode ==> mainLog == old(mainLog) && guiLines == old(guiLines)
      ensures debugMode ==> mainLog == old(mainLog) + [Record(DEBUG, Join(args, ' '))]
      ensures debugMode ==> guiLines == Forwarded(old(guiLines), "DEBUG", Join(args, ' '))
    {
      Debug(Join(args, ' '));
    }

    /**
     * `perf_debug(operation, duration, threshold)`: a warning in the main
     * log exactly when the duration exceeds the threshold; the performance
     * log, when it exists, gets the warning or a debug record.
     */
    method PerfDebug(operation: string, ms: nat, thresholdMs: nat)
      modifies this`mainLog, this`guiLines, this`perfLog
      ensures ms > thresholdMs ==> mainLog == old(mainLog) + [Record(WARNING, OverThreshold(PerfMessage(operation, ms), thresholdMs))]
      ensures ms > thresholdMs ==> guiLines == Forwarded(old(guiLines), "WARNING", OverThreshold(PerfMessage(operation, ms), thresholdMs))
      ensures ms <= thresholdMs ==> mainLog == old(mainLog) && guiLines == old(guiLines)
      ensures perfLog.Some? <==> old(perfLog).Some?
      ensures perfLog.Some? ==>
        perfLog.value == old(perfLog).value +
          [if ms > thresholdMs then Record(WARNING, OverThreshold(PerfMessage(operation, ms), thresholdMs))
           else Record(DEBUG, PerfMessage(operation, ms))]
    {
      var message := PerfMessage(operation, ms);
      if ms > thresholdMs {
        Warning(OverThreshold(message, thresholdMs));
      }
      if perfLog.Some? {
        if ms > thresholdMs {
          perfLog := Some(perfLog.value + [Record(WARNING, OverThreshold(message, thresholdMs))]);
        } else {
          perfLog := Some(perfLog.value + [Record(DEBUG, message)]);
        }
      }
    }

    /** `gui_update_debug`: the threshold is 0.05 s. */
    method GuiUpdateDebug(component: string, ms: nat)
      modifies this`mainLog, this`guiLines, this`perfLog
      ensures mainLog != old(mainLog) <==> ms > 50
      ensures ms > 50 ==> mainLog == old(mainLog) + [Record(WARNING, OverThreshold(PerfMessage("GUI更新-" + component, ms), 50))]
      ensures ms > 50 ==> guiLines == Forwarded(old(guiLines), "WARNING", OverThreshold(PerfMessage("GUI更新-" + component, ms), 50))
      ensures ms <= 50 ==> guiLines == old(guiLines)
      ensures perfLog.Some? <==> old(perfLog).Some?
      ensures perfLog.Some? ==>
        perfLog.value == old(perfLog).value +
          [if ms > 50 then Record(WARNING, OverThreshold(PerfMessage("GUI更新-" + component, ms), 50))
           else Record(DEBUG, PerfMessage("GUI更新-" + component, ms))]
    {
      PerfDebug("GUI更新-" + component, ms, 50);
    }

    /** `api_call_debug`: the threshold is 0.2 s. */
    method ApiCallDebug(api: string, ms: nat)
      modifies this`mainLog, this`guiLines, this`perfLog
      ensures mainLog != old(mainLog) <==> ms > 200
      ensures ms > 200 ==> mainLog == old(mainLog) + [Record(WARNING, OverThreshold(PerfMessage("API调用-" + api, ms), 200))]
      ensures ms > 200 ==> guiLines == Forwarded(old(guiLines), "WARNING", OverThreshold(PerfMessage("API调用-" + api, ms), 200))
      ensures ms <= 200 ==> guiLines == old(guiLines)
      ensures perfLog.Some? <==> old(perfLog).Some?
      ensures perfLog.Some? ==>
        perfLog.value == old(perfLog).value +
          [if ms > 200 then Record(WARNING, OverThreshold(PerfMessage("API调用-" + api, ms), 200))
           else Record(DEBUG, PerfMessage("API调用-" + api, ms))]
    {
      PerfDebug("API调用-" + api, ms, 200);
    }

    method SystemStatus(component: string, status: string, details: string)
      modifies this`mainLog, this`guiLines
      ensures mainLog == old(mainLog) + [Record(INFO, StatusMessage(component, status, details))]
      ensures guiLines == Forwarded(old(guiLines), "INFO", StatusMessage(component, status, details))
    {
      Info(StatusMessage(component, status, details));
    }

    method UserAction(action: string, details: string)
      modifies this`mainLog, this`guiLines
      ensures mainLog == old(mainLog) + [Record(INFO, ActionMessage(action, details))]
      ensures guiLines == Forwarded(old(guiLines), "INFO", ActionMessage(action, details))
    {
      Info(ActionMessage(action, details));
    }

    /** `sync_operation`: an error record for a failure word, otherwise an info record. */
    method SyncOperation(operation: string, result: string, details: string)
      modifies this`mainLog, this`guiLines
      ensures mainLog == old(mainLog) + [Record(SyncLevel(result), SyncMessage(operation, result, details))]
      ensures guiLines == Forwarded(old(guiLines), SyncLevelName(result), SyncMessage(operation, result, details))
    {
      var message := SyncMessage(operation, result, details);
      var r := Lower(result);
      if r in {"成功", "success", "完成"} {
        Info(message);
      } else if r in {"失败", "error", "错误"} {
        Error(message);
      } else {
        Info(message);
      }
    }

    /**
     * `_cleanup_old_logs(dir, pattern, keep)`: with more than `keep` files,
     * sort them newest first and unlink every file after the first `keep`,
     * logging each attempt to the main log only. `listing` is `Failed(text)`
     * when the glob or a stat raises; `failures` maps the names whose unlink
     * raises to the error text.
     */
    method CleanupOldLogs(listing: Listing, keep: nat, failures: map<string, string>)
      returns (removed: seq<LogFile>)
      modifies this`mainLog
      ensures listing.Failed? ==> removed == [] && mainLog == old(mainLog) + [Record(ERROR, "清理日志文件失败: " + listing.error)]
      ensures listing.Found? ==>
        removed == Removed(ToDelete(listing.files, keep), failures) &&
        mainLog == old(mainLog) + DeletionLines(ToDelete(listing.files, keep), failures)
      ensures mainLog == old(mainLog) + CleanupLines(listing, keep, failures)
    {
      removed := [];
      if listing.Failed? {
        mainLog := mainLog + [Record(ERROR, "清理日志文件失败: " + listing.error)];
        return;
      }
      var files := listing.files;
      if |files| <= keep {
        return;
      }
      removed := UnlinkAll(SortNewestFirst(files)[keep..], failures);
    }

    /** The loop of `_cleanup_old_logs`: unlink each marked file in turn and log the attempt. */
    method UnlinkAll(marked: seq<LogFile>, failures: map<string, string>) returns (removed: seq<LogFile>)
      modifies this`mainLog
      ensures removed == Removed(marked, failures)
      ensures mainLog == old(mainLog) + DeletionLines(marked, failures)
    {
      removed := [];
      for i := 0 to |marked|
        invariant removed == Removed(marked[..i], failures)
        invariant mainLog == old(mainLog) + DeletionLines(marked[..i], failures)
      {
        assert marked[..i + 1][..i] == marked[..i];
        var f := marked[i];
        if f.name !in failures {
          removed := removed + [f];
        }
        mainLog := mainLog + [DeletionLine(f, failures)];
      }
      assert marked[..|marked|] == marked;
    }
  }

  /**
   * What a cleanup removes: only files beyond the newest `keep`, none when
   * there are at most `keep`, and every such file whose unlink succeeds.
   */
  lemma CleanupRemovesOnlyOld(files: seq<LogFile>, keep: nat, failures: map<string, string>)
    ensures |files| <= keep ==> Removed(ToDelete(files, keep), failures) == []
    ensures |files| > keep ==>
      (forall f :: f in Removed(ToDelete(files, keep), failures) <==>
        f in SortNewestFirst(files)[keep..] && f.name !in failures) &&
      (forall k, d :: k in SortNewestFirst(files)[..keep] && d in ToDelete(files, keep) ==> k.mtime >= d.mtime)
  {
    RemovedAreMarked(ToDelete(files, keep), failures);
    if |files| > keep {
      KeepNewest(files, keep);
    }
  }

  /** `LoggerHelper()`: one instance, initialised once. */
  class LoggerHolder {
    var instance: LoggerHelper?

    constructor ()
      ensures instance == null
    {
      instance := null;
    }

    method Get(console: bool, switches: DebugSwitches.DebugConfig, dirs: SetupListings, failures: map<string, string>)
      returns (l: LoggerHelper)
      modifies this
      ensures old(instance) != null ==> l == old(instance)
      ensures old(instance) == null ==> fresh(l) && !l.debugMode && l.mainLog == SetupLines(switches, dirs, failures)
      ensures instance == l
    {
      if instance == null {
        instance := new LoggerHelper(console, switches, dirs, failures);
      }
      l := instance;
    }
  }
}
