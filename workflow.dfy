/**
 * The sync workflow (core/sync_workflow.py): stop WeChat, pause OneDrive,
 * resume OneDrive, wait for the sync, start WeChat. The GUI version calls
 * the controllers directly; the command-line version runs each controller
 * as a child process and judges it by its exit status.
 */
module SyncWorkflow {
  import opened Wrappers
  import opened Text
  import opened WinPaths
  import WeChat
  import OneDrive

  /** How one controller call ended. */
  datatype Step = Ok | Failed | Raised

  /** The outcomes the five controller calls would have, in workflow order. */
  datatype Outcomes = Outcomes(stop: Step, pause: Step, resume: Step, wait: Step, start: Step)

  /** The controller calls the workflow makes. */
  datatype Call = StopWeChat | PauseOneDrive | ResumeOneDrive | WaitForSync(minutes: int) | StartWeChat

  /** The calls of a run that goes all the way. */
  function FullRun(minutes: int): seq<Call>
  {
    [StopWeChat, PauseOneDrive, ResumeOneDrive, WaitForSync(minutes), StartWeChat]
  }

  /** The wait step's minutes: the configured value, or 5 when reading the configuration raised. */
  function WaitMinutes(configMinutes: Option<int>): int { configMinutes.GetOr(5) }

  /**
   * How many of the five calls are made: stopping WeChat, resuming
   * OneDrive and starting WeChat end the run when they fail; any call that
   * raises ends it; a failed pause or wait does not.
   */
  function CallsMade(o: Outcomes): (n: nat)
    ensures 1 <= n <= 5
  {
    if o.stop != Ok then 1
    else if o.pause == Raised then 2
    else if o.resume != Ok then 3
    else if o.wait == Raised then 4
    else 5
  }

  /** The GUI workflow succeeds: the three essential steps succeeded and nothing raised. */
  predicate GuiSucceeds(o: Outcomes)
  {
    o.stop == Ok && o.pause != Raised && o.resume == Ok && o.wait != Raised && o.start == Ok
  }

  /** Success means every call was made. */
  lemma SuccessMakesEveryCall(o: Outcomes)
    ensures GuiSucceeds(o) ==> CallsMade(o) == 5
    ensures CallsMade(o) < 5 ==> !GuiSucceeds(o)
  {
  }

  /** A failed pause or wait only logs a warning: it never changes the result or the calls made. */
  lemma WarningsDoNotMatter(o: Outcomes)
    ensures GuiSucceeds(o.(pause := Failed)) == GuiSucceeds(o.(pause := Ok))
    ensures GuiSucceeds(o.(wait := Failed)) == GuiSucceeds(o.(wait := Ok))
    ensures CallsMade(o.(pause := Failed)) == CallsMade(o.(pause := Ok))
    ensures CallsMade(o.(wait := Failed)) == CallsMade(o.(wait := Ok))
  {
  }

  /**
   * `run_full_sync_workflow_gui`. With the debug switch on it only sleeps
   * three seconds and reports success. Returns the result, the controller
   * calls made and the pauses slept between them, in order.
   */
  method RunFullSyncWorkflowGui(debug: bool, o: Outcomes, configMinutes: Option<int>)
    returns (ok: bool, calls: seq<Call>, sleeps: seq<int>)
    ensures debug ==> ok && calls == [] && sleeps == [3]
    ensures !debug ==> ok == GuiSucceeds(o)
    ensures !debug ==> calls == FullRun(WaitMinutes(configMinutes))[..CallsMade(o)]
    ensures !debug && o.stop != Ok ==> !ok && calls == [StopWeChat]
    ensures !debug && o.resume != Ok ==> !ok && StartWeChat !in calls
    ensures !debug && ok ==> sleeps == [2, 3, 3]
  {
    if debug {
      return true, [], [3];
    }
    var minutes := WaitMinutes(configMinutes);
    ghost var full := FullRun(minutes);
    calls, sleeps := [StopWeChat], [];
    if o.stop != Ok {
      return false, calls, sleeps;
    }
    sleeps := sleeps + [2];
    calls := calls + [PauseOneDrive];
    if o.pause == Raised {
      assert calls == full[..2];
      return false, calls, sleeps;
    }
    sleeps := sleeps + [3];
    calls := calls + [ResumeOneDrive];
    if o.resume != Ok {
      assert calls == full[..3];
      return false, calls, sleeps;
    }
    sleeps := sleeps + [3];
    calls := calls + [WaitForSync(minutes)];
    if o.wait == Raised {
      assert calls == full[..4];
      return false, calls, sleeps;
    }
    calls := calls + [StartWeChat];
    assert calls == full[..5];
    ok := o.start == Ok;
  }

  // ---------------------------------------------------------------- command line

  /** How a child process run by `run_command` ended. */
  datatype Exec = Exited(code: int) | TimedOut | Crashed

  /** `run_command`'s verdict: the child exited with status 0. */
  predicate CommandOk(e: Exec) { e.Exited? && e.code == 0 }

  /**
   * The script path `run_command` runs: an absolute path as it is, otherwise
   * joined to the module directory after dropping a leading `core/`.
   */
  function ScriptPath(script: string, moduleDir: string): (r: string)
    ensures IsAbs(script) ==> r == script
    ensures !IsAbs(script) && StartsWith(script, "core/") ==> r == NtJoin(moduleDir, script[5..])
    ensures !IsAbs(script) && !StartsWith(script, "core/") ==> r == NtJoin(moduleDir, script)
  {
    if IsAbs(script) then script
    else if StartsWith(script, "core/") then NtJoin(moduleDir, script[5..])
    else NtJoin(moduleDir, script)
  }

  /** The last step names its script without `core/`; both spellings reach the same file. */
  lemma ScriptPrefixDropped(name: string, moduleDir: string)
    requires !IsAbs(name) && !StartsWith(name, "core/")
    ensures ScriptPath("core/" + name, moduleDir) == ScriptPath(name, moduleDir)
  {
    var s := "core/" + name;
    assert s[..5] == "core/" && s[5..] == name;
    assert !IsAbs(s);
  }

  /** One child run: script, controller command and timeout in seconds. */
  datatype Run = Run(script: string, command: string, timeout: int)

  /** The wait step's timeout: the wait plus 100 seconds, or 400 when reading the configuration raised. */
  function SyncTimeout(configMinutes: Option<int>): int
  {
    match configMinutes
    case Some(m) => m * 60 + 100
    case None => 400
  }

  /** The child runs of a command-line run that goes all the way. */
  function FullCliRun(configMinutes: Option<int>): seq<Run>
  {
    [Run("core/wechat_controller.py", "stop", 60),
     Run("core/onedrive_controller.py", "pause", 60),
     Run("core/onedrive_controller.py", "resume", 60),
     Run("core/onedrive_controller.py", "wait-sync", SyncTimeout(configMinutes)),
     Run("wechat_controller.py", "start", 60)]
  }

  /** What the five child runs would do, in workflow order. */
  datatype CliOutcomes = CliOutcomes(stop: Exec, pause: Exec, resume: Exec, wait: Exec, start: Exec)

  /** The command-line workflow succeeds: stop, resume and start all exited 0. */
  predicate CliSucceeds(o: CliOutcomes)
  {
    CommandOk(o.stop) && CommandOk(o.resume) && CommandOk(o.start)
  }

  function CliRunsMade(o: CliOutcomes): (n: nat)
    ensures n in {1, 3, 5}
  {
    if !CommandOk(o.stop) then 1 else if !CommandOk(o.resume) then 3 else 5
  }

  /**
   * `run_full_sync_workflow`: the same sequence, with every step a child
   * process judged by its exit status and countdown pauses between them.
   */
  method RunFullSyncWorkflow(o: CliOutcomes, configMinutes: Option<int>)
    returns (ok: bool, runs: seq<Run>, sleeps: seq<int>)
    ensures ok == CliSucceeds(o)
    ensures runs == FullCliRun(configMinutes)[..CliRunsMade(o)]
    ensures ok ==> sleeps == [3, 2, 3, 3]
  {
    ghost var full := FullCliRun(configMinutes);
    sleeps := [3];
    runs := [Run("core/wechat_controller.py", "stop", 60)];
    if !CommandOk(o.stop) {
      return false, runs, sleeps;
    }
    sleeps := sleeps + [2];
    runs := runs + [Run("core/onedrive_controller.py", "pause", 60)];
    sleeps := sleeps + [3];
    runs := runs + [Run("core/onedrive_controller.py", "resume", 60)];
    if !CommandOk(o.resume) {
      assert runs == full[..3];
      return false, runs, sleeps;
    }
    sleeps := sleeps + [3];
    var timeout := SyncTimeout(configMinutes);
    runs := runs + [Run("core/onedrive_controller.py", "wait-sync", timeout)];
    runs := runs + [Run("wechat_controller.py", "start", 60)];
    assert runs == full;
    ok := CommandOk(o.start);
  }

  /**
   * The command-line workflow cannot see a controller that fails: with the
   * exit statuses the controllers produce, it reports success whatever the
   * stop, resume and start achieved, as long as each child ran to the end.
   */
  lemma CliMissesControllerFailure(stopOk: bool, pause: Exec, resumeOk: bool, wait: Exec, startOk: bool,
                                    w: WeChat.Snapshot, o: OneDrive.Snapshot)
    ensures CliSucceeds(CliOutcomes(Exited(WeChat.ExitCodeAsWritten(["stop"], stopOk, w)), pause,
                                    Exited(OneDrive.ExitCodeAsWritten(["resume"], resumeOk, o)), wait,
                                    Exited(WeChat.ExitCodeAsWritten(["start"], startOk, w))))
  {
    LowerOfLowercase("stop");
    LowerOfLowercase("start");
    LowerOfLowercase("resume");
  }

  /**
   * With controllers whose exit status reports the outcome, the
   * command-line workflow succeeds exactly when the GUI workflow would.
   */
  lemma CliSeesControllerFailure(stopOk: bool, pause: Exec, resumeOk: bool, wait: Exec, startOk: bool)
    ensures CliSucceeds(CliOutcomes(Exited(WeChat.ExitCode(["stop"], stopOk)), pause,
                                    Exited(OneDrive.ExitCode(["resume"], resumeOk)), wait,
                                    Exited(WeChat.ExitCode(["start"], startOk))))
            <==> stopOk && resumeOk && startOk
  {
    LowerOfLowercase("stop");
    LowerOfLowercase("start");
    LowerOfLowercase("resume");
  }

  /** How the chosen command ended: it returned, or it raised or was interrupted. */
  datatype Ran = Returned(ok: bool) | Interrupted

  /**
   * The exit status of `python sync_workflow.py <args>`: `run` exits 0
   * exactly when the workflow succeeded, `status` exits 0 unless it raised,
   * anything else exits 1.
   */
  function MainExitCode(args: seq<string>, ran: Ran): (code: int)
    ensures code in {0, 1}
    ensures |args| >= 1 && Lower(args[0]) == "run" ==> (code == 0 <==> ran == Returned(true))
    ensures |args| >= 1 && Lower(args[0]) == "status" ==> (code == 0 <==> ran.Returned?)
    ensures (|args| < 1 || Lower(args[0]) !in {"run", "status"}) ==> code == 1
  {
    if |args| < 1 then 1
    else
      var command := Lower(args[0]);
      if ran.Interrupted? then 1
      else if command == "run" then (if ran.ok then 0 else 1)
      else if command == "status" then 0
      else 1
  }
}
