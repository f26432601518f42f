# WeChat / OneDrive sync helper — a Dafny model

The program this project models keeps OneDrive from fighting with WeChat over
open files. When the user asks, when the machine has sat idle long enough, or
at a configured time of day, it runs a fixed sequence:

1. stop WeChat;
2. pause OneDrive;
3. resume OneDrive;
4. wait for the sync;
5. start WeChat again.

A global cooldown keeps runs from following each other too closely.

The model covers the parts that decide **when** a run happens and **what** it
does. Every Windows call is an input: process lists, `tasklist` output, the
registry, window enumeration, idle ticks, child exit statuses and file-system
checks. Time is an integer number of seconds, passed in as `now`.

The modules follow the repository's files:

| module | file | form |
|---|---|---|
| `Cooldown` | `cooldown.dfy` | the global cooldown manager: a class over an optional trigger time, and its holder |
| `Idle` | `idle.dfy` | idle-time arithmetic on the 32-bit tick counter, idle formatting, the `check` command |
| `Processes`, `OneDrive`, `WeChat`, `WinPaths` | `processes.dfy`, `onedrive.dfy`, `wechat.dfy`, `winpaths.dfy` | the controllers: status caches as classes, `tasklist` parsing, stop/start/pause/resume decisions, the wait countdown, the install-path search |
| `SyncWorkflow` | `workflow.dfy` | the GUI and command-line workflows and the script-path rewrite |
| `Scheduler` | `scheduler.dfy` | the scheduler's task list, execution bookkeeping and start/stop flag |
| `Monitor` | `monitor.dfy` | the command-line monitoring service |
| `Config` | `config.dfy` | the configuration manager over a JSON value: dotted get/set, merge, typed getters, validation |
| `ConfigPanel` | `config_panel.dfy` | the settings window: day boxes, close-behaviour mapping, comment merging, range checks, save and close |
| `Gui` | `main_window.dfy` | the main window's monitor loop, run bookkeeping, log filter and label updates |
| `Startup` | `startup.dfy` | the start-at-login command and how it is read back |
| `AutoLogin` | `auto_login.dfy` | WeChat window and button detection, button choice, click coordinates |
| `Logging` | `logger.dfy` | the logging helper: levels, debug gating, message builders, log retention |
| `DebugSwitches` | `debug_manager.dfy` | the developer debug switches |
| `Text`, `Wrappers` | `text.dfy`, `wrappers.dfy` | Python's string operations and `Option` |

The model follows the code as written, including these points:

- In the GUI the cooldown is stamped when a run finishes, not before it
  starts, and a failed idle-triggered GUI run does not stamp it at all. The
  command-line monitor stamps it before it starts the workflow.
- The manual run button does not consult the cooldown.
- No workflow step is retried, and WeChat is not restarted after a failed
  step. The GUI workflow has no run timeout. The command-line workflow gives
  each child 60 s, and `wait-sync` its wait plus 100 s (400 s when the
  configuration cannot be read); a child that runs out of time counts as a
  failed step, which its exit-status parameter covers.
- The schedule fires when the clock's `HH:MM` text equals the configured
  string, checked at most once a minute. There is no tolerance window and no
  record of the day it last fired.
- The cooldown state file is written directly, not atomically.
- The command-line `run` exits with 0 or 1 only. There is no code 2 or 3.

## Model

| member | source | states |
|---|---|---|
| Cooldown.RemainingSeconds | core/global_cooldown.py:68-78 | remaining time is never negative, is positive exactly while the cooldown is active, and then equals the trigger time plus the window minus now |
| Cooldown.CheckAndUpdate | core/global_cooldown.py:92-103 | the trigger is allowed exactly when no cooldown is active, and only an allowed trigger records the new time |
| Cooldown.AllowedTriggerBlocksWindow | core/global_cooldown.py:57-66 | after an allowed trigger at t, every check before t + minutes*60 is refused, with the matching remaining time (see also lines 92-103) |
| Cooldown.CooldownExpires | core/global_cooldown.py:57-66 | once the window has elapsed the cooldown is over, the remaining time is 0 and the next trigger is allowed (see also lines 92-103) |
| Cooldown.ResetNeverBlocks | core/global_cooldown.py:59-60 | with no recorded trigger nothing blocks, whatever the cooldown length, and the remaining time is 0 (see also lines 70-71, 86-89) |
| Cooldown.GlobalCooldownManager.constructor | core/global_cooldown.py:17-41 | the manager starts from the trigger time the state file holds; a missing or unreadable file or a null entry means no trigger |
| Cooldown.GlobalCooldownManager.SaveState | core/global_cooldown.py:43-55 | a successful write stores the current trigger time so that loading gives it back; a failed write is swallowed |
| Cooldown.GlobalCooldownManager.IsInCooldown | core/global_cooldown.py:57-66 | in cooldown exactly when a trigger is recorded and fewer than minutes*60 seconds have passed |
| Cooldown.GlobalCooldownManager.GetRemainingCooldownSeconds | core/global_cooldown.py:68-78 | the remaining time, clamped at 0 |
| Cooldown.GlobalCooldownManager.UpdateLastTriggerTime | core/global_cooldown.py:80-84 | the trigger time becomes now and is saved when the write succeeds |
| Cooldown.GlobalCooldownManager.ResetCooldown | core/global_cooldown.py:86-90 | the trigger time is cleared and saved when the write succeeds |
| Cooldown.GlobalCooldownManager.CheckAndUpdateIfAllowed | core/global_cooldown.py:92-103 | refused and unchanged while in cooldown; otherwise allowed, with now recorded |
| Cooldown.CooldownRegistry.constructor | core/global_cooldown.py:106 | no manager exists before the first access |
| Cooldown.CooldownRegistry.GetManager | core/global_cooldown.py:108-113 | the first call creates the manager; every later call returns the same object |
| Cooldown.CooldownRegistry.IsInGlobalCooldown | core/global_cooldown.py:116-118 | asks the single manager whether it is in cooldown |
| Cooldown.CooldownRegistry.GetRemainingGlobalCooldown | core/global_cooldown.py:120-122 | the single manager's remaining time |
| Cooldown.CooldownRegistry.UpdateGlobalCooldown | core/global_cooldown.py:124-126 | the single manager records now |
| Cooldown.CooldownRegistry.ResetGlobalCooldown | core/global_cooldown.py:128-130 | the single manager's trigger time is cleared |
| Cooldown.CooldownRegistry.CheckAndTriggerIfAllowed | core/global_cooldown.py:132-134 | check-and-stamp on the single manager, created from the state file on first use |
| Idle.AsCInt | core/idle_detector.py:37 | the value ctypes reads from `GetTickCount` is a signed 32-bit int congruent to the unsigned tick modulo 2^32 |
| Idle.IdleMillisAsWritten | core/idle_detector.py:33-41 | as written the reading is positive exactly when the call worked and the tick lies above the last input and below 2^31, and it is then their difference; past 2^31 it is always 0 |
| Idle.IdleMillis | core/idle_detector.py:33-41 | corrected idle time: the tick difference modulo 2^32, so always below 2^32 and never negative |
| Idle.IdleMillisExact | core/idle_detector.py:37-41 | the corrected reading equals the real time since the last input for any idle period shorter than the counter wrap |
| Idle.AsWrittenExactEarly | core/idle_detector.py:33-41 | before 2^31 ms of uptime the code as written gives exactly the tick difference, in agreement with the corrected reading |
| Idle.AsWrittenLosesIdleAfter2To31 | core/idle_detector.py:37-41 | as written, ten idle minutes after 2^31 ms of uptime read as 0 while the corrected reading gives 600000 ms |
| Idle.IsIdleForWholeMinutes | core/idle_detector.py:47-53 | `is_idle_for(m)` for a whole number of minutes holds exactly when the idle milliseconds reach m*60000 |
| Idle.CheckCommandExit | core/idle_detector.py:109-122 | `check N` exits 0 exactly when N parses and the system is idle for N minutes, and 1 otherwise (a missing or non-numeric N included) |
| Idle.Decompose | core/idle_detector.py:57-61 | hours*3600 + minutes*60 + seconds gives back the total, with minutes and seconds below 60 |
| Idle.FormatIdleTimeUnits | core/idle_detector.py:55-68 | below a minute only seconds are shown, below an hour minutes and seconds, otherwise all three units |
| Processes.RowPid | core/onedrive_controller.py:42-52 | a well-formed `tasklist /fo csv` row for the image yields its PID: fields are split on commas and trimmed of spaces and quotes (see also core/wechat_controller.py:69-95) |
| Processes.StripQuotedDigits | core/onedrive_controller.py:49-50 | trimming spaces and quotes off a quoted number gives the digits back |
| Processes.Named | core/onedrive_controller.py:99-106 | the filter keeps exactly the processes whose lower-cased name is the wanted image (see also lines 111-118) |
| Processes.FromPidsEmpty | core/onedrive_controller.py:107-118 | the `psutil.pids()` loop adds nothing exactly when `process_iter` did not raise or the loop finds no process with the wanted name |
| Processes.Fallback | core/onedrive_controller.py:93-119 | a process is in the fallback's result exactly when its lower-cased name is the wanted image and `process_iter` yielded it, or `process_iter` raised and the `psutil.pids()` loop opened it (see also core/wechat_controller.py:119-145) |
| Processes.FallbackRepeats | core/onedrive_controller.py:99-118 | a process yielded before `process_iter` raised and opened again by the `psutil.pids()` loop is listed twice |
| Processes.ScanNamed | core/onedrive_controller.py:99-106 | one fallback loop appends exactly the processes `Named` keeps, in order (see also lines 111-118) |
| Processes.FallbackScan | core/onedrive_controller.py:93-119 | the `process_iter` loop, then the `psutil.pids()` loop when it raised, give exactly `Fallback` (see also core/wechat_controller.py:119-145) |
| Processes.MatchingProcsSound | core/onedrive_controller.py:44-66 | every process the line scan reports is live, carries the name the process table gives it, and has an accepted lower-cased name |
| Processes.TasklistSearchSound | core/onedrive_controller.py:35-71 | the same soundness holds for the whole search over all image names |
| Processes.TasklistSearchRaises | core/onedrive_controller.py:73-91 | the search falls back exactly when some `tasklist` run raised |
| Processes.ScanLines | core/onedrive_controller.py:42-66 | the loop over the data lines collects exactly the processes the line-by-line definition gives, in line order |
| Processes.TasklistSearchStep | core/onedrive_controller.py:37-66 | a run that does not raise appends its processes to those of the runs before it |
| Processes.FindProcesses | core/onedrive_controller.py:24-91 | the search result when no run raised, otherwise the fallback's result (see also core/wechat_controller.py:55-117) |
| Processes.TasklistSearchPrefixNone | core/onedrive_controller.py:73-91 | once a run raised, the whole search falls back |
| Processes.CheckRunning | core/onedrive_controller.py:129-155 | a non-forced check within 5 s of a stored answer returns it and leaves the cache alone; otherwise the fresh answer is returned and stored with the time (see also core/wechat_controller.py:165-191) |
| Processes.CachedAnswerHolds | core/onedrive_controller.py:142-153 | after a query, every non-forced check in the next five seconds gives that answer, whatever the processes do |
| Processes.ClearedCacheQueries | core/onedrive_controller.py:157-162 | after a clear the next check always queries (see also core/wechat_controller.py:193-198) |
| Processes.StatusCache.constructor | core/onedrive_controller.py:14-18 | the cache starts with no answer at time 0 (see also core/wechat_controller.py:17-21) |
| Processes.StatusCache.IsRunning | core/onedrive_controller.py:129-155 | answer and new cache as `CheckRunning` gives them |
| Processes.StatusCache.Clear | core/onedrive_controller.py:157-162 | the answer is cleared and the time reset to 0 |
| Processes.Pids | core/onedrive_controller.py:281-291 | one PID per process, in order |
| Processes.StopSequence | core/onedrive_controller.py:272-321 | success at once when nothing runs; otherwise everything found is terminated, what remains is killed, and the stop succeeds exactly when the final search finds nothing (see also core/wechat_controller.py:200-255) |
| OneDrive.FoundAccepted | core/onedrive_controller.py:35 | every process found has an accepted OneDrive name; after a raised `tasklist` run only `onedrive.exe` processes can be found; otherwise each is a live PID with its table name (see also lines 61, 103) |
| OneDrive.FindOneDriveProcesses | core/onedrive_controller.py:121-127 | returns the processes of the two-image tasklist search, or of the fallback when a run raised |
| OneDrive.UserPathFirst | core/onedrive_controller.py:197-201 | the per-user installation under the home directory is the first candidate |
| OneDrive.EffectiveWaitMinutes | core/onedrive_controller.py:341-347 | the wait is the argument, else the configured value, else 5 when reading the configuration raised |
| OneDrive.Countdown | core/onedrive_controller.py:349-375 | the total sleep equals the wait in seconds (0 for a non-positive wait), and one announcement is made every ten seconds, counting down from the full wait |
| OneDrive.ParseCommand | core/onedrive_controller.py:400-423 | a command is known exactly when its lower-cased form is one of the six names |
| OneDrive.ExitCodeAsWritten | core/onedrive_controller.py:390-425 | as written the script exits 0 exactly when a known command was given and it is not a `status` that raises because some process found carries no `info`; otherwise 1; what a command achieved plays no part |
| OneDrive.Uninformed | core/onedrive_controller.py:164-178 | the processes without `info` are all among those found: every one from the tasklist path, and from the fallback those of the `psutil.pids()` loop (see also lines 107-118) |
| OneDrive.StatusExit | core/onedrive_controller.py:164-178 | `status` exits 0 exactly when no OneDrive process is found, or a `tasklist` run raised and the fallback's processes all came from `process_iter` (it did not raise, or the `psutil.pids()` loop found no `onedrive.exe`); a process without `info` makes the report raise (see also lines 107-118, 411-419) |
| OneDrive.FailedCommandExitsZero | core/onedrive_controller.py:403-410 | a failed start, stop, pause or resume still exits 0, in any letter case and whatever processes are seen |
| OneDrive.ExitCode | core/onedrive_controller.py:390-425 | corrected status: 0 exactly when a known command succeeded, 1 otherwise |
| OneDrive.OneDriveController.constructor | core/onedrive_controller.py:14-18 | the status cache starts empty at time 0 |
| OneDrive.OneDriveController.IsRunning | core/onedrive_controller.py:129-155 | answer and cache as the 5-second cache rule gives them for the processes found |
| OneDrive.OneDriveController.ClearCache | core/onedrive_controller.py:157-162 | the cached answer is dropped and its time reset to 0 |
| OneDrive.OneDriveController.StopOneDrive | core/onedrive_controller.py:272-321 | the terminate/kill sequence over the three searches; success exactly when the first or the final search finds nothing |
| OneDrive.OneDriveController.PauseSync | core/onedrive_controller.py:180-187 | success without stopping when the possibly cached answer is "not running"; otherwise the stop's verdict |
| OneDrive.OneDriveController.ResumeSync | core/onedrive_controller.py:189-223 | launches the first existing candidate path; success exactly when one exists and launching does not raise |
| OneDrive.OneDriveController.StartOneDrive | core/onedrive_controller.py:382-388 | success without launching when the possibly cached answer is "running"; otherwise the resume |
| OneDrive.OneDriveController.WaitForSyncComplete | core/onedrive_controller.py:323-380 | always succeeds; no wait when OneDrive is not running, otherwise the whole configured wait is slept |
| WinPaths.NtJoin | core/wechat_controller.py:277 | `os.path.join` with Windows separators keeps the location as a prefix |
| WinPaths.FirstExisting | core/wechat_controller.py:300-305 | nothing exactly when no candidate exists; otherwise the earliest candidate that exists (see also core/onedrive_controller.py:203-207) |
| WinPaths.PickFirstExisting | core/wechat_controller.py:300-305 | the loop over candidates returns what `FirstExisting` specifies (see also core/onedrive_controller.py:203-207) |
| WeChat.FoundAreWeChat | core/wechat_controller.py:55-145 | every process found is named `weixin.exe` in lower case, and when tasklist ran it is a live PID with its table name |
| WeChat.FindWeChatProcesses | core/wechat_controller.py:147-153 | the processes the tasklist search or its fallback yields |
| WeChat.FindWeChatProcess | core/wechat_controller.py:155-159 | the first process found, and nothing exactly when none is found |
| WeChat.RegistryHits | core/wechat_controller.py:262-288 | every registry hit is an existing path |
| WeChat.InstallPathChoice | core/wechat_controller.py:290-307 | a registry hit, when there is one, wins over the fixed paths; otherwise the first existing fixed path is used |
| WeChat.FindInstallPath | core/wechat_controller.py:257-307 | the first existing path among the registry hits followed by the fixed paths |
| WeChat.CollectRegistryHits | core/wechat_controller.py:262-288 | the registry walk collects the hits the recursive definition gives, in enumeration order |
| WeChat.ParseCommand | core/wechat_controller.py:437-455 | a command is known exactly when its lower-cased form is start, stop or status |
| WeChat.ExitCodeAsWritten | core/wechat_controller.py:429-455 | as written the script exits 0 exactly when a known command was given and it is not a `status` that raises because some process found carries no `info`; otherwise 1; what a command achieved plays no part |
| WeChat.Uninformed | core/wechat_controller.py:413-427 | the processes without `info` are all among those found: every one from the tasklist path, and from the fallback those of the `psutil.pids()` loop (see also lines 134-144) |
| WeChat.StatusExit | core/wechat_controller.py:413-427 | `status` exits 0 exactly when no WeChat process is found, or the `tasklist` run raised and the fallback's processes all came from `process_iter` (it did not raise, or the `psutil.pids()` loop found no `weixin.exe`); a process without `info` makes the report raise (see also lines 134-144, 443-451) |
| WeChat.FailedStopExitsZero | core/wechat_controller.py:439-442 | a failed stop or start still exits 0, whatever processes are seen |
| WeChat.ExitCode | core/wechat_controller.py:429-455 | corrected status: 0 exactly when a known command succeeded, 1 otherwise |
| WeChat.WeChatController.constructor | core/wechat_controller.py:17-21 | the status cache starts empty at time 0 |
| WeChat.WeChatController.IsRunning | core/wechat_controller.py:165-191 | answer and cache as the 5-second cache rule gives them |
| WeChat.WeChatController.ClearCache | core/wechat_controller.py:193-198 | the cached answer is dropped and its time reset to 0 |
| WeChat.WeChatController.StopWeChat | core/wechat_controller.py:200-255 | the terminate/kill sequence; success exactly when the first or final search is empty; the cache is cleared once a stop was attempted |
| WeChat.WeChatController.StartWeChat | core/wechat_controller.py:309-361 | success without launching when the possibly cached answer is "running"; otherwise the install path found is launched, success exactly when one was found and launching did not raise, and the login thread starts only then |
| SyncWorkflow.CallsMade | core/sync_workflow.py:229-295 | between one and five controller calls are made |
| SyncWorkflow.SuccessMakesEveryCall | core/sync_workflow.py:229-310 | a successful run made all five calls; a run that stopped early failed |
| SyncWorkflow.WarningsDoNotMatter | core/sync_workflow.py:245-249 | a failed pause or wait changes neither the result nor the calls made (see also lines 280-282) |
| SyncWorkflow.RunFullSyncWorkflowGui | core/sync_workflow.py:188-314 | in debug mode only a 3-second sleep and success; otherwise success exactly when stop, resume and start succeed and nothing raised; the calls are the stop → pause → resume → wait → start prefix up to the step that ended the run; a failed stop makes no other call and a failed resume never restarts WeChat |
| SyncWorkflow.ScriptPath | core/sync_workflow.py:18-26 | an absolute script path is used as given; a relative one is joined to the module directory after a leading `core/` is dropped |
| SyncWorkflow.ScriptPrefixDropped | core/sync_workflow.py:21-24 | `core/x` and `x` name the same script (see also line 123) |
| SyncWorkflow.CliRunsMade | core/sync_workflow.py:75-126 | the command-line run makes one, three or five child runs |
| SyncWorkflow.RunFullSyncWorkflow | core/sync_workflow.py:56-139 | success exactly when the stop, resume and start children exit 0; the runs are the prefix of the full sequence up to the one that ended the run, the wait timeout being the wait plus 100 s or 400 s |
| SyncWorkflow.CliMissesControllerFailure | core/sync_workflow.py:75 | with the controllers' exit statuses as written, the command-line run reports success whatever the stop, resume and start achieved and whatever processes the controllers see (see also lines 93, 123) |
| SyncWorkflow.CliSeesControllerFailure | core/sync_workflow.py:75 | with corrected exit statuses it succeeds exactly when stop, resume and start all succeed (see also lines 93, 123) |
| SyncWorkflow.MainExitCode | core/sync_workflow.py:153-186 | `run` exits 0 exactly when the workflow succeeded, `status` exits 0 unless it raised, anything else exits 1 |
| Scheduler.Entries | core/task_scheduler.py:26-31 | one (kind, name) entry per task record, in order |
| Scheduler.FirstNamed | core/task_scheduler.py:98-99 | the position of the first task with the name, and none exactly when no task has it |
| Scheduler.RemoveFirstDropsOne | core/task_scheduler.py:96-105 | removal drops exactly one record, the first with that name, and keeps every other |
| Scheduler.JobsConcat | core/task_scheduler.py:26-31 | the jobs of two task lists joined are the union of their jobs |
| Scheduler.RemoveAtJobs | core/task_scheduler.py:100-101 | with distinct job handles, dropping one record drops exactly its job |
| Scheduler.RemoveFirstJobs | core/task_scheduler.py:96-105 | after `remove_task` the library holds every job but the cancelled one |
| Scheduler.NoJobsNoTasks | core/task_scheduler.py:131-134 | there is no job exactly when there is no task |
| Scheduler.AttributeUnit | core/task_scheduler.py:43 | the attributes of `schedule.every()` that yield a job with a day unit are exactly the weekdays, `day` and `days` |
| Scheduler.ClockIsDayTime | core/task_scheduler.py:24 | every zero-padded `HH:MM` clock reading is a time a daily job takes |
| Scheduler.OneDigitHourRaises | core/task_scheduler.py:24 | a one-digit hour such as `5:00` is refused, so registering it raises |
| Scheduler.TaskScheduler.constructor | core/task_scheduler.py:10-14 | not running, no task, no execution recorded, no job |
| Scheduler.TaskScheduler.Register | core/task_scheduler.py:24-31 | appends one task with a fresh job and keeps the library in step with the task list |
| Scheduler.TaskScheduler.AddDailyTask | core/task_scheduler.py:16-32 | appends exactly one daily record with the given time and name exactly when a daily job takes the time; otherwise it raises and nothing changes |
| Scheduler.TaskScheduler.AddWeeklyTask | core/task_scheduler.py:34-53 | appends one weekly record exactly when the lower-cased day names a job attribute (a weekday, `day`, `days`, an hour or minute unit) whose `at` takes the time; for a weekday that is the daily time rule; otherwise it raises and nothing changes |
| Scheduler.TaskScheduler.AddIntervalTask | core/task_scheduler.py:55-71 | appends exactly one interval record |
| Scheduler.TaskScheduler.ExecuteTask | core/task_scheduler.py:73-94 | the execution time is recorded for the task whatever the task does |
| Scheduler.TaskScheduler.RemoveTask | core/task_scheduler.py:96-105 | true exactly when a task has that name; the first such task is dropped and cancelled, the rest is unchanged |
| Scheduler.TaskScheduler.GetNextRunTime | core/task_scheduler.py:131-139 | nothing exactly when no task is scheduled, otherwise the library's next run time |
| Scheduler.TaskScheduler.Start | core/task_scheduler.py:141-157 | the scheduler is running afterwards, and a second start changes nothing |
| Scheduler.TaskScheduler.Stop | core/task_scheduler.py:159-164 | the scheduler is stopped afterwards |
| Monitor.WeeklyPlanExact | core/sync_monitor.py:71-73 | the weekly plan holds a weekly task at the configured time for exactly the entries whose lower-cased name is a weekday |
| Monitor.PlannedShape | core/sync_monitor.py:62-75 | disabled: no task; `daily` listed (exact case): exactly one daily task; otherwise only weekly tasks, one for every weekday entry |
| Monitor.SyncMonitor.constructor | core/sync_monitor.py:16-28 | not running, no idle trigger yet, a fresh stopped scheduler holding exactly the planned tasks, or none when the setup raised (a task is due at a time the library refuses) |
| Monitor.SyncMonitor.SetupScheduledTasks | core/sync_monitor.py:62-75 | raises exactly when a task is planned and its time is not a day time, and then records nothing; otherwise the planned tasks are appended to the scheduler, which is not started |
| Monitor.SyncMonitor.RegisterWeekly | core/sync_monitor.py:71-73 | one weekly task per weekday entry in list order; a refused time raises at the first of them, leaving the plan unregistered |
| Monitor.SyncMonitor.ExecuteSyncWorkflow | core/sync_monitor.py:77-112 | the child is spawned exactly when the cooldown check-and-stamp allows it; success exactly when it was spawned and exited 0 |
| Monitor.SyncMonitor.CheckIdleTrigger | core/sync_monitor.py:114-153 | true exactly when idle triggering is on, the idle time reaches the threshold and no cooldown is active; a trigger stamps the cooldown and the trigger time, a refusal changes neither |
| Monitor.SyncMonitor.MonitorStep | core/sync_monitor.py:208-214 | as written, an idle trigger is followed by a second cooldown claim, so with a positive cooldown no workflow ever runs |
| Monitor.SyncMonitor.MonitorStepCorrected | core/sync_monitor.py:208-214 | corrected pass: a workflow runs exactly when the idle trigger fired and the child exited 0 |
| Monitor.SyncMonitor.StartMonitoring | core/sync_monitor.py:160-219 | a no-op when already running; otherwise the loop runs and ends stopped, the scheduler being left running exactly when the signal handler ended the loop; with a positive cooldown no idle-path workflow runs |
| Monitor.SyncMonitor.StopMonitoring | core/sync_monitor.py:221-229 | a no-op when not running; otherwise both the monitor and the scheduler stop |
| Config.SplitJoin | core/config_manager.py:141 | splitting a dotted path whose keys hold no dot gives the keys back |
| Config.GetDotted | core/config_manager.py:134-149 | `get("a.b", d)` follows the keys and returns `d` when a key is missing or a non-object is indexed |
| Config.SetPathSucceeds | core/config_manager.py:151-168 | `set` fails exactly when it meets an existing non-object on the way |
| Config.EmptySettable | core/config_manager.py:160-163 | on an empty tree every path can be set, the sections being created |
| Config.LookupAfterSet | core/config_manager.py:151-168 | `get` after `set` on the same path returns the stored value |
| Config.LookupOtherAfterSet | core/config_manager.py:151-168 | `set` leaves every path that parts ways with the updated one unchanged |
| Config.EmptyLookup | core/config_manager.py:144-149 | nothing is found in an empty tree |
| Config.Merge | core/config_manager.py:114-121 | the merge succeeds exactly when the loaded value is an object, and the merged tree has exactly the default keys: no unknown key is added |
| Config.MergeSelf | core/config_manager.py:114-121 | merging the defaults into themselves changes nothing |
| Config.MergeIdempotent | core/config_manager.py:114-121 | merging the same file twice equals merging it once |
| Config.MergeTakesFileValue | core/config_manager.py:117-121 | where both trees hold a value at a path and not both are objects, the file's value wins |
| Config.MergeKeepsDefault | core/config_manager.py:116 | a section the file does not mention keeps its default value |
| Config.IdleGettersOnDefaults | core/config_manager.py:43-53 | on the default tree idle triggering is on with 10 minutes and 60 cooldown minutes; the cooldown getter's own fallback is 20 (see also lines 171-177, 209-215) |
| Config.ScheduleGettersOnDefaults | core/config_manager.py:54-61 | on the default tree scheduling is off, at 05:00, daily (see also lines 217-227) |
| Config.OtherGettersOnDefaults | core/config_manager.py:62-94 | wait 5 minutes, logging on at info, close behaviour `ask` (see also lines 229-239, 277-279) |
| Config.SplitAtColon | core/config_manager.py:333 | a time with one colon splits into its two sides |
| Config.TimeAcceptedOf | core/config_manager.py:330-337 | two integer fields in range around one colon are accepted |
| Config.PaddedTimeAccepted | core/config_manager.py:330-337 | every zero-padded HH:MM reading of a clock is accepted |
| Config.ValidateConfig | core/config_manager.py:303-370 | completes exactly when no check raises; a completed check returns true exactly when no error was recorded, so warnings never fail it |
| Config.ReadDefaultSettings | core/config_manager.py:303-352 | the validator reads the default values through the getters |
| Config.DefaultsValid | core/config_manager.py:303-370 | the default configuration passes with neither errors nor warnings |
| Config.DefaultSettingsPass | core/config_manager.py:310-352 | the checks find nothing wrong with the default values |
| Config.NonPositiveIdleRejected | core/config_manager.py:314-317 | with idle triggering on, a non-positive idle time fails validation |
| Config.NonNumericIdleRaises | core/config_manager.py:314-327 | with idle triggering on, a non-number idle time is recorded as an error, and with a valid cooldown the comparison of the two at line 326 then raises, so the check never completes |
| Config.NonPositiveCooldownRejected | core/config_manager.py:321-323 | with idle triggering on, a cooldown that is not a positive number fails validation |
| Config.CooldownOrderOnlyWarns | core/config_manager.py:321-327 | a positive cooldown shorter than the idle time only adds the ordering warning: completion and errors are as for a cooldown equal to the idle time |
| Config.BadTimeRejected | core/config_manager.py:330-337 | with scheduling on, a time that is not two integers in range around one colon fails validation |
| Config.BadDayListed | core/config_manager.py:341-343 | every listed day whose lower-cased name is not valid is among the recorded day errors |
| Config.BadDayRejected | core/config_manager.py:339-343 | with scheduling on, any listed day that is not `daily` or a weekday (in any case) fails validation |
| Config.NegativeWaitRejected | core/config_manager.py:346-348 | a wait that is not a non-negative number fails validation |
| Config.BadLevelRejected | core/config_manager.py:351-354 | with logging on, a level other than debug, info, warning or error (in any case) fails validation |
| Config.ConfigManager.constructor | core/config_manager.py:16-19 | starts from the defaults merged with the file; a missing file is created with the defaults when writing works (see also lines 96-112) |
| Config.ConfigManager.Load | core/config_manager.py:96-112 | an object file is merged into the current tree; a broken file keeps the tree; a missing file is written out |
| Config.ConfigManager.Save | core/config_manager.py:123-132 | true exactly when the write works, and then the file holds the tree |
| Config.ConfigManager.Reload | core/config_manager.py:183-202 | defaults merged with the file, pure defaults when the file is missing, the previous tree when the file is broken |
| Config.ConfigManager.Set | core/config_manager.py:151-168 | succeeds exactly when the path is settable; then the path holds the value and every diverging path is unchanged; otherwise nothing changes |
| Config.SetGuiEntry | core/config_manager.py:284 | on a tree whose `gui` is an object, storing one of its keys succeeds: the key holds the value and every path that parts ways with it is unchanged |
| Config.ConfigManager.SetCloseBehavior | core/config_manager.py:281-287 | any value but ask, minimize and exit is refused with nothing changed; an accepted value raises exactly when `gui` is not an object and succeeds otherwise, storing the value at `gui.close_behavior`, leaving every other path as it was, and leaving the file holding the new tree when the write works and unchanged when it fails |
| Config.ConfigManager.SetRememberCloseChoice | core/config_manager.py:293-296 | raises exactly when `gui` is not an object; otherwise the flag is stored as a boolean at `gui.remember_close_choice`, every other path is unchanged, and the file holds the new tree when the write works and is unchanged when it fails |
| Config.ConfigManager.SaveConfig | core/config_manager.py:298-301 | the tree is replaced and saved; the result is whether the write worked |
| ConfigPanel.Field | gui/config_panel.py:678 | a missing section or key gives the fallback; a configuration or section that is not an object makes the read raise (see also line 688) |
| ConfigPanel.EmptyConfigValid | gui/config_panel.py:688-708 | every fallback the check uses is in range, so an empty configuration passes |
| ConfigPanel.ReadPanelDefaults | gui/config_panel.py:678-704 | on the default configuration the check reads time 05:00, idle 10, cooldown 60, wait 5, retries 3, 5 log files |
| ConfigPanel.DefaultTimeAccepted | gui/config_panel.py:679-685 | the default time 05:00 passes the time check |
| ConfigPanel.DefaultsPassPanel | gui/config_panel.py:674-708 | the default configuration passes the window's check |
| ConfigPanel.NonObjectSectionRejected | gui/config_panel.py:676-712 | a section that is present but not an object makes the check raise, so it fails |
| ConfigPanel.IdleMinutesOutOfRange | gui/config_panel.py:688-690 | an idle time below 1 or above 120 minutes is refused |
| ConfigPanel.CloseValueOf | gui/config_panel.py:338-342 | the collected close behaviour is always ask, minimize or exit, and exit for an unknown label (see also line 539) |
| ConfigPanel.CloseLabelOf | gui/config_panel.py:343 | the shown label is always one of the three, and the exit label for an unknown value (see also line 480) |
| ConfigPanel.CloseMappingBijection | gui/config_panel.py:338-343 | the two mappings are inverse bijections between the three labels and the three values; an unknown stored value collects back as exit (see also lines 480, 539) |
| ConfigPanel.TickedDaysExact | gui/config_panel.py:514-515 | the list holds a weekday exactly when its box is ticked, and is empty exactly when none is |
| ConfigPanel.CollectDaysShape | gui/config_panel.py:510-515 | the days list is never empty; it is `["daily"]` exactly when that box is ticked or no weekday is, and otherwise names exactly the ticked weekdays (see also line 527) |
| ConfigPanel.Strings | gui/config_panel.py:527 | each day name becomes a JSON string, in order |
| ConfigPanel.TopMerged | gui/config_panel.py:549-551 | the first merge keeps every built key and adds every old key |
| ConfigPanel.AddComments | gui/config_panel.py:558-560 | a section gains exactly the old section's comment keys |
| ConfigPanel.SectionsMergedOver | gui/config_panel.py:554-560 | the second merge over the visited sections keeps exactly those keys |
| ConfigPanel.SectionsMerged | gui/config_panel.py:554-560 | the second merge keeps the top-level keys |
| ConfigPanel.AddSectionComments | gui/config_panel.py:558-560 | the loop over the old section adds its missing comments, as `AddComments` specifies |
| ConfigPanel.MergeComments | gui/config_panel.py:548-560 | both merge loops give the configuration the two merge definitions describe |
| ConfigPanel.TopMerge | gui/config_panel.py:549-551 | the first loop gives `TopMerged` |
| ConfigPanel.MergeSections | gui/config_panel.py:554-560 | the second loop gives `SectionsMerged` |
| ConfigPanel.CollectKeepsComments | gui/config_panel.py:548-560 | the collected configuration keeps old top-level comments and unknown keys, gives each written section the old comments it lacks, and adds nothing else |
| ConfigPanel.OldSectionUnchanged | gui/config_panel.py:554-560 | a section copied over from the old configuration gains nothing from its own comments |
| ConfigPanel.Title | gui/config_panel.py:428-433 | the title ends with ` *` exactly when there are unsaved changes |
| ConfigPanel.ConfigPanelWindow.constructor | gui/config_panel.py:436-504 | a new window is open, unchanged, and holds the configuration it was given |
| ConfigPanel.ConfigPanelWindow.OnConfigChange | gui/config_panel.py:391-394 | any change marks the window changed and updates the title |
| ConfigPanel.ConfigPanelWindow.ToggleDaily | gui/config_panel.py:375-381 | ticking daily clears every weekday; `daily` and a weekday are never both ticked afterwards |
| ConfigPanel.ConfigPanelWindow.ToggleDay | gui/config_panel.py:383-389 | any ticked weekday clears daily; `daily` and a weekday are never both ticked afterwards |
| ConfigPanel.MemberOf | gui/config_panel.py:455-464 | `in` answers for a list, a string or an object, and raises for anything else; on a list it is membership of the string |
| ConfigPanel.LoadedLabel | gui/config_panel.py:478-481 | the label shown is one of the three, and the exit label for any value that is not a string |
| ConfigPanel.NonObjectSectionStopsLoad | gui/config_panel.py:441-499 | a section present but not an object stops the load there: the idle or scheduled section before the day boxes, the sync, logging or gui section before the close label, and any of the six before the end |
| ConfigPanel.UnsettableEnabledStopsLoad | gui/config_panel.py:444 | an `enabled` value a `BooleanVar` refuses (null, a list, an object, a string Tcl does not read as a boolean) stops the load: before the day boxes for the idle and scheduled sections, before the close label for logging (see also lines 450, 472) |
| ConfigPanel.WellFormedLoads | gui/config_panel.py:441-499 | sections that are objects, boolean entries that are booleans, a `days` list and a string close value load completely whatever the startup manager does, and `daily` is then looked up by list membership |
| ConfigPanel.ConfigPanelWindow.LoadConfigToUi | gui/config_panel.py:436-504 | the reads run in order and the first that raises (a non-object section, a value a `BooleanVar` refuses, a `days` that `in` cannot search, an unhashable close value) stops the rest and shows the error; the day boxes follow `days` when the load gets that far, the close label follows the close value when it gets that far, and the window is marked unchanged |
| ConfigPanel.ConfigPanelWindow.CollectConfigFromUi | gui/config_panel.py:506-562 | the built dictionary with both comment merges applied |
| ConfigPanel.ConfigPanelWindow.SaveConfig | gui/config_panel.py:569-610 | stored exactly when the collected configuration passes the check and the write works; only then is it kept and the changed mark cleared |
| ConfigPanel.ConfigPanelWindow.OnClosing | gui/config_panel.py:714-728 | closes at once without changes; with changes, "yes" closes only when the save cleared the mark, "no" closes unsaved, "cancel" does nothing |
| Gui.Priority | gui/main_window.py:1623-1633 | every level ranks 10, 20, 30, 40 or 50, compared without regard to case; SUCCESS ranks with INFO and unknown names rank as INFO |
| Gui.ShouldLogLevelMonotone | gui/main_window.py:1635-1644 | the log filter is a threshold: a level at least as high as one that passes also passes |
| Gui.ShouldLogLevelExtremes | gui/main_window.py:1635-1644 | CRITICAL always passes; DEBUG passes exactly when DEBUG is the configured level |
| Gui.ShouldLogLevelIgnoresCase | gui/main_window.py:1636-1638 | the message level and the configured level compare without regard to case |
| Gui.FormatTwins | gui/main_window.py:2192-2204 | the window's formatter and the idle detector's formatter render every duration alike |
| Gui.RoundMinutes | gui/main_window.py:1817 | Python's `round`: within half a minute of the seconds, a tie going to the even minute |
| Gui.CooldownText | gui/main_window.py:1812-1822 | the no-cooldown text exactly when nothing remains; whole minutes, at least one, from a minute up; exact seconds below a minute |
| Gui.UnpaddedTimeAccepted | gui/main_window.py:1981 | the configuration check accepts a time with a one-digit hour |
| Gui.UnpaddedTimeNeverFires | gui/main_window.py:1985-1992 | a one-digit-hour time such as `5:00` passes the configuration check but matches no clock reading, so the scheduled run never starts |
| Gui.ParseClockTime | gui/main_window.py:1981 | every accepted time parses to an hour 0-23 and a minute 0-59 |
| Gui.AcceptedTimeFires | gui/main_window.py:1985-1992 | with the corrected match, every accepted time fires at the hour and minute it names on a listed day |
| Gui.ParseClockText | gui/main_window.py:1985 | a clock text parses back to its hour and minute |
| Gui.ClockTextInjective | gui/main_window.py:1985 | different clock readings give different texts |
| Gui.CorrectedAgreesOnPadded | gui/main_window.py:1985-1992 | on zero-padded times the corrected match agrees with the match as written |
| Gui.SpawnNeedsFreeSlot | gui/main_window.py:2000-2005 | a pass starts a run only when none is in flight and the cooldown is over; it never touches the counters or the cooldown (see also lines 2085-2098) |
| Gui.IdleEdge | gui/main_window.py:1968-1970 | the idle trigger fires only on the rising edge; the edge state follows the reading while idle triggering is on and is reset while it is off; with both triggers off the pass only sleeps 30 s (see also lines 2077-2080, 2140-2143) |
| Gui.StayingIdleNeverRefires | gui/main_window.py:2077-2080 | two passes at the threshold start at most one idle run (see also line 2140) |
| Gui.RisingEdgeFires | gui/main_window.py:2077-2098 | a rising edge with no run in flight and no cooldown does start a run, stamping the idle trigger time when it is the idle one |
| Gui.ScheduleThrottled | gui/main_window.py:1977-1978 | schedule checks are at least 60 s apart, and a scheduled run needs a matching time and day (see also line 1994) |
| Gui.OneScheduledRunPerMinute | gui/main_window.py:1977-1978 | two passes within a minute start at most one scheduled run |
| Gui.FinishBookkeeping | gui/main_window.py:1540-1596 | the end of a run moves exactly one counter and clears the run flag; the cooldown is stamped after a success and after a failed manual or scheduled run, never after a failed idle run or a run that raised (see also lines 2012-2050, 2104-2127) |
| Gui.ManualRequestGuard | gui/main_window.py:1527-1529 | the button does nothing while a run is in flight, and otherwise starts a manual run whatever the cooldown |
| Gui.StepsKeepConsistent | gui/main_window.py:1531-1596 | every step keeps the run flag set exactly while a run is in flight (see also lines 2005, 2098) |
| Gui.ReplayBookkeeping | gui/main_window.py:1522-2143 | over any sequence of passes, presses and run ends the run flag stays in step and every finished run is counted exactly once |
| Gui.MainWindow.constructor | gui/main_window.py:114-122 | nothing has run, the counters are zero and the global cooldown is reset (see also lines 193-202) |
| Gui.MainWindow.ScheduledPass | gui/main_window.py:1975-2060 | the scheduled part of a pass changes the state as `ScheduledPhase` defines |
| Gui.MainWindow.IdlePass | gui/main_window.py:2063-2143 | the idle part of a pass changes the state as `IdlePhase` defines |
| Gui.MainWindow.MonitorPass | gui/main_window.py:1957-2146 | one pass of the monitor loop gives the state, the spawned run and the sleep `Iterate` defines, and changes nothing but the loop state |
| Gui.MainWindow.RunSyncWorkflow | gui/main_window.py:1522-1600 | the button press changes the state as `ManualRequest` defines |
| Gui.MainWindow.FinishRun | gui/main_window.py:1540-1596 | the end of the run thread changes the state as `Finish` defines (see also lines 2012-2050, 2104-2127) |
| Gui.MainWindow.Drive | gui/main_window.py:1522-2143 | the window driven through events ends in the state `Replay` defines, still valid |
| Gui.MainWindow.ScheduleGuiUpdate | gui/main_window.py:2206-2231 | a pending update is kept; otherwise the text is queued, or the queue is emptied when the main loop has not started |
| Gui.MainWindow.PerformGuiUpdate | gui/main_window.py:2233-2243 | a non-empty pending text is shown and remembered; the pending flag is always cleared |
| Gui.MainWindow.UpdateSystemIdleDisplay | gui/main_window.py:2170-2187 | an update is queued only when the formatted idle time differs from the one shown |
| Gui.MainWindow.UpdateCooldownDisplayOnly | gui/main_window.py:1795-1830 | the label is redrawn exactly when the cooldown text, or the no-cooldown text after an error, differs from the last one shown |
| Startup.HeadBefore | core/startup_manager.py:109 | the head taken by `split(' --')[0]` is a prefix of the command |
| Startup.HeadBeforeFirst | core/startup_manager.py:109 | the head stops exactly at the first occurrence of ` --`, or is the whole command when there is none |
| Startup.HeadOfBuilt | core/startup_manager.py:50-55 | the head of a command `enable_startup` built is the quoted path (see also line 109) |
| Startup.PathRoundTrip | core/startup_manager.py:50-55 | reading back a built command gives the path that was written, for any path without ` --` and without a quote at either end (see also lines 109-110) |
| Startup.MinimizedRoundTrip | core/startup_manager.py:50-55 | reading back a built command gives the minimised flag that was written (see also line 111) |
| Startup.GetStartupStatus | core/startup_manager.py:93-119 | no registered command gives the all-off status; a registered one is reported with the path parsed from it |
| Startup.EnabledMatchesStatus | core/startup_manager.py:29-38 | `is_startup_enabled` holds exactly when the status is enabled and its path exists (see also lines 93-119) |
| Startup.EnableStartup | core/startup_manager.py:40-63 | succeeds exactly when the registry grants access, and then registers the built command; on failure, a missing key included, the value is unchanged and the message carries the error text |
| Startup.DisableStartup | core/startup_manager.py:65-78 | fails only on an error other than a missing key or value, which leaves the value and is reported with its text; a missing key or value reports "not set"; success leaves no command |
| Startup.EnableThenStatus | core/startup_manager.py:40-63 | after enabling, the status reports the path and the minimised flag asked for, and start-at-login is on exactly when the path exists (see also lines 93-119) |
| Startup.DisableThenStatus | core/startup_manager.py:65-119 | after a successful disable, start-at-login is off |
| AutoLogin.IsWeChatWindow | core/wechat_auto_login.py:70-93 | a window is WeChat's exactly when its title holds one of the four indicators or its class holds one of the three class names |
| AutoLogin.KeptWindowsExact | core/wechat_auto_login.py:34-62 | the windows kept are exactly the enumerated ones with a title that WeChat's test accepts |
| AutoLogin.FindWeChatWindows | core/wechat_auto_login.py:30-68 | the enumeration callback collects `KeptWindows`, in enumeration order |
| AutoLogin.ButtonLikeIgnoresCase | core/wechat_auto_login.py:115-116 | the class test is `button` in any case; the exact-case `Button` test adds nothing |
| AutoLogin.ButtonsOfExact | core/wechat_auto_login.py:99-130 | every recorded button comes from a button-like child whose rectangle was read, and every such child is recorded |
| AutoLogin.FindLoginButton | core/wechat_auto_login.py:95-136 | the child enumeration collects `ButtonsOf`, in order |
| AutoLogin.FirstUsable | core/wechat_auto_login.py:247-258 | the index found is the first usable button of the rank, and none means no usable button has it |
| AutoLogin.SelectBestLoginButton | core/wechat_auto_login.py:236-258 | none exactly when no button is visible and enabled; otherwise the first usable one that says login, else the first that says enter, else the first usable one |
| AutoLogin.UsableButtons | core/wechat_auto_login.py:242-244 | the usable list is empty exactly when no button is visible and enabled |
| AutoLogin.UsableOfEmpty | core/wechat_auto_login.py:242-244 | the filtered list is empty exactly when no button is visible and enabled |
| AutoLogin.FirstRanked | core/wechat_auto_login.py:247-258 | the first button of a rank among the usable ones is the first usable one of that rank in the whole list |
| AutoLogin.NoneRanked | core/wechat_auto_login.py:247-258 | no usable button of a rank means none in the whole list |
| AutoLogin.Centre | core/wechat_auto_login.py:146-147 | the centre is the floor of the midpoint of each pair of edges (see also lines 218-219) |
| AutoLogin.CentreInside | core/wechat_auto_login.py:146-147 | the centre of a rectangle lies inside it (see also lines 218-219) |
| AutoLogin.Pow2 | core/wechat_auto_login.py:154 | a helper for the shift: every power of two is at least 1 |
| AutoLogin.Pow2Sum | core/wechat_auto_login.py:154 | a helper for the shift: powers of two multiply by adding exponents |
| AutoLogin.Pow2Of16 | core/wechat_auto_login.py:154 | a helper for the shift: `1 << 16` is 65536 |
| AutoLogin.LParamAsWrittenPacks | core/wechat_auto_login.py:154 | for `x` in 0..65535 and `y` not negative the parameter holds `x` in the low sixteen bits and `y` above |
| AutoLogin.NegativeXLosesY | core/wechat_auto_login.py:154 | a negative `x` gives `x` itself as the parameter, whatever `y` is |
| AutoLogin.LParamRoundTrip | core/wechat_auto_login.py:154 | with each coordinate masked to sixteen bits, every signed sixteen-bit pair is read back unchanged |
| AutoLogin.TryWindow | core/wechat_auto_login.py:187-228 | a click goes out for a window exactly when it is shown, a usable button is found, and the button click or the window click succeeds |
| AutoLogin.DetectAndLogin | core/wechat_auto_login.py:166-234 | the outcome `Detect` defines over the rounds before the timeout; true exactly when a click went out |
| AutoLogin.NotRunningFirst | core/wechat_auto_login.py:173-175 | with WeChat not running at the first poll, nothing is tried |
| AutoLogin.ClickedMeansButton | core/wechat_auto_login.py:171-228 | a reported click happened in a round where WeChat ran and some shown window had a usable button |
| DebugSwitches.GuiComponentDebug | debug_control/debug_manager.py:77-81 | off when GUI debugging is off or the component or its `enabled` entry is missing; otherwise the entry |
| DebugSwitches.IconSetting | debug_control/debug_manager.py:83-87 | the caller's default when icon debugging is off or the name is missing; otherwise the setting |
| DebugSwitches.PerformanceThreshold | debug_control/debug_manager.py:89-91 | the named threshold, or 100 ms for an unknown name |
| DebugSwitches.StatusSummary | debug_control/debug_manager.py:42-52 | the three master switches, as configured (see also lines 93-99) |
| DebugSwitches.ShippedQuiet | debug_control/debug_config.py:13-19 | as shipped no GUI component is debugged, every icon setting is the caller's default, and the fast and very slow thresholds are 50 and 500 ms (see also lines 27-32, 40-58, 63-70) |
| DebugSwitches.GuiComponentsWhenOn | debug_control/debug_config.py:40-58 | with GUI debugging on, exactly the four listed components are enabled |
| DebugSwitches.DebugManagerHolder.Get | debug_control/debug_manager.py:26-40 | the first call creates the manager over the given constants; later calls return the same one |
| DebugSwitches.SameInstance | debug_control/debug_manager.py:26-40 | two constructions give the same object |
| Logging.MethodLevel | core/logger_helper.py:275 | the logger method named picks its level; any other name falls back to info |
| Logging.ConsoleLevelFor | core/logger_helper.py:261-269 | the console level changes exactly for the four known names, to that name's level |
| Logging.WithDetails | core/logger_helper.py:391-392 | ` - details` is appended exactly when there are details (see also lines 398-399, 405-406) |
| Logging.SyncLevel | core/logger_helper.py:408-413 | an error exactly when the lower-cased result is one of the three failure words, info otherwise |
| Logging.SyncLevelIgnoresCase | core/logger_helper.py:410 | `ERROR` and `Error` are failures, `Success` is not |
| Logging.InsertDesc | core/logger_helper.py:202 | inserting adds exactly the one file, placed after every file at least as new |
| Logging.SortNewestFirst | core/logger_helper.py:202 | the sort is a permutation of the files found |
| Logging.InsertKeepsOrder | core/logger_helper.py:202 | inserting into a newest-first list keeps it newest first |
| Logging.SortIsOrdered | core/logger_helper.py:202 | the sorted files are newest first |
| Logging.KeepNewest | core/logger_helper.py:198-203 | with more than `keep` files exactly `keep` stay, none older than a file marked for deletion, and the two parts together are the files found |
| Logging.DeletionLines | core/logger_helper.py:205-212 | one main-log record per unlink attempt, in order |
| Logging.RemovedAreMarked | core/logger_helper.py:205-212 | a file is removed exactly when it was marked and its unlink did not raise |
| Logging.CleanupRemovesOnlyOld | core/logger_helper.py:193-216 | nothing is removed when there are at most `keep` files; otherwise exactly the files beyond the newest `keep` whose unlink succeeds |
| Logging.LoggerHelper.constructor | core/logger_helper.py:36-55 | debug mode off, no GUI callback; the main log holds exactly the reports of the setup cleanups; a console at info only when one is used; a performance log only when performance debugging is on (see also lines 86-191) |
| Logging.LoggerHelper.SetupCleanups | core/logger_helper.py:123 | the main directory is cleaned keeping ten files, then each switched-on debug directory keeping five, and the main log gains their reports in that order (see also lines 153, 171, 189) |
| Logging.QuietSetup | core/logger_helper.py:193-216 | setup adds nothing to the main log exactly when every directory it cleans lists at most its keep count (see also lines 123, 153) |
| Logging.LoggerHelper.SetGuiCallback | core/logger_helper.py:227-233 | records go to the GUI from now on |
| Logging.LoggerHelper.SetDebugMode | core/logger_helper.py:235-244 | debug mode is as asked, and an existing console shows debug records exactly in debug mode |
| Logging.LoggerHelper.SetLogLevelFromConfig | core/logger_helper.py:246-269 | debug mode is on exactly for `debug` in any case; the console level follows the four known names and is unchanged for any other |
| Logging.LoggerHelper.LogAndGui | core/logger_helper.py:271-281 | one main-log record at the named level, and the upper-cased level and message to the GUI when a callback is set |
| Logging.LoggerHelper.Debug | core/logger_helper.py:287-290 | outside debug mode neither the main log nor the GUI changes; in debug mode one debug record, and the GUI, when a callback is set, receives it at `DEBUG` |
| Logging.LoggerHelper.Info | core/logger_helper.py:292-294 | one info record; the GUI, when a callback is set, receives the same message at `INFO`, and nothing otherwise |
| Logging.LoggerHelper.Warning | core/logger_helper.py:296-298 | one warning record; the GUI, when a callback is set, receives the same message at `WARNING`, and nothing otherwise |
| Logging.LoggerHelper.Error | core/logger_helper.py:300-302 | one error record; the GUI, when a callback is set, receives the same message at `ERROR`, and nothing otherwise |
| Logging.LoggerHelper.Critical | core/logger_helper.py:304-306 | one critical record; the GUI, when a callback is set, receives the same message at `CRITICAL`, and nothing otherwise |
| Logging.LoggerHelper.PrintInfo | core/logger_helper.py:309-312 | one info record of the arguments joined by spaces; the GUI, when a callback is set, receives the same message at `INFO`, and nothing otherwise |
| Logging.LoggerHelper.PrintDebug | core/logger_helper.py:314-317 | the joined arguments as a debug record and a `DEBUG` GUI line (when a callback is set), only in debug mode; otherwise nothing changes |
| Logging.LoggerHelper.PrintError | core/logger_helper.py:319-322 | one error record of the joined arguments; the GUI, when a callback is set, receives the same message at `ERROR`, and nothing otherwise |
| Logging.LoggerHelper.PrintWarning | core/logger_helper.py:324-327 | one warning record of the joined arguments; the GUI, when a callback is set, receives the same message at `WARNING`, and nothing otherwise |
| Logging.LoggerHelper.PerfDebug | core/logger_helper.py:330-350 | a main-log warning naming the threshold, also sent to the GUI at `WARNING`, exactly when the duration exceeds it; otherwise the main log and the GUI are unchanged; the performance log, if any, gets that warning or a debug record |
| Logging.LoggerHelper.GuiUpdateDebug | core/logger_helper.py:352-354 | over 50 ms: a main-log warning `[性能] GUI更新-component` naming the 0.050 s threshold, also sent to the GUI; otherwise main log and GUI unchanged; the performance log, if any, gets that warning or a debug record |
| Logging.LoggerHelper.ApiCallDebug | core/logger_helper.py:356-358 | over 200 ms: a main-log warning `[性能] API调用-api` naming the 0.200 s threshold, also sent to the GUI; otherwise main log and GUI unchanged; the performance log, if any, gets that warning or a debug record |
| Logging.LoggerHelper.SystemStatus | core/logger_helper.py:388-393 | one info record `[系统] component: status`, with the details when given; the GUI, when a callback is set, receives the same message at `INFO`, and nothing otherwise |
| Logging.LoggerHelper.UserAction | core/logger_helper.py:395-400 | one info record `[用户] action`, with the details when given; the GUI, when a callback is set, receives the same message at `INFO`, and nothing otherwise |
| Logging.LoggerHelper.SyncOperation | core/logger_helper.py:402-413 | one record `[同步] operation: result` at the level `SyncLevel` gives; the GUI, when a callback is set, receives it at `ERROR` or `INFO` to match, and nothing otherwise |
| Logging.LoggerHelper.CleanupOldLogs | core/logger_helper.py:193-216 | a failed listing logs one error and removes nothing; otherwise exactly the files `CleanupRemovesOnlyOld` describes are removed, each attempt logged to the main log only |
| Logging.LoggerHelper.UnlinkAll | core/logger_helper.py:205-212 | the loop removes exactly the marked files whose unlink does not raise, in order, and logs one record per attempt |
| Logging.LoggerHolder.Get | core/logger_helper.py:28-40 | the first call creates the helper, whose main log holds the setup cleanups' reports; later calls return the same one |

## Left out

- Win32, psutil, `tasklist`, `Popen` and `winreg` are never called. Their answers are parameters: process lists, command output, exit statuses, registry values, the sets of existing paths and enumerated windows.
- Threads, locks, `time.sleep` and `root.after` are not modelled. A run thread is a sequence of steps (`Gui.Event`), and a sleep is a number the step returns. The race between testing and setting the run flag is not modelled.
- Floating point is not modelled. Cooldown, idle and wait lengths are whole minutes or seconds, idle time is whole milliseconds, and durations in the performance log are whole milliseconds shown with three decimals.
- JSON files (the cooldown state, the configuration, the settings window's save) are in-memory values. A failed read or write is a parameter. Dictionary order is not modelled.
- The `schedule` library's jobs are opaque handles. The model does not say when they fire.
- Scheduler.AtAccepts: the `schedule` library's code is not part of this model. Its `Job.at` checks are modelled as its published patterns: `HH:MM(:SS)?` with an hour of at most 23 for day-unit and weekday jobs, `(MM)?:SS` for hourly, `:SS` for minutely, and none for other units. Only ASCII digits count as digits; Python's `\d` also matches other decimal digits.
- Exception texts are parameters. The monitor loops' catch-all handlers (log the error and sleep 60 s) are not modelled.
- Gui.MainWindow.ScheduleGuiUpdate: a `RuntimeError` other than "main thread is not in main loop" leaves the pending flag set, so later idle updates are dropped. The model shows this but does not log the error.
- Gui: the per-30-second debug lines, the status-cache refresh after a run and the stats-label redraw are not modelled. Only the run and label state they touch is.
- Gui: the days check lower-cases the configured days. The command-line monitor's `"daily"` test is case-sensitive, and both are modelled as written.
- ConfigPanel.ConfigPanelWindow.LoadConfigToUi: the values the window shows for missing keys (idle 1 minute, cooldown 20, time 16:30, wait 2 minutes) are a parameter. They differ from the configuration manager's defaults (idle 10, cooldown 60, time 05:00). Only the day boxes, the close label and whether the load fails are computed from the configuration. The scalar widget values are the parameter whole, even when the load stops part way; the model does not track which of them were set before the raise. The startup manager query is not modelled beyond whether it raised (`startupQueryOk`). The strings Tcl reads as booleans (its yes/no/true/false/on/off words and their prefixes in any case, and numbers) are the parameter `tclBooleans`.
- Text.ParseInt: Python's `int()` is modelled for surrounding whitespace, an optional sign and ASCII digits. Underscores between digits and non-ASCII digits are not modelled, and nor is case mapping beyond ASCII.
- Startup: the executable path and the registry value are parameters.
- AutoLogin: the button's screen coordinates are sent as if they were client coordinates, as the code does. `wait_for_login_completion` and `auto_login_after_restart` only poll and sleep, and are not modelled.
- WeChat: `start_wechat_sync` and the controllers' `main` argument handling beyond the exit status are not modelled. The dictionaries `get_wechat_status` and `get_onedrive_status` return are not modelled; whether they raise is (`StatusRaises`). OneDrive: `resume_onedrive_sync_old` is a legacy path unused by the workflow and is not modelled.
- Processes.FallbackScan: `psutil.pids()` raising, which nothing in the fallback catches, is not modelled. A process that vanishes or is denied during either loop is skipped, so it is simply absent from `yielded` or `pidProcs`.
- OneDrive.Countdown: `announced` holds the ten-second announcements only. The per-second lines of the last stretch are not recorded, but their sleeps are.
- Logging.LoggerHelper.constructor: opening log files and creating handlers is not modelled. The logger itself is always set before that step. A failure there leaves it without its file handler and skips that directory's cleanup, so its report is missing from the main log; the model assumes every log file opens. What the log directories list during setup (including the file just opened) is a parameter.
- Logging: the `_should_use_console` environment test is a parameter.
- Logging: `gui_debug` and `icon_debug` write to logs that exist only when debugging is switched on, and are not modelled.
- Logging: a GUI callback that raises (which logs "GUI日志回调失败") is not modelled.
- Logging.MethodLevel: `getattr` is modelled for the five level names only. Any other attribute name falls back to info, even one the logger has.
- Logging: the module-level shortcuts (`log_info`, `enable_debug` and the like) only call the singleton's methods, which are modelled.
- DebugSwitches: `get_performance_config`, `get_gui_config` and `get_icon_config` return the constants unchanged. `SYNC_DEBUG_ENABLED` is the `debug` parameter of `SyncWorkflow.RunFullSyncWorkflowGui`.
- Performance instrumentation, the tray icon, dialogs and widget layout are not part of this model.

## Findings

| source | as written | input that shows it | evidently intended | confidence | as-written member | corrected member |
|---|---|---|---|---|---|---|
| core/idle_detector.py:37-41 | `GetTickCount()` is read through ctypes' default signed 32-bit return type, while `dwTime` is unsigned. Past 2^31 ms of uptime the difference is negative and is clamped to 0. | uptime 2^31 ms plus ten idle minutes: the reading is 0 instead of 600 s | the tick difference modulo 2^32 | medium, not executed | Idle.AsWrittenLosesIdleAfter2To31 | Idle.IdleMillisExact |
| core/sync_workflow.py:75, 93, 123 | the command-line workflow judges each controller by its exit status, but the controllers' `main` exits 0 whatever the stop, resume or start achieved (core/wechat_controller.py:429-455, core/onedrive_controller.py:390-425) | WeChat cannot be stopped: the run still reports success | a failed step makes the run fail, as in the GUI workflow | high, not executed | SyncWorkflow.CliMissesControllerFailure | SyncWorkflow.CliSeesControllerFailure |
| gui/main_window.py:1985-1992 | the schedule matches the clock's zero-padded `HH:MM` text against the configured string, but validation accepts a one-digit hour (core/config_manager.py:330-337) | `scheduled_time = "5:00"`: accepted, and it never fires | compare the parsed hour and minute | high, not executed | Gui.UnpaddedTimeNeverFires | Gui.AcceptedTimeFires |
| core/sync_monitor.py:84-87, 144, 210-211 | the idle check claims the cooldown, then `_execute_sync_workflow` claims it again, sees the fresh stamp and refuses | any idle trigger with `global_cooldown_minutes > 0`: the workflow never runs | the workflow runs once the idle trigger has claimed the cooldown | high, not executed | Monitor.SyncMonitor.MonitorStep | Monitor.SyncMonitor.MonitorStepCorrected |
| core/wechat_auto_login.py:154 | `lParam = (y << 16) \| x` on Python integers; a negative `x` sign-extends over `y` | `x = -10` (a window left of the primary monitor): `lParam == -10` for every `y` | `MAKELPARAM`: each coordinate masked to 16 bits | high, not executed | AutoLogin.NegativeXLosesY | AutoLogin.LParamRoundTrip |
