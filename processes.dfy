/**
 * What the OneDrive and WeChat controllers share (core/onedrive_controller.py,
 * core/wechat_controller.py): reading `tasklist /fo csv` output, checking each
 * PID against the live process table, the psutil fallback, the five-second
 * status cache and the terminate/kill/re-check stop sequence.
 */
module Processes {
  import opened Wrappers
  import opened Text

  /** A live process: its PID and image name. */
  datatype Proc = Proc(pid: int, name: string)

  /** One `tasklist` run: its exit status and text, or a timeout/other exception. */
  datatype TasklistRun = Output(returnCode: int, stdout: string) | Raised

  /** `p.strip(' "')` on each CSV field. */
  const CsvTrim: set<char> := {' ', '"'}

  /** `stdout.strip().split('\n')` without the header line. */
  function DataLines(stdout: string): seq<string>
  {
    var t := Strip(stdout, Whitespace);
    if t == [] then [] else Split(t, '\n')[1..]
  }

  /** The PID field of a line that mentions the image name, when it is an integer. */
  function LinePid(line: string, image: string): Option<int>
  {
    if !Contains(line, image) then None
    else
      var parts := Split(line, ',');
      if |parts| >= 2 then ParseInt(Strip(parts[1], CsvTrim)) else None
  }

  function Quoted(s: string): string { "\"" + s + "\"" }

  /**
   * A CSV row as `tasklist /fo csv` prints it, `"image","pid",...`, yields
   * its PID (the later fields may themselves hold commas).
   */
  lemma RowPid(image: string, pid: nat, tail: string)
    requires ',' !in image
    requires tail == "" || tail[0] == ','
    ensures LinePid(Quoted(image) + "," + Quoted(NatToString(pid)) + tail, image) == Some(pid as int)
  {
    var digits := NatToString(pid);
    var line := Quoted(image) + "," + Quoted(digits) + tail;
    assert line[1..1 + |image|] == image;
    assert OccursAt(line, image, 1);
    ContainsAt(line, image, 1);
    assert ',' !in digits by {
      forall i | 0 <= i < |digits| ensures digits[i] != ',' { assert IsDigit(digits[i]); }
    }
    SecondField(Quoted(image), Quoted(digits), tail);
    StripQuotedDigits(digits);
    ParseNatToString(pid);
  }

  /** The second comma-separated field of `a,b<tail>`, where the tail is empty or starts a new field. */
  lemma SecondField(a: string, b: string, tail: string)
    requires ',' !in a && ',' !in b
    requires tail == "" || tail[0] == ','
    ensures |Split(a + "," + b + tail, ',')| >= 2 && Split(a + "," + b + tail, ',')[1] == b
  {
    var rest := b + tail;
    assert a + "," + b + tail == a + [','] + rest;
    SplitAfterFirst(a, ',', rest);
    FirstField(b, tail);
  }

  /** The first comma-separated field of `b<tail>`, where the tail is empty or starts a new field. */
  lemma FirstField(b: string, tail: string)
    requires ',' !in b
    requires tail == "" || tail[0] == ','
    ensures Split(b + tail, ',')[0] == b
  {
    if tail == "" {
      assert b + tail == b;
      SplitNoSeparator(b, ',');
    } else {
      assert b + tail == b + [','] + tail[1..];
      SplitAfterFirst(b, ',', tail[1..]);
    }
  }

  lemma StripQuotedDigits(digits: string)
    requires |digits| >= 1 && AllDigits(digits)
    ensures Strip(Quoted(digits), CsvTrim) == digits
  {
    var q := Quoted(digits);
    var inner := digits + "\"";
    assert IsDigit(digits[0]) && IsDigit(digits[|digits| - 1]);
    assert digits[0] !in CsvTrim && digits[|digits| - 1] !in CsvTrim;
    assert q[0] in CsvTrim && q[1..] == inner;
    assert inner[0] == digits[0];
    assert StripLeft(inner, CsvTrim) == inner;
    assert StripLeft(q, CsvTrim) == inner;
    assert inner[|inner| - 1] in CsvTrim && inner[..|inner| - 1] == digits;
    assert StripRight(digits, CsvTrim) == digits;
    assert StripRight(inner, CsvTrim) == digits;
  }

  /**
   * `psutil.pid_exists(pid)` and `Process(pid).name().lower() in accepted`,
   * with `table` the live processes by PID.
   */
  function Verify(pid: int, table: map<int, string>, accepted: set<string>): seq<Proc>
  {
    if pid in table && Lower(table[pid]) in accepted then [Proc(pid, table[pid])] else []
  }

  function LineProcs(line: string, image: string, table: map<int, string>, accepted: set<string>): seq<Proc>
  {
    match LinePid(line, image)
    case None => []
    case Some(pid) => Verify(pid, table, accepted)
  }

  /** The processes the data lines yield, in line order. */
  function MatchingProcs(lines: seq<string>, image: string, table: map<int, string>, accepted: set<string>): seq<Proc>
    decreases |lines|
  {
    if lines == [] then []
    else MatchingProcs(lines[..|lines| - 1], image, table, accepted) + LineProcs(lines[|lines| - 1], image, table, accepted)
  }

  /** The processes one successful `tasklist` run yields. */
  function RunProcs(run: TasklistRun, image: string, table: map<int, string>, accepted: set<string>): seq<Proc>
    requires run.Output?
  {
    if run.returnCode == 0 then MatchingProcs(DataLines(run.stdout), image, table, accepted) else []
  }

  /** The tasklist search over several image names; `None` when any run raised. */
  function TasklistSearch(runs: seq<TasklistRun>, images: seq<string>, table: map<int, string>, accepted: set<string>): Option<seq<Proc>>
    requires |runs| == |images|
    decreases |runs|
  {
    if runs == [] then Some([])
    else
      var n := |runs| - 1;
      match TasklistSearch(runs[..n], images[..n], table, accepted)
      case None => None
      case Some(ps) => if runs[n].Raised? then None else Some(ps + RunProcs(runs[n], images[n], table, accepted))
  }

  /**
   * What the psutil fallback walks: the processes `process_iter` yields (up
   * to the point where it raises, when it does), whether it raised, and the
   * processes the `psutil.pids()` loop then opens.
   */
  datatype PsutilWalk = PsutilWalk(yielded: seq<Proc>, iterRaised: bool, pidProcs: seq<Proc>)

  /** The processes of `ps` whose lower-cased name is `wanted`, in order. */
  function Named(ps: seq<Proc>, wanted: string): (r: seq<Proc>)
    ensures forall p :: p in r <==> p in ps && Lower(p.name) == wanted
    decreases |ps|
  {
    if ps == [] then []
    else
      var n := |ps| - 1;
      assert ps == ps[..n] + [ps[n]];
      Named(ps[..n], wanted) + (if Lower(ps[n].name) == wanted then [ps[n]] else [])
  }

  /**
   * What the `psutil.pids()` loop adds, which only runs once `process_iter`
   * raised. These objects come from `psutil.Process(pid)` and carry no `info`.
   */
  function FromPids(w: PsutilWalk, wanted: string): seq<Proc>
  {
    if w.iterRaised then Named(w.pidProcs, wanted) else []
  }

  /** The `psutil.pids()` loop adds nothing exactly when it does not run or opens no process named `wanted`. */
  lemma FromPidsEmpty(w: PsutilWalk, wanted: string)
    ensures FromPids(w, wanted) == [] <==> !(w.iterRaised && exists p :: p in w.pidProcs && Lower(p.name) == wanted)
  {
    var r := FromPids(w, wanted);
    if r != [] {
      assert r[0] in r;
    }
  }

  /**
   * `find_*_processes_fallback`: the processes named `wanted` that
   * `process_iter` yielded, then, when it raised, those the `psutil.pids()`
   * loop opened. A process both yielded before the raise and opened again
   * is listed twice.
   */
  function Fallback(w: PsutilWalk, wanted: string): (r: seq<Proc>)
    ensures forall p :: p in r <==> Lower(p.name) == wanted && (p in w.yielded || (w.iterRaised && p in w.pidProcs))
  {
    Named(w.yielded, wanted) + FromPids(w, wanted)
  }

  /** When `process_iter` raises after yielding a process, the fallback reports that process twice. */
  lemma FallbackRepeats(p: Proc, wanted: string)
    requires Lower(p.name) == wanted
    ensures Fallback(PsutilWalk([p], true, [p]), wanted) == [p, p]
  {
    assert [p][..0] == [];
    assert Named([p], wanted) == Named([], wanted) + [p];
  }

  /** The pass of one fallback loop over `ps`, appending to `found`. */
  method ScanNamed(ps: seq<Proc>, wanted: string, found0: seq<Proc>) returns (found: seq<Proc>)
    ensures found == found0 + Named(ps, wanted)
  {
    found := found0;
    var i := 0;
    while i < |ps|
      invariant 0 <= i <= |ps|
      invariant found == found0 + Named(ps[..i], wanted)
    {
      assert ps[..i + 1][..i] == ps[..i];
      if Lower(ps[i].name) == wanted {
        found := found + [ps[i]];
      }
      i := i + 1;
    }
    assert ps[..i] == ps;
  }

  /** `find_*_processes_fallback`: the `process_iter` loop, and the `psutil.pids()` loop when it raised. */
  method FallbackScan(w: PsutilWalk, wanted: string) returns (found: seq<Proc>)
    ensures found == Fallback(w, wanted)
  {
    found := ScanNamed(w.yielded, wanted, []);
    if w.iterRaised {
      found := ScanNamed(w.pidProcs, wanted, found);
    }
  }

  /** Whatever the tasklist search reports is a live process with an accepted name. */
  lemma {:induction false} MatchingProcsSound(lines: seq<string>, image: string, table: map<int, string>, accepted: set<string>)
    ensures forall p :: p in MatchingProcs(lines, image, table, accepted) ==>
      p.pid in table && table[p.pid] == p.name && Lower(p.name) in accepted
    decreases |lines|
  {
    if lines != [] {
      MatchingProcsSound(lines[..|lines| - 1], image, table, accepted);
    }
  }

  lemma {:induction false} TasklistSearchSound(runs: seq<TasklistRun>, images: seq<string>, table: map<int, string>, accepted: set<string>)
    requires |runs| == |images|
    ensures TasklistSearch(runs, images, table, accepted).Some? ==>
      forall p :: p in TasklistSearch(runs, images, table, accepted).value ==>
        p.pid in table && table[p.pid] == p.name && Lower(p.name) in accepted
    decreases |runs|
  {
    if runs != [] {
      var n := |runs| - 1;
      TasklistSearchSound(runs[..n], images[..n], table, accepted);
      if runs[n].Output? && runs[n].returnCode == 0 {
        MatchingProcsSound(DataLines(runs[n].stdout), images[n], table, accepted);
      }
    }
  }

  /** The search raises (and the fallback is used) exactly when some run raised. */
  lemma {:induction false} TasklistSearchRaises(runs: seq<TasklistRun>, images: seq<string>, table: map<int, string>, accepted: set<string>)
    requires |runs| == |images|
    ensures TasklistSearch(runs, images, table, accepted).None? <==> exists i :: 0 <= i < |runs| && runs[i].Raised?
    decreases |runs|
  {
    if runs != [] {
      var n := |runs| - 1;
      var pre := runs[..n];
      TasklistSearchRaises(pre, images[..n], table, accepted);
      if TasklistSearch(pre, images[..n], table, accepted).None? {
        var i :| 0 <= i < n && pre[i].Raised?;
        assert runs[i].Raised?;
      } else {
        forall i | 0 <= i < n
          ensures !runs[i].Raised?
        {
          assert runs[i] == pre[i];
        }
        if runs[n].Raised? {
          assert 0 <= n < |runs| && runs[n].Raised?;
        }
      }
    }
  }

  /** The scan over one run's data lines (the inner loop of `find_*_processes_optimized`). */
  method ScanLines(lines: seq<string>, image: string, table: map<int, string>, accepted: set<string>)
    returns (found: seq<Proc>)
    ensures found == MatchingProcs(lines, image, table, accepted)
  {
    found := [];
    var i := 0;
    while i < |lines|
      invariant 0 <= i <= |lines|
      invariant found == MatchingProcs(lines[..i], image, table, accepted)
    {
      assert lines[..i + 1][..i] == lines[..i];
      var pid := LinePid(lines[i], image);
      if pid.Some? && pid.value in table && Lower(table[pid.value]) in accepted {
        found := found + [Proc(pid.value, table[pid.value])];
      }
      i := i + 1;
    }
    assert lines[..i] == lines;
  }

  /** One more run on top of a search that has not raised. */
  lemma TasklistSearchStep(runs: seq<TasklistRun>, images: seq<string>, table: map<int, string>,
                           accepted: set<string>, k: nat, ps: seq<Proc>)
    requires |runs| == |images| && k < |runs| && runs[k].Output?
    requires TasklistSearch(runs[..k], images[..k], table, accepted) == Some(ps)
    ensures TasklistSearch(runs[..k + 1], images[..k + 1], table, accepted) == Some(ps + RunProcs(runs[k], images[k], table, accepted))
  {
    assert runs[..k + 1][..k] == runs[..k] && images[..k + 1][..k] == images[..k];
    assert runs[..k + 1][k] == runs[k] && images[..k + 1][k] == images[k];
  }

  /**
   * `find_*_processes_optimized`: one `tasklist` run per image name, each
   * data line that mentions the name parsed and checked against the process
   * table; any run that raises switches to the fallback.
   */
  method FindProcesses(runs: seq<TasklistRun>, images: seq<string>, table: map<int, string>,
                       accepted: set<string>, walk: PsutilWalk, fallbackName: string)
    returns (found: seq<Proc>)
    requires |runs| == |images|
    ensures found == match TasklistSearch(runs, images, table, accepted)
      case Some(ps) => ps
      case None => Fallback(walk, fallbackName)
  {
    found := [];
    var k := 0;
    while k < |runs|
      invariant 0 <= k <= |runs|
      invariant TasklistSearch(runs[..k], images[..k], table, accepted) == Some(found)
    {
      if runs[k].Raised? {
        TasklistSearchPrefixNone(runs, images, table, accepted, k + 1);
        found := FallbackScan(walk, fallbackName);
        return;
      }
      var more: seq<Proc> := [];
      if runs[k].returnCode == 0 {
        more := ScanLines(DataLines(runs[k].stdout), images[k], table, accepted);
      }
      TasklistSearchStep(runs, images, table, accepted, k, found);
      found := found + more;
      k := k + 1;
    }
    assert runs[..k] == runs && images[..k] == images;
  }

  lemma TasklistSearchPrefixNone(runs: seq<TasklistRun>, images: seq<string>, table: map<int, string>,
                                 accepted: set<string>, k: nat)
    requires |runs| == |images| && 1 <= k <= |runs| && runs[k - 1].Raised?
    ensures TasklistSearch(runs, images, table, accepted).None?
  {
    TasklistSearchRaises(runs, images, table, accepted);
  }

  // ---------------------------------------------------------------- status cache

  /** The module-level `_*_status_cache`: last answer and when it was taken. */
  datatype CacheState = CacheState(result: Option<bool>, timestamp: int)

  /** `cache_duration`, in seconds. */
  const CacheSeconds: int := 5

  /** A non-forced check within five seconds of a stored answer is served from the cache. */
  predicate Hit(c: CacheState, now: int, force: bool)
  {
    !force && now - c.timestamp < CacheSeconds && c.result.Some?
  }

  /** `is_*_running(force_refresh)`: the answer and the cache afterwards; `probe` is what a fresh query finds. */
  function CheckRunning(c: CacheState, now: int, force: bool, probe: bool): (r: (bool, CacheState))
    ensures Hit(c, now, force) ==> r == (c.result.value, c)
    ensures !Hit(c, now, force) ==> r == (probe, CacheState(Some(probe), now))
  {
    if Hit(c, now, force) then (c.result.value, c) else (probe, CacheState(Some(probe), now))
  }

  /**
   * After a query at `t`, every non-forced check in the next five seconds
   * returns that answer, whatever the processes do meanwhile.
   */
  lemma CachedAnswerHolds(c: CacheState, t: int, force: bool, probe: bool, later: int, probe2: bool)
    requires !Hit(c, t, force) && t <= later < t + CacheSeconds
    ensures CheckRunning(CheckRunning(c, t, force, probe).1, later, false, probe2).0 == probe
  {
  }

  /** A cleared cache always queries. */
  lemma ClearedCacheQueries(now: int, force: bool, probe: bool)
    ensures CheckRunning(CacheState(None, 0), now, force, probe) == (probe, CacheState(Some(probe), now))
  {
  }

  class StatusCache {
    var state: CacheState

    constructor ()
      ensures state == CacheState(None, 0)
    {
      state := CacheState(None, 0);
    }

    method IsRunning(now: int, force: bool, probe: bool) returns (running: bool)
      modifies this
      ensures (running, state) == CheckRunning(old(state), now, force, probe)
    {
      var age := now - state.timestamp;
      if !force && age < CacheSeconds && state.result.Some? {
        return state.result.value;
      }
      running := probe;
      state := CacheState(Some(running), now);
    }

    /** `clear_*_status_cache`. */
    method Clear()
      modifies this
      ensures state == CacheState(None, 0)
    {
      state := CacheState(None, 0);
    }
  }

  // ---------------------------------------------------------------- stopping

  function Pids(ps: seq<Proc>): (r: seq<int>)
    ensures |r| == |ps| && forall i :: 0 <= i < |ps| ==> r[i] == ps[i].pid
  {
    if ps == [] then [] else [ps[0].pid] + Pids(ps[1..])
  }

  /** What a stop did: the PIDs asked to terminate, those then killed, and the verdict. */
  datatype StopReport = StopReport(ok: bool, terminated: seq<int>, killed: seq<int>)

  /**
   * `stop_onedrive` / `stop_wechat`: nothing found means success at once;
   * otherwise terminate all, wait, kill whatever remains, and succeed only if
   * the final search finds nothing. Per-process errors are swallowed.
   */
  function StopSequence(first: seq<Proc>, remaining: seq<Proc>, final: seq<Proc>): (r: StopReport)
    ensures r.ok <==> first == [] || final == []
    ensures first == [] ==> r.terminated == [] && r.killed == []
    ensures first != [] ==> r.terminated == Pids(first) && r.killed == Pids(remaining)
  {
    if first == [] then StopReport(true, [], [])
    else StopReport(final == [], Pids(first), Pids(remaining))
  }
}
