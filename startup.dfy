/**
 * Start-at-login (core/startup_manager.py): the command line written under
 * the `Run` registry key, and how it is read back. The registry value is a
 * parameter (`None` when it is missing or cannot be opened); whether a file
 * exists is a set of existing paths.
 */
module Startup {
  import opened Wrappers
  import opened Text

  const AppName: string := "WeChatOneDriveTool"
  const MinimizedFlag: string := "--start-minimized"
  const FlagSeparator: string := " --"

  /** `s.split(sep)[0]`: everything before the first occurrence of `sep`. */
  function HeadBefore(s: string, sep: string): (r: string)
    requires sep != []
    ensures r <= s
    decreases |s|
  {
    if |s| < |sep| then s
    else if sep <= s then []
    else [s[0]] + HeadBefore(s[1..], sep)
  }

  /** The head stops at the first occurrence of the separator, or takes all when there is none. */
  lemma {:induction false} HeadBeforeFirst(s: string, sep: string, k: nat)
    requires sep != []
    requires k <= |s|
    requires forall j :: 0 <= j < k ==> !OccursAt(s, sep, j)
    requires OccursAt(s, sep, k) || k + |sep| > |s|
    ensures HeadBefore(s, sep) == (if OccursAt(s, sep, k) then s[..k] else s)
    decreases k
  {
    if k == 0 {
      if OccursAt(s, sep, 0) {
        assert sep <= s;
      } else {
        assert |s| < |sep|;
      }
    } else if |s| >= |sep| {
      HeadStep(s, sep);
      ShiftedFree(s, sep, k);
      HeadBeforeFirst(s[1..], sep, k - 1);
      if OccursAt(s, sep, k) {
        assert [s[0]] + s[1..][..k - 1] == s[..k];
      } else {
        assert [s[0]] + s[1..] == s;
      }
    }
  }

  /** Without the separator at the front, the head keeps the first character. */
  lemma HeadStep(s: string, sep: string)
    requires sep != [] && |s| >= |sep| && !OccursAt(s, sep, 0)
    ensures HeadBefore(s, sep) == [s[0]] + HeadBefore(s[1..], sep)
  {
    assert s[..|sep|] == s[0..0 + |sep|];
  }

  /** The occurrences of `s[1..]` before `k - 1` are those of `s` before `k`, shifted. */
  lemma ShiftedFree(s: string, sep: string, k: nat)
    requires 0 < k <= |s|
    requires forall j :: 0 <= j < k ==> !OccursAt(s, sep, j)
    ensures forall j :: 0 <= j < k - 1 ==> !OccursAt(s[1..], sep, j)
    ensures OccursAt(s[1..], sep, k - 1) <==> OccursAt(s, sep, k)
  {
    forall j | 0 <= j < k - 1
      ensures !OccursAt(s[1..], sep, j)
    {
      OccursShift(s, sep, j);
    }
    OccursShift(s, sep, k - 1);
  }

  /** Dropping the first character moves every occurrence one place to the left. */
  lemma OccursShift(s: string, sep: string, j: nat)
    requires s != []
    ensures OccursAt(s[1..], sep, j) <==> OccursAt(s, sep, j + 1)
  {
    if j + |sep| <= |s[1..]| {
      assert s[1..][j..j + |sep|] == s[j + 1..j + 1 + |sep|];
    }
  }

  /** The command `enable_startup` writes: the quoted path, then the flag when minimised. */
  function BuildCommand(exe: string, minimized: bool): string
  {
    "\"" + exe + "\"" + (if minimized then " " + MinimizedFlag else "")
  }

  /** `command.split(' --')[0].strip('"')`. */
  function ParsePath(command: string): string
  {
    Strip(HeadBefore(command, FlagSeparator), {'"'})
  }

  /** `'--start-minimized' in command`. */
  predicate ParseMinimized(command: string)
  {
    Contains(command, MinimizedFlag)
  }

  /** The paths the path round trip restores: no ` --`, no quote at either end. */
  predicate SeparablePath(exe: string)
  {
    !Contains(exe, FlagSeparator) && (exe != [] ==> exe[0] != '"' && exe[|exe| - 1] != '"')
  }

  /** The paths the whole round trip restores: also no minimised flag inside. */
  predicate PlainPath(exe: string)
  {
    SeparablePath(exe) && !Contains(exe, MinimizedFlag)
  }

  /** A window of `"exe"` that starts and ends inside `exe` is a window of `exe`. */
  lemma QuotedWindow(exe: string, sub: string, i: nat)
    requires OccursAt("\"" + exe + "\"", sub, i)
    requires sub != [] && sub[0] != '"' && sub[|sub| - 1] != '"'
    ensures OccursAt(exe, sub, i - 1)
  {
    var q := "\"" + exe + "\"";
    assert q[0] == '"' && q[|q| - 1] == '"';
    assert i != 0 by { assert q[i] == sub[0]; }
    assert i + |sub| < |q| by { assert q[i + |sub| - 1] == sub[|sub| - 1]; }
    assert q[i..i + |sub|] == exe[i - 1..i - 1 + |sub|];
  }

  /** Quoting adds no occurrence of a text that neither starts nor ends with a quote. */
  lemma QuotedContains(exe: string, sub: string)
    requires sub != [] && sub[0] != '"' && sub[|sub| - 1] != '"'
    requires !Contains(exe, sub)
    ensures forall i: nat :: !OccursAt("\"" + exe + "\"", sub, i)
  {
    forall i: nat | OccursAt("\"" + exe + "\"", sub, i)
      ensures false
    {
      QuotedWindow(exe, sub, i);
      ContainsAt(exe, sub, i - 1);
    }
  }

  /** The head of a built command is the quoted path. */
  lemma HeadOfBuilt(exe: string, minimized: bool)
    requires !Contains(exe, FlagSeparator)
    ensures HeadBefore(BuildCommand(exe, minimized), FlagSeparator) == "\"" + exe + "\""
  {
    var q := "\"" + exe + "\"";
    var c := BuildCommand(exe, minimized);
    QuotedContains(exe, FlagSeparator);
    var k := |q|;
    forall j | 0 <= j < k
      ensures !OccursAt(c, FlagSeparator, j)
    {
      if OccursAt(c, FlagSeparator, j) {
        if j + 3 <= |q| {
          assert c[j..j + 3] == q[j..j + 3];
          assert OccursAt(q, FlagSeparator, j);
        }
      }
    }
    if minimized {
      var tail := " " + MinimizedFlag;
      assert c == q + tail;
      assert tail[..3] == FlagSeparator;
      assert c[k..k + 3] == tail[..3];
    } else {
      assert c == q;
    }
    HeadBeforeFirst(c, FlagSeparator, k);
    assert c[..k] == q;
  }

  /** Reading back a command `enable_startup` wrote gives the same path. */
  lemma PathRoundTrip(exe: string, minimized: bool)
    requires SeparablePath(exe)
    ensures ParsePath(BuildCommand(exe, minimized)) == exe
  {
    HeadOfBuilt(exe, minimized);
    UnquotePlain(exe);
  }

  /** Stripping the quotes off `"exe"` gives back a path that neither starts nor ends with one. */
  lemma UnquotePlain(exe: string)
    requires exe != [] ==> exe[0] != '"' && exe[|exe| - 1] != '"'
    ensures Strip("\"" + exe + "\"", {'"'}) == exe
  {
    Unwrap(exe, '"', {'"'});
  }

  /** Stripping a set of characters off `c x c` leaves `x` when `x` neither starts nor ends with one of them. */
  lemma Unwrap(x: string, c: char, chars: set<char>)
    requires c in chars
    requires x != [] ==> x[0] !in chars && x[|x| - 1] !in chars
    ensures Strip([c] + x + [c], chars) == x
  {
    var q := [c] + x + [c];
    assert q[0] == c && q[1..] == x + [c];
    StripTrailing(x, c, chars);
  }

  /** Stripping `x c` on the left keeps it whole unless `x` is empty; on the right it leaves `x`. */
  lemma StripTrailing(x: string, c: char, chars: set<char>)
    requires c in chars
    requires x != [] ==> x[0] !in chars && x[|x| - 1] !in chars
    ensures Strip(x + [c], chars) == x
  {
    var inner := x + [c];
    if x == [] {
      assert inner[0] == c && inner[1..] == [];
      assert StripLeft(inner, chars) == StripLeft([], chars);
    } else {
      assert inner[0] == x[0];
      assert StripLeft(inner, chars) == inner;
      assert inner[|inner| - 1] == c && inner[..|inner| - 1] == x;
      assert StripRight(inner, chars) == StripRight(x, chars);
    }
  }

  /** Reading back a command `enable_startup` wrote gives the same minimised flag. */
  lemma MinimizedRoundTrip(exe: string, minimized: bool)
    requires PlainPath(exe)
    ensures ParseMinimized(BuildCommand(exe, minimized)) == minimized
  {
    var q := "\"" + exe + "\"";
    var c := BuildCommand(exe, minimized);
    if minimized {
      assert c[|q| + 1..|q| + 1 + |MinimizedFlag|] == MinimizedFlag;
      ContainsAt(c, MinimizedFlag, |q| + 1);
    } else {
      assert c == q;
      QuotedContains(exe, MinimizedFlag);
      ContainsIff(c, MinimizedFlag);
    }
  }

  /** `get_startup_status()`. `exePath` is absent when no command is registered. */
  datatype Status = Status(enabled: bool, command: Option<string>, exePath: Option<string>,
                           minimized: bool, exeExists: bool)

  function GetStartupStatus(value: Option<string>, existing: set<string>): (s: Status)
    ensures value.None? ==> s == Status(false, None, None, false, false)
    ensures value.Some? ==> s.enabled && s.command == value && s.exePath == Some(ParsePath(value.value))
  {
    match value
    case None => Status(false, None, None, false, false)
    case Some(command) =>
      var exe := ParsePath(command);
      Status(true, Some(command), Some(exe), ParseMinimized(command), exe in existing)
  }

  /** `is_startup_enabled()`: a command is registered and the path it names exists. */
  predicate IsStartupEnabled(value: Option<string>, existing: set<string>)
  {
    value.Some? && ParsePath(value.value) in existing
  }

  /** The quick check and the detailed status agree. */
  lemma EnabledMatchesStatus(value: Option<string>, existing: set<string>)
    ensures IsStartupEnabled(value, existing) <==>
      GetStartupStatus(value, existing).enabled && GetStartupStatus(value, existing).exeExists
  {
  }

  /** What a registry call does: succeed, find nothing (FileNotFoundError, with its text), or fail otherwise. */
  datatype Access = Granted | NotFound(error: string) | Denied(error: string)

  /** The `(success, message)` pair and the registry value afterwards. */
  datatype Change = Change(ok: bool, message: string, value: Option<string>)

  /** `enable_startup(minimized)`: any failure, a missing key included, is reported with its text. */
  function EnableStartup(value: Option<string>, exe: string, minimized: bool, access: Access): (c: Change)
    ensures c.ok <==> access.Granted?
    ensures c.ok ==> c.value == Some(BuildCommand(exe, minimized))
    ensures !c.ok ==> c.value == value && c.message == "启用开机自启动失败: " + access.error
  {
    match access
    case Granted => Change(true, "开机自启动已启用", Some(BuildCommand(exe, minimized)))
    case NotFound(e) => Change(false, "启用开机自启动失败: " + e, value)
    case Denied(e) => Change(false, "启用开机自启动失败: " + e, value)
  }

  /** `disable_startup()`: a missing key or value counts as already disabled. */
  function DisableStartup(value: Option<string>, access: Access): (c: Change)
    ensures c.ok <==> !access.Denied?
    ensures c.ok ==> c.value.None?
    ensures !c.ok ==> c.value == value
    ensures access.Granted? && value.None? ==> c.message == "开机自启动未设置"
    ensures access.Denied? ==> c.message == "禁用开机自启动失败: " + access.error
  {
    match access
    case Denied(e) => Change(false, "禁用开机自启动失败: " + e, value)
    case NotFound(_) => Change(true, "开机自启动未设置", None)
    case Granted =>
      if value.None? then Change(true, "开机自启动未设置", None)
      else Change(true, "开机自启动已禁用", None)
  }

  /**
   * After a successful `enable_startup`, the status reports the path and
   * the minimised flag that were asked for.
   */
  lemma EnableThenStatus(value: Option<string>, exe: string, minimized: bool, existing: set<string>)
    requires PlainPath(exe)
    ensures var c := EnableStartup(value, exe, minimized, Granted);
      var s := GetStartupStatus(c.value, existing);
      s.enabled && s.exePath == Some(exe) && s.minimized == minimized && (s.exeExists <==> exe in existing) &&
      (IsStartupEnabled(c.value, existing) <==> exe in existing)
  {
    PathRoundTrip(exe, minimized);
    MinimizedRoundTrip(exe, minimized);
  }

  /** After a successful `disable_startup`, start-at-login is off. */
  lemma DisableThenStatus(value: Option<string>, access: Access, existing: set<string>)
    requires !access.Denied?
    ensures !GetStartupStatus(DisableStartup(value, access).value, existing).enabled
    ensures !IsStartupEnabled(DisableStartup(value, access).value, existing)
  {
  }
}
