/**
 * Automatic login after WeChat restarts (core/wechat_auto_login.py): which
 * top-level windows count as WeChat's, which child controls count as
 * buttons, which button is clicked, and the click message's coordinates.
 * The window system is a parameter: each enumeration is a list of raw
 * windows, and each call that can fail is a boolean outcome.
 */
module AutoLogin {
  import opened Wrappers
  import opened Text

  // ------------------------------------------------------------ windows

  const TitleIndicators: seq<string> := ["微信", "WeChat", "登录", "Login"]
  const WeChatClasses: seq<string> := ["WeChatMainWndForPC", "WeUIDialog", "Chrome_RenderWidgetHostHWND"]

  /** Some entry of `needles` occurs in `s`. */
  predicate AnyIn(needles: seq<string>, s: string)
  {
    exists i :: 0 <= i < |needles| && Contains(s, needles[i])
  }

  /**
   * `_is_wechat_window`: scan the title indicators, then the class names;
   * the first that occurs decides.
   */
  method IsWeChatWindow(title: string, className: string) returns (r: bool)
    ensures r <==> AnyIn(TitleIndicators, title) || AnyIn(WeChatClasses, className)
  {
    for i := 0 to |TitleIndicators|
      invariant forall j :: 0 <= j < i ==> !Contains(title, TitleIndicators[j])
    {
      if Contains(title, TitleIndicators[i]) {
        return true;
      }
    }
    for i := 0 to |WeChatClasses|
      invariant forall j :: 0 <= j < i ==> !Contains(className, WeChatClasses[j])
    {
      if Contains(className, WeChatClasses[i]) {
        return true;
      }
    }
    return false;
  }

  /** A top-level window as the enumeration sees it. */
  datatype RawWindow = RawWindow(hwnd: nat, title: string, className: string, pid: nat, visible: bool)

  /** The windows `find_wechat_windows` keeps: a non-empty title and a WeChat title or class. */
  predicate Kept(w: RawWindow)
  {
    |w.title| > 0 && (AnyIn(TitleIndicators, w.title) || AnyIn(WeChatClasses, w.className))
  }

  function KeptWindows(ws: seq<RawWindow>): seq<RawWindow>
  {
    if ws == [] then [] else KeptWindows(ws[..|ws| - 1]) + (if Kept(ws[|ws| - 1]) then [ws[|ws| - 1]] else [])
  }

  /** The kept windows are exactly the WeChat windows of the enumeration, in its order. */
  lemma {:induction false} KeptWindowsExact(ws: seq<RawWindow>)
    ensures forall w :: w in KeptWindows(ws) <==> w in ws && Kept(w)
    ensures |KeptWindows(ws)| <= |ws|
  {
    if ws != [] {
      KeptWindowsExact(ws[..|ws| - 1]);
      assert ws == ws[..|ws| - 1] + [ws[|ws| - 1]];
    }
  }

  /** `find_wechat_windows`: the enumeration callback appends each WeChat window. */
  method FindWeChatWindows(ws: seq<RawWindow>) returns (windows: seq<RawWindow>)
    ensures windows == KeptWindows(ws)
  {
    windows := [];
    for i := 0 to |ws|
      invariant windows == KeptWindows(ws[..i])
    {
      assert ws[..i + 1][..i] == ws[..i];
      if |ws[i].title| > 0 {
        var isWeChat := IsWeChatWindow(ws[i].title, ws[i].className);
        if isWeChat {
          windows := windows + [ws[i]];
        }
      }
    }
    assert ws[..|ws|] == ws;
  }

  // ------------------------------------------------------------ buttons

  /** A child control as the enumeration sees it; `rect` is absent when GetWindowRect fails. */
  datatype RawChild = RawChild(hwnd: nat, className: string, text: string,
                               rect: Option<(int, int, int, int)>, visible: bool, enabled: bool)

  /** A recorded button. */
  datatype Button = Button(hwnd: nat, text: string, className: string,
                           rect: (int, int, int, int), visible: bool, enabled: bool)

  /** The button test of `find_login_button`. */
  predicate ButtonLike(className: string, text: string)
  {
    Contains(className, "Button") || Contains(Lower(className), "button") ||
    Contains(text, "登录") || Contains(text, "Login") || Contains(text, "进入")
  }

  /** Lower-casing keeps every occurrence, lower-cased. */
  lemma LowerKeepsOccurrence(s: string, sub: string, i: nat)
    requires OccursAt(s, sub, i)
    ensures OccursAt(Lower(s), Lower(sub), i)
  {
    assert Lower(s)[i..i + |sub|] == Lower(sub);
  }

  /** The exact-case class test adds nothing: the class test is `button` in any case. */
  lemma ButtonLikeIgnoresCase(className: string, text: string)
    ensures ButtonLike(className, text) <==>
      Contains(Lower(className), "button") ||
      Contains(text, "登录") || Contains(text, "Login") || Contains(text, "进入")
  {
    if Contains(className, "Button") {
      ContainsIff(className, "Button");
      var i: nat :| OccursAt(className, "Button", i);
      LowerKeepsOccurrence(className, "Button", i);
      assert Lower("Button") == "button";
      ContainsAt(Lower(className), "button", i);
    }
  }

  function AsButton(c: RawChild): Button
    requires c.rect.Some?
  {
    Button(c.hwnd, c.text, c.className, c.rect.value, c.visible, c.enabled)
  }

  predicate Recorded(c: RawChild) { ButtonLike(c.className, c.text) && c.rect.Some? }

  function ButtonsOf(cs: seq<RawChild>): seq<Button>
  {
    if cs == [] then []
    else ButtonsOf(cs[..|cs| - 1]) + (if Recorded(cs[|cs| - 1]) then [AsButton(cs[|cs| - 1])] else [])
  }

  /** A recorded button comes from a button-like child whose rectangle was read, and every such child is recorded. */
  lemma {:induction false} ButtonsOfExact(cs: seq<RawChild>)
    ensures forall b :: b in ButtonsOf(cs) ==> exists c :: c in cs && Recorded(c) && AsButton(c) == b
    ensures forall c :: c in cs && Recorded(c) ==> AsButton(c) in ButtonsOf(cs)
  {
    if cs != [] {
      ButtonsOfExact(cs[..|cs| - 1]);
      assert cs == cs[..|cs| - 1] + [cs[|cs| - 1]];
    }
  }

  /** `find_login_button`: the child enumeration callback appends each button it can place. */
  method FindLoginButton(cs: seq<RawChild>) returns (buttons: seq<Button>)
    ensures buttons == ButtonsOf(cs)
  {
    buttons := [];
    for i := 0 to |cs|
      invariant buttons == ButtonsOf(cs[..i])
    {
      assert cs[..i + 1][..i] == cs[..i];
      var c := cs[i];
      if ButtonLike(c.className, c.text) && c.rect.Some? {
        buttons := buttons + [AsButton(c)];
      }
    }
    assert cs[..|cs|] == cs;
  }

  // ------------------------------------------------------------ choosing a button

  predicate Usable(b: Button) { b.visible && b.enabled }
  predicate SaysLogin(b: Button) { Contains(Lower(b.text), "登录") || Contains(Lower(b.text), "login") }
  predicate SaysEnter(b: Button) { Contains(b.text, "进入") }

  /** The first usable button that satisfies the rank, as an index into `bs`. */
  function FirstUsable(bs: seq<Button>, rank: nat): (r: Option<nat>)
    requires rank <= 2
    ensures r.Some? ==> r.value < |bs| && Usable(bs[r.value]) && Ranked(bs[r.value], rank)
    ensures r.Some? ==> forall j :: 0 <= j < r.value ==> !(Usable(bs[j]) && Ranked(bs[j], rank))
    ensures r.None? ==> forall j :: 0 <= j < |bs| ==> !(Usable(bs[j]) && Ranked(bs[j], rank))
  {
    if bs == [] then None
    else if Usable(bs[0]) && Ranked(bs[0], rank) then Some(0)
    else match FirstUsable(bs[1..], rank)
      case None => None
      case Some(i) => Some(i + 1)
  }

  /** Rank 0: says login; rank 1: says enter; rank 2: any. */
  predicate Ranked(b: Button, rank: nat)
  {
    if rank == 0 then SaysLogin(b) else if rank == 1 then SaysEnter(b) else true
  }

  /**
   * `_select_best_login_button`, on the usable (visible and enabled)
   * buttons: the first that says login, else the first that says enter,
   * else the first.
   */
  method SelectBestLoginButton(buttons: seq<Button>) returns (r: Option<Button>)
    ensures r.None? <==> forall j :: 0 <= j < |buttons| ==> !Usable(buttons[j])
    ensures r.Some? ==> r.value in buttons && Usable(r.value)
    ensures FirstUsable(buttons, 0).Some? ==> r == Some(buttons[FirstUsable(buttons, 0).value])
    ensures FirstUsable(buttons, 0).None? && FirstUsable(buttons, 1).Some? ==>
      r == Some(buttons[FirstUsable(buttons, 1).value])
    ensures FirstUsable(buttons, 0).None? && FirstUsable(buttons, 1).None? && FirstUsable(buttons, 2).Some? ==>
      r == Some(buttons[FirstUsable(buttons, 2).value])
  {
    if buttons == [] {
      return None;
    }
    var usable := UsableButtons(buttons);
    if usable == [] {
      return None;
    }
    for i := 0 to |usable|
      invariant forall j :: 0 <= j < i ==> !SaysLogin(usable[j])
    {
      if Contains(Lower(usable[i].text), "登录") || Contains(Lower(usable[i].text), "login") {
        FirstRanked(buttons, 0, i);
        return Some(usable[i]);
      }
    }
    NoneRanked(buttons, 0);
    for i := 0 to |usable|
      invariant forall j :: 0 <= j < i ==> !SaysEnter(usable[j])
    {
      if Contains(usable[i].text, "进入") {
        FirstRanked(buttons, 1, i);
        return Some(usable[i]);
      }
    }
    NoneRanked(buttons, 1);
    FirstRanked(buttons, 2, 0);
    return Some(usable[0]);
  }

  /** `[btn for btn in buttons if btn['visible'] and btn['enabled']]`. */
  function UsableOf(bs: seq<Button>): seq<Button>
  {
    if bs == [] then [] else (if Usable(bs[0]) then [bs[0]] else []) + UsableOf(bs[1..])
  }

  /** The usable buttons, built by a loop over the list. */
  method UsableButtons(bs: seq<Button>) returns (us: seq<Button>)
    ensures us == UsableOf(bs)
    ensures us == [] <==> forall j :: 0 <= j < |bs| ==> !Usable(bs[j])
  {
    us := [];
    var i := |bs|;
    while i > 0
      invariant 0 <= i <= |bs|
      invariant us == UsableOf(bs[i..])
    {
      i := i - 1;
      assert bs[i..][1..] == bs[i + 1..];
      if bs[i].visible && bs[i].enabled {
        us := [bs[i]] + us;
      }
    }
    UsableOfEmpty(bs);
  }

  lemma {:induction false} UsableOfEmpty(bs: seq<Button>)
    ensures UsableOf(bs) == [] <==> forall j :: 0 <= j < |bs| ==> !Usable(bs[j])
  {
    if bs != [] {
      UsableOfEmpty(bs[1..]);
      if !Usable(bs[0]) {
        forall j | 0 < j < |bs| ensures !Usable(bs[1..][j - 1]) ==> !Usable(bs[j]) { }
      }
    }
  }

  /**
   * If the `i`-th usable button is the first usable one of the rank, it is
   * the button `FirstUsable` finds in the whole list.
   */
  lemma {:induction false} FirstRanked(bs: seq<Button>, rank: nat, i: nat)
    requires rank <= 2 && i < |UsableOf(bs)|
    requires Ranked(UsableOf(bs)[i], rank)
    requires forall j :: 0 <= j < i ==> !Ranked(UsableOf(bs)[j], rank)
    ensures FirstUsable(bs, rank).Some? && bs[FirstUsable(bs, rank).value] == UsableOf(bs)[i]
    ensures UsableOf(bs)[i] in bs && Usable(UsableOf(bs)[i])
  {
    var rest := UsableOf(bs[1..]);
    if Usable(bs[0]) {
      assert UsableOf(bs) == [bs[0]] + rest;
      if i > 0 {
        assert !Ranked(bs[0], rank) by { assert UsableOf(bs)[0] == bs[0]; }
        forall j | 0 <= j < i - 1
          ensures !Ranked(rest[j], rank)
        {
          assert rest[j] == UsableOf(bs)[j + 1];
        }
        assert rest[i - 1] == UsableOf(bs)[i];
        FirstRanked(bs[1..], rank, i - 1);
      }
    } else {
      assert UsableOf(bs) == rest;
      FirstRanked(bs[1..], rank, i);
    }
  }

  /** No usable button of the rank means none in the whole list. */
  lemma {:induction false} NoneRanked(bs: seq<Button>, rank: nat)
    requires rank <= 2
    requires forall j :: 0 <= j < |UsableOf(bs)| ==> !Ranked(UsableOf(bs)[j], rank)
    ensures FirstUsable(bs, rank).None?
  {
    if bs != [] {
      if Usable(bs[0]) {
        assert UsableOf(bs)[0] == bs[0];
        forall j | 0 <= j < |UsableOf(bs[1..])|
          ensures !Ranked(UsableOf(bs[1..])[j], rank)
        {
          assert UsableOf(bs[1..])[j] == UsableOf(bs)[j + 1];
        }
      } else {
        assert UsableOf(bs) == UsableOf(bs[1..]);
      }
      NoneRanked(bs[1..], rank);
    }
  }

  // ------------------------------------------------------------ clicking

  /** The centre of a rectangle, with Python's floor division. */
  function Centre(rect: (int, int, int, int)): (c: (int, int))
    ensures 2 * c.0 <= rect.0 + rect.2 < 2 * c.0 + 2
    ensures 2 * c.1 <= rect.1 + rect.3 < 2 * c.1 + 2
  {
    ((rect.0 + rect.2) / 2, (rect.1 + rect.3) / 2)
  }

  /** The centre of a rectangle lies inside it. */
  lemma CentreInside(rect: (int, int, int, int))
    requires rect.0 <= rect.2 && rect.1 <= rect.3
    ensures rect.0 <= Centre(rect).0 <= rect.2 && rect.1 <= Centre(rect).1 <= rect.3
  {
  }

  function Abs(n: int): nat { if n < 0 then -n else n }

  /** Python's `a | b` on integers, two's complement with unbounded width. */
  function BitOr(a: int, b: int): int
    decreases Abs(a) + Abs(b)
  {
    if (a == 0 || a == -1) && (b == 0 || b == -1) then (if a == -1 || b == -1 then -1 else 0)
    else
      assert Abs(a / 2) + Abs(b / 2) < Abs(a) + Abs(b);
      2 * BitOr(a / 2, b / 2) + (if a % 2 == 1 || b % 2 == 1 then 1 else 0)
  }

  function Pow2(k: nat): nat
    ensures Pow2(k) >= 1
  {
    if k == 0 then 1 else 2 * Pow2(k - 1)
  }

  lemma {:induction false} Pow2Sum(a: nat, b: nat)
    ensures Pow2(a + b) == Pow2(a) * Pow2(b)
    decreases a
  {
    if a > 0 {
      Pow2Sum(a - 1, b);
    }
  }

  lemma Pow2Of16()
    ensures Pow2(16) == 65536
  {
    Pow2Sum(2, 2);
    Pow2Sum(4, 4);
    Pow2Sum(8, 8);
  }

  /** The message parameter as written: `(y << 16) | x`. */
  function LParamAsWritten(x: int, y: int): int
  {
    BitOr(y * 65536, x)
  }

  /** Or-ing a value below `2^k` into a multiple of `2^k` adds it. */
  lemma {:induction false} OrLowBits(y: int, x: int, k: nat)
    requires 0 <= x < Pow2(k)
    ensures BitOr(y * Pow2(k), x) == y * Pow2(k) + x
    decreases k
  {
    if k == 0 {
      OrZero(y);
    } else {
      var a := y * Pow2(k);
      assert a == 2 * (y * Pow2(k - 1));
      assert a / 2 == y * Pow2(k - 1) && a % 2 == 0;
      if !((a == 0 || a == -1) && (x == 0 || x == -1)) {
        OrLowBits(y, x / 2, k - 1);
        assert BitOr(a, x) == 2 * (y * Pow2(k - 1) + x / 2) + x % 2;
      }
    }
  }

  lemma {:induction false} OrZero(a: int)
    ensures BitOr(a, 0) == a
    decreases Abs(a)
  {
    if !(a == 0 || a == -1) {
      OrZero(a / 2);
    }
  }

  /** Or-ing a negative value above `-2^k` into a multiple of `2^k` gives that value back. */
  lemma {:induction false} OrNegative(y: int, x: int, k: nat)
    requires -(Pow2(k) as int) <= x < 0
    ensures BitOr(y * Pow2(k), x) == x
    decreases k
  {
    if k == 0 {
      OrMinusOne(y);
    } else {
      var a := y * Pow2(k);
      assert a == 2 * (y * Pow2(k - 1));
      assert a / 2 == y * Pow2(k - 1) && a % 2 == 0;
      if !((a == 0 || a == -1) && (x == 0 || x == -1)) {
        OrNegative(y, x / 2, k - 1);
        assert BitOr(a, x) == 2 * (x / 2) + x % 2;
      }
    }
  }

  lemma {:induction false} OrMinusOne(a: int)
    ensures BitOr(a, -1) == -1
    decreases Abs(a)
  {
    if !(a == 0 || a == -1) {
      OrMinusOne(a / 2);
    }
  }

  /**
   * For coordinates in the first quadrant the parameter packs them as the
   * receiving window reads them: `x` in the low sixteen bits, `y` above.
   */
  lemma LParamAsWrittenPacks(x: int, y: int)
    requires 0 <= x < 65536 && 0 <= y
    ensures LParamAsWritten(x, y) == y * 65536 + x
    ensures LParamAsWritten(x, y) % 65536 == x && LParamAsWritten(x, y) / 65536 == y
  {
    Pow2Of16();
    OrLowBits(y, x, 16);
  }

  /**
   * A negative `x` (a window on a monitor left of the primary one) wipes
   * out `y`: the parameter is `x` alone, whatever `y` is.
   */
  lemma NegativeXLosesY(x: int, y: int, y': int)
    requires -65536 <= x < 0
    ensures LParamAsWritten(x, y) == x && LParamAsWritten(x, y) == LParamAsWritten(x, y')
  {
    Pow2Of16();
    OrNegative(y, x, 16);
    OrNegative(y', x, 16);
  }

  /** `MAKELPARAM(x, y)`: each coordinate kept to its low sixteen bits. */
  function LParam(x: int, y: int): int
  {
    (y % 65536) * 65536 + x % 65536
  }

  /** Windows' `GET_X_LPARAM`/`GET_Y_LPARAM`: a sixteen-bit field read as signed. */
  function Signed16(v: int): int
  {
    var w := v % 65536;
    if w >= 32768 then w - 65536 else w
  }

  /** Every pair of sixteen-bit signed coordinates, negative ones included, is read back unchanged. */
  lemma LParamRoundTrip(x: int, y: int)
    requires -32768 <= x < 32768 && -32768 <= y < 32768
    ensures Signed16(LParam(x, y)) == x && Signed16(LParam(x, y) / 65536) == y
  {
    var p := LParam(x, y);
    assert p % 65536 == x % 65536;
    assert p / 65536 == y % 65536;
  }

  // ------------------------------------------------------------ detection loop

  /** One window of a round: the window, whether it is visible after a restore, its children and how the clicks go. */
  datatype Candidate = Candidate(window: RawWindow, visibleAfterRestore: bool, children: seq<RawChild>,
                                 buttonClickOk: bool, windowClickOk: bool)

  /** One round of the polling loop before the timeout. */
  datatype Round = Round(wechatRunning: bool, windows: seq<Candidate>)

  /** How `detect_and_login` ends: a click sent, WeChat not running, or the timeout. */
  datatype Detection = Clicked(round: nat) | NotRunning(round: nat) | TimedOut

  /** The window is visible, or becomes visible when restored. */
  predicate Shown(c: Candidate) { c.window.visible || c.visibleAfterRestore }

  /** A click goes out for this window: shown, a usable button found, and a click succeeds. */
  predicate ClicksIn(c: Candidate)
  {
    Shown(c) && (exists j :: 0 <= j < |ButtonsOf(c.children)| && Usable(ButtonsOf(c.children)[j])) &&
    (c.buttonClickOk || c.windowClickOk)
  }

  /** The outcome over the rounds that fit before the timeout, from round `from`. */
  function Detect(rounds: seq<Round>, from: nat): Detection
    requires from <= |rounds|
    decreases |rounds| - from
  {
    if from == |rounds| then TimedOut
    else if !rounds[from].wechatRunning then NotRunning(from)
    else if exists i :: 0 <= i < |rounds[from].windows| && ClicksIn(rounds[from].windows[i]) then Clicked(from)
    else Detect(rounds, from + 1)
  }

  /** Checking one window: restore it if needed, find the buttons, choose one and click. */
  method TryWindow(c: Candidate) returns (clicked: bool)
    ensures clicked <==> ClicksIn(c)
  {
    if !c.window.visible && !c.visibleAfterRestore {
      return false;
    }
    var buttons := FindLoginButton(c.children);
    if buttons == [] {
      return false;
    }
    var best := SelectBestLoginButton(buttons);
    if best.None? {
      return false;
    }
    if c.buttonClickOk {
      return true;
    }
    clicked := c.windowClickOk;
  }

  /**
   * `detect_and_login`: round after round until the timeout, stop at once
   * when WeChat is not running, and succeed at the first window where a
   * click goes out.
   */
  method DetectAndLogin(rounds: seq<Round>) returns (ok: bool, d: Detection)
    ensures d == Detect(rounds, 0)
    ensures ok <==> d.Clicked?
  {
    var r := 0;
    while r < |rounds|
      invariant 0 <= r <= |rounds|
      invariant Detect(rounds, 0) == Detect(rounds, r)
    {
      if !rounds[r].wechatRunning {
        return false, NotRunning(r);
      }
      var windows := rounds[r].windows;
      for i := 0 to |windows|
        invariant forall j :: 0 <= j < i ==> !ClicksIn(windows[j])
      {
        var clicked := TryWindow(windows[i]);
        if clicked {
          return true, Clicked(r);
        }
      }
      r := r + 1;
    }
    return false, TimedOut;
  }

  /** With WeChat not running at the first poll, nothing is tried. */
  lemma NotRunningFirst(rounds: seq<Round>)
    requires |rounds| > 0 && !rounds[0].wechatRunning
    ensures Detect(rounds, 0) == NotRunning(0)
  {
  }

  /** A reported click happened in a round where WeChat ran and some shown window had a usable button. */
  lemma {:induction false} ClickedMeansButton(rounds: seq<Round>, from: nat)
    requires from <= |rounds|
    requires Detect(rounds, from).Clicked?
    ensures var r := Detect(rounds, from).round;
      from <= r < |rounds| && rounds[r].wechatRunning &&
      exists i :: 0 <= i < |rounds[r].windows| && Shown(rounds[r].windows[i]) &&
        exists j :: 0 <= j < |ButtonsOf(rounds[r].windows[i].children)| && Usable(ButtonsOf(rounds[r].windows[i].children)[j])
    decreases |rounds| - from
  {
    if rounds[from].wechatRunning && !(exists i :: 0 <= i < |rounds[from].windows| && ClicksIn(rounds[from].windows[i])) {
      ClickedMeansButton(rounds, from + 1);
    }
  }
}
