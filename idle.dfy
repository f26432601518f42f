/**
 * System idle time (core/idle_detector.py): the time since the last keyboard
 * or mouse input, from the 32-bit millisecond tick counter, and its rendering
 * as hours, minutes and seconds.
 */
module Idle {
  import opened Wrappers
  import opened Text

  /** The tick counter and `LASTINPUTINFO.dwTime` are 32-bit unsigned millisecond counts. */
  const TickModulus: nat := 0x1_0000_0000

  predicate IsTick(x: int) { 0 <= x < TickModulus }

  /**
   * `kernel32.GetTickCount()` is called without a declared result type, so
   * ctypes reads its value as a signed C `int`.
   */
  function AsCInt(u: int): (r: int)
    requires IsTick(u)
    ensures -0x8000_0000 <= r < 0x8000_0000
    ensures (r - u) % TickModulus == 0
  {
    if u < 0x8000_0000 then u else u - TickModulus
  }

  /**
   * `get_idle_time_seconds` as written, in milliseconds: 0 when
   * `GetLastInputInfo` fails or raises, otherwise the signed tick minus the
   * unsigned last-input tick, clamped at 0.
   */
  function IdleMillisAsWritten(ok: bool, tick: int, lastInput: int): (r: nat)
    requires IsTick(tick) && IsTick(lastInput)
    ensures r > 0 <==> ok && lastInput < tick < 0x8000_0000
    ensures r > 0 ==> r == tick - lastInput
  {
    if !ok then 0
    else
      var diff := AsCInt(tick) - lastInput;
      if diff > 0 then diff else 0
  }

  /** The idle time the tick counters stand for: their difference modulo 2^32. */
  function IdleMillis(ok: bool, tick: int, lastInput: int): (r: nat)
    requires IsTick(tick) && IsTick(lastInput)
    ensures r < TickModulus
  {
    if !ok then 0 else (tick - lastInput) % TickModulus
  }

  /**
   * The modular difference is the real time since the last input, for any
   * idle period shorter than the counter's 49.7-day wrap.
   */
  lemma IdleMillisExact(lastAbs: nat, nowAbs: nat)
    requires lastAbs <= nowAbs < lastAbs + TickModulus
    ensures IdleMillis(true, nowAbs % TickModulus, lastAbs % TickModulus) == nowAbs - lastAbs
  {
    var q, r := lastAbs / TickModulus, lastAbs % TickModulus;
    var d := nowAbs - lastAbs;
    assert nowAbs == q * TickModulus + r + d;
    if r + d < TickModulus {
      assert nowAbs % TickModulus == r + d;
    } else {
      assert nowAbs == (q + 1) * TickModulus + (r + d - TickModulus);
      assert nowAbs % TickModulus == r + d - TickModulus;
    }
  }

  /** Before the counter reaches 2^31 (24.8 days of uptime) the code as written is exact. */
  lemma AsWrittenExactEarly(tick: int, lastInput: int)
    requires 0 <= lastInput <= tick < 0x8000_0000
    ensures IdleMillisAsWritten(true, tick, lastInput) == IdleMillis(true, tick, lastInput) == tick - lastInput
  {
  }

  /**
   * Once the counter has passed 2^31, the signed reading makes every idle
   * period read as 0: ten minutes without input after 24.9 days of uptime.
   */
  lemma AsWrittenLosesIdleAfter2To31()
    ensures IdleMillisAsWritten(true, 0x8000_0000 + 600_000, 0x8000_0000) == 0
    ensures IdleMillis(true, 0x8000_0000 + 600_000, 0x8000_0000) == 600_000
  {
  }

  /** `get_idle_time_minutes() >= minutes` (`is_idle_for`). */
  predicate IsIdleFor(idleMs: nat, minutes: real)
  {
    (idleMs as real / 1000.0) / 60.0 >= minutes
  }

  /** For whole minutes the test is a plain comparison of milliseconds. */
  lemma IsIdleForWholeMinutes(idleMs: nat, minutes: int)
    ensures IsIdleFor(idleMs, minutes as real) <==> idleMs >= minutes * 60_000
  {
  }

  /** The `idle_detector.py check <minutes>` exit status; `None` stands for a ValueError from `float()`. */
  function CheckCommandExit(minutesArg: Option<Option<real>>, idleMs: nat): (code: int)
    ensures code == 0 <==> minutesArg.Some? && minutesArg.value.Some? && IsIdleFor(idleMs, minutesArg.value.value)
    ensures code in {0, 1}
  {
    match minutesArg
    case None => 1
    case Some(None) => 1
    case Some(Some(m)) => if IsIdleFor(idleMs, m) then 0 else 1
  }

  /** Hours, minutes and seconds of a whole number of seconds. */
  datatype Clock = Clock(hours: nat, minutes: nat, seconds: nat)

  function Decompose(total: nat): (c: Clock)
    ensures c.minutes < 60 && c.seconds < 60
    ensures c.hours * 3600 + c.minutes * 60 + c.seconds == total
  {
    Clock(total / 3600, (total % 3600) / 60, total % 60)
  }

  /** `format_idle_time`: leading zero units are left out. */
  function FormatIdleTime(total: nat): string
  {
    var c := Decompose(total);
    if c.hours > 0 then NatToString(c.hours) + "小时" + NatToString(c.minutes) + "分钟" + NatToString(c.seconds) + "秒"
    else if c.minutes > 0 then NatToString(c.minutes) + "分钟" + NatToString(c.seconds) + "秒"
    else NatToString(c.seconds) + "秒"
  }

  /** Which units the rendering shows, by the size of the duration. */
  lemma FormatIdleTimeUnits(total: nat)
    ensures total < 60 ==> FormatIdleTime(total) == NatToString(total) + "秒"
    ensures 60 <= total < 3600 ==>
      FormatIdleTime(total) == NatToString(total / 60) + "分钟" + NatToString(total % 60) + "秒"
    ensures total >= 3600 ==>
      FormatIdleTime(total) == NatToString(total / 3600) + "小时" + NatToString((total % 3600) / 60) + "分钟" + NatToString(total % 60) + "秒"
  {
    var c := Decompose(total);
    if total < 3600 {
      assert c.hours == 0 && total % 3600 == total;
    }
  }
}
