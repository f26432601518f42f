/**
 * The global cooldown shared by manual, idle and scheduled triggers
 * (core/global_cooldown.py). Wall-clock time is an integer number of seconds
 * passed in as `now`; cooldown lengths are whole minutes.
 */
module Cooldown {
  import opened Wrappers

  /** What `load_state` can find on disk: the state file's last trigger time. */
  datatype StateFile = Missing | Unreadable | Stored(lastTrigger: Option<int>)

  /** The trigger time `load_state` recovers from a state file. */
  function LoadedTrigger(f: StateFile): Option<int>
  {
    match f
    case Stored(t) => t
    case _ => None
  }

  /** `is_in_cooldown`: fewer than `minutes * 60` seconds since the last trigger. */
  predicate InCooldown(last: Option<int>, minutes: int, now: int)
  {
    last.Some? && now - last.value < minutes * 60
  }

  /**
   * `get_remaining_cooldown_minutes`, in seconds: never negative, and positive
   * exactly while the cooldown is active.
   */
  function RemainingSeconds(last: Option<int>, minutes: int, now: int): (r: int)
    ensures r >= 0
    ensures r > 0 <==> InCooldown(last, minutes, now)
    ensures last.Some? && r > 0 ==> r == last.value + minutes * 60 - now
  {
    match last
    case None => 0
    case Some(t) => if minutes * 60 - (now - t) > 0 then minutes * 60 - (now - t) else 0
  }

  /**
   * `check_and_update_if_allowed` as a value: whether the trigger is allowed
   * and the trigger time afterwards.
   */
  function CheckAndUpdate(last: Option<int>, minutes: int, now: int): (r: (bool, Option<int>))
    ensures r.0 <==> !InCooldown(last, minutes, now)
    ensures r.1 == if r.0 then Some(now) else last
  {
    if InCooldown(last, minutes, now) then (false, last) else (true, Some(now))
  }

  /** A trigger that was allowed at `t` blocks every trigger for the next `minutes` minutes. */
  lemma AllowedTriggerBlocksWindow(last: Option<int>, minutes: int, t: int, later: int)
    requires CheckAndUpdate(last, minutes, t).0
    requires t <= later < t + minutes * 60
    ensures !CheckAndUpdate(CheckAndUpdate(last, minutes, t).1, minutes, later).0
    ensures RemainingSeconds(CheckAndUpdate(last, minutes, t).1, minutes, later) == t + minutes * 60 - later
  {
  }

  /** ... and the next trigger is allowed as soon as the window has elapsed. */
  lemma CooldownExpires(last: Option<int>, minutes: int, t: int, later: int)
    requires later >= t + minutes * 60
    ensures !InCooldown(Some(t), minutes, later)
    ensures RemainingSeconds(Some(t), minutes, later) == 0
    ensures CheckAndUpdate(Some(t), minutes, later) == (true, Some(later))
  {
  }

  /** A reset (`None`) never blocks, whatever the cooldown length. */
  lemma ResetNeverBlocks(minutes: int, now: int)
    ensures CheckAndUpdate(None, minutes, now) == (true, Some(now))
    ensures RemainingSeconds(None, minutes, now) == 0
  {
  }

  class GlobalCooldownManager {
    var lastTriggerTime: Option<int>
    /** The JSON state file the manager writes after every change. */
    var stateFile: StateFile

    /** `__init__` + `load_state`: start from whatever the state file records. */
    constructor (file: StateFile)
      ensures lastTriggerTime == LoadedTrigger(file) && stateFile == file
    {
      lastTriggerTime := LoadedTrigger(file);
      stateFile := file;
    }

    /** `save_state`: a failed write is swallowed and leaves the old file. */
    method SaveState(writeOk: bool)
      modifies this`stateFile
      ensures stateFile == if writeOk then Stored(lastTriggerTime) else old(stateFile)
      ensures writeOk ==> LoadedTrigger(stateFile) == lastTriggerTime
    {
      if writeOk {
        stateFile := Stored(lastTriggerTime);
      }
    }

    method IsInCooldown(minutes: int, now: int) returns (b: bool)
      ensures b <==> lastTriggerTime.Some? && now < lastTriggerTime.value + minutes * 60
    {
      if lastTriggerTime == None {
        return false;
      }
      var sinceLast := now - lastTriggerTime.value;
      b := sinceLast < minutes * 60;
    }

    method GetRemainingCooldownSeconds(minutes: int, now: int) returns (r: int)
      ensures r == RemainingSeconds(lastTriggerTime, minutes, now)
    {
      if lastTriggerTime == None {
        return 0;
      }
      var sinceLast := now - lastTriggerTime.value;
      r := minutes * 60 - sinceLast;
      if r < 0 {
        r := 0;
      }
    }

    method UpdateLastTriggerTime(now: int, writeOk: bool)
      modifies this
      ensures lastTriggerTime == Some(now)
      ensures stateFile == if writeOk then Stored(Some(now)) else old(stateFile)
    {
      lastTriggerTime := Some(now);
      SaveState(writeOk);
    }

    method ResetCooldown(writeOk: bool)
      modifies this
      ensures lastTriggerTime == None
      ensures stateFile == if writeOk then Stored(None) else old(stateFile)
    {
      lastTriggerTime := None;
      SaveState(writeOk);
    }

    method CheckAndUpdateIfAllowed(minutes: int, now: int, writeOk: bool) returns (allowed: bool)
      modifies this
      ensures (allowed, lastTriggerTime) == CheckAndUpdate(old(lastTriggerTime), minutes, now)
      ensures stateFile == if allowed && writeOk then Stored(Some(now)) else old(stateFile)
    {
      var blocked := IsInCooldown(minutes, now);
      if blocked {
        return false;
      }
      UpdateLastTriggerTime(now, writeOk);
      allowed := true;
    }
  }

  /** The module-level singleton `_global_cooldown_manager` and its wrappers. */
  class CooldownRegistry {
    var instance: GlobalCooldownManager?

    constructor ()
      ensures instance == null
    {
      instance := null;
    }

    /** `get_global_cooldown_manager`: create once, then always the same object. */
    method GetManager(file: StateFile) returns (m: GlobalCooldownManager)
      modifies this
      ensures old(instance) != null ==> m == old(instance)
      ensures old(instance) == null ==> fresh(m) && m.lastTriggerTime == LoadedTrigger(file) && m.stateFile == file
      ensures instance == m
    {
      if instance == null {
        instance := new GlobalCooldownManager(file);
      }
      m := instance;
    }

    method IsInGlobalCooldown(minutes: int, now: int, file: StateFile) returns (b: bool)
      modifies this
      ensures instance != null && (old(instance) != null ==> instance == old(instance))
      ensures b == InCooldown(instance.lastTriggerTime, minutes, now)
    {
      var m := GetManager(file);
      b := m.IsInCooldown(minutes, now);
    }

    method GetRemainingGlobalCooldown(minutes: int, now: int, file: StateFile) returns (r: int)
      modifies this
      ensures instance != null && (old(instance) != null ==> instance == old(instance))
      ensures r == RemainingSeconds(instance.lastTriggerTime, minutes, now)
    {
      var m := GetManager(file);
      r := m.GetRemainingCooldownSeconds(minutes, now);
    }

    method UpdateGlobalCooldown(now: int, file: StateFile, writeOk: bool)
      modifies this, instance
      ensures instance != null && (old(instance) != null ==> instance == old(instance))
      ensures instance.lastTriggerTime == Some(now)
    {
      var m := GetManager(file);
      m.UpdateLastTriggerTime(now, writeOk);
    }

    method ResetGlobalCooldown(file: StateFile, writeOk: bool)
      modifies this, instance
      ensures instance != null && (old(instance) != null ==> instance == old(instance))
      ensures instance.lastTriggerTime == None
    {
      var m := GetManager(file);
      m.ResetCooldown(writeOk);
    }

    method CheckAndTriggerIfAllowed(minutes: int, now: int, file: StateFile, writeOk: bool) returns (allowed: bool)
      modifies this, instance
      ensures instance != null
      ensures old(instance) != null ==>
        instance == old(instance) &&
        (allowed, instance.lastTriggerTime) == CheckAndUpdate(old(instance.lastTriggerTime), minutes, now)
      ensures old(instance) == null ==>
        (allowed, instance.lastTriggerTime) == CheckAndUpdate(LoadedTrigger(file), minutes, now)
    {
      var m := GetManager(file);
      allowed := m.CheckAndUpdateIfAllowed(minutes, now, writeOk);
    }
  }
}
