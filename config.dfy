/**
 * The JSON configuration (core/config_manager.py): a tree of JSON values with
 * dotted-path lookup and update, the recursive merge of a loaded file into the
 * defaults, the typed getters with their fallbacks, and the command-line
 * validator.
 */
module Config {
  import opened Wrappers
  import opened Text

  /** A JSON value as `json.load` returns it (numbers are integers here). */
  datatype Json =
    | JNull
    | JBool(b: bool)
    | JInt(i: int)
    | JStr(s: string)
    | JList(items: seq<Json>)
    | JObj(fields: map<string, Json>)

  /** Python truthiness of a loaded value. */
  predicate Truthy(j: Json)
  {
    match j
    case JNull => false
    case JBool(b) => b
    case JInt(i) => i != 0
    case JStr(s) => s != ""
    case JList(xs) => xs != []
    case JObj(m) => m != map[]
  }

  /** `isinstance(v, (int, float))`: booleans are integers in Python. */
  function AsNumber(j: Json): Option<int>
  {
    match j
    case JInt(i) => Some(i)
    case JBool(b) => Some(if b then 1 else 0)
    case _ => None
  }

  /** Placeholder text of the `_comment_*` entries. */
  const Note: Json := JStr("note")

  /** The sections of `_load_default_config`, each with its comments. */
  const IdleSection: Json := JObj(map[
    "enabled" := JBool(true), "_comment_enabled" := Note,
    "idle_minutes" := JInt(10), "_comment_idle_minutes" := Note,
    "cooldown_minutes" := JInt(60), "_comment_cooldown" := Note])
  const ScheduledSection: Json := JObj(map[
    "enabled" := JBool(false), "_comment_enabled" := Note,
    "time" := JStr("05:00"), "_comment_time" := Note,
    "days" := JList([JStr("daily")]), "_comment_days" := Note])
  const SyncSection: Json := JObj(map[
    "wait_after_sync_minutes" := JInt(5), "_comment_wait" := Note,
    "max_retry_attempts" := JInt(3), "_comment_retry" := Note])
  const LoggingSection: Json := JObj(map[
    "enabled" := JBool(true), "_comment_enabled" := Note,
    "level" := JStr("info"), "_comment_level" := Note,
    "max_log_files" := JInt(5), "_comment_max_files" := Note])
  const StartupSection: Json := JObj(map[
    "auto_start_service" := JBool(false), "_comment_auto_start" := Note,
    "minimize_to_tray" := JBool(false), "_comment_minimize" := Note])
  const GuiSection: Json := JObj(map[
    "close_behavior" := JStr("ask"), "_comment_close_behavior" := Note,
    "remember_close_choice" := JBool(false), "_comment_remember" := Note])

  /** `_load_default_config`. */
  const Defaults: Json := JObj(map[
    "_comment_idle" := Note, "idle_trigger" := IdleSection,
    "_comment_scheduled" := Note, "scheduled_trigger" := ScheduledSection,
    "_comment_sync" := Note, "sync_settings" := SyncSection,
    "_comment_logging" := Note, "logging" := LoggingSection,
    "_comment_startup" := Note, "startup" := StartupSection,
    "_comment_gui" := Note, "gui" := GuiSection
  ])

  /** The six sections of the default tree. */
  lemma DefaultSections()
    ensures Defaults.JObj?
    ensures "idle_trigger" in Defaults.fields && Defaults.fields["idle_trigger"] == IdleSection
    ensures "scheduled_trigger" in Defaults.fields && Defaults.fields["scheduled_trigger"] == ScheduledSection
    ensures "sync_settings" in Defaults.fields && Defaults.fields["sync_settings"] == SyncSection
    ensures "logging" in Defaults.fields && Defaults.fields["logging"] == LoggingSection
    ensures "gui" in Defaults.fields && Defaults.fields["gui"] == GuiSection
  {
  }

  // ---------------------------------------------------------------- lookup

  /**
   * Walking `value = value[key]` down a key list: only an object that has the
   * key lets the walk continue; anything else is a KeyError or TypeError.
   */
  function Lookup(t: Json, keys: seq<string>): Option<Json>
    decreases |keys|
  {
    if keys == [] then Some(t)
    else if t.JObj? && keys[0] in t.fields then Lookup(t.fields[keys[0]], keys[1..])
    else None
  }

  /** `get(key_path, default)`. */
  function GetValue(t: Json, path: string, default: Json): Json
  {
    Lookup(t, Split(path, '.')).GetOr(default)
  }

  /** A key path written out with dots, as the getters spell it. */
  predicate DotFree(keys: seq<string>)
  {
    forall i :: 0 <= i < |keys| ==> '.' !in keys[i]
  }

  /** Splitting a dotted path whose keys contain no dot gives the keys back. */
  lemma {:induction false} SplitJoin(keys: seq<string>)
    requires |keys| >= 1 && DotFree(keys)
    ensures Split(Join(keys, '.'), '.') == keys
    decreases |keys|
  {
    if |keys| >= 2 {
      var s := Join(keys, '.');
      var k0 := keys[0];
      assert s == k0 + ['.'] + Join(keys[1..], '.');
      assert s[|k0|] == '.' && s[..|k0|] == k0;
      assert IndexOf(s, '.') == Some(|k0|);
      assert s[|k0| + 1..] == Join(keys[1..], '.');
      SplitJoin(keys[1..]);
    }
  }

  /** Hence `get("a.b", d)` is the lookup of `["a", "b"]`. */
  lemma GetDotted(t: Json, keys: seq<string>, default: Json)
    requires |keys| >= 1 && DotFree(keys)
    ensures GetValue(t, Join(keys, '.'), default) == Lookup(t, keys).GetOr(default)
  {
    SplitJoin(keys);
  }

  // ---------------------------------------------------------------- update

  /**
   * `set(key_path, value)` on a key list: missing sections are created as
   * empty objects; an existing non-object on the way raises (`None`), before
   * anything has been changed.
   */
  function SetPath(t: Json, keys: seq<string>, v: Json): Option<Json>
    requires |keys| >= 1
    decreases |keys|
  {
    if !t.JObj? then None
    else if |keys| == 1 then Some(JObj(t.fields[keys[0] := v]))
    else
      var child := if keys[0] in t.fields then t.fields[keys[0]] else JObj(map[]);
      match SetPath(child, keys[1..], v)
      case None => None
      case Some(c) => Some(JObj(t.fields[keys[0] := c]))
  }

  /** A path every section of which is an object or missing. */
  predicate Settable(t: Json, keys: seq<string>)
    decreases |keys|
  {
    t.JObj? &&
    (|keys| <= 1 || keys[0] !in t.fields || Settable(t.fields[keys[0]], keys[1..]))
  }

  /** `set` fails exactly when it meets a non-object on the way. */
  lemma {:induction false} SetPathSucceeds(t: Json, keys: seq<string>, v: Json)
    requires |keys| >= 1
    ensures SetPath(t, keys, v).Some? <==> Settable(t, keys)
    decreases |keys|
  {
    if t.JObj? && |keys| > 1 {
      if keys[0] in t.fields {
        SetPathSucceeds(t.fields[keys[0]], keys[1..], v);
      } else {
        SetPathSucceeds(JObj(map[]), keys[1..], v);
        EmptySettable(keys[1..]);
      }
    }
  }

  lemma {:induction false} EmptySettable(keys: seq<string>)
    ensures Settable(JObj(map[]), keys)
  {
  }

  /** `get` after `set` on the same path returns the stored value. */
  lemma {:induction false} LookupAfterSet(t: Json, keys: seq<string>, v: Json)
    requires |keys| >= 1 && SetPath(t, keys, v).Some?
    ensures Lookup(SetPath(t, keys, v).value, keys) == Some(v)
    decreases |keys|
  {
    if |keys| > 1 {
      var child := if keys[0] in t.fields then t.fields[keys[0]] else JObj(map[]);
      LookupAfterSet(child, keys[1..], v);
    }
  }

  /** Two key paths that part ways at some key. */
  predicate Diverge(p: seq<string>, q: seq<string>)
    decreases |p|
  {
    |p| > 0 && |q| > 0 && (p[0] != q[0] || Diverge(p[1..], q[1..]))
  }

  /** `set` leaves every path that parts ways with the updated one unchanged. */
  lemma {:induction false} LookupOtherAfterSet(t: Json, keys: seq<string>, v: Json, other: seq<string>)
    requires |keys| >= 1 && SetPath(t, keys, v).Some? && Diverge(keys, other)
    ensures Lookup(SetPath(t, keys, v).value, other) == Lookup(t, other)
    decreases |keys|
  {
    if keys[0] == other[0] {
      var child := if keys[0] in t.fields then t.fields[keys[0]] else JObj(map[]);
      assert Diverge(keys[1..], other[1..]);
      LookupOtherAfterSet(child, keys[1..], v, other[1..]);
      if keys[0] !in t.fields {
        EmptyLookup(other[1..]);
      }
    }
  }

  lemma EmptyLookup(keys: seq<string>)
    requires |keys| > 0
    ensures Lookup(JObj(map[]), keys) == None
  {
  }

  // ---------------------------------------------------------------- merge

  /**
   * `_merge_config(default, loaded)`: every loaded key the defaults know is
   * copied in, recursing where both sides hold an object. Loaded keys the
   * defaults do not know are dropped; a loaded value that is not an object
   * makes the whole merge raise, which `load` swallows (`None`).
   */
  function Merge(d: Json, l: Json): (r: Option<Json>)
    requires d.JObj?
    ensures l.JObj? <==> r.Some?
    ensures r.Some? ==> r.value.JObj? && r.value.fields.Keys == d.fields.Keys
    decreases l
  {
    if !l.JObj? then None
    else Some(JObj(map k | k in d.fields :: MergeEntry(d.fields[k], k, l)))
  }

  /** The value a default entry `k` ends up with after the merge. */
  function MergeEntry(dv: Json, k: string, l: Json): Json
    requires l.JObj?
    decreases l, 0
  {
    if k !in l.fields then dv
    else if dv.JObj? && l.fields[k].JObj? then Merge(dv, l.fields[k]).value
    else l.fields[k]
  }

  /** Merging a file that holds exactly the defaults changes nothing. */
  lemma {:induction false} MergeSelf(d: Json)
    requires d.JObj?
    ensures Merge(d, d) == Some(d)
    decreases d
  {
    forall k | k in d.fields
      ensures MergeEntry(d.fields[k], k, d) == d.fields[k]
    {
      if d.fields[k].JObj? {
        MergeSelf(d.fields[k]);
      }
    }
    assert Merge(d, d).value.fields == d.fields;
  }

  /** Merging the same file twice is the same as merging it once. */
  lemma {:induction false} MergeIdempotent(d: Json, l: Json)
    requires d.JObj? && l.JObj?
    ensures Merge(Merge(d, l).value, l) == Merge(d, l)
    decreases l
  {
    var m := Merge(d, l).value;
    forall k | k in m.fields
      ensures MergeEntry(m.fields[k], k, l) == m.fields[k]
    {
      assert m.fields[k] == MergeEntry(d.fields[k], k, l);
      if k in l.fields {
        var dv, lv := d.fields[k], l.fields[k];
        if dv.JObj? && lv.JObj? {
          MergeIdempotent(dv, lv);
          assert m.fields[k] == Merge(dv, lv).value;
        } else {
          assert m.fields[k] == lv;
          if lv.JObj? {
            MergeSelf(lv);
          }
        }
      }
    }
    assert Merge(m, l).value.fields == m.fields;
  }

  /**
   * Where the defaults and the file both hold a value at a path, and the
   * sections above it are objects on both sides, the merged tree holds the
   * file's value (unless both are objects, which are merged instead).
   */
  lemma {:induction false} MergeTakesFileValue(d: Json, l: Json, keys: seq<string>)
    requires d.JObj? && l.JObj? && |keys| >= 1
    requires Lookup(d, keys).Some? && Lookup(l, keys).Some?
    requires !(Lookup(d, keys).value.JObj? && Lookup(l, keys).value.JObj?)
    ensures Lookup(Merge(d, l).value, keys) == Lookup(l, keys)
    decreases |keys|
  {
    var k := keys[0];
    if |keys| > 1 {
      var dv, lv := d.fields[k], l.fields[k];
      assert dv.JObj? && lv.JObj?;
      MergeTakesFileValue(dv, lv, keys[1..]);
    }
  }

  /** A path the file does not mention keeps its default value. */
  lemma {:induction false} MergeKeepsDefault(d: Json, l: Json, keys: seq<string>)
    requires d.JObj? && l.JObj? && |keys| >= 1
    requires Lookup(d, keys).Some? && Lookup(l, keys[..1]).None?
    ensures Lookup(Merge(d, l).value, keys) == Lookup(d, keys)
  {
    assert keys[1..] == keys[..1][1..][..0] + keys[1..];
  }

  // ---------------------------------------------------------------- getters

  /** The typed getters, each the lookup of a fixed key path with a fallback. */
  function IdleTriggerEnabled(t: Json): Json { Lookup(t, ["idle_trigger", "enabled"]).GetOr(JBool(false)) }
  function IdleMinutes(t: Json): Json { Lookup(t, ["idle_trigger", "idle_minutes"]).GetOr(JInt(10)) }
  /** `get_idle_cooldown_minutes` and `get_global_cooldown_minutes` share one key. */
  function GlobalCooldownMinutes(t: Json): Json { Lookup(t, ["idle_trigger", "cooldown_minutes"]).GetOr(JInt(20)) }
  function ScheduledTriggerEnabled(t: Json): Json { Lookup(t, ["scheduled_trigger", "enabled"]).GetOr(JBool(false)) }
  function ScheduledTime(t: Json): Json { Lookup(t, ["scheduled_trigger", "time"]).GetOr(JStr("05:00")) }
  function ScheduledDays(t: Json): Json { Lookup(t, ["scheduled_trigger", "days"]).GetOr(JList([JStr("daily")])) }
  function SyncWaitMinutes(t: Json): Json { Lookup(t, ["sync_settings", "wait_after_sync_minutes"]).GetOr(JInt(5)) }
  function LoggingEnabled(t: Json): Json { Lookup(t, ["logging", "enabled"]).GetOr(JBool(true)) }
  function LogLevel(t: Json): Json { Lookup(t, ["logging", "level"]).GetOr(JStr("info")) }
  function CloseBehavior(t: Json): Json { Lookup(t, ["gui", "close_behavior"]).GetOr(JStr("ask")) }
  function RememberCloseChoice(t: Json): Json { Lookup(t, ["gui", "remember_close_choice"]).GetOr(JBool(false)) }

  /** The entries of the default sections the getters read. */
  lemma IdleSectionValues()
    ensures IdleSection.JObj?
    ensures "enabled" in IdleSection.fields && IdleSection.fields["enabled"] == JBool(true)
    ensures "idle_minutes" in IdleSection.fields && IdleSection.fields["idle_minutes"] == JInt(10)
    ensures "cooldown_minutes" in IdleSection.fields && IdleSection.fields["cooldown_minutes"] == JInt(60)
  {
  }

  lemma ScheduledSectionValues()
    ensures ScheduledSection.JObj?
    ensures "enabled" in ScheduledSection.fields && ScheduledSection.fields["enabled"] == JBool(false)
    ensures "time" in ScheduledSection.fields && ScheduledSection.fields["time"] == JStr("05:00")
    ensures "days" in ScheduledSection.fields && ScheduledSection.fields["days"] == JList([JStr("daily")])
  {
  }

  lemma SyncSectionValues()
    ensures SyncSection.JObj?
    ensures "wait_after_sync_minutes" in SyncSection.fields && SyncSection.fields["wait_after_sync_minutes"] == JInt(5)
    ensures "max_retry_attempts" in SyncSection.fields && SyncSection.fields["max_retry_attempts"] == JInt(3)
  {
  }

  lemma LoggingSectionValues()
    ensures LoggingSection.JObj?
    ensures "enabled" in LoggingSection.fields && LoggingSection.fields["enabled"] == JBool(true)
    ensures "level" in LoggingSection.fields && LoggingSection.fields["level"] == JStr("info")
    ensures "max_log_files" in LoggingSection.fields && LoggingSection.fields["max_log_files"] == JInt(5)
  {
  }

  lemma GuiSectionValues()
    ensures GuiSection.JObj?
    ensures "close_behavior" in GuiSection.fields && GuiSection.fields["close_behavior"] == JStr("ask")
    ensures "remember_close_choice" in GuiSection.fields && GuiSection.fields["remember_close_choice"] == JBool(false)
  {
  }

  /** Looking up a two-key path, as the typed getters do. */
  lemma LookupPair(t: Json, a: string, b: string)
    ensures Lookup(t, [a, b]) ==
      if t.JObj? && a in t.fields && t.fields[a].JObj? && b in t.fields[a].fields
      then Some(t.fields[a].fields[b]) else None
  {
    assert [a, b][1..] == [b] && [b][1..] == [];
    if t.JObj? && a in t.fields {
      var u := t.fields[a];
      assert Lookup(t, [a, b]) == Lookup(u, [b]);
      if u.JObj? && b in u.fields {
        assert Lookup(u, [b]) == Lookup(u.fields[b], []);
      }
    }
  }

  /**
   * On the default tree the getters return the default file's values; note
   * that the default file says 60 cooldown minutes while the getter's own
   * fallback, used when the key is missing, is 20.
   */
  lemma IdleGettersOnDefaults()
    ensures IdleTriggerEnabled(Defaults) == JBool(true)
    ensures IdleMinutes(Defaults) == JInt(10)
    ensures GlobalCooldownMinutes(Defaults) == JInt(60)
    ensures GlobalCooldownMinutes(JObj(map[])) == JInt(20)
  {
    DefaultSections();
    IdleSectionValues();
    LookupPair(Defaults, "idle_trigger", "enabled");
    LookupPair(Defaults, "idle_trigger", "idle_minutes");
    LookupPair(Defaults, "idle_trigger", "cooldown_minutes");
  }

  lemma ScheduleGettersOnDefaults()
    ensures ScheduledTriggerEnabled(Defaults) == JBool(false)
    ensures ScheduledTime(Defaults) == JStr("05:00")
    ensures ScheduledDays(Defaults) == JList([JStr("daily")])
  {
    DefaultSections();
    ScheduledSectionValues();
    LookupPair(Defaults, "scheduled_trigger", "enabled");
    LookupPair(Defaults, "scheduled_trigger", "time");
    LookupPair(Defaults, "scheduled_trigger", "days");
  }

  lemma OtherGettersOnDefaults()
    ensures SyncWaitMinutes(Defaults) == JInt(5)
    ensures LoggingEnabled(Defaults) == JBool(true)
    ensures LogLevel(Defaults) == JStr("info")
    ensures CloseBehavior(Defaults) == JStr("ask")
  {
    DefaultSections();
    SyncSectionValues();
    LoggingSectionValues();
    GuiSectionValues();
    LookupPair(Defaults, "sync_settings", "wait_after_sync_minutes");
    LookupPair(Defaults, "logging", "enabled");
    LookupPair(Defaults, "logging", "level");
    LookupPair(Defaults, "gui", "close_behavior");
  }

  // ---------------------------------------------------------------- validate_config

  datatype Issue =
    | IdleMinutesNotPositive
    | CooldownNotPositive
    | CooldownShorterThanIdle
    | BadScheduledTime
    | BadDay(day: string)
    | WaitNegative
    | BadLogLevel

  /** The command-line validator's outcome; an uncaught TypeError or AttributeError is `Raised`. */
  datatype Validation = Completed(errors: multiset<Issue>, warnings: multiset<Issue>) | Raised

  const ValidDays: set<string> := {"daily", "monday", "tuesday", "wednesday", "thursday", "friday", "saturday", "sunday"}
  const ValidLevels: set<string> := {"debug", "info", "warning", "error"}

  /** `hour, minute = map(int, time_str.split(':'))` and the range test. */
  predicate TimeAccepted(time: Json)
  {
    time.JStr? &&
    var parts := Split(time.s, ':');
    |parts| == 2 && ParseInt(parts[0]).Some? && ParseInt(parts[1]).Some? &&
    0 <= ParseInt(parts[0]).value <= 23 && 0 <= ParseInt(parts[1]).value <= 59
  }

  /** A string with one colon splits into the two sides of it. */
  lemma SplitAtColon(a: string, b: string)
    requires ':' !in a && ':' !in b
    ensures Split(a + ":" + b, ':') == [a, b]
  {
    assert a + ":" + b == a + [':'] + b;
    SplitAfterFirst(a, ':', b);
    SplitNoSeparator(b, ':');
  }

  /** A time of two integer fields around one colon, in range, is accepted. */
  lemma TimeAcceptedOf(a: string, b: string)
    requires ':' !in a && ':' !in b
    requires ParseInt(a).Some? && 0 <= ParseInt(a).value <= 23
    requires ParseInt(b).Some? && 0 <= ParseInt(b).value <= 59
    ensures TimeAccepted(JStr(a + ":" + b))
  {
    SplitAtColon(a, b);
  }

  /** Every zero-padded `HH:MM` reading of a clock is accepted. */
  lemma PaddedTimeAccepted(h: nat, m: nat)
    requires h < 24 && m < 60
    ensures TimeAccepted(JStr(Pad2(h) + ":" + Pad2(m)))
  {
    assert ':' !in Pad2(h) && ':' !in Pad2(m) by {
      assert AllDigits(Pad2(h)) && AllDigits(Pad2(m));
    }
    ParsePad2(h);
    ParsePad2(m);
    TimeAcceptedOf(Pad2(h), Pad2(m));
  }

  /** The bad entries of a list of day names; a non-string entry raises. */
  function BadDaysOfList(items: seq<Json>): Option<multiset<Issue>>
  {
    if items == [] then Some(multiset{})
    else if !items[0].JStr? then None
    else
      match BadDaysOfList(items[1..])
      case None => None
      case Some(rest) =>
        Some((if Lower(items[0].s) in ValidDays then multiset{} else multiset{BadDay(items[0].s)}) + rest)
  }

  /** `for day in days`: a list, a string (its characters) or an object (its keys). */
  function BadDays(days: Json): Option<multiset<Issue>>
  {
    match days
    case JList(items) => BadDaysOfList(items)
    case JStr(s) => BadDaysOfList(seq(|s|, i requires 0 <= i < |s| => JStr([s[i]])))
    case JObj(m) => Some(multiset(set k | k in m && Lower(k) !in ValidDays :: BadDay(k)))
    case _ => None
  }

  /** What `validate_config` reads through the getters. */
  datatype Settings = Settings(
    idleOn: Json, idle: Json, cooldown: Json,
    schedOn: Json, time: Json, days: Json,
    wait: Json, logOn: Json, level: Json)

  function ReadSettings(t: Json): Settings
  {
    Settings(IdleTriggerEnabled(t), IdleMinutes(t), GlobalCooldownMinutes(t),
      ScheduledTriggerEnabled(t), ScheduledTime(t), ScheduledDays(t),
      SyncWaitMinutes(t), LoggingEnabled(t), LogLevel(t))
  }

  /** `validate_config` (the command-line check), on an already-loaded tree. */
  function CliValidation(t: Json): Validation
  {
    CheckSettings(ReadSettings(t))
  }

  function CheckSettings(c: Settings): Validation
  {
    // idle trigger
    var idle := AsNumber(c.idle);
    var cool := AsNumber(c.cooldown);
    var idleOn := Truthy(c.idleOn);
    var e1 := if idleOn && (idle.None? || idle.value <= 0) then multiset{IdleMinutesNotPositive} else multiset{};
    var coolBad := idleOn && (cool.None? || cool.value <= 0);
    var e2 := if coolBad then multiset{CooldownNotPositive} else multiset{};
    // `cooldown_minutes < idle_minutes` with a non-number idle value raises
    var compareRaises := idleOn && !coolBad && idle.None?;
    var w := if idleOn && !coolBad && idle.Some? && cool.value < idle.value
      then multiset{CooldownShorterThanIdle} else multiset{};
    // scheduled trigger
    var schedOn := Truthy(c.schedOn);
    var e3 := if schedOn && !TimeAccepted(c.time) then multiset{BadScheduledTime} else multiset{};
    var days := if schedOn then BadDays(c.days) else Some(multiset{});
    // sync settings
    var wait := AsNumber(c.wait);
    var e4 := if wait.None? || wait.value < 0 then multiset{WaitNegative} else multiset{};
    // logging
    var logOn := Truthy(c.logOn);
    var e5 := if logOn && c.level.JStr? && Lower(c.level.s) !in ValidLevels then multiset{BadLogLevel} else multiset{};
    if compareRaises || days.None? || (logOn && !c.level.JStr?) then Raised
    else Completed(e1 + e2 + e3 + days.value + e4 + e5, w)
  }

  /** `validate_config()` returns whether no error was found; `None` when it raises. */
  function ValidateConfig(t: Json): (r: Option<bool>)
    ensures r.Some? <==> CliValidation(t).Completed?
    ensures CliValidation(t).Completed? ==> (r == Some(true) <==> CliValidation(t).errors == multiset{})
  {
    match CliValidation(t)
    case Raised => None
    case Completed(errors, _) => Some(|errors| == 0)
  }

  /** The settings the defaults hold. */
  const DefaultSettings: Settings := Settings(JBool(true), JInt(10), JInt(60), JBool(false), JStr("05:00"),
    JList([JStr("daily")]), JInt(5), JBool(true), JStr("info"))

  lemma ReadDefaultSettings()
    ensures ReadSettings(Defaults) == DefaultSettings
  {
    IdleGettersOnDefaults();
    ScheduleGettersOnDefaults();
    OtherGettersOnDefaults();
  }

  /** The default configuration passes the command-line check without a warning. */
  lemma DefaultsValid()
    ensures CliValidation(Defaults) == Completed(multiset{}, multiset{})
  {
    ReadDefaultSettings();
    DefaultSettingsPass();
  }

  lemma DefaultSettingsPass()
    ensures CheckSettings(DefaultSettings) == Completed(multiset{}, multiset{})
  {
    LowerOfLowercase("info");
  }

  /** With the idle trigger on, a non-positive idle time is always reported. */
  lemma NonPositiveIdleRejected(t: Json)
    requires Truthy(IdleTriggerEnabled(t))
    requires AsNumber(IdleMinutes(t)).Some? && AsNumber(IdleMinutes(t)).value <= 0
    ensures ValidateConfig(t) != Some(true)
  {
  }

  /** With the idle trigger on, a non-number idle time and a valid cooldown make the check raise. */
  lemma NonNumericIdleRaises(t: Json)
    requires Truthy(IdleTriggerEnabled(t)) && AsNumber(IdleMinutes(t)).None?
    requires AsNumber(GlobalCooldownMinutes(t)).Some? && AsNumber(GlobalCooldownMinutes(t)).value > 0
    ensures ValidateConfig(t) == None
  {
  }

  /** With the idle trigger on, a cooldown that is not a positive number is always reported. */
  lemma NonPositiveCooldownRejected(t: Json)
    requires Truthy(IdleTriggerEnabled(t))
    requires AsNumber(GlobalCooldownMinutes(t)).None? || AsNumber(GlobalCooldownMinutes(t)).value <= 0
    ensures ValidateConfig(t) != Some(true)
  {
  }

  /** With the scheduled trigger on, a time the `HH:MM` test refuses is always reported. */
  lemma BadTimeRejected(t: Json)
    requires Truthy(ScheduledTriggerEnabled(t)) && !TimeAccepted(ScheduledTime(t))
    ensures ValidateConfig(t) != Some(true)
  {
  }

  /** Every entry of a day list that is not a known day name is reported. */
  lemma {:induction false} BadDayListed(items: seq<Json>, i: nat)
    requires i < |items| && items[i].JStr? && Lower(items[i].s) !in ValidDays
    ensures BadDaysOfList(items).Some? ==> BadDay(items[i].s) in BadDaysOfList(items).value
    decreases i
  {
    if i > 0 && items[0].JStr? {
      BadDayListed(items[1..], i - 1);
    }
  }

  /** With the scheduled trigger on, a listed day that is not a day name is always reported. */
  lemma BadDayRejected(t: Json, i: nat)
    requires Truthy(ScheduledTriggerEnabled(t)) && ScheduledDays(t).JList?
    requires i < |ScheduledDays(t).items| && ScheduledDays(t).items[i].JStr?
    requires Lower(ScheduledDays(t).items[i].s) !in ValidDays
    ensures ValidateConfig(t) != Some(true)
  {
    BadDayListed(ScheduledDays(t).items, i);
  }

  /** A wait that is not a non-negative number is always reported. */
  lemma NegativeWaitRejected(t: Json)
    requires AsNumber(SyncWaitMinutes(t)).None? || AsNumber(SyncWaitMinutes(t)).value < 0
    ensures ValidateConfig(t) != Some(true)
  {
  }

  /** With logging on, a level outside debug, info, warning and error is always reported. */
  lemma BadLevelRejected(t: Json)
    requires Truthy(LoggingEnabled(t)) && LogLevel(t).JStr? && Lower(LogLevel(t).s) !in ValidLevels
    ensures ValidateConfig(t) != Some(true)
  {
  }

  /**
   * A cooldown shorter than the idle time is only a warning: whatever
   * positive cooldown is set, the errors and whether the check raises are
   * those of a cooldown equal to the idle time, and the warning appears
   * exactly when the cooldown is the shorter.
   */
  lemma CooldownOrderOnlyWarns(c: Settings, cool: int)
    requires Truthy(c.idleOn) && AsNumber(c.idle).Some? && AsNumber(c.idle).value > 0 && cool > 0
    ensures var r := CheckSettings(c.(cooldown := JInt(cool)));
      var same := CheckSettings(c.(cooldown := JInt(AsNumber(c.idle).value)));
      r.Completed? == same.Completed? &&
      (r.Completed? ==> r.errors == same.errors &&
                        (CooldownShorterThanIdle in r.warnings <==> cool < AsNumber(c.idle).value))
  {
    var c1 := c.(cooldown := JInt(cool));
    var c2 := c.(cooldown := JInt(AsNumber(c.idle).value));
    assert AsNumber(c1.cooldown) == Some(cool);
    assert AsNumber(c2.cooldown) == AsNumber(c.idle);
    assert c1.(cooldown := c.cooldown) == c2.(cooldown := c.cooldown);
  }

  // ---------------------------------------------------------------- the manager

  /** The configuration file on disk. */
  datatype ConfigFile = Absent | Malformed | Holds(content: Json)

  /** The outcome of a setter that can raise. */
  datatype Outcome = Done(ok: bool) | Raises

  /** The tree has a `gui` object to write into. */
  predicate GuiObject(t: Json)
  {
    t.JObj? && "gui" in t.fields && t.fields["gui"].JObj?
  }

  const CloseKey: seq<string> := ["gui", "close_behavior"]
  const RememberKey: seq<string> := ["gui", "remember_close_choice"]

  /**
   * `config["gui"][key] = v`: the same as setting the path `gui.<key>`,
   * which changes that entry and leaves every other path as it was.
   */
  method SetGuiEntry(t: Json, key: string, v: Json) returns (u: Json)
    requires GuiObject(t)
    ensures SetPath(t, ["gui", key], v) == Some(u)
    ensures u.JObj? && Lookup(u, ["gui", key]) == Some(v)
    ensures forall q :: Diverge(["gui", key], q) ==> Lookup(u, q) == Lookup(t, q)
  {
    var gui := t.fields["gui"];
    u := JObj(t.fields["gui" := JObj(gui.fields[key := v])]);
    var keys := ["gui", key];
    assert keys[1..] == [key];
    LookupAfterSet(t, keys, v);
    forall q | Diverge(keys, q)
      ensures Lookup(u, q) == Lookup(t, q)
    {
      LookupOtherAfterSet(t, keys, v, q);
    }
  }

  class ConfigManager {
    var config: Json
    var file: ConfigFile

    predicate Valid()
      reads this
    {
      config.JObj?
    }

    /** `__init__`: the defaults, then `load()`. */
    constructor (f: ConfigFile, writeOk: bool)
      ensures Valid()
      ensures config == LoadedConfig(f)
      ensures file == if f.Absent? && writeOk then Holds(Defaults) else f
    {
      config := Defaults;
      file := f;
      new;
      Load(writeOk);
    }

    /** What `load()` leaves in `config` when started from the defaults. */
    static function LoadedConfig(f: ConfigFile): (r: Json)
      ensures r.JObj? && r.fields.Keys == Defaults.fields.Keys
    {
      match f
      case Holds(l) => if l.JObj? then Merge(Defaults, l).value else Defaults
      case _ => Defaults
    }

    /** `load()`: merge an existing file; write the defaults when it is missing. */
    method Load(writeOk: bool)
      requires Valid()
      modifies this
      ensures Valid()
      ensures config == match old(file)
        case Holds(l) => if l.JObj? then Merge(old(config), l).value else old(config)
        case _ => old(config)
      ensures file == if old(file).Absent? && writeOk then Holds(old(config)) else old(file)
    {
      match file
      case Holds(l) =>
        if l.JObj? {
          config := Merge(config, l).value;
        }
      case Absent =>
        var _ := Save(writeOk);
      case Malformed =>
    }

    /** `save()`. */
    method Save(writeOk: bool) returns (ok: bool)
      modifies this`file
      ensures ok == writeOk
      ensures file == if writeOk then Holds(config) else old(file)
    {
      if writeOk {
        file := Holds(config);
      }
      ok := writeOk;
    }

    /** `reload()`: defaults merged with the file; a broken file keeps the current tree. */
    method Reload()
      requires Valid()
      modifies this`config
      ensures Valid()
      ensures config == match file
        case Absent => Defaults
        case Malformed => old(config)
        case Holds(l) => if l.JObj? then Merge(Defaults, l).value else old(config)
    {
      match file
      case Absent => config := Defaults;
      case Malformed =>
      case Holds(l) =>
        if l.JObj? {
          config := Merge(Defaults, l).value;
        }
    }

    function Get(path: string, default: Json): Json
      reads this
    {
      GetValue(config, path, default)
    }

    /** `set(key_path, value)`; `false` when the path runs into a non-object. */
    method Set(path: string, v: Json) returns (ok: bool)
      requires Valid()
      modifies this`config
      ensures Valid()
      ensures ok <==> Settable(old(config), Split(path, '.'))
      ensures ok ==> Lookup(config, Split(path, '.')) == Some(v)
      ensures ok ==> forall q :: Diverge(Split(path, '.'), q) ==> Lookup(config, q) == Lookup(old(config), q)
      ensures !ok ==> config == old(config)
    {
      var keys := Split(path, '.');
      SetPathSucceeds(config, keys, v);
      var r := SetPath(config, keys, v);
      if r.None? {
        return false;
      }
      LookupAfterSet(config, keys, v);
      forall q | Diverge(keys, q)
        ensures Lookup(r.value, q) == Lookup(config, q)
      {
        LookupOtherAfterSet(config, keys, v, q);
      }
      config := r.value;
      ok := true;
    }

    /**
     * `set_close_behavior`: only the three known values are stored, at
     * `gui.close_behavior`, and the tree is then saved; writing into a
     * `gui` entry that is missing or not an object raises.
     */
    method SetCloseBehavior(behavior: string, writeOk: bool) returns (r: Outcome)
      requires Valid()
      modifies this
      ensures Valid()
      ensures behavior !in {"ask", "minimize", "exit"} ==> r == Done(false)
      ensures r == Raises <==> behavior in {"ask", "minimize", "exit"} && !GuiObject(old(config))
      ensures r == Done(true) <==> behavior in {"ask", "minimize", "exit"} && GuiObject(old(config))
      ensures r == Done(true) ==> SetPath(old(config), CloseKey, JStr(behavior)) == Some(config)
      ensures r == Done(true) ==> CloseBehavior(config) == JStr(behavior)
      ensures r == Done(true) ==> forall q :: Diverge(CloseKey, q) ==> Lookup(config, q) == Lookup(old(config), q)
      ensures r == Done(true) ==> file == if writeOk then Holds(config) else old(file)
      ensures r != Done(true) ==> config == old(config) && file == old(file)
    {
      if behavior !in {"ask", "minimize", "exit"} {
        return Done(false);
      }
      if !GuiObject(config) {
        return Raises;
      }
      var updated := SetGuiEntry(config, "close_behavior", JStr(behavior));
      config := updated;
      var _ := Save(writeOk);
      r := Done(true);
    }

    /**
     * `set_remember_close_choice`: stores the flag as a boolean at
     * `gui.remember_close_choice` and saves; a `gui` entry that is missing
     * or not an object raises.
     */
    method SetRememberCloseChoice(remember: bool, writeOk: bool) returns (r: Outcome)
      requires Valid()
      modifies this
      ensures Valid()
      ensures r == Raises <==> !GuiObject(old(config))
      ensures r.Done? ==> SetPath(old(config), RememberKey, JBool(remember)) == Some(config)
      ensures r.Done? ==> RememberCloseChoice(config) == JBool(remember)
      ensures r.Done? ==> forall q :: Diverge(RememberKey, q) ==> Lookup(config, q) == Lookup(old(config), q)
      ensures r.Done? ==> file == if writeOk then Holds(config) else old(file)
      ensures r == Raises ==> config == old(config) && file == old(file)
    {
      if !GuiObject(config) {
        return Raises;
      }
      var updated := SetGuiEntry(config, "remember_close_choice", JBool(remember));
      config := updated;
      var _ := Save(writeOk);
      r := Done(true);
    }

    /** `save_config(config_data)`: replace the tree, then save. */
    method SaveConfig(data: Json, writeOk: bool) returns (ok: bool)
      modifies this
      ensures config == data && ok == writeOk
      ensures file == if writeOk then Holds(data) else old(file)
    {
      config := data;
      ok := Save(writeOk);
    }
  }
}
