/**
 * The configuration window (gui/config_panel.py): its range checks, the
 * configuration it collects from the widgets, the mutual exclusion of the
 * "daily" and weekday boxes, the close-behaviour labels, and the unsaved-
 * changes marker with the closing dialog.
 */
module ConfigPanel {
  import opened Wrappers
  import opened Text
  import opened Config

  // ------------------------------------------------------------ validation

  /**
   * `config.get(section, {}).get(key, default)`: `None` when the
   * configuration or the section is not an object (AttributeError).
   */
  function Field(config: Json, section: string, key: string, default: Json): (r: Option<Json>)
    ensures r.Some? <==> config.JObj? && (section in config.fields ==> config.fields[section].JObj?)
    ensures config.JObj? && section !in config.fields ==> r == Some(default)
  {
    if !config.JObj? then None
    else
      var sec := if section in config.fields then config.fields[section] else JObj(map[]);
      if !sec.JObj? then None
      else Some(if key in sec.fields then sec.fields[key] else default)
  }

  /** `lo <= v <= hi` on a number; comparing anything else raises TypeError. */
  predicate InRange(v: Option<Json>, lo: int, hi: int)
  {
    v.Some? && AsNumber(v.value).Some? && lo <= AsNumber(v.value).value <= hi
  }

  /** The time check: skipped for an empty (falsy) value, otherwise `H:M` in range. */
  predicate TimeOk(v: Option<Json>)
  {
    v.Some? && (!Truthy(v.value) || TimeAccepted(v.value))
  }

  /** The values `validate_config` reads, each with the fallback it uses for a missing key. */
  datatype PanelFields = PanelFields(
    time: Option<Json>, idle: Option<Json>, cooldown: Option<Json>,
    wait: Option<Json>, retries: Option<Json>, logFiles: Option<Json>)

  function ReadPanel(config: Json): PanelFields
  {
    PanelFields(
      Field(config, "scheduled_trigger", "time", JStr("")),
      Field(config, "idle_trigger", "idle_minutes", JInt(1)),
      Field(config, "idle_trigger", "cooldown_minutes", JInt(20)),
      Field(config, "sync_settings", "wait_after_sync_minutes", JInt(2)),
      Field(config, "sync_settings", "max_retry_attempts", JInt(3)),
      Field(config, "logging", "max_log_files", JInt(5)))
  }

  /**
   * The checks of `validate_config`, in the order it makes them; the first
   * that fails, or raises, makes it return False.
   */
  predicate PanelAccepts(p: PanelFields)
  {
    TimeOk(p.time) &&
    InRange(p.idle, 1, 120) && InRange(p.cooldown, 1, 180) &&
    InRange(p.wait, 1, 30) && InRange(p.retries, 0, 10) && InRange(p.logFiles, 1, 30)
  }

  /** `validate_config(config)`. */
  predicate Validate(config: Json)
  {
    PanelAccepts(ReadPanel(config))
  }

  /** Every fallback the check uses for a missing field is in range: an empty configuration passes. */
  lemma EmptyConfigValid()
    ensures Validate(JObj(map[]))
  {
    assert ReadPanel(JObj(map[])) == PanelFields(Some(JStr("")), Some(JInt(1)), Some(JInt(20)), Some(JInt(2)), Some(JInt(3)), Some(JInt(5)));
  }

  lemma ReadPanelDefaults()
    ensures ReadPanel(Defaults) == PanelFields(Some(JStr("05:00")), Some(JInt(10)), Some(JInt(60)), Some(JInt(5)), Some(JInt(3)), Some(JInt(5)))
  {
    DefaultSections();
    IdleSectionValues();
    ScheduledSectionValues();
    SyncSectionValues();
    LoggingSectionValues();
  }

  lemma DefaultTimeAccepted()
    ensures TimeAccepted(JStr("05:00"))
  {
    DefaultClockText();
    PaddedTimeAccepted(5, 0);
  }

  /** The default time is the padded reading of 5:00. */
  lemma DefaultClockText()
    ensures Pad2(5) + ":" + Pad2(0) == "05:00"
  {
    assert NatToString(5) == [DigitChar(5)] && NatToString(0) == [DigitChar(0)];
  }

  /** The default configuration file passes the window's check too. */
  lemma DefaultsPassPanel()
    ensures Validate(Defaults)
  {
    ReadPanelDefaults();
    DefaultTimeAccepted();
  }

  /** A section that is there but is not an object makes the check raise, so it fails. */
  lemma NonObjectSectionRejected(config: Json, section: string)
    requires config.JObj? && section in config.fields && !config.fields[section].JObj?
    requires section in {"scheduled_trigger", "idle_trigger", "sync_settings", "logging"}
    ensures !Validate(config)
  {
  }

  /** An idle time of zero minutes, or of more than two hours, is refused. */
  lemma IdleMinutesOutOfRange(config: Json, n: int)
    requires config.JObj? && "idle_trigger" in config.fields && config.fields["idle_trigger"].JObj?
    requires "idle_minutes" in config.fields["idle_trigger"].fields
    requires config.fields["idle_trigger"].fields["idle_minutes"] == JInt(n)
    requires n < 1 || n > 120
    ensures !Validate(config)
  {
  }

  // ------------------------------------------------------------ close behaviour

  const AskLabel: string := "每次询问我"
  const MinimizeLabel: string := "最小化到托盘"
  const ExitLabel: string := "直接退出程序"

  /** `close_behavior_mapping.get(shown, 'exit')`. */
  function CloseValueOf(shown: string): (v: string)
    ensures v in {"ask", "minimize", "exit"}
    ensures shown !in {AskLabel, MinimizeLabel, ExitLabel} ==> v == "exit"
  {
    if shown == AskLabel then "ask"
    else if shown == MinimizeLabel then "minimize"
    else "exit"
  }

  /** `reverse_close_behavior_mapping.get(value, '直接退出程序')`. */
  function CloseLabelOf(value: string): (shown: string)
    ensures shown in {AskLabel, MinimizeLabel, ExitLabel}
    ensures value !in {"ask", "minimize"} ==> shown == ExitLabel
  {
    if value == "ask" then AskLabel
    else if value == "minimize" then MinimizeLabel
    else ExitLabel
  }

  /**
   * The two mappings are inverse bijections between the three labels and
   * the three stored values; an unknown stored value shows as the exit label.
   */
  lemma CloseMappingBijection(shown: string, value: string)
    ensures value in {"ask", "minimize", "exit"} ==> CloseValueOf(CloseLabelOf(value)) == value
    ensures shown in {AskLabel, MinimizeLabel, ExitLabel} ==> CloseLabelOf(CloseValueOf(shown)) == shown
    ensures value !in {"ask", "minimize", "exit"} ==> CloseValueOf(CloseLabelOf(value)) == "exit"
  {
  }

  // ------------------------------------------------------------ days

  /** The weekday boxes, in the window's order. */
  const DayOrder: seq<string> := ["monday", "tuesday", "wednesday", "thursday", "friday", "saturday", "sunday"]

  /** `[day for day in day_list if self.vars[day].get()]` over the first `n` boxes. */
  function TickedDays(week: seq<bool>, n: nat): seq<string>
    requires n <= |week| && n <= |DayOrder|
    decreases n
  {
    if n == 0 then [] else TickedDays(week, n - 1) + (if week[n - 1] then [DayOrder[n - 1]] else [])
  }

  /**
   * The list holds a weekday exactly when its box is ticked, and is empty
   * exactly when no box is.
   */
  lemma {:induction false} TickedDaysExact(week: seq<bool>, n: nat)
    requires n <= |week| && n <= |DayOrder|
    ensures forall d :: d in TickedDays(week, n) <==> exists i :: 0 <= i < n && week[i] && DayOrder[i] == d
    ensures TickedDays(week, n) == [] <==> forall i :: 0 <= i < n ==> !week[i]
    decreases n
  {
    if n > 0 {
      TickedDaysExact(week, n - 1);
      var prev := TickedDays(week, n - 1);
      var last: seq<string> := if week[n - 1] then [DayOrder[n - 1]] else [];
      assert TickedDays(week, n) == prev + last;
      forall d
        ensures d in TickedDays(week, n) <==> exists i :: 0 <= i < n && week[i] && DayOrder[i] == d
      {
        if d in prev {
          var i :| 0 <= i < n - 1 && week[i] && DayOrder[i] == d;
          assert 0 <= i < n && week[i] && DayOrder[i] == d;
        } else if d in last {
          assert week[n - 1] && DayOrder[n - 1] == d;
        }
      }
      if prev + last == [] {
        assert last == [];
      }
    }
  }

  /**
   * The `days` list `collect_config_from_ui` writes: `daily` when that box
   * is ticked or when no weekday is, otherwise the ticked weekdays from
   * Monday to Sunday.
   */
  function CollectDays(daily: bool, week: seq<bool>): seq<string>
    requires |week| == 7
  {
    if daily then ["daily"]
    else
      var ticked := TickedDays(week, |week|);
      if ticked == [] then ["daily"] else ticked
  }

  /**
   * The collected list is never empty; it is `["daily"]` when that box is
   * ticked or no weekday is, and otherwise names exactly the ticked weekdays.
   */
  lemma CollectDaysShape(daily: bool, week: seq<bool>)
    requires |week| == 7
    ensures CollectDays(daily, week) != []
    ensures daily || (forall i :: 0 <= i < 7 ==> !week[i]) <==> CollectDays(daily, week) == ["daily"]
    ensures !daily ==> forall d :: d != "daily" ==>
      (d in CollectDays(daily, week) <==> exists i :: 0 <= i < 7 && week[i] && DayOrder[i] == d)
  {
    TickedDaysExact(week, |week|);
    if !daily && exists i :: 0 <= i < 7 && week[i] {
      var i :| 0 <= i < 7 && week[i];
      assert DayOrder[i] in TickedDays(week, |week|);
      assert DayOrder[i] != "daily";
    }
  }

  // ------------------------------------------------------------ loading

  /** `.get` works on section `name`: the configuration is an object, and the section is absent or an object. */
  predicate Readable(config: Json, name: string)
  {
    config.JObj? && (name in config.fields ==> config.fields[name].JObj?)
  }

  /**
   * `x in days` for a string `x`: list membership, a substring, or a
   * dictionary key; `None` for any other value, where `in` raises TypeError.
   */
  function MemberOf(x: string, days: Json): (r: Option<bool>)
    ensures r.Some? <==> days.JList? || days.JStr? || days.JObj?
    ensures days.JList? ==> r == Some(JStr(x) in days.items)
  {
    match days
    case JList(items) => Some(JStr(x) in items)
    case JStr(text) => Some(Contains(text, x))
    case JObj(fields) => Some(x in fields)
    case _ => None
  }

  /** The `days` value the loader reads, `['daily']` when missing. */
  function LoadedDays(config: Json): Option<Json>
  {
    Field(config, "scheduled_trigger", "days", JList([JStr("daily")]))
  }

  /** The close value the loader reads, `'exit'` when missing. */
  function LoadedClose(config: Json): Option<Json>
  {
    Field(config, "gui", "close_behavior", JStr("exit"))
  }

  /**
   * `tk.BooleanVar.set(v)` passes `v` through Tcl's boolean test: a bool or
   * an integer is taken, a string only when Tcl reads it as a boolean
   * (`tclBooleans`), and anything else raises.
   */
  predicate BoolSettable(v: Json, tclBooleans: set<string>)
  {
    v.JBool? || v.JInt? || (v.JStr? && v.s in tclBooleans)
  }

  /** `section.get(key, default)` handed to a `BooleanVar`, on a section that answers `.get`. */
  predicate BoolRead(config: Json, section: string, key: string, default: Json, tclBooleans: set<string>)
  {
    Readable(config, section) && BoolSettable(Field(config, section, key, default).value, tclBooleans)
  }

  /**
   * The load reaches the day boxes: the idle and scheduled sections answer
   * `.get`, their `enabled` values set their boxes, and `days` answers `in`.
   */
  predicate DaysLoad(config: Json, tclBooleans: set<string>)
  {
    BoolRead(config, "idle_trigger", "enabled", JBool(true), tclBooleans) &&
    BoolRead(config, "scheduled_trigger", "enabled", JBool(true), tclBooleans) &&
    MemberOf("daily", LoadedDays(config).value).Some?
  }

  /**
   * The load reaches the close label: the sync section answers `.get`, the
   * logging `enabled` value sets its box, the gui section answers `.get`,
   * and the close value can be looked up in a dictionary (a list or an
   * object is unhashable).
   */
  predicate CloseLoad(config: Json, tclBooleans: set<string>)
  {
    DaysLoad(config, tclBooleans) && Readable(config, "sync_settings") &&
    BoolRead(config, "logging", "enabled", JBool(true), tclBooleans) &&
    Readable(config, "gui") && !(LoadedClose(config).value.JList? || LoadedClose(config).value.JObj?)
  }

  /**
   * The whole load goes through: the remember-choice box is set, the startup
   * section answers `.get`, the auto-start box is set from the startup
   * manager or, when asking it raised (`startupQueryOk` false), from the
   * configuration, and the minimised box is set.
   */
  predicate LoadSucceeds(config: Json, tclBooleans: set<string>, startupQueryOk: bool)
  {
    CloseLoad(config, tclBooleans) &&
    BoolSettable(Field(config, "gui", "remember_close_choice", JBool(true)).value, tclBooleans) &&
    Readable(config, "startup") &&
    (startupQueryOk || BoolSettable(Field(config, "startup", "auto_start_enabled", JBool(false)).value, tclBooleans)) &&
    BoolSettable(Field(config, "startup", "auto_start_minimized", JBool(true)).value, tclBooleans)
  }

  /** `reverse_close_behavior_mapping.get(value, '直接退出程序')` on a hashable value. */
  function LoadedLabel(v: Json): (shown: string)
    ensures shown in {AskLabel, MinimizeLabel, ExitLabel}
    ensures !v.JStr? ==> shown == ExitLabel
  {
    if v.JStr? then CloseLabelOf(v.s) else ExitLabel
  }

  /** A section that is present but not an object stops the load at that section. */
  lemma NonObjectSectionStopsLoad(config: Json, name: string, tclBooleans: set<string>, startupQueryOk: bool)
    requires config.JObj? && name in config.fields && !config.fields[name].JObj?
    ensures name in {"idle_trigger", "scheduled_trigger"} ==> !DaysLoad(config, tclBooleans)
    ensures name in {"sync_settings", "logging", "gui"} ==> !CloseLoad(config, tclBooleans)
    ensures name in {"idle_trigger", "scheduled_trigger", "sync_settings", "logging", "gui", "startup"} ==>
      !LoadSucceeds(config, tclBooleans, startupQueryOk)
  {
  }

  /**
   * An `enabled` value a `BooleanVar` refuses (null, a list, an object, or a
   * string Tcl cannot read) stops the load at its box: before the day boxes
   * for the idle and scheduled sections, before the close label for logging.
   */
  lemma UnsettableEnabledStopsLoad(config: Json, section: string, tclBooleans: set<string>, startupQueryOk: bool)
    requires config.JObj? && section in config.fields && config.fields[section].JObj?
    requires "enabled" in config.fields[section].fields
    requires !BoolSettable(config.fields[section].fields["enabled"], tclBooleans)
    ensures section in {"idle_trigger", "scheduled_trigger"} ==> !DaysLoad(config, tclBooleans)
    ensures section == "logging" ==> !CloseLoad(config, tclBooleans)
    ensures section in {"idle_trigger", "scheduled_trigger", "logging"} ==> !LoadSucceeds(config, tclBooleans, startupQueryOk)
  {
  }

  /**
   * A configuration whose sections are objects, whose boolean entries are
   * booleans, whose `days` is a list and whose close value is a string
   * loads completely, whatever the startup manager does.
   */
  lemma WellFormedLoads(config: Json, tclBooleans: set<string>, startupQueryOk: bool)
    requires config.JObj?
    requires forall name :: name in config.fields && name in {"idle_trigger", "scheduled_trigger", "sync_settings", "logging", "gui", "startup"} ==> config.fields[name].JObj?
    requires Field(config, "idle_trigger", "enabled", JBool(true)).value.JBool?
    requires Field(config, "scheduled_trigger", "enabled", JBool(true)).value.JBool?
    requires Field(config, "logging", "enabled", JBool(true)).value.JBool?
    requires Field(config, "gui", "remember_close_choice", JBool(true)).value.JBool?
    requires Field(config, "startup", "auto_start_enabled", JBool(false)).value.JBool?
    requires Field(config, "startup", "auto_start_minimized", JBool(true)).value.JBool?
    requires LoadedDays(config).value.JList?
    requires LoadedClose(config).value.JStr?
    ensures LoadSucceeds(config, tclBooleans, startupQueryOk)
    ensures MemberOf("daily", LoadedDays(config).value) == Some(JStr("daily") in LoadedDays(config).value.items)
  {
  }

  // ------------------------------------------------------------ collected configuration

  predicate IsComment(key: string) { StartsWith(key, "_comment_") }

  /** The widget values the window collects, as they stand. */
  datatype UiValues = UiValues(
    idleEnabled: Json, idleMinutes: Json, cooldownMinutes: Json,
    scheduledEnabled: Json, time: Json,
    waitMinutes: Json, retryAttempts: Json,
    loggingEnabled: Json, logLevel: Json, maxLogFiles: Json,
    rememberClose: Json, autoStartEnabled: Json, autoStartMinimized: Json)

  function Strings(xs: seq<string>): (js: seq<Json>)
    ensures |js| == |xs| && forall i :: 0 <= i < |xs| ==> js[i] == JStr(xs[i])
  {
    seq(|xs|, i requires 0 <= i < |xs| => JStr(xs[i]))
  }

  /** The dictionary `collect_config_from_ui` builds before merging in the old comments. */
  function Built(ui: UiValues, daily: bool, week: seq<bool>, closeLabel: string): map<string, Json>
    requires |week| == 7
  {
    map[
      "idle_trigger" := JObj(map["enabled" := ui.idleEnabled, "idle_minutes" := ui.idleMinutes,
                                 "cooldown_minutes" := ui.cooldownMinutes]),
      "scheduled_trigger" := JObj(map["enabled" := ui.scheduledEnabled, "time" := ui.time,
                                      "days" := JList(Strings(CollectDays(daily, week)))]),
      "sync_settings" := JObj(map["wait_after_sync_minutes" := ui.waitMinutes,
                                  "max_retry_attempts" := ui.retryAttempts]),
      "logging" := JObj(map["enabled" := ui.loggingEnabled, "level" := ui.logLevel,
                            "max_log_files" := ui.maxLogFiles]),
      "gui" := JObj(map["close_behavior" := JStr(CloseValueOf(closeLabel)),
                        "remember_close_choice" := ui.rememberClose]),
      "startup" := JObj(map["auto_start_enabled" := ui.autoStartEnabled,
                            "auto_start_minimized" := ui.autoStartMinimized])]
  }

  /** After the first merge: every old top-level comment, and every old key the window does not write, is copied. */
  function TopMerged(built: map<string, Json>, original: map<string, Json>): (r: map<string, Json>)
    ensures r.Keys == built.Keys + original.Keys
  {
    map k | k in built.Keys + original.Keys :: if k in original && (IsComment(k) || k !in built) then original[k] else built[k]
  }

  /** The `_comment_` keys among `visited`. */
  function CommentsIn(visited: set<string>): set<string>
  {
    set c | c in visited && IsComment(c)
  }

  /** A section's entries with the comments among `visited` of the old section added where missing. */
  function AddComments(fields: map<string, Json>, previous: map<string, Json>, visited: set<string>): (r: map<string, Json>)
    requires visited <= previous.Keys
    ensures r.Keys == fields.Keys + CommentsIn(visited)
  {
    map k | k in fields.Keys + CommentsIn(visited) :: if k in fields then fields[k] else previous[k]
  }

  /** The section's old comments it does not have yet, added to a section object. */
  function WithOldComments(section: Json, previous: Option<Json>): Json
  {
    if section.JObj? && previous.Some? && previous.value.JObj? then
      JObj(AddComments(section.fields, previous.value.fields, previous.value.fields.Keys))
    else section
  }

  /** The second merge over the sections in `visited`. */
  function SectionsMergedOver(config: map<string, Json>, original: map<string, Json>, visited: set<string>): (r: map<string, Json>)
    requires visited <= config.Keys
    ensures r.Keys == visited
  {
    map k | k in visited :: WithOldComments(config[k], if k in original then Some(original[k]) else None)
  }

  /** After the second merge: every section object gains its old comments. */
  function SectionsMerged(config: map<string, Json>, original: map<string, Json>): (r: map<string, Json>)
    ensures r.Keys == config.Keys
  {
    SectionsMergedOver(config, original, config.Keys)
  }

  /** The first merge with the keys in `pending` still to visit. */
  function TopMergedExcept(built: map<string, Json>, original: map<string, Json>, pending: set<string>): map<string, Json>
  {
    map k | k in built.Keys + (original.Keys - pending) ::
      if k in original && k !in pending && (IsComment(k) || k !in built) then original[k] else built[k]
  }

  /** The inner loop of the second merge: copy the old section's missing comments. */
  method AddSectionComments(fields: map<string, Json>, previous: map<string, Json>) returns (r: map<string, Json>)
    ensures r == AddComments(fields, previous, previous.Keys)
  {
    r := fields;
    var pending := previous.Keys;
    while pending != {}
      invariant pending <= previous.Keys
      invariant r == AddComments(fields, previous, previous.Keys - pending)
      decreases pending
    {
      var k :| k in pending;
      if IsComment(k) && k !in r {
        r := r[k := previous[k]];
      }
      pending := pending - {k};
    }
  }

  /** Both merges of `collect_config_from_ui`, as loops over the entries. */
  method MergeComments(built: map<string, Json>, original: map<string, Json>) returns (config: map<string, Json>)
    ensures config == SectionsMerged(TopMerged(built, original), original)
  {
    config := TopMerge(built, original);
    config := MergeSections(config, original);
  }

  /** The first merge: copy the old comments and the old keys the window does not write. */
  method TopMerge(built: map<string, Json>, original: map<string, Json>) returns (config: map<string, Json>)
    ensures config == TopMerged(built, original)
  {
    config := built;
    var pending := original.Keys;
    while pending != {}
      invariant pending <= original.Keys
      invariant config == TopMergedExcept(built, original, pending)
      decreases pending
    {
      var k :| k in pending;
      if IsComment(k) || k !in built {
        config := config[k := original[k]];
      }
      pending := pending - {k};
    }
  }

  /** The second merge: each section object gains the old section's missing comments. */
  method MergeSections(merged: map<string, Json>, original: map<string, Json>) returns (config: map<string, Json>)
    ensures config == SectionsMerged(merged, original)
  {
    config := merged;
    var sections := merged.Keys;
    while sections != {}
      invariant sections <= merged.Keys
      invariant config.Keys == merged.Keys
      invariant forall k :: k in merged.Keys - sections ==> config[k] == WithOldComments(merged[k], if k in original then Some(original[k]) else None)
      invariant forall k :: k in sections ==> config[k] == merged[k]
      decreases sections
    {
      var name :| name in sections;
      var section := config[name];
      if section.JObj? && name in original && original[name].JObj? {
        var fields := AddSectionComments(section.fields, original[name].fields);
        config := config[name := JObj(fields)];
      }
      sections := sections - {name};
    }
  }

  /**
   * The collected configuration keeps the old top-level comments and keys
   * the window does not know, gives each section it writes the old
   * section's comments it lacks, and adds nothing else.
   */
  lemma CollectKeepsComments(built: map<string, Json>, original: map<string, Json>)
    ensures var r := SectionsMerged(TopMerged(built, original), original);
      r.Keys == built.Keys + original.Keys &&
      (forall k :: k in original && (IsComment(k) || k !in built) && !original[k].JObj? ==> r[k] == original[k]) &&
      (forall k :: k in built && !IsComment(k) && built[k].JObj? && k in original && original[k].JObj? ==>
        r[k].JObj? &&
        (forall f :: f in built[k].fields ==> f in r[k].fields && r[k].fields[f] == built[k].fields[f]) &&
        (forall f :: f in original[k].fields && IsComment(f) ==> f in r[k].fields) &&
        (forall f :: f in r[k].fields ==> f in built[k].fields || (IsComment(f) && f in original[k].fields)))
  {
  }

  /** A copied old section gains nothing from its own comments. */
  lemma OldSectionUnchanged(section: Json)
    ensures WithOldComments(section, Some(section)) == section
  {
    if section.JObj? {
      assert WithOldComments(section, Some(section)).fields == section.fields;
    }
  }

  /** The title of the window: a trailing ` *` marks unsaved changes. */
  function Title(hasChanges: bool): (t: string)
    ensures hasChanges <==> |t| >= 2 && t[|t| - 2..] == " *"
  {
    if hasChanges then "配置面板 *" else "配置面板"
  }

  class ConfigPanelWindow {
    /** The configuration the window was opened with, or last saved. */
    var configData: Json
    var ui: UiValues
    var daily: bool
    /** The Monday-to-Sunday boxes. */
    var week: seq<bool>
    var closeLabel: string
    var hasChanges: bool
    var title: string
    /** The window has not been destroyed. */
    var open: bool
    /** The configuration file as the window last wrote it. */
    var saved: Option<Json>

    predicate Valid()
      reads this
    {
      |week| == 7 && title == Title(hasChanges)
    }

    /**
     * Opening the window loads the configuration into the widgets;
     * `tclBooleans` and `startupQueryOk` are as `LoadConfigToUi` takes them.
     */
    constructor (config: Json, fallback: UiValues, tclBooleans: set<string>, startupQueryOk: bool)
      ensures Valid() && open && !hasChanges && configData == config && saved.None?
    {
      configData := config;
      ui := fallback;
      daily := false;
      week := [false, false, false, false, false, false, false];
      closeLabel := ExitLabel;
      hasChanges := false;
      title := Title(false);
      open := true;
      saved := None;
      new;
      var _ := LoadConfigToUi(fallback, tclBooleans, startupQueryOk);
    }

    /** `on_config_change`. */
    method OnConfigChange()
      requires Valid()
      modifies this`hasChanges, this`title
      ensures Valid() && hasChanges
    {
      hasChanges := true;
      title := Title(hasChanges);
    }

    /** Ticking or unticking "daily", then `on_daily_change`: ticking it clears every weekday. */
    method ToggleDaily()
      requires Valid()
      modifies this`daily, this`week, this`hasChanges, this`title
      ensures Valid() && hasChanges
      ensures daily == !old(daily)
      ensures daily ==> forall i :: 0 <= i < 7 ==> !week[i]
      ensures !daily ==> week == old(week)
      ensures !(daily && exists i :: 0 <= i < 7 && week[i])
    {
      daily := !daily;
      if daily {
        week := [false, false, false, false, false, false, false];
      }
      OnConfigChange();
    }

    /** Ticking or unticking weekday `i`, then `on_specific_day_change`: any ticked weekday clears "daily". */
    method ToggleDay(i: nat)
      requires Valid() && i < 7
      modifies this`daily, this`week, this`hasChanges, this`title
      ensures Valid() && hasChanges
      ensures week == old(week)[i := !old(week)[i]]
      ensures daily == (old(daily) && forall j :: 0 <= j < 7 ==> !week[j])
      ensures !(daily && exists j :: 0 <= j < 7 && week[j])
    {
      week := week[i := !week[i]];
      var anySpecific := false;
      var j := 0;
      while j < 7
        invariant 0 <= j <= 7 && |week| == 7
        invariant anySpecific <==> exists k :: 0 <= k < j && week[k]
      {
        anySpecific := anySpecific || week[j];
        j := j + 1;
      }
      if anySpecific {
        daily := false;
      }
      OnConfigChange();
    }

    /**
     * `load_config_to_ui`: the reads run in order inside one `try`, so the
     * first that raises (a section that is not an object, a value a
     * `BooleanVar` refuses, a `days` that `in` cannot search, an unhashable
     * close value) leaves every box after it as it was and shows the error
     * (`failed`). A `days` value holding `daily` ticks that box and leaves
     * the weekday boxes alone; otherwise each weekday box follows `days`.
     * Either way the window is marked unchanged. `tclBooleans` are the
     * strings Tcl reads as booleans; `startupQueryOk` is false when asking
     * the startup manager raised.
     */
    method LoadConfigToUi(fallback: UiValues, tclBooleans: set<string>, startupQueryOk: bool) returns (failed: bool)
      requires |week| == 7
      modifies this`ui, this`daily, this`week, this`closeLabel, this`hasChanges, this`title
      ensures Valid() && !hasChanges
      ensures failed <==> !LoadSucceeds(configData, tclBooleans, startupQueryOk)
      ensures !DaysLoad(configData, tclBooleans) ==> daily == old(daily) && week == old(week)
      ensures DaysLoad(configData, tclBooleans) ==>
        var d := LoadedDays(configData).value;
        (MemberOf("daily", d) == Some(true) ==> daily && week == old(week)) &&
        (MemberOf("daily", d) == Some(false) ==>
           daily == old(daily) && forall i :: 0 <= i < 7 ==> week[i] == (MemberOf(DayOrder[i], d) == Some(true)))
      ensures closeLabel ==
        if CloseLoad(configData, tclBooleans) then LoadedLabel(LoadedClose(configData).value) else old(closeLabel)
    {
      ui := fallback;
      failed := true;
      if DaysLoad(configData, tclBooleans) {
        var d := LoadedDays(configData).value;
        if MemberOf("daily", d).value {
          daily := true;
        } else {
          var w := [];
          var i := 0;
          while i < 7
            invariant 0 <= i <= 7 && |w| == i
            invariant forall k :: 0 <= k < i ==> w[k] == (MemberOf(DayOrder[k], d) == Some(true))
          {
            w := w + [MemberOf(DayOrder[i], d) == Some(true)];
            i := i + 1;
          }
          week := w;
        }
        if CloseLoad(configData, tclBooleans) {
          closeLabel := LoadedLabel(LoadedClose(configData).value);
          failed := !LoadSucceeds(configData, tclBooleans, startupQueryOk);
        }
      }
      hasChanges := false;
      title := Title(false);
    }

    /** `collect_config_from_ui`: the built dictionary, then the two comment merges. */
    method CollectConfigFromUi() returns (config: Json)
      requires Valid()
      ensures config == Collected()
    {
      var fields := MergeComments(Built(ui, daily, week, closeLabel), Original());
      config := JObj(fields);
    }

    /** The old configuration's entries, when it is an object. */
    function Original(): map<string, Json>
      reads this
    {
      if configData.JObj? then configData.fields else map[]
    }

    /** The configuration the widgets describe, with the old comments merged in. */
    function Collected(): Json
      reads this
      requires |week| == 7
    {
      JObj(SectionsMerged(TopMerged(Built(ui, daily, week, closeLabel), Original()), Original()))
    }

    /**
     * `save_config`: collect, validate, write. Only a configuration that
     * passes the check and is written clears the unsaved-changes marker.
     */
    method SaveConfig(writeOk: bool) returns (stored: bool)
      requires Valid()
      modifies this`configData, this`hasChanges, this`title, this`saved
      ensures Valid()
      ensures var c := old(Collected());
        (stored <==> Validate(c) && writeOk) &&
        (stored ==> configData == c && saved == Some(c) && !hasChanges) &&
        (!stored ==> configData == old(configData) && saved == old(saved) && hasChanges == old(hasChanges))
    {
      var config := CollectConfigFromUi();
      if !Validate(config) || !writeOk {
        return false;
      }
      saved := Some(config);
      configData := config;
      hasChanges := false;
      title := Title(false);
      stored := true;
    }

    /**
     * `on_closing`: with no unsaved change the window closes; otherwise
     * "yes" saves and closes only if the save went through, "no" closes
     * without saving, and "cancel" (`None`) does nothing.
     */
    method OnClosing(answer: Option<bool>, writeOk: bool)
      requires Valid() && open
      modifies this`configData, this`hasChanges, this`title, this`saved, this`open
      ensures Valid()
      ensures !old(hasChanges) ==> !open && saved == old(saved)
      ensures old(hasChanges) && answer == Some(false) ==> !open && saved == old(saved) && hasChanges
      ensures old(hasChanges) && answer.None? ==> open && saved == old(saved) && hasChanges
      ensures old(hasChanges) && answer == Some(true) ==>
        (open <==> hasChanges) && (open ==> saved == old(saved)) && (!open ==> saved.Some? && Validate(saved.value))
    {
      if hasChanges {
        if answer == Some(true) {
          var _ := SaveConfig(writeOk);
          if hasChanges {
            return;
          }
          open := false;
        } else if answer == Some(false) {
          open := false;
        }
      } else {
        open := false;
      }
    }
  }
}
