/**
 * The developer debug switches (debug_control/debug_manager.py over the
 * constants of debug_control/debug_config.py). The constants are one
 * `DebugConfig` value; `Shipped` holds the values the program ships with.
 */
module DebugSwitches {
  import opened Wrappers

  /** A value of the nested settings dictionaries: a flag or a number. */
  datatype Setting = Flag(b: bool) | Number(n: int)

  datatype DebugConfig = DebugConfig(
    performance: bool, gui: bool, icon: bool,
    thresholds: map<string, int>,
    guiComponents: map<string, map<string, Setting>>,
    iconSettings: map<string, Setting>)

  /** The constants as shipped: every switch off. */
  const Shipped: DebugConfig := DebugConfig(
    false, false, false,
    map["fast" := 50, "normal" := 100, "slow" := 200, "very_slow" := 500],
    map["layout" := map["enabled" := Flag(true), "log_frequency_seconds" := Number(1)],
        "buttons" := map["enabled" := Flag(true), "log_clicks" := Flag(true)],
        "status_updates" := map["enabled" := Flag(true), "log_frequency_seconds" := Number(5)],
        "window_events" := map["enabled" := Flag(true), "log_resize" := Flag(true), "log_focus" := Flag(false)]],
    map["log_file_operations" := Flag(true), "log_image_processing" := Flag(true),
        "log_dpi_scaling" := Flag(true), "log_format_conversion" := Flag(true),
        "log_system_info" := Flag(true), "max_retry_attempts" := Number(5)])

  /** `is_gui_component_debug_enabled(component)`: the component's `enabled` entry, `False` when missing. */
  function GuiComponentDebug(c: DebugConfig, component: string): (r: Setting)
    ensures !c.gui ==> r == Flag(false)
    ensures c.gui && component !in c.guiComponents ==> r == Flag(false)
    ensures c.gui && component in c.guiComponents && "enabled" in c.guiComponents[component] ==>
      r == c.guiComponents[component]["enabled"]
    ensures c.gui && component in c.guiComponents && "enabled" !in c.guiComponents[component] ==> r == Flag(false)
  {
    if !c.gui then Flag(false)
    else
      var entry := if component in c.guiComponents then c.guiComponents[component] else map[];
      if "enabled" in entry then entry["enabled"] else Flag(false)
  }

  /** `get_icon_setting(name, default)`. */
  function IconSetting(c: DebugConfig, name: string, default: Setting): (r: Setting)
    ensures !c.icon || name !in c.iconSettings ==> r == default
    ensures c.icon && name in c.iconSettings ==> r == c.iconSettings[name]
  {
    if !c.icon then default
    else if name in c.iconSettings then c.iconSettings[name] else default
  }

  /** `get_performance_threshold(name)`, in milliseconds. */
  function PerformanceThreshold(c: DebugConfig, name: string): (ms: int)
    ensures name !in c.thresholds ==> ms == 100
    ensures name in c.thresholds ==> ms == c.thresholds[name]
  {
    if name in c.thresholds then c.thresholds[name] else 100
  }

  /** `get_debug_status_summary()`. */
  datatype Summary = Summary(performanceDebug: bool, guiDebug: bool, iconDebug: bool)

  function StatusSummary(c: DebugConfig): (s: Summary)
    ensures s.performanceDebug == c.performance && s.guiDebug == c.gui && s.iconDebug == c.icon
  {
    Summary(c.performance, c.gui, c.icon)
  }

  /**
   * As shipped, no GUI component is debugged and every icon setting is the
   * caller's default; the named thresholds are 50, 100, 200 and 500 ms.
   */
  lemma ShippedQuiet(component: string, name: string, default: Setting)
    ensures GuiComponentDebug(Shipped, component) == Flag(false)
    ensures IconSetting(Shipped, name, default) == default
    ensures StatusSummary(Shipped) == Summary(false, false, false)
    ensures PerformanceThreshold(Shipped, "fast") == 50 && PerformanceThreshold(Shipped, "very_slow") == 500
  {
  }

  /** Turning GUI debugging on enables exactly the components whose entry says so. */
  lemma GuiComponentsWhenOn(c: DebugConfig, component: string)
    requires c.gui && c.guiComponents == Shipped.guiComponents
    ensures GuiComponentDebug(c, component) == Flag(component in {"layout", "buttons", "status_updates", "window_events"})
  {
  }

  /** The process-wide instance: `DebugManager()` constructs once and then always returns it. */
  class DebugManager {
    const config: DebugConfig

    constructor (c: DebugConfig)
      ensures config == c
    {
      config := c;
    }
  }

  class DebugManagerHolder {
    var instance: DebugManager?

    constructor ()
      ensures instance == null
    {
      instance := null;
    }

    /** `DebugManager()`. */
    method Get(c: DebugConfig) returns (m: DebugManager)
      modifies this
      ensures old(instance) != null ==> m == old(instance)
      ensures old(instance) == null ==> fresh(m) && m.config == c
      ensures instance == m
    {
      if instance == null {
        instance := new DebugManager(c);
      }
      m := instance;
    }
  }

  /** Two constructions give the same object. */
  method SameInstance(h: DebugManagerHolder, c: DebugConfig) returns (a: DebugManager, b: DebugManager)
    modifies h
    ensures a == b && h.instance == a
  {
    a := h.Get(c);
    b := h.Get(c);
  }
}
