/**
 * The app's single SharedPreferences file, shared by the sideline service,
 * the auto-enable monitor and the per-app settings screen.
 *
 * The store is a map from key to a typed value. Writes made with `apply()`
 * take effect at once. The keys are collected here, although the source
 * declares them in the companion objects of three different classes,
 * because those modules import each other's keys.
 */
module Prefs {

  datatype PrefValue =
    | BoolPref(b: bool)
    | IntPref(i: int)
    | StringSetPref(strings: set<string>)

  type Store = map<string, PrefValue>

  // SidebarService's keys
  const SIDELINE := "sideline"
  const SIDELINE_POSITION_X := "sideline_position_x"
  const SIDELINE_POSITION_Y_PORTRAIT := "sideline_position_y_portrait"
  const SIDELINE_POSITION_Y_LANDSCAPE := "sideline_position_y_landscape"
  const SLIDER_TRANSPARENCY := "slider_transparency"
  const SLIDER_LENGTH := "slider_length"

  // SidebarMonitorService's keys
  const KEY_AUTO_ENABLE_SELECTED_APPS := "sidebar_auto_enable_selected_apps"
  const KEY_AUTO_ENABLED_TEMP := "sidebar_auto_enabled_temp"

  // SidebarPerAppConfigFragment's key
  const PREF_AUTO_APPS := "sidebar_auto_apps"

  /** `getBoolean(key, default)`; a value of another type reads as absent. */
  function GetBoolean(s: Store, key: string, default: bool): bool {
    if key in s && s[key].BoolPref? then s[key].b else default
  }

  /** `getInt(key, default)`; a value of another type reads as absent. */
  function GetInt(s: Store, key: string, default: int): int {
    if key in s && s[key].IntPref? then s[key].i else default
  }

  /** `getStringSet(key, default) ?: default`; a value of another type reads as absent. */
  function GetStringSet(s: Store, key: string, default: set<string>): set<string> {
    if key in s && s[key].StringSetPref? then s[key].strings else default
  }

  /** The shared preferences object; every service holds a reference to the same one. */
  class SharedPreferences {
    var entries: Store

    constructor (initial: Store)
      ensures entries == initial
    {
      entries := initial;
    }

    /** `edit().putBoolean(key, value).apply()` */
    method PutBoolean(key: string, value: bool)
      modifies this
      ensures entries == old(entries)[key := BoolPref(value)]
      ensures forall d :: GetBoolean(entries, key, d) == value
    {
      entries := entries[key := BoolPref(value)];
    }

    /** `edit().putInt(key, value).apply()` */
    method PutInt(key: string, value: int)
      modifies this
      ensures entries == old(entries)[key := IntPref(value)]
      ensures forall d :: GetInt(entries, key, d) == value
    {
      entries := entries[key := IntPref(value)];
    }

    /** `edit().putStringSet(key, value).apply()` */
    method PutStringSet(key: string, value: set<string>)
      modifies this
      ensures entries == old(entries)[key := StringSetPref(value)]
    {
      entries := entries[key := StringSetPref(value)];
    }
  }
}
