/**
 * SidebarMonitorService: every two seconds, while the sideline is not
 * switched on by the user and auto-enable is on, ask which app is in the
 * foreground and, when it changed, raise or clear the temporary
 * auto-enable flag according to the per-app list.
 *
 * One run of the loop is `Tick`, a function of the monitor's state, the
 * preferences and the foreground package; the class runs it against the
 * shared preferences and the detector's cache. The two-second timer is
 * left out: a caller runs `MonitorForegroundApp` once per firing.
 */
module MonitorServiceModel {
  import opened Prefs
  import opened ForegroundDetector
  import opened PerAppConfig
  import SidebarServiceModel

  /** The monitor's own fields. */
  datatype MonitorState = MonitorState(isRunning: bool, lastForegroundApp: string, lastSidebarState: bool)

  /** The fields after `onCreate`, and again after `onDestroy`. */
  const INITIAL_STATE := MonitorState(false, "", false)

  /** A tick asks the detector only when running, not switched on by hand, and auto-enable is on. */
  predicate ConsultsForeground(s: MonitorState, store: Store) {
    && s.isRunning
    && !GetBoolean(store, SIDELINE, false)
    && GetBoolean(store, KEY_AUTO_ENABLE_SELECTED_APPS, false)
  }

  /** `startSidebarService` / `stopSidebarService`: write the temporary flag. */
  function SetTempFlag(store: Store, on: bool): Store {
    store[KEY_AUTO_ENABLED_TEMP := BoolPref(on)]
  }

  datatype TickResult = TickResult(state: MonitorState, store: Store)

  /**
   * `monitorForegroundApp`, given the package the detector reports.
   * A tick never stops the monitor, writes no key but the temporary flag,
   * and writes that only when `lastSidebarState` flips, to its new value.
   */
  function Tick(s: MonitorState, store: Store, foreground: string): (r: TickResult)
    ensures r.state.isRunning == s.isRunning
    ensures r.store == if r.state.lastSidebarState == s.lastSidebarState then store
                       else SetTempFlag(store, r.state.lastSidebarState)
    // not running, or the user has the sideline on: nothing happens
    ensures !s.isRunning || GetBoolean(store, SIDELINE, false) ==> r == TickResult(s, store)
    // auto-enable off: an auto-enabled sideline is cleared and the last app is kept
    ensures s.isRunning && !GetBoolean(store, SIDELINE, false) && !GetBoolean(store, KEY_AUTO_ENABLE_SELECTED_APPS, false)
            ==> r.state == s.(lastSidebarState := false)
    // same app as last time: nothing happens
    ensures ConsultsForeground(s, store) && foreground == s.lastForegroundApp ==> r == TickResult(s, store)
    // a new app: remember it, and want the sideline exactly when it is on the list
    ensures ConsultsForeground(s, store) && foreground != s.lastForegroundApp
            ==> r.state == s.(lastForegroundApp := foreground, lastSidebarState := foreground in AutoApps(store))
  {
    if !s.isRunning then TickResult(s, store)
    else if GetBoolean(store, SIDELINE, false) then TickResult(s, store)
    else if !GetBoolean(store, KEY_AUTO_ENABLE_SELECTED_APPS, false) then
      if s.lastSidebarState then TickResult(s.(lastSidebarState := false), SetTempFlag(store, false))
      else TickResult(s, store)
    else if foreground != s.lastForegroundApp then
      var shouldShow := foreground in AutoApps(store);
      var next :=
        if shouldShow && !s.lastSidebarState then TickResult(s.(lastSidebarState := true), SetTempFlag(store, true))
        else if !shouldShow && s.lastSidebarState then TickResult(s.(lastSidebarState := false), SetTempFlag(store, false))
        else TickResult(s, store);
      next.(state := next.state.(lastForegroundApp := foreground))
    else TickResult(s, store)
  }

  /** Writing the temporary flag changes none of the keys a tick reads. */
  lemma SetTempFlagKeepsInputs(store: Store, on: bool)
    ensures GetBoolean(SetTempFlag(store, on), SIDELINE, false) == GetBoolean(store, SIDELINE, false)
    ensures GetBoolean(SetTempFlag(store, on), KEY_AUTO_ENABLE_SELECTED_APPS, false)
         == GetBoolean(store, KEY_AUTO_ENABLE_SELECTED_APPS, false)
    ensures AutoApps(SetTempFlag(store, on)) == AutoApps(store)
    ensures GetBoolean(SetTempFlag(store, on), KEY_AUTO_ENABLED_TEMP, !on) == on
  {
  }

  /** A second tick that sees the same foreground app changes nothing more. */
  lemma TickIdempotent(s: MonitorState, store: Store, foreground: string)
    ensures var once := Tick(s, store, foreground);
            Tick(once.state, once.store, foreground) == once
  {
    var once := Tick(s, store, foreground);
    SetTempFlagKeepsInputs(store, true);
    SetTempFlagKeepsInputs(store, false);
    if once.store != store {
      assert once.store == SetTempFlag(store, once.state.lastSidebarState);
    }
  }

  /** The monitor's belief agrees with the stored flag. */
  predicate TempFlagInSync(s: MonitorState, store: Store) {
    GetBoolean(store, KEY_AUTO_ENABLED_TEMP, false) == s.lastSidebarState
  }

  /** A tick keeps the belief and the stored flag in step. */
  lemma TickKeepsTempFlagInSync(s: MonitorState, store: Store, foreground: string)
    requires TempFlagInSync(s, store)
    ensures TempFlagInSync(Tick(s, store, foreground).state, Tick(s, store, foreground).store)
  {
    var r := Tick(s, store, foreground);
    if r.store != store {
      SetTempFlagKeepsInputs(store, r.state.lastSidebarState);
    }
  }

  /**
   * `onDestroy` and `onCreate` reset `lastSidebarState` but leave the
   * stored flag alone. After a restart while the flag is set, a tick on an
   * app that is not on the list neither clears the flag nor counts it as
   * set, so the sideline stays auto-enabled in that app.
   */
  lemma RestartForgetsTempFlag(store: Store, foreground: string)
    requires GetBoolean(store, KEY_AUTO_ENABLED_TEMP, false)
    requires !GetBoolean(store, SIDELINE, false)
    requires GetBoolean(store, KEY_AUTO_ENABLE_SELECTED_APPS, false)
    requires foreground !in AutoApps(store)
    ensures var r := Tick(INITIAL_STATE.(isRunning := true), store, foreground);
            && r.store == store
            && !r.state.lastSidebarState
            && SidebarServiceModel.SidelineWanted(r.store)
  {
  }

  /**
   * Listing an app on the settings screen makes the next tick that sees it
   * in the foreground (after some other app) raise the flag, or find it
   * raised already, and so the sideline is wanted.
   */
  lemma ListedAppAutoEnables(s: MonitorState, store: Store, pkg: string)
    requires ConsultsForeground(s, store)
    requires pkg != s.lastForegroundApp
    requires TempFlagInSync(s, store)
    ensures var listed := OnCheckedChange(store, pkg, true);
            var r := Tick(s, listed, pkg);
            && r.state.lastSidebarState
            && r.state.lastForegroundApp == pkg
            && SidebarServiceModel.SidelineWanted(r.store)
  {
    var listed := OnCheckedChange(store, pkg, true);
    assert GetBoolean(listed, SIDELINE, false) == GetBoolean(store, SIDELINE, false);
    assert GetBoolean(listed, KEY_AUTO_ENABLE_SELECTED_APPS, false)
        == GetBoolean(store, KEY_AUTO_ENABLE_SELECTED_APPS, false);
    assert TempFlagInSync(s, listed);
    TickKeepsTempFlagInSync(s, listed, pkg);
  }

  class SidebarMonitorService {
    const prefs: SharedPreferences
    /** The process-wide ForegroundAppDetector object. */
    const detector: ForegroundAppDetector
    var isRunning: bool
    var lastForegroundApp: string
    var lastSidebarState: bool

    function State(): MonitorState
      reads this
    {
      MonitorState(isRunning, lastForegroundApp, lastSidebarState)
    }

    /** `onCreate` */
    constructor (prefs: SharedPreferences, detector: ForegroundAppDetector)
      ensures this.prefs == prefs && this.detector == detector
      ensures State() == INITIAL_STATE
    {
      this.prefs := prefs;
      this.detector := detector;
      isRunning := false;
      lastForegroundApp := "";
      lastSidebarState := false;
    }

    /** `onStartCommand`: start the loop unless it is already running; reports whether it posted it. */
    method OnStartCommand() returns (posted: bool)
      modifies this`isRunning
      ensures isRunning
      ensures posted == !old(isRunning)
    {
      posted := false;
      if !isRunning {
        isRunning := true;
        posted := true;
      }
    }

    /** `onDestroy`: stop the loop and forget the last app and state. */
    method OnDestroy()
      modifies this
      ensures State() == INITIAL_STATE
    {
      isRunning := false;
      lastForegroundApp := "";
      lastSidebarState := false;
    }

    /** `startSidebarService` */
    method StartSidebarService()
      modifies prefs
      ensures prefs.entries == SetTempFlag(old(prefs.entries), true)
    {
      prefs.PutBoolean(KEY_AUTO_ENABLED_TEMP, true);
    }

    /** `stopSidebarService` */
    method StopSidebarService()
      modifies prefs
      ensures prefs.entries == SetTempFlag(old(prefs.entries), false)
    {
      prefs.PutBoolean(KEY_AUTO_ENABLED_TEMP, false);
    }

    /**
     * `monitorForegroundApp`: one `Tick` with the package the detector
     * reports; the detector's cache moves only when the tick asks it.
     */
    method MonitorForegroundApp(p: Platform)
      modifies this, prefs, detector
      ensures TickResult(State(), prefs.entries)
           == Tick(old(State()), old(prefs.entries), Lookup(old(detector.CacheState()), p).packageName)
      ensures ConsultsForeground(old(State()), old(prefs.entries))
              ==> detector.CacheState() == Lookup(old(detector.CacheState()), p).cache
      ensures !ConsultsForeground(old(State()), old(prefs.entries))
              ==> detector.CacheState() == old(detector.CacheState())
    {
      if !isRunning {
        return;
      }
      var masterEnabled := GetBoolean(prefs.entries, SIDELINE, false);
      if masterEnabled {
        return;
      }
      var autoEnableEnabled := GetBoolean(prefs.entries, KEY_AUTO_ENABLE_SELECTED_APPS, false);
      if !autoEnableEnabled {
        if lastSidebarState {
          StopSidebarService();
          lastSidebarState := false;
        }
        return;
      }
      var foregroundPackage := detector.GetForegroundPackageName(p);
      if foregroundPackage != lastForegroundApp {
        var autoApps := GetStringSet(prefs.entries, PREF_AUTO_APPS, {});
        var shouldShow := foregroundPackage in autoApps;
        if shouldShow && !lastSidebarState {
          StartSidebarService();
          lastSidebarState := true;
        } else if !shouldShow && lastSidebarState {
          StopSidebarService();
          lastSidebarState := false;
        }
        lastForegroundApp := foregroundPackage;
      }
    }
  }
}
