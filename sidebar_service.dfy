/**
 * SidebarService: the overlay service that shows the draggable sideline
 * handle, moves it under the finger, snaps it to a screen edge and
 * remembers where it was left.
 *
 * The window's `layoutParams` is a value the service reassigns. Every call
 * the service posts to the WindowManager is appended to `windowOps`, and a
 * posted call is taken to run at once and to succeed.
 */
module SidebarServiceModel {
  import opened Optional
  import opened Prefs
  import opened SidelineGeometry

  /** The fields of WindowManager.LayoutParams that the service sets. */
  datatype Layout = Layout(x: int, y: int, width: int, height: int)

  const MATCH_PARENT := -1

  /** A fresh `WindowManager.LayoutParams()`. */
  const DEFAULT_LAYOUT := Layout(0, 0, MATCH_PARENT, MATCH_PARENT)

  /** The WindowManager calls the service posts, with the layout each one carries. */
  datatype WindowOp =
    | AddView(layout: Layout)
    | UpdateLayout(layout: Layout)
    | RemoveViewImmediate

  /** Whether the WindowManager holds the handle after `ops`. */
  function ViewAttached(ops: seq<WindowOp>): bool {
    if ops == [] then false
    else match ops[|ops| - 1]
      case AddView(_) => true
      case RemoveViewImmediate => false
      case UpdateLayout(_) => ViewAttached(ops[..|ops| - 1])
  }

  lemma UpdateKeepsAttachment(ops: seq<WindowOp>, l: Layout)
    ensures ViewAttached(ops + [UpdateLayout(l)]) == ViewAttached(ops)
  {
    assert (ops + [UpdateLayout(l)])[..|ops|] == ops;
  }

  /** `getSliderLength()` */
  function SliderLength(store: Store): int {
    GetInt(store, SLIDER_LENGTH, DEFAULT_SIDELINE_HEIGHT)
  }

  /** The key the resting y is stored under in the current orientation. */
  function YKey(portrait: bool): string {
    if portrait then SIDELINE_POSITION_Y_PORTRAIT else SIDELINE_POSITION_Y_LANDSCAPE
  }

  /** The side read back by updateSidelinePosition; the right edge when nothing is stored. */
  function StoredSide(store: Store): int {
    GetInt(store, SIDELINE_POSITION_X, 1)
  }

  /** The y read back by updateSidelinePosition; `-screenHeight / 6` when nothing is stored. */
  function StoredY(store: Store, screenHeight: int, portrait: bool): int {
    GetInt(store, YKey(portrait), Quot(-screenHeight, 6))
  }

  /** The handle is wanted when it is switched on or the monitor has auto-enabled it. */
  predicate SidelineWanted(store: Store) {
    GetBoolean(store, SIDELINE, false) || GetBoolean(store, KEY_AUTO_ENABLED_TEMP, false)
  }

  /**
   * With nothing stored the handle starts on the right edge, a sixth of
   * the screen above the middle (Kotlin's division truncates, so the
   * default is `-(screenHeight / 6)`).
   */
  lemma DefaultPosition(store: Store, screenHeight: int, portrait: bool)
    requires SIDELINE_POSITION_X !in store && YKey(portrait) !in store
    ensures StoredSide(store) == 1
    ensures StoredY(store, screenHeight, portrait) == -Quot(screenHeight, 6)
  {
    QuotOfNegation(screenHeight, 6);
  }

  /**
   * What endMoveSideline stores is what updateSidelinePosition reads back:
   * the same side, and the same y once it is clamped again.
   */
  lemma PersistedPositionRestored(store: Store, side: int, y: int, screenHeight: int, cfg: DeviceConfig)
    requires ClampDefined(screenHeight, SliderLength(store), cfg)
    requires MinY(screenHeight, SliderLength(store), cfg) <= y <= MaxY(screenHeight, SliderLength(store), cfg)
    ensures
      var saved := store[SIDELINE_POSITION_X := IntPref(side)][YKey(cfg.portrait) := IntPref(y)];
      && SliderLength(saved) == SliderLength(store)
      && StoredSide(saved) == side
      && ConstrainY(StoredY(saved, screenHeight, cfg.portrait), screenHeight, SliderLength(saved), cfg) == y
  {
    var saved := store[SIDELINE_POSITION_X := IntPref(side)][YKey(cfg.portrait) := IntPref(y)];
    assert YKey(cfg.portrait) != SIDELINE_POSITION_X && YKey(cfg.portrait) != SLIDER_LENGTH;
    assert StoredY(saved, screenHeight, cfg.portrait) == y;
  }

  class SidebarService {
    const prefs: SharedPreferences
    var userId: int
    var serviceStarted: bool
    var showSideline: bool
    var isShowingSideline: bool
    var sidelinePositionX: int
    var sidelinePositionY: int
    var screenWidth: int
    var screenHeight: int
    var layoutParams: Layout
    var windowOps: seq<WindowOp>

    /**
     * The handle is in the window exactly when `isShowingSideline` says so,
     * and a shown handle is either resting or widened for a drag.
     */
    ghost predicate Valid()
      reads this
    {
      && ViewAttached(windowOps) == isShowingSideline
      && (isShowingSideline ==> layoutParams.width == SIDELINE_WIDTH || layoutParams.width == SIDELINE_MOVE_WIDTH)
    }

    /** The clamp band is well defined for the current screen. */
    predicate CanClamp(cfg: DeviceConfig)
      reads this, prefs
    {
      ClampDefined(screenHeight, SliderLength(prefs.entries), cfg)
    }

    /**
     * The handle has just been attached, after the window calls `before`:
     * resting width, the stored length, the stored side and the clamped
     * stored y for the current orientation.
     */
    ghost predicate JustShown(cfg: DeviceConfig, before: seq<WindowOp>)
      reads this, prefs
    {
      && CanClamp(cfg)
      && isShowingSideline
      && sidelinePositionX == StoredSide(prefs.entries)
      && sidelinePositionY == StoredY(prefs.entries, screenHeight, cfg.portrait)
      && layoutParams == Layout(SidelineX(sidelinePositionX, screenWidth, cfg.portrait),
                                ConstrainY(sidelinePositionY, screenHeight, SliderLength(prefs.entries), cfg),
                                SIDELINE_WIDTH, SliderLength(prefs.entries))
      && windowOps == before + [AddView(layoutParams)]
    }

    constructor (prefs: SharedPreferences)
      ensures Valid() && this.prefs == prefs
      ensures userId == 0 && !serviceStarted && !showSideline && !isShowingSideline
      ensures sidelinePositionX == 0 && sidelinePositionY == 0
      ensures screenWidth == 0 && screenHeight == 0
      ensures layoutParams == DEFAULT_LAYOUT && windowOps == []
    {
      this.prefs := prefs;
      userId, serviceStarted, showSideline, isShowingSideline := 0, false, false, false;
      sidelinePositionX, sidelinePositionY, screenWidth, screenHeight := 0, 0, 0, 0;
      layoutParams := DEFAULT_LAYOUT;
      windowOps := [];
    }

    /** onStartCommand: only the system user (0) runs the sideline. */
    method OnStartCommand(myUserId: int, widthPixels: int, heightPixels: int, cfg: DeviceConfig)
      requires Valid()
      requires myUserId == 0 && SidelineWanted(prefs.entries) && !isShowingSideline
               ==> ClampDefined(heightPixels, SliderLength(prefs.entries), cfg)
      modifies this`userId, this`screenWidth, this`screenHeight, this`serviceStarted, this`showSideline,
               this`isShowingSideline, this`sidelinePositionX, this`sidelinePositionY,
               this`layoutParams, this`windowOps
      ensures Valid() && userId == myUserId
      ensures myUserId != 0 ==> unchanged(this`serviceStarted, this`showSideline, this`isShowingSideline,
                                          this`screenWidth, this`screenHeight, this`sidelinePositionX,
                                          this`sidelinePositionY, this`layoutParams, this`windowOps)
      ensures myUserId == 0 ==>
        && serviceStarted && screenWidth == widthPixels && screenHeight == heightPixels
        && showSideline == GetBoolean(prefs.entries, SIDELINE, false)
        && isShowingSideline == (SidelineWanted(prefs.entries) || old(isShowingSideline))
      // the handle is attached only when wanted and not yet shown; otherwise it stays as it was
      ensures myUserId == 0 && SidelineWanted(prefs.entries) && !old(isShowingSideline) ==>
        JustShown(cfg, old(windowOps))
      ensures myUserId == 0 && !(SidelineWanted(prefs.entries) && !old(isShowingSideline)) ==>
        unchanged(this`sidelinePositionX, this`sidelinePositionY, this`layoutParams, this`windowOps)
    {
      userId := myUserId;
      if userId != 0 {
        return;
      }
      screenWidth := widthPixels;
      screenHeight := heightPixels;
      serviceStarted := true;
      showSideline := GetBoolean(prefs.entries, SIDELINE, false);
      var autoEnabled := GetBoolean(prefs.entries, KEY_AUTO_ENABLED_TEMP, false);
      if showSideline || autoEnabled {
        assert !isShowingSideline ==> CanClamp(cfg);
        ShowView(cfg);
      }
    }

    /**
     * onConfigurationChanged: react only when the screen size changed.
     * `sharedPrefs` is a `lateinit` property assigned only on the user-0
     * path of onStartCommand, just before `serviceStarted`; on a service
     * not started that way, a size change records the size and then
     * throws `UninitializedPropertyAccessException` at the first read of
     * the preferences, reported here as `thrown`.
     */
    method OnConfigurationChanged(newWidth: int, newHeight: int, cfg: DeviceConfig) returns (thrown: bool)
      requires Valid()
      requires (newWidth != screenWidth || newHeight != screenHeight) && serviceStarted
               && SidelineWanted(prefs.entries) && isShowingSideline
               ==> ClampDefined(newHeight, SliderLength(prefs.entries), cfg)
      modifies this`screenWidth, this`screenHeight, this`sidelinePositionX, this`sidelinePositionY,
               this`layoutParams, this`windowOps
      ensures Valid()
      ensures newWidth == old(screenWidth) && newHeight == old(screenHeight) ==> unchanged(this)
      ensures screenWidth == newWidth && screenHeight == newHeight
      ensures thrown <==> !serviceStarted && (newWidth != old(screenWidth) || newHeight != old(screenHeight))
      ensures (newWidth != old(screenWidth) || newHeight != old(screenHeight)) && serviceStarted
              && SidelineWanted(prefs.entries) && isShowingSideline ==>
        && sidelinePositionX == StoredSide(prefs.entries)
        && sidelinePositionY == StoredY(prefs.entries, newHeight, cfg.portrait)
        && layoutParams == old(layoutParams).(x := SidelineX(StoredSide(prefs.entries), newWidth, cfg.portrait),
                                               y := ConstrainY(StoredY(prefs.entries, newHeight, cfg.portrait),
                                                               newHeight, SliderLength(prefs.entries), cfg))
        && windowOps == old(windowOps) + [UpdateLayout(layoutParams)]
      ensures thrown || !(SidelineWanted(prefs.entries) && isShowingSideline) ==>
        unchanged(this`sidelinePositionX, this`sidelinePositionY, this`layoutParams, this`windowOps)
    {
      thrown := false;
      if newWidth == screenWidth && newHeight == screenHeight {
        return;
      }
      screenWidth := newWidth;
      screenHeight := newHeight;
      if !serviceStarted {
        thrown := true;
        return;
      }
      var masterEnabled := GetBoolean(prefs.entries, SIDELINE, false);
      var autoEnabled := GetBoolean(prefs.entries, KEY_AUTO_ENABLED_TEMP, false);
      if (masterEnabled || autoEnabled) && isShowingSideline {
        UpdateSidelinePosition(cfg);
      }
    }

    /** onDestroy: a started service always takes the handle down. */
    method OnDestroy()
      requires Valid()
      modifies this`isShowingSideline, this`windowOps
      ensures Valid()
      ensures !old(serviceStarted) ==> unchanged(this)
      ensures old(serviceStarted) ==> !isShowingSideline && windowOps == old(windowOps) + [RemoveViewImmediate]
    {
      if !serviceStarted {
        return;
      }
      RemoveView(true);
    }

    /** onSharedPreferenceChanged: follow the switches, the handle length and the stored side. */
    method OnSharedPreferenceChanged(key: Option<string>, cfg: DeviceConfig)
      requires Valid()
      requires key == Some(SIDELINE) || key == Some(KEY_AUTO_ENABLED_TEMP) ==>
               SidelineWanted(prefs.entries) && !isShowingSideline ==> CanClamp(cfg)
      requires key == Some(SLIDER_LENGTH) || key == Some(SIDELINE_POSITION_X) ==>
               isShowingSideline ==> CanClamp(cfg)
      modifies this`showSideline, this`isShowingSideline, this`sidelinePositionX, this`sidelinePositionY,
               this`layoutParams, this`windowOps
      ensures Valid()
      ensures showSideline == if key == Some(SIDELINE) then GetBoolean(prefs.entries, SIDELINE, false)
                              else old(showSideline)
      ensures key == Some(SIDELINE) || key == Some(KEY_AUTO_ENABLED_TEMP) ==>
        && isShowingSideline == SidelineWanted(prefs.entries)
        && (SidelineWanted(prefs.entries) && !old(isShowingSideline) ==> JustShown(cfg, old(windowOps)))
        && (SidelineWanted(prefs.entries) && old(isShowingSideline) ==>
              unchanged(this`sidelinePositionX, this`sidelinePositionY, this`layoutParams, this`windowOps))
        && (!SidelineWanted(prefs.entries) ==>
              && windowOps == old(windowOps) + [RemoveViewImmediate]
              && unchanged(this`sidelinePositionX, this`sidelinePositionY, this`layoutParams))
      ensures key == Some(SLIDER_LENGTH) || key == Some(SIDELINE_POSITION_X) ==>
        && isShowingSideline == old(isShowingSideline)
        && (old(isShowingSideline) ==>
              && sidelinePositionX == StoredSide(prefs.entries)
              && sidelinePositionY == StoredY(prefs.entries, screenHeight, cfg.portrait)
              && layoutParams == old(layoutParams).(x := SidelineX(StoredSide(prefs.entries), screenWidth, cfg.portrait),
                                                     y := ConstrainY(StoredY(prefs.entries, screenHeight, cfg.portrait),
                                                                     screenHeight, SliderLength(prefs.entries), cfg),
                                                     height := SliderLength(prefs.entries))
              && windowOps == old(windowOps) + [UpdateLayout(layoutParams), UpdateLayout(layoutParams)])
        && (!old(isShowingSideline) ==> unchanged(this))
      ensures key !in {Some(SIDELINE), Some(KEY_AUTO_ENABLED_TEMP), Some(SLIDER_LENGTH), Some(SIDELINE_POSITION_X)}
              ==> unchanged(this)
    {
      if key == Some(SIDELINE) {
        showSideline := GetBoolean(prefs.entries, SIDELINE, false);
        var autoEnabled := GetBoolean(prefs.entries, KEY_AUTO_ENABLED_TEMP, false);
        if showSideline || autoEnabled {
          ShowView(cfg);
        } else {
          RemoveView(true);
        }
      } else if key == Some(KEY_AUTO_ENABLED_TEMP) {
        var masterEnabled := GetBoolean(prefs.entries, SIDELINE, false);
        var autoEnabled := GetBoolean(prefs.entries, KEY_AUTO_ENABLED_TEMP, false);
        if masterEnabled || autoEnabled {
          ShowView(cfg);
        } else {
          RemoveView(true);
        }
      } else if key == Some(SLIDER_TRANSPARENCY) {
        // only the handle's alpha changes
      } else if key == Some(SLIDER_LENGTH) || key == Some(SIDELINE_POSITION_X) {
        if isShowingSideline {
          layoutParams := layoutParams.(height := SliderLength(prefs.entries));
          UpdateSidelinePosition(cfg);
          UpdateViewLayout();
        }
      }
    }

    /** The user-switch observer: hide for other users, show again for this one. */
    method OnUserSwitchComplete(newUserId: int, cfg: DeviceConfig)
      requires Valid()
      requires showSideline && newUserId == userId && !isShowingSideline ==> CanClamp(cfg)
      modifies this`isShowingSideline, this`sidelinePositionX, this`sidelinePositionY,
               this`layoutParams, this`windowOps
      ensures Valid()
      ensures !old(showSideline) ==> unchanged(this)
      ensures old(showSideline) && newUserId != userId ==>
                && !isShowingSideline && windowOps == old(windowOps) + [RemoveViewImmediate]
                && unchanged(this`sidelinePositionX, this`sidelinePositionY, this`layoutParams)
      ensures old(showSideline) && newUserId == userId && !old(isShowingSideline) ==>
                JustShown(cfg, old(windowOps))
      ensures old(showSideline) && newUserId == userId && old(isShowingSideline) ==> unchanged(this)
    {
      if !showSideline {
        return;
      }
      if newUserId != userId {
        RemoveView(true);
      } else {
        ShowView(cfg);
      }
    }

    /** beginMoveSideline: widen the handle while it is dragged. */
    method BeginMoveSideline()
      requires Valid()
      modifies this`layoutParams, this`windowOps
      ensures Valid()
      ensures layoutParams == old(layoutParams).(width := SIDELINE_MOVE_WIDTH)
      ensures windowOps == old(windowOps) + [UpdateLayout(layoutParams)]
    {
      layoutParams := layoutParams.(width := SIDELINE_MOVE_WIDTH);
      UpdateViewLayout();
    }

    /**
     * moveSideline: snap to the half of the screen the finger is in, and
     * follow the finger vertically without clamping.
     */
    method MoveSideline(xChanged: int, yChanged: int, positionX: int, positionY: int, cfg: DeviceConfig)
      requires Valid()
      modifies this`sidelinePositionX, this`layoutParams, this`windowOps
      ensures Valid()
      ensures sidelinePositionX == 1 || sidelinePositionX == -1
      ensures sidelinePositionX == 1 <==> positionX > Quot(screenWidth, 2)
      ensures layoutParams.x == sidelinePositionX * (Quot(screenWidth, 2) - Offset(cfg.portrait))
      ensures layoutParams.y == old(layoutParams.y) + yChanged
      ensures layoutParams.width == old(layoutParams.width) && layoutParams.height == old(layoutParams.height)
      ensures windowOps == old(windowOps) + [UpdateLayout(layoutParams)]
    {
      sidelinePositionX := SideFor(positionX, screenWidth);
      layoutParams := layoutParams.(x := SidelineX(sidelinePositionX, screenWidth, cfg.portrait),
                                    y := layoutParams.y + yChanged);
      UpdateViewLayout();
    }

    /**
     * endMoveSideline: back to the resting width, clamp y into the band and
     * store the side and the y for the current orientation.
     */
    method EndMoveSideline(cfg: DeviceConfig)
      requires Valid() && CanClamp(cfg)
      modifies this`layoutParams, this`windowOps, prefs
      ensures Valid()
      ensures layoutParams == old(layoutParams).(width := SIDELINE_WIDTH,
                                                 y := ConstrainY(old(layoutParams.y), screenHeight,
                                                                 SliderLength(old(prefs.entries)), cfg))
      ensures MinY(screenHeight, SliderLength(prefs.entries), cfg) <= layoutParams.y
              <= MaxY(screenHeight, SliderLength(prefs.entries), cfg)
      ensures windowOps == old(windowOps) + [UpdateLayout(layoutParams)]
      ensures prefs.entries == old(prefs.entries)[SIDELINE_POSITION_X := IntPref(sidelinePositionX)]
                                                 [YKey(cfg.portrait) := IntPref(layoutParams.y)]
    {
      layoutParams := layoutParams.(width := SIDELINE_WIDTH,
                                    y := ConstrainY(layoutParams.y, screenHeight, SliderLength(prefs.entries), cfg));
      UpdateViewLayout();
      prefs.PutInt(SIDELINE_POSITION_X, sidelinePositionX);
      if cfg.portrait {
        prefs.PutInt(SIDELINE_POSITION_Y_PORTRAIT, layoutParams.y);
      } else {
        prefs.PutInt(SIDELINE_POSITION_Y_LANDSCAPE, layoutParams.y);
      }
    }

    /** showView: attach the resting handle at its stored position, unless it is already shown. */
    method ShowView(cfg: DeviceConfig)
      requires Valid()
      requires !isShowingSideline ==> CanClamp(cfg)
      modifies this`isShowingSideline, this`sidelinePositionX, this`sidelinePositionY,
               this`layoutParams, this`windowOps
      ensures Valid() && isShowingSideline
      ensures old(isShowingSideline) ==> unchanged(this)
      ensures !old(isShowingSideline) ==> JustShown(cfg, old(windowOps))
    {
      if isShowingSideline {
        return;
      }
      layoutParams := layoutParams.(width := SIDELINE_WIDTH, height := SliderLength(prefs.entries));
      UpdateSidelinePosition(cfg);
      windowOps := windowOps + [AddView(layoutParams)];
      isShowingSideline := true;
    }

    /** updateSidelinePosition: place the handle where the store says, clamped into the band. */
    method UpdateSidelinePosition(cfg: DeviceConfig)
      requires Valid() && CanClamp(cfg)
      modifies this`sidelinePositionX, this`sidelinePositionY, this`layoutParams, this`windowOps
      ensures Valid()
      ensures sidelinePositionX == StoredSide(prefs.entries)
      ensures sidelinePositionY == StoredY(prefs.entries, screenHeight, cfg.portrait)
      ensures layoutParams == old(layoutParams).(x := SidelineX(sidelinePositionX, screenWidth, cfg.portrait),
                                                 y := ConstrainY(sidelinePositionY, screenHeight,
                                                                 SliderLength(prefs.entries), cfg))
      ensures windowOps == if isShowingSideline then old(windowOps) + [UpdateLayout(layoutParams)]
                           else old(windowOps)
    {
      sidelinePositionX := StoredSide(prefs.entries);
      sidelinePositionY := StoredY(prefs.entries, screenHeight, cfg.portrait);
      layoutParams := layoutParams.(x := SidelineX(sidelinePositionX, screenWidth, cfg.portrait),
                                    y := ConstrainY(sidelinePositionY, screenHeight, SliderLength(prefs.entries), cfg));
      if isShowingSideline {
        UpdateViewLayout();
      }
    }

    /** updateViewLayout: post the current layout to the WindowManager. */
    method UpdateViewLayout()
      requires Valid()
      modifies this`windowOps
      ensures Valid()
      ensures windowOps == old(windowOps) + [UpdateLayout(layoutParams)]
    {
      UpdateKeepsAttachment(windowOps, layoutParams);
      windowOps := windowOps + [UpdateLayout(layoutParams)];
    }

    /** removeView: detach the handle if it is shown, or unconditionally when forced. */
    method RemoveView(force: bool)
      requires Valid()
      modifies this`isShowingSideline, this`windowOps
      ensures Valid() && !isShowingSideline
      ensures windowOps == if old(isShowingSideline) || force then old(windowOps) + [RemoveViewImmediate]
                           else old(windowOps)
    {
      if !isShowingSideline && !force {
        return;
      }
      windowOps := windowOps + [RemoveViewImmediate];
      isShowingSideline := false;
    }
  }
}
