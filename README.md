# Sidebar overlay: sideline, auto-enable monitor, foreground detector, per-app list

This project models, in Dafny, the sequential logic of the Sidebar overlay app: the
sideline handle service (`SidebarService`), the auto-enable monitor
(`SidebarMonitorService`), the foreground-app detector (`ForegroundAppDetector`) and
the per-app settings screen (`SidebarPerAppConfigFragment`).

- `prefs.dfy`: the app's shared preferences. They are a map from key to a typed value, held by one
  `SharedPreferences` object that all three components share. `apply()` writes at once.
- `sideline_geometry.dfy`: the arithmetic of the handle.
  - Kotlin's truncating `Int` division (`Quot`).
  - The edge a drag snaps to, and the handle's x on that edge.
  - The vertical band that `constrainY` clamps into. The status bar is excluded in every
    orientation, and the navigation bar only in portrait.
- `sidebar_service.dfy`: the service as a class.
  - `layoutParams`, `sidelinePositionX`/`Y`, the screen size and the show flags are
    fields that its methods update.
  - Every WindowManager call it posts is appended to a trace, `windowOps`.
  - `Valid()` ties that trace to `isShowingSideline`: the handle is in the window exactly
    when the flag says so.
- `foreground_detector.dfy`: the detector.
  - `Lookup` is a function of the cached (package, time) pair and of the platform's answers:
    the clock, the running tasks and the usage statistics.
  - The detector object's method is proved to follow it.
  - `tryUsageStats` is a stable sort by descending `lastTimeUsed` followed by taking the
    head. It is proved to pick the first entry whose `lastTimeUsed` is maximal.
- `monitor_service.dfy`: the monitor.
  - `Tick` is one run of `monitorForegroundApp` as a function of the monitor's fields, the
    preferences and the reported foreground package.
  - The service class runs it against the shared preferences and the detector object.
- `per_app_config.dfy`: the settings screen.
  - The search filter.
  - The switch that adds or removes a package in the stored set.
  - The installed-app pipeline: drop system apps and this app, then stably sort by
    lower-case label.
- `kotlin_text.dfy`: the Kotlin string operations those rely on: `isBlank`,
  `contains(ignoreCase = true)`, `lowercase` and `compareTo`.

The handle is wanted exactly when `SIDELINE || KEY_AUTO_ENABLED_TEMP` holds (`SidelineWanted`).
`onDestroy` and `onCreate` of the monitor reset `lastSidebarState` without clearing the stored
temporary flag. `RestartForgetsTempFlag` shows the consequence: after a restart with the flag set,
a tick on an app that is not on the list leaves the flag, and hence the handle, on.

Two calls to the detector less than 500 ms apart do not always both hit the cache. The
window runs from the last successful query (`ForegroundAppDetector.kt:29` compares against
`lastUpdateTime`, which only line 37 sets), not from the previous call. A call served from the
cache, or one whose query failed, does not restart the window. `SecondCallWithinWindow` states
when the second call does hit: the first call queried successfully and found a known package.

A screen-size change that reaches a service never started for user 0 records the new size and
then throws at `SidebarService.kt:154`, because `sharedPrefs` is uninitialised. One example is a
service whose `onStartCommand` took the non-system-user return at lines 100-104.
`OnConfigurationChanged` reports this as its `thrown` result instead of reading the preferences.

## Model

| member | source | states |
|---|---|---|
| SidelineGeometry.Quot | sidebar/app/src/main/java/com/libremobileos/sidebar/service/SidebarService.kt:268-270 | Kotlin `/` truncates toward zero: the remainder has the sign of the dividend and is smaller than the divisor |
| SidelineGeometry.QuotOfNegation | sidebar/app/src/main/java/com/libremobileos/sidebar/service/SidebarService.kt:327-329 | `-screenHeight / 6` equals `-(screenHeight / 6)` |
| SidelineGeometry.CoerceIn | sidebar/app/src/main/java/com/libremobileos/sidebar/service/SidebarService.kt:271 | `coerceIn(lo, hi)` lands in `[lo, hi]` and leaves a value already inside unchanged |
| SidelineGeometry.CoerceInIsNearest | sidebar/app/src/main/java/com/libremobileos/sidebar/service/SidebarService.kt:271 | the clamped value is a point of `[lo, hi]` nearest to the input |
| SidelineGeometry.ConstrainY | sidebar/app/src/main/java/com/libremobileos/sidebar/service/SidebarService.kt:261-274 | the result lies between `minVal` and `maxVal`; a y inside is kept; a y above the band gives `minVal` and a y below it gives `maxVal` |
| SidelineGeometry.ConstrainYIdempotent | sidebar/app/src/main/java/com/libremobileos/sidebar/service/SidebarService.kt:261-274 | clamping twice equals clamping once |
| SidelineGeometry.BandByOrientation | sidebar/app/src/main/java/com/libremobileos/sidebar/service/SidebarService.kt:263-270 | `minVal` subtracts the status bar in both orientations; in landscape `maxVal = h/2 - l/2`; in portrait it is that minus the navigation-bar height |
| SidelineGeometry.NavigationBarStripOnlyInPortrait | sidebar/app/src/main/java/com/libremobileos/sidebar/service/SidebarService.kt:264-271 | a y in the navigation-bar strip is kept in landscape and pulled up to `maxVal` in portrait |
| SidebarServiceModel.UpdateKeepsAttachment | sidebar/app/src/main/java/com/libremobileos/sidebar/service/SidebarService.kt:353-361 | posting a layout update neither attaches nor detaches the handle |
| SidebarServiceModel.DefaultPosition | sidebar/app/src/main/java/com/libremobileos/sidebar/service/SidebarService.kt:323-329 | with nothing stored the handle is on the right edge (side 1) at y = `-(screenHeight / 6)` |
| SidebarServiceModel.PersistedPositionRestored | sidebar/app/src/main/java/com/libremobileos/sidebar/service/SidebarService.kt:246-259 | the side and clamped y stored on release are read back by `updateSidelinePosition` (lines 323-333) as the same side and, once clamped again, the same y |
| SidebarServiceModel.SidebarService.constructor | sidebar/app/src/main/java/com/libremobileos/sidebar/service/SidebarService.kt:35-44 | all fields start at their declared initial values, with an empty window trace |
| SidebarServiceModel.SidebarService.OnStartCommand | sidebar/app/src/main/java/com/libremobileos/sidebar/service/SidebarService.kt:98-141 | a non-system user changes nothing but `userId`; user 0 records the screen size and sets `showSideline` from `SIDELINE`. A handle that is wanted (`SIDELINE \|\| KEY_AUTO_ENABLED_TEMP`) and not yet shown is attached at its stored side and clamped stored y with the stored length, and one `AddView` is posted. Otherwise the position fields, layout and trace are unchanged |
| SidebarServiceModel.SidebarService.OnConfigurationChanged | sidebar/app/src/main/java/com/libremobileos/sidebar/service/SidebarService.kt:143-164 | unchanged width and height change no state; otherwise the size is recorded. A service not started for user 0 then throws (`thrown`), because the `lateinit` `sharedPrefs` of line 34 is assigned only at line 112; nothing else changes. On a started service, a wanted, shown handle gets its stored side and stored y for the new height, is re-placed at that side and clamped y, and one layout update is posted. Otherwise the position fields, layout and trace are unchanged |
| SidebarServiceModel.SidebarService.OnDestroy | sidebar/app/src/main/java/com/libremobileos/sidebar/service/SidebarService.kt:166-173 | an unstarted service changes nothing; a started one force-removes the handle |
| SidebarServiceModel.SidebarService.OnSharedPreferenceChanged | sidebar/app/src/main/java/com/libremobileos/sidebar/service/SidebarService.kt:175-213 | after a `SIDELINE` or `KEY_AUTO_ENABLED_TEMP` change the handle is shown iff `SIDELINE \|\| KEY_AUTO_ENABLED_TEMP`. If it was hidden, it is attached at the stored side, clamped stored y and stored length with one `AddView`; if it was shown, it stays as it was. If unwanted, it is force-removed and the position fields and layout are kept. A length or side change reloads the stored side and y of a shown handle, re-places it with the new height and posts two updates. Other keys change nothing |
| SidebarServiceModel.SidebarService.OnUserSwitchComplete | sidebar/app/src/main/java/com/libremobileos/sidebar/service/SidebarService.kt:57-67 | does nothing unless `showSideline`. Another user force-removes the handle and keeps the position fields and layout. For the own user, a hidden handle is attached at the stored side, clamped stored y and stored length with one `AddView`, and a shown one is left alone |
| SidebarServiceModel.SidebarService.BeginMoveSideline | sidebar/app/src/main/java/com/libremobileos/sidebar/service/SidebarService.kt:222-228 | the width becomes 200, nothing else in the layout changes, one update is posted |
| SidebarServiceModel.SidebarService.MoveSideline | sidebar/app/src/main/java/com/libremobileos/sidebar/service/SidebarService.kt:236-244 | side is 1 iff `positionX > screenWidth/2`, else -1; `x = side * (screenWidth/2 - offset)` with offset 20 in portrait and 0 in landscape; y moves by exactly `yChanged`, unclamped; width and height are untouched |
| SidebarServiceModel.SidebarService.EndMoveSideline | sidebar/app/src/main/java/com/libremobileos/sidebar/service/SidebarService.kt:246-259 | width returns to 100, y is replaced by `constrainY(y)` and lies in the band; the store gains exactly the side under `SIDELINE_POSITION_X` and y under the key of the current orientation |
| SidebarServiceModel.SidebarService.ShowView | sidebar/app/src/main/java/com/libremobileos/sidebar/service/SidebarService.kt:284-321 | a no-op when already showing; otherwise the handle is attached once with width 100, the stored length, the stored side and the clamped stored y, and is then showing |
| SidebarServiceModel.SidebarService.UpdateSidelinePosition | sidebar/app/src/main/java/com/libremobileos/sidebar/service/SidebarService.kt:323-351 | side defaults to 1 and y to `-(screenHeight/6)`; x is set from the side and y is always the clamped stored y; an update is posted only while showing |
| SidebarServiceModel.SidebarService.UpdateViewLayout | sidebar/app/src/main/java/com/libremobileos/sidebar/service/SidebarService.kt:353-361 | posts the current layout and keeps the attachment invariant |
| SidebarServiceModel.SidebarService.RemoveView | sidebar/app/src/main/java/com/libremobileos/sidebar/service/SidebarService.kt:363-379 | a no-op unless showing or forced; afterwards the handle is not showing |
| Prefs.SharedPreferences.PutInt | sidebar/app/src/main/java/com/libremobileos/sidebar/service/SidebarService.kt:391-396 | the store gains exactly that key with that integer, and `getInt` reads it back whatever the default |
| Prefs.SharedPreferences.PutBoolean | sidebar/app/src/main/java/com/libremobileos/sidebar/service/SidebarMonitorService.kt:123 | the store gains exactly that key with that boolean, and `getBoolean` reads it back whatever the default |
| PerAppConfig.ToggleAutoApp | sidebar/app/src/main/java/com/libremobileos/sidebar/ui/sidebar/SidebarPerAppConfigFragment.kt:224-237 | the listener run against the shared preferences object leaves the store equal to `OnCheckedChange` of the old store |
| Prefs.SharedPreferences.PutStringSet | sidebar/app/src/main/java/com/libremobileos/sidebar/ui/sidebar/SidebarPerAppConfigFragment.kt:234-236 | the store gains exactly that key with that set |
| ForegroundDetector.TryGetRunningTasks | sidebar/app/src/main/java/com/libremobileos/sidebar/utils/ForegroundAppDetector.kt:45-61 | null without the permission or for a failed or empty task list; with the permission and a non-empty list, exactly the first task's top package (null when it has no top activity) |
| ForegroundDetector.InsertByRecency | sidebar/app/src/main/java/com/libremobileos/sidebar/utils/ForegroundAppDetector.kt:76 | an insertion step of `sortedByDescending` adds exactly the one entry, and its head is the new entry or the old head |
| ForegroundDetector.PrependKeepsDescending | sidebar/app/src/main/java/com/libremobileos/sidebar/utils/ForegroundAppDetector.kt:76 | an entry at least as recent as the head of a descending list can go in front of it |
| ForegroundDetector.InsertKeepsDescending | sidebar/app/src/main/java/com/libremobileos/sidebar/utils/ForegroundAppDetector.kt:76 | inserting into a list in descending `lastTimeUsed` order keeps that order |
| ForegroundDetector.SortByRecencyDescending | sidebar/app/src/main/java/com/libremobileos/sidebar/utils/ForegroundAppDetector.kt:76 | `sortedByDescending { lastTimeUsed }` is a permutation of its input |
| ForegroundDetector.SortIsDescending | sidebar/app/src/main/java/com/libremobileos/sidebar/utils/ForegroundAppDetector.kt:76 | the sorted list is in non-increasing `lastTimeUsed` order |
| ForegroundDetector.SortHead | sidebar/app/src/main/java/com/libremobileos/sidebar/utils/ForegroundAppDetector.kt:76 | the head of the sort is the first entry when it is at least as recent as the sorted rest's head, so ties keep the earlier entry |
| ForegroundDetector.FirstMostRecentPrepend | sidebar/app/src/main/java/com/libremobileos/sidebar/utils/ForegroundAppDetector.kt:74-77 | prepending an entry moves the earliest most recent entry to the new one exactly when it is at least as recent |
| ForegroundDetector.SortedHeadIsFirstMostRecent | sidebar/app/src/main/java/com/libremobileos/sidebar/utils/ForegroundAppDetector.kt:74-77 | the head of the stable sort is the earliest input entry with maximal `lastTimeUsed` |
| ForegroundDetector.TryUsageStats | sidebar/app/src/main/java/com/libremobileos/sidebar/utils/ForegroundAppDetector.kt:63-84 | null iff the query fails or returns nothing; otherwise the package of the earliest entry with maximal `lastTimeUsed` |
| ForegroundDetector.Lookup | sidebar/app/src/main/java/com/libremobileos/sidebar/utils/ForegroundAppDetector.kt:26-43 | the returned package is the cached package after the call; the cache is either unchanged or becomes (found package, now); a fresh cache is never changed |
| ForegroundDetector.CacheHitConsultsNothing | sidebar/app/src/main/java/com/libremobileos/sidebar/utils/ForegroundAppDetector.kt:28-31 | within 500 ms of a known package the answer and cache do not depend on the running tasks or usage statistics, and the cache is unchanged |
| ForegroundDetector.RunningTasksTakePrecedence | sidebar/app/src/main/java/com/libremobileos/sidebar/utils/ForegroundAppDetector.kt:33 | on a cache miss with a running-tasks answer, the usage statistics do not affect the result |
| ForegroundDetector.FallbackUsedAndCached | sidebar/app/src/main/java/com/libremobileos/sidebar/utils/ForegroundAppDetector.kt:33-38 | on a cache miss with no running-tasks answer, the usage-statistics answer is returned and cached with the current time |
| ForegroundDetector.TotalFailureKeepsCache | sidebar/app/src/main/java/com/libremobileos/sidebar/utils/ForegroundAppDetector.kt:41-42 | when both strategies fail the cache is unchanged and the previous package is returned |
| ForegroundDetector.SecondCallWithinWindow | sidebar/app/src/main/java/com/libremobileos/sidebar/utils/ForegroundAppDetector.kt:28-38 | after a call that queried successfully (not "Unknown"), a call less than 500 ms later returns the same package from the cache |
| ForegroundDetector.ForegroundAppDetector.constructor | sidebar/app/src/main/java/com/libremobileos/sidebar/utils/ForegroundAppDetector.kt:19-20 | the cache starts as ("Unknown", 0) |
| ForegroundDetector.ForegroundAppDetector.GetForegroundPackageName | sidebar/app/src/main/java/com/libremobileos/sidebar/utils/ForegroundAppDetector.kt:26-43 | the returned package and the new cache fields are exactly those `Lookup` gives for the old cache |
| KotlinText.ContainsFrom | sidebar/app/src/main/java/com/libremobileos/sidebar/ui/sidebar/SidebarPerAppConfigFragment.kt:99-100 | the scan from an offset finds the query iff some window at or after it matches ignoring case |
| KotlinText.ContainsIgnoreCase | sidebar/app/src/main/java/com/libremobileos/sidebar/ui/sidebar/SidebarPerAppConfigFragment.kt:99-100 | `contains(q, ignoreCase = true)` holds iff some window of the string matches `q` character by character, ignoring case |
| KotlinText.LexLeTotal | sidebar/app/src/main/java/com/libremobileos/sidebar/ui/sidebar/SidebarPerAppConfigFragment.kt:265 | the string order used by `sortedBy` relates any two strings |
| KotlinText.LexLeTransitive | sidebar/app/src/main/java/com/libremobileos/sidebar/ui/sidebar/SidebarPerAppConfigFragment.kt:265 | the string order is transitive |
| KotlinText.LexLeAntisymmetric | sidebar/app/src/main/java/com/libremobileos/sidebar/ui/sidebar/SidebarPerAppConfigFragment.kt:265 | the string order is antisymmetric |
| MonitorServiceModel.Tick | sidebar/app/src/main/java/com/libremobileos/sidebar/service/SidebarMonitorService.kt:77-118 | when not running or with `SIDELINE` on, nothing changes. With auto-enable off, `lastSidebarState` is cleared and the last app kept. The same app changes nothing. A new app is remembered and `lastSidebarState` becomes membership in the auto-app set. The only write is the temporary flag, and only when `lastSidebarState` flips. `isRunning` never changes |
| MonitorServiceModel.SetTempFlagKeepsInputs | sidebar/app/src/main/java/com/libremobileos/sidebar/service/SidebarMonitorService.kt:120-136 | writing the temporary flag sets it and leaves `SIDELINE`, auto-enable and the auto-app set as they were |
| MonitorServiceModel.TickIdempotent | sidebar/app/src/main/java/com/libremobileos/sidebar/service/SidebarMonitorService.kt:99 | a second tick with the same foreground app changes neither state nor store |
| MonitorServiceModel.TickKeepsTempFlagInSync | sidebar/app/src/main/java/com/libremobileos/sidebar/service/SidebarMonitorService.kt:88-111 | if the stored temporary flag equals `lastSidebarState` before a tick, it does after |
| MonitorServiceModel.RestartForgetsTempFlag | sidebar/app/src/main/java/com/libremobileos/sidebar/service/SidebarMonitorService.kt:63-75 | after a reset with the stored flag set, a tick on an unlisted app leaves the flag set while `lastSidebarState` is false, so the handle stays wanted |
| MonitorServiceModel.ListedAppAutoEnables | sidebar/app/src/main/java/com/libremobileos/sidebar/service/SidebarMonitorService.kt:99-113 | after the switch of an app is turned on, a tick that sees that app newly in front sets `lastSidebarState`, records the app, and the handle is wanted |
| MonitorServiceModel.SidebarMonitorService.constructor | sidebar/app/src/main/java/com/libremobileos/sidebar/service/SidebarMonitorService.kt:37-50 | starts not running, with last app "" and last state false |
| MonitorServiceModel.SidebarMonitorService.OnStartCommand | sidebar/app/src/main/java/com/libremobileos/sidebar/service/SidebarMonitorService.kt:52-59 | afterwards running; the loop is posted only when it was not already running |
| MonitorServiceModel.SidebarMonitorService.OnDestroy | sidebar/app/src/main/java/com/libremobileos/sidebar/service/SidebarMonitorService.kt:63-75 | afterwards not running, last app "" and last state false |
| MonitorServiceModel.SidebarMonitorService.StartSidebarService | sidebar/app/src/main/java/com/libremobileos/sidebar/service/SidebarMonitorService.kt:120-127 | the store gains `KEY_AUTO_ENABLED_TEMP = true` and nothing else |
| MonitorServiceModel.SidebarMonitorService.StopSidebarService | sidebar/app/src/main/java/com/libremobileos/sidebar/service/SidebarMonitorService.kt:129-136 | the store gains `KEY_AUTO_ENABLED_TEMP = false` and nothing else |
| MonitorServiceModel.SidebarMonitorService.MonitorForegroundApp | sidebar/app/src/main/java/com/libremobileos/sidebar/service/SidebarMonitorService.kt:77-118 | the new fields and store are `Tick` of the old ones with the package the detector reports; the detector's cache moves as `Lookup` says when the tick consults it, and not at all otherwise |
| PerAppConfig.OnCheckedChange | sidebar/app/src/main/java/com/libremobileos/sidebar/ui/sidebar/SidebarPerAppConfigFragment.kt:224-237 | afterwards the package is in the stored set iff the switch is on (so the initial checked state of lines 180-181 shows it), no other package's membership changes, and no other key changes |
| PerAppConfig.OnCheckedChangeIdempotent | sidebar/app/src/main/java/com/libremobileos/sidebar/ui/sidebar/SidebarPerAppConfigFragment.kt:226-236 | repeating the same toggle gives the same store |
| PerAppConfig.OnThenOffRestoresSet | sidebar/app/src/main/java/com/libremobileos/sidebar/ui/sidebar/SidebarPerAppConfigFragment.kt:226-236 | switching an unlisted app on and then off restores the stored set |
| PerAppConfig.FilterByQuery | sidebar/app/src/main/java/com/libremobileos/sidebar/ui/sidebar/SidebarPerAppConfigFragment.kt:98-101 | the result is an order-preserving subsequence holding each matching app as often as the input does, and no other app |
| PerAppConfig.FilteredApps | sidebar/app/src/main/java/com/libremobileos/sidebar/ui/sidebar/SidebarPerAppConfigFragment.kt:94-103 | a blank query gives the list unchanged; otherwise an order-preserving subsequence holding exactly the apps whose label or package contains the query, ignoring case |
| PerAppConfig.KeepUserApps | sidebar/app/src/main/java/com/libremobileos/sidebar/ui/sidebar/SidebarPerAppConfigFragment.kt:253-257 | keeps each app without `FLAG_SYSTEM` and other than this app as often as it occurs, and drops every other app |
| PerAppConfig.RowFromUserApp | sidebar/app/src/main/java/com/libremobileos/sidebar/ui/sidebar/SidebarPerAppConfigFragment.kt:252-264 | every row of the pipeline comes from an installed non-system app other than this one |
| PerAppConfig.UserAppGivesRow | sidebar/app/src/main/java/com/libremobileos/sidebar/ui/sidebar/SidebarPerAppConfigFragment.kt:252-264 | every installed non-system app other than this one gives a row |
| PerAppConfig.InsertByLabel | sidebar/app/src/main/java/com/libremobileos/sidebar/ui/sidebar/SidebarPerAppConfigFragment.kt:265 | an insertion step of `sortedBy` adds exactly the one row, and its head is the new row or the old head |
| PerAppConfig.PrependKeepsSortedByLabel | sidebar/app/src/main/java/com/libremobileos/sidebar/ui/sidebar/SidebarPerAppConfigFragment.kt:265 | a row whose key is not above the head of a sorted list can go in front of it |
| PerAppConfig.InsertKeepsSortedByLabel | sidebar/app/src/main/java/com/libremobileos/sidebar/ui/sidebar/SidebarPerAppConfigFragment.kt:265 | inserting into a list sorted by lower-case label keeps it sorted |
| PerAppConfig.SortByLabel | sidebar/app/src/main/java/com/libremobileos/sidebar/ui/sidebar/SidebarPerAppConfigFragment.kt:265 | `sortedBy { label.lowercase() }` is a permutation of its input |
| PerAppConfig.SortByLabelIsSorted | sidebar/app/src/main/java/com/libremobileos/sidebar/ui/sidebar/SidebarPerAppConfigFragment.kt:265 | the sorted list is non-decreasing by lower-case label |
| PerAppConfig.LoadInstalledApps | sidebar/app/src/main/java/com/libremobileos/sidebar/ui/sidebar/SidebarPerAppConfigFragment.kt:248-267 | sorted non-decreasingly by lower-case label, a permutation of the filtered rows, and a row appears iff some installed non-system app other than this one has that label and package |

## Left out

- WindowManager failures: `addView`, `updateViewLayout` and `removeViewImmediate` are recorded in `windowOps` and assumed to succeed at once. The `runCatching` failure paths and the asynchrony of `Handler.post` are not modelled.
- The sidebar panel (`SidebarView`): `showSidebar`, `isShowingSidebar`, its `onRemove` callback, and the panel's `updateSidebarPosition` and `removeView`. This is Compose UI outside the handle logic.
- View alpha (`SLIDER_TRANSPARENCY`), translation animations, gesture-exclusion rects and window flags. These are float or rendering-only values. The transparency key is a no-op in `OnSharedPreferenceChanged`.
- Listener registration and dispatch: `OnSharedPreferenceChanged` is a method a caller invokes after a write. A write does not trigger it by itself.
- The monitor's two-second `postDelayed` loop: `MonitorForegroundApp` is one firing of it. Exceptions caught in the loop are not modelled.
- The clock, `checkSelfPermission`, `getRunningTasks` and `queryUsageStats`, including its one-minute window: they are the inputs `Platform.now`, `RunningTasksAnswer` and `usageStats`. A thrown exception is modelled as an absent answer.
- Display metrics, the status-bar height and the navigation-bar dimension are inputs (`DeviceConfig`, width and height parameters).
- KotlinText.CharEqualsIgnoreCase and KotlinText.Lowercase: case folding is ASCII only. Strings are sequences of code points rather than UTF-16 units, so `compareTo` on surrogate pairs is not modelled.
- Prefs.GetBoolean, Prefs.GetInt and Prefs.GetStringSet: a value of another type reads as the default. Android throws `ClassCastException` in that case.
- SidebarServiceModel.SidebarService.OnConfigurationChanged: the `UninitializedPropertyAccessException` thrown on a service not started for user 0 is the `thrown` result; the process crash that follows it is not modelled.
- SidelineGeometry.ConstrainY: requires `minVal <= maxVal`, where `coerceIn` would throw. The callers in the service carry the same requirement.
- Kotlin's 32-bit `Int` overflow: all arithmetic is on unbounded integers.
- Icons, drawables and `PackageManager.loadLabel`: an installed app arrives with its label.
- `BootReceiver`, the settings pages and the Compose views are not part of this model.
