/**
 * The per-app auto-enable settings screen: the list of user-installed
 * apps sorted by label, the search box that filters it, and the switch per
 * app that adds its package to, or removes it from, the stored set.
 *
 * Icons and the PackageManager are left out: an installed app arrives
 * with the label `loadLabel` would give it.
 */
module PerAppConfig {
  import opened Prefs
  import opened KotlinText

  /** A row of the list: `AppInfo` without its icon. */
  datatype AppInfo = AppInfo(appLabel: string, packageName: string)

  /** An entry of `getInstalledApplications`, with its loaded label. */
  datatype ApplicationInfo = ApplicationInfo(packageName: string, flags: bv32, appLabel: string)

  /** `ApplicationInfo.FLAG_SYSTEM` */
  const FLAG_SYSTEM: bv32 := 1

  /** The packages the sidebar is auto-enabled for (empty when unset). */
  function AutoApps(store: Store): set<string> {
    GetStringSet(store, PREF_AUTO_APPS, {})
  }

  /** The switch of an app starts checked when its package is in the stored set. */
  function InitiallyChecked(store: Store, packageName: string): bool {
    packageName in AutoApps(store)
  }

  /**
   * `onCheckedChange`: copy the stored set, add or remove this package,
   * and write the set back. Only that package's membership changes, and no
   * other key of the store.
   */
  function OnCheckedChange(store: Store, packageName: string, newValue: bool): (r: Store)
    ensures InitiallyChecked(r, packageName) == newValue
    ensures forall p :: p != packageName ==> (p in AutoApps(r) <==> p in AutoApps(store))
    ensures r.Keys == store.Keys + {PREF_AUTO_APPS}
    ensures forall k :: k in store && k != PREF_AUTO_APPS ==> r[k] == store[k]
  {
    var current := AutoApps(store);
    var updated := if newValue then current + {packageName} else current - {packageName};
    store[PREF_AUTO_APPS := StringSetPref(updated)]
  }

  /** The switch's listener run against the shared preferences object: the store becomes `OnCheckedChange`. */
  method ToggleAutoApp(prefs: SharedPreferences, packageName: string, newValue: bool)
    modifies prefs
    ensures prefs.entries == OnCheckedChange(old(prefs.entries), packageName, newValue)
  {
    var current := GetStringSet(prefs.entries, PREF_AUTO_APPS, {});
    var updated := if newValue then current + {packageName} else current - {packageName};
    prefs.PutStringSet(PREF_AUTO_APPS, updated);
  }

  /** Flipping a switch to the same value twice is the same as once. */
  lemma OnCheckedChangeIdempotent(store: Store, packageName: string, newValue: bool)
    ensures OnCheckedChange(OnCheckedChange(store, packageName, newValue), packageName, newValue)
         == OnCheckedChange(store, packageName, newValue)
  {
    var once := OnCheckedChange(store, packageName, newValue);
    assert AutoApps(OnCheckedChange(once, packageName, newValue)) == AutoApps(once);
  }

  /** Switching an unlisted app on and then off again leaves the stored set as it was. */
  lemma OnThenOffRestoresSet(store: Store, packageName: string)
    requires packageName !in AutoApps(store)
    ensures AutoApps(OnCheckedChange(OnCheckedChange(store, packageName, true), packageName, false))
         == AutoApps(store)
  {
  }

  /** The search matches an app whose label or package name contains the query, ignoring case. */
  predicate MatchesQuery(app: AppInfo, query: string) {
    ContainsIgnoreCase(app.appLabel, query) || ContainsIgnoreCase(app.packageName, query)
  }

  /** `a` is `b` with some elements left out, the rest in their original order. */
  ghost predicate IsSubsequence<T>(a: seq<T>, b: seq<T>)
    decreases |b|
  {
    |a| == 0 || (|b| > 0 && ((a[0] == b[0] && IsSubsequence(a[1..], b[1..])) || IsSubsequence(a, b[1..])))
  }

  /** `apps.filter { matches }` */
  function FilterByQuery(apps: seq<AppInfo>, query: string): (r: seq<AppInfo>)
    ensures IsSubsequence(r, apps)
    ensures forall a :: multiset(r)[a] == if MatchesQuery(a, query) then multiset(apps)[a] else 0
  {
    if apps == [] then []
    else
      var rest := FilterByQuery(apps[1..], query);
      assert apps == [apps[0]] + apps[1..];
      if MatchesQuery(apps[0], query) then [apps[0]] + rest else rest
  }

  /**
   * `filteredApps`: a blank query shows every app; otherwise exactly the
   * matching apps, in list order.
   */
  function FilteredApps(apps: seq<AppInfo>, query: string): (r: seq<AppInfo>)
    ensures IsBlank(query) ==> r == apps
    ensures !IsBlank(query) ==> IsSubsequence(r, apps)
    ensures !IsBlank(query) ==> forall a :: a in r <==> a in apps && MatchesQuery(a, query)
  {
    if IsBlank(query) then apps
    else
      var r := FilterByQuery(apps, query);
      assert forall a :: a in r <==> a in multiset(r);
      r
  }

  /** Neither a system app nor this app itself. */
  predicate IsUserApp(app: ApplicationInfo, ownPackage: string) {
    app.flags & FLAG_SYSTEM == 0 && app.packageName != ownPackage
  }

  /** The first step of `loadInstalledApps`: drop system apps and the app's own package. */
  function KeepUserApps(apps: seq<ApplicationInfo>, ownPackage: string): (r: seq<ApplicationInfo>)
    ensures forall a :: multiset(r)[a] == if IsUserApp(a, ownPackage) then multiset(apps)[a] else 0
  {
    if apps == [] then []
    else
      var rest := KeepUserApps(apps[1..], ownPackage);
      assert apps == [apps[0]] + apps[1..];
      if IsUserApp(apps[0], ownPackage) then [apps[0]] + rest else rest
  }

  function ToAppInfo(app: ApplicationInfo): AppInfo {
    AppInfo(app.appLabel, app.packageName)
  }

  /** The `map` step of `loadInstalledApps`. */
  function ToAppInfos(apps: seq<ApplicationInfo>): seq<AppInfo> {
    seq(|apps|, i requires 0 <= i < |apps| => ToAppInfo(apps[i]))
  }

  /** The sort key: the label in lower case. */
  function LabelKey(app: AppInfo): string {
    Lowercase(app.appLabel)
  }

  ghost predicate SortedByLabel(s: seq<AppInfo>) {
    forall i, j :: 0 <= i < j < |s| ==> LexLe(LabelKey(s[i]), LabelKey(s[j]))
  }

  /** Insert `a` before the first entry whose key is not below its own. */
  function InsertByLabel(a: AppInfo, sorted: seq<AppInfo>): (r: seq<AppInfo>)
    ensures multiset(r) == multiset(sorted) + multiset{a}
    ensures r[0] == a || (|sorted| > 0 && r[0] == sorted[0])
  {
    if sorted == [] || LexLe(LabelKey(a), LabelKey(sorted[0])) then [a] + sorted
    else
      assert sorted == [sorted[0]] + sorted[1..];
      [sorted[0]] + InsertByLabel(a, sorted[1..])
  }

  /** A row whose key is not above the first key can go in front of a sorted list. */
  lemma PrependKeepsSortedByLabel(a: AppInfo, sorted: seq<AppInfo>)
    requires SortedByLabel(sorted)
    requires sorted == [] || LexLe(LabelKey(a), LabelKey(sorted[0]))
    ensures SortedByLabel([a] + sorted)
  {
    var r := [a] + sorted;
    forall i, j | 0 <= i < j < |r| ensures LexLe(LabelKey(r[i]), LabelKey(r[j])) {
      assert r[j] == sorted[j - 1];
      if i == 0 {
        if j > 1 {
          LexLeTransitive(LabelKey(a), LabelKey(sorted[0]), LabelKey(sorted[j - 1]));
        }
      } else {
        assert r[i] == sorted[i - 1];
      }
    }
  }

  lemma {:induction false} InsertKeepsSortedByLabel(a: AppInfo, sorted: seq<AppInfo>)
    requires SortedByLabel(sorted)
    ensures SortedByLabel(InsertByLabel(a, sorted))
  {
    var r := InsertByLabel(a, sorted);
    if sorted == [] || LexLe(LabelKey(a), LabelKey(sorted[0])) {
      assert r == [a] + sorted;
      PrependKeepsSortedByLabel(a, sorted);
    } else {
      var rest := InsertByLabel(a, sorted[1..]);
      InsertKeepsSortedByLabel(a, sorted[1..]);
      assert r == [sorted[0]] + rest;
      assert LexLe(LabelKey(sorted[0]), LabelKey(rest[0])) by {
        if rest[0] == a {
          LexLeTotal(LabelKey(a), LabelKey(sorted[0]));
        } else {
          assert rest[0] == sorted[1];
        }
      }
      PrependKeepsSortedByLabel(sorted[0], rest);
    }
  }

  /** `sortedBy { it.label.lowercase() }`, a stable sort. */
  function SortByLabel(s: seq<AppInfo>): (r: seq<AppInfo>)
    ensures multiset(r) == multiset(s)
  {
    if s == [] then []
    else
      assert s == [s[0]] + s[1..];
      InsertByLabel(s[0], SortByLabel(s[1..]))
  }

  lemma {:induction false} SortByLabelIsSorted(s: seq<AppInfo>)
    ensures SortedByLabel(SortByLabel(s))
  {
    if s != [] {
      SortByLabelIsSorted(s[1..]);
      InsertKeepsSortedByLabel(s[0], SortByLabel(s[1..]));
    }
  }

  /** Every row comes from some installed user app. */
  lemma RowFromUserApp(installed: seq<ApplicationInfo>, ownPackage: string, a: AppInfo)
    requires a in ToAppInfos(KeepUserApps(installed, ownPackage))
    ensures exists i :: 0 <= i < |installed| && IsUserApp(installed[i], ownPackage) && a == ToAppInfo(installed[i])
  {
    var kept := KeepUserApps(installed, ownPackage);
    var infos := ToAppInfos(kept);
    var k :| 0 <= k < |infos| && infos[k] == a;
    var x := kept[k];
    assert x in multiset(kept);
    assert IsUserApp(x, ownPackage) && x in multiset(installed);
    var i :| 0 <= i < |installed| && installed[i] == x;
  }

  /** Every installed user app gives a row. */
  lemma UserAppGivesRow(installed: seq<ApplicationInfo>, ownPackage: string, i: int)
    requires 0 <= i < |installed| && IsUserApp(installed[i], ownPackage)
    ensures ToAppInfo(installed[i]) in ToAppInfos(KeepUserApps(installed, ownPackage))
  {
    var kept := KeepUserApps(installed, ownPackage);
    var x := installed[i];
    assert x in multiset(installed);
    assert x in multiset(kept);
    var k :| 0 <= k < |kept| && kept[k] == x;
    assert ToAppInfos(kept)[k] == ToAppInfo(x);
  }

  /**
   * `loadInstalledApps`: every user app other than this one, each exactly
   * as often as it was installed, ordered by lower-case label.
   */
  function LoadInstalledApps(installed: seq<ApplicationInfo>, ownPackage: string): (r: seq<AppInfo>)
    ensures SortedByLabel(r)
    ensures multiset(r) == multiset(ToAppInfos(KeepUserApps(installed, ownPackage)))
    ensures forall a :: a in r <==>
              exists i :: 0 <= i < |installed| && IsUserApp(installed[i], ownPackage) && a == ToAppInfo(installed[i])
  {
    var infos := ToAppInfos(KeepUserApps(installed, ownPackage));
    var r := SortByLabel(infos);
    SortByLabelIsSorted(infos);
    forall a ensures a in r <==>
        exists i :: 0 <= i < |installed| && IsUserApp(installed[i], ownPackage) && a == ToAppInfo(installed[i])
    {
      assert a in r <==> a in multiset(r);
      assert a in infos <==> a in multiset(infos);
      if a in infos {
        RowFromUserApp(installed, ownPackage, a);
      }
      if exists i :: 0 <= i < |installed| && IsUserApp(installed[i], ownPackage) && a == ToAppInfo(installed[i]) {
        var i :| 0 <= i < |installed| && IsUserApp(installed[i], ownPackage) && a == ToAppInfo(installed[i]);
        UserAppGivesRow(installed, ownPackage, i);
      }
    }
    r
  }
}
