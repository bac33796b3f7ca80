/**
 * ForegroundAppDetector: a process-wide, best-effort answer to "which
 * package is in the foreground", with a 500 ms cache.
 *
 * The clock and the platform's answers (the GET_TASKS permission check,
 * `getRunningTasks(1)` and `queryUsageStats` over the last minute) are
 * inputs. A platform call that throws is an absent answer, since the source
 * catches every exception and treats it as "no result".
 */
module ForegroundDetector {
  import opened Optional

  /** The sentinel for "no package known yet". */
  const UNKNOWN := "Unknown"
  /** Milliseconds a found package is served from the cache. */
  const CACHE_TIMEOUT := 500

  /** A running task; the package of its top activity, when it has one. */
  datatype TaskInfo = TaskInfo(topActivity: Option<string>)

  /**
   * The running-tasks strategy's view: whether GET_TASKS is granted, and
   * what `getRunningTasks(1)` returned (None when it threw).
   */
  datatype RunningTasksAnswer = RunningTasksAnswer(permissionGranted: bool, tasks: Option<seq<TaskInfo>>)

  /** One entry of `queryUsageStats`. */
  datatype UsageStat = UsageStat(packageName: string, lastTimeUsed: int)

  /**
   * Everything one lookup can learn: the current time and both strategies'
   * answers. `usageStats` is None when the service is missing or the query threw.
   */
  datatype Platform = Platform(now: int, runningTasks: RunningTasksAnswer, usageStats: Option<seq<UsageStat>>)

  /** `tryGetRunningTasks`: the top activity's package of the first running task. */
  function TryGetRunningTasks(a: RunningTasksAnswer): (r: Option<string>)
    ensures !a.permissionGranted ==> r == None
    ensures a.tasks == None || a.tasks == Some([]) ==> r == None
    ensures r.Some? ==> a.tasks.Some? && |a.tasks.value| > 0 && r == a.tasks.value[0].topActivity
    ensures a.permissionGranted && a.tasks.Some? && |a.tasks.value| > 0 ==> r == a.tasks.value[0].topActivity
  {
    if !a.permissionGranted then None
    else match a.tasks
      case None => None
      case Some(tasks) => if |tasks| > 0 then tasks[0].topActivity else None
  }

  predicate DescendingByRecency(s: seq<UsageStat>) {
    forall i, j :: 0 <= i < j < |s| ==> s[j].lastTimeUsed <= s[i].lastTimeUsed
  }

  /** Insert `e` before every entry it is not older than, keeping the order of equal entries. */
  function InsertByRecency(e: UsageStat, sorted: seq<UsageStat>): (r: seq<UsageStat>)
    ensures multiset(r) == multiset(sorted) + multiset{e}
    ensures r[0] == e || (|sorted| > 0 && r[0] == sorted[0])
  {
    if sorted == [] || e.lastTimeUsed >= sorted[0].lastTimeUsed then [e] + sorted
    else
      assert sorted == [sorted[0]] + sorted[1..];
      [sorted[0]] + InsertByRecency(e, sorted[1..])
  }

  /** An entry at least as recent as the head can go in front of a descending list. */
  lemma PrependKeepsDescending(e: UsageStat, sorted: seq<UsageStat>)
    requires DescendingByRecency(sorted)
    requires sorted == [] || sorted[0].lastTimeUsed <= e.lastTimeUsed
    ensures DescendingByRecency([e] + sorted)
  {
    var r := [e] + sorted;
    forall i, j | 0 <= i < j < |r| ensures r[j].lastTimeUsed <= r[i].lastTimeUsed {
      assert r[j] == sorted[j - 1];
      if i > 0 {
        assert r[i] == sorted[i - 1];
      }
    }
  }

  lemma {:induction false} InsertKeepsDescending(e: UsageStat, sorted: seq<UsageStat>)
    requires DescendingByRecency(sorted)
    ensures DescendingByRecency(InsertByRecency(e, sorted))
  {
    var r := InsertByRecency(e, sorted);
    if sorted == [] || e.lastTimeUsed >= sorted[0].lastTimeUsed {
      assert r == [e] + sorted;
      PrependKeepsDescending(e, sorted);
    } else {
      var rest := InsertByRecency(e, sorted[1..]);
      InsertKeepsDescending(e, sorted[1..]);
      assert r == [sorted[0]] + rest;
      assert rest[0].lastTimeUsed <= sorted[0].lastTimeUsed by {
        if rest[0] != e {
          assert rest[0] == sorted[1];
        }
      }
      PrependKeepsDescending(sorted[0], rest);
    }
  }

  /** `sortedByDescending { it.lastTimeUsed }`, a stable sort. */
  function SortByRecencyDescending(s: seq<UsageStat>): (r: seq<UsageStat>)
    ensures multiset(r) == multiset(s)
  {
    if s == [] then []
    else
      assert s == [s[0]] + s[1..];
      InsertByRecency(s[0], SortByRecencyDescending(s[1..]))
  }

  /** The sort orders entries from the most to the least recently used. */
  lemma {:induction false} SortIsDescending(s: seq<UsageStat>)
    ensures DescendingByRecency(SortByRecencyDescending(s))
  {
    if s != [] {
      SortIsDescending(s[1..]);
      InsertKeepsDescending(s[0], SortByRecencyDescending(s[1..]));
    }
  }

  /** Entry `i` is the most recently used one, and no earlier entry ties with it. */
  ghost predicate IsFirstMostRecent(s: seq<UsageStat>, i: int) {
    && 0 <= i < |s|
    && (forall j :: 0 <= j < |s| ==> s[j].lastTimeUsed <= s[i].lastTimeUsed)
    && (forall j :: 0 <= j < i ==> s[j].lastTimeUsed < s[i].lastTimeUsed)
  }

  /** The head of the sort: the new entry if it is at least as recent as the sorted tail's head. */
  lemma SortHead(s: seq<UsageStat>)
    requires |s| > 1
    ensures var tail := SortByRecencyDescending(s[1..]);
            SortByRecencyDescending(s)[0] == if s[0].lastTimeUsed >= tail[0].lastTimeUsed then s[0] else tail[0]
  {
    var tail := SortByRecencyDescending(s[1..]);
    assert |multiset(tail)| == |s| - 1;
  }

  /** Prepending an entry keeps the first most recent entry, unless the new one is at least as recent. */
  lemma {:induction false} FirstMostRecentPrepend(s: seq<UsageStat>, k: int)
    requires |s| > 1 && IsFirstMostRecent(s[1..], k)
    ensures s[0].lastTimeUsed >= s[k + 1].lastTimeUsed ==> IsFirstMostRecent(s, 0)
    ensures s[0].lastTimeUsed < s[k + 1].lastTimeUsed ==> IsFirstMostRecent(s, k + 1)
  {
    var m := s[k + 1].lastTimeUsed;
    assert s[1..][k] == s[k + 1];
    forall j | 1 <= j < |s| ensures s[j].lastTimeUsed <= m {
      assert s[j] == s[1..][j - 1];
    }
    forall j | 1 <= j < k + 1 ensures s[j].lastTimeUsed < m {
      assert s[j] == s[1..][j - 1];
    }
  }

  /** The head of the stable descending sort is the earliest of the most recent entries. */
  lemma {:induction false} SortedHeadIsFirstMostRecent(s: seq<UsageStat>)
    requires |s| > 0
    ensures exists i :: IsFirstMostRecent(s, i) && SortByRecencyDescending(s)[0] == s[i]
  {
    if |s| == 1 {
      assert s[1..] == [];
      assert IsFirstMostRecent(s, 0) && SortByRecencyDescending(s)[0] == s[0];
    } else {
      SortedHeadIsFirstMostRecent(s[1..]);
      var tail := SortByRecencyDescending(s[1..]);
      var k :| IsFirstMostRecent(s[1..], k) && tail[0] == s[1..][k];
      assert tail[0] == s[k + 1];
      SortHead(s);
      FirstMostRecentPrepend(s, k);
      if s[0].lastTimeUsed >= s[k + 1].lastTimeUsed {
        assert IsFirstMostRecent(s, 0) && SortByRecencyDescending(s)[0] == s[0];
      } else {
        assert IsFirstMostRecent(s, k + 1) && SortByRecencyDescending(s)[0] == s[k + 1];
      }
    }
  }

  /**
   * `tryUsageStats`: nothing for a missing or empty answer, otherwise the
   * package of the most recently used entry (the earliest one on a tie).
   */
  function TryUsageStats(answer: Option<seq<UsageStat>>): (r: Option<string>)
    ensures r.None? <==> answer.None? || |answer.value| == 0
    ensures r.Some? ==> exists i :: IsFirstMostRecent(answer.value, i) && r.value == answer.value[i].packageName
  {
    match answer
    case None => None
    case Some(stats) =>
      if |stats| == 0 then None
      else
        SortedHeadIsFirstMostRecent(stats);
        Some(SortByRecencyDescending(stats)[0].packageName)
  }

  /** `tryGetRunningTasks(context) ?: tryUsageStats(context)` */
  function QueryStrategies(p: Platform): Option<string> {
    TryGetRunningTasks(p.runningTasks).OrElse(TryUsageStats(p.usageStats))
  }

  /** The singleton's state: `lastKnownPackage` and `lastUpdateTime`. */
  datatype Cache = Cache(lastKnownPackage: string, lastUpdateTime: int)

  const INITIAL_CACHE := Cache(UNKNOWN, 0)

  /** The cached package may be served without asking the platform. */
  predicate CacheFresh(c: Cache, now: int) {
    now - c.lastUpdateTime < CACHE_TIMEOUT && c.lastKnownPackage != UNKNOWN
  }

  datatype LookupResult = LookupResult(cache: Cache, packageName: string)

  /**
   * `getForegroundPackageName` as a function of the cache before the call:
   * the answer is always the cached package after the call, and the cache
   * either stays as it was or records a package just found, at `now`.
   */
  function Lookup(c: Cache, p: Platform): (r: LookupResult)
    ensures r.packageName == r.cache.lastKnownPackage
    ensures r.cache == c || (r.cache.lastUpdateTime == p.now && QueryStrategies(p) == Some(r.packageName))
    ensures CacheFresh(c, p.now) ==> r.cache == c
  {
    if CacheFresh(c, p.now) then LookupResult(c, c.lastKnownPackage)
    else match QueryStrategies(p)
      case Some(pkg) => LookupResult(Cache(pkg, p.now), pkg)
      case None => LookupResult(c, c.lastKnownPackage)
  }

  /** A cache hit asks no strategy: the platform's answers make no difference. */
  lemma CacheHitConsultsNothing(c: Cache, p: Platform, q: Platform)
    requires CacheFresh(c, p.now) && q.now == p.now
    ensures Lookup(c, p) == Lookup(c, q) == LookupResult(c, c.lastKnownPackage)
  {
  }

  /** Usage stats are only consulted when the running-tasks strategy finds nothing. */
  lemma RunningTasksTakePrecedence(c: Cache, p: Platform, usage: Option<seq<UsageStat>>)
    requires !CacheFresh(c, p.now) && TryGetRunningTasks(p.runningTasks).Some?
    ensures Lookup(c, p) == Lookup(c, p.(usageStats := usage))
    ensures Lookup(c, p).packageName == TryGetRunningTasks(p.runningTasks).value
  {
  }

  /** When the primary strategy yields nothing, the fallback's answer is used and cached. */
  lemma FallbackUsedAndCached(c: Cache, p: Platform)
    requires !CacheFresh(c, p.now)
    requires TryGetRunningTasks(p.runningTasks) == None && TryUsageStats(p.usageStats).Some?
    ensures Lookup(c, p) == LookupResult(Cache(TryUsageStats(p.usageStats).value, p.now), TryUsageStats(p.usageStats).value)
  {
  }

  /** When both strategies fail the cache is kept and its package returned; at first that is "Unknown". */
  lemma TotalFailureKeepsCache(c: Cache, p: Platform)
    requires !CacheFresh(c, p.now) && QueryStrategies(p) == None
    ensures Lookup(c, p) == LookupResult(c, c.lastKnownPackage)
    ensures c == INITIAL_CACHE ==> Lookup(c, p).packageName == UNKNOWN
  {
  }

  /**
   * After a successful query, a second call less than 500 ms later gets the
   * same package without asking the platform again.
   */
  lemma SecondCallWithinWindow(c: Cache, p: Platform, q: Platform)
    requires !CacheFresh(c, p.now) && QueryStrategies(p).Some? && QueryStrategies(p).value != UNKNOWN
    requires q.now - p.now < CACHE_TIMEOUT
    ensures Lookup(Lookup(c, p).cache, q) == Lookup(c, p)
  {
  }

  class ForegroundAppDetector {
    var lastKnownPackage: string
    var lastUpdateTime: int

    function CacheState(): Cache
      reads this
    {
      Cache(lastKnownPackage, lastUpdateTime)
    }

    constructor ()
      ensures CacheState() == INITIAL_CACHE
    {
      lastKnownPackage := UNKNOWN;
      lastUpdateTime := 0;
    }

    /** `getForegroundPackageName` */
    method GetForegroundPackageName(p: Platform) returns (pkg: string)
      modifies this
      ensures LookupResult(CacheState(), pkg) == Lookup(old(CacheState()), p)
    {
      var currentTime := p.now;
      if currentTime - lastUpdateTime < CACHE_TIMEOUT && lastKnownPackage != UNKNOWN {
        return lastKnownPackage;
      }
      var found := TryGetRunningTasks(p.runningTasks).OrElse(TryUsageStats(p.usageStats));
      if found.Some? {
        lastKnownPackage := found.value;
        lastUpdateTime := currentTime;
        return found.value;
      }
      return lastKnownPackage;
    }
  }
}
