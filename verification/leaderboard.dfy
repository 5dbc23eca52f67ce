/** The public leaderboard (`getLeaderboard`): the top-50 query per platform,
    its projection into ranked entries, and the read-through cache in front of it. */
module Leaderboard {
  import opened Wrappers
  import opened Users

  /** `LIMIT 50` */
  const RowCap: nat := 50

  /** node-cache's `stdTTL: 300`, in the milliseconds its clock counts. */
  const TtlMillis: int := 300000

  /** One element of the JSON reply. */
  datatype Entry = Entry(handle: string, rank: nat, cfRating: nat, cfSolved: nat, lcSolved: nat, lcRating: nat)

  /** The position of `a` may precede that of `b` under `ORDER BY metric DESC`:
      PostgreSQL places NULL before every value in descending order. */
  predicate KeyGe(a: Option<nat>, b: Option<nat>) {
    a.None? || (b.Some? && a.value >= b.value)
  }

  /** `WHERE <platform>_handle IS NOT NULL`, keeping table order. */
  function Listed(rows: seq<UserRecord>, p: Platform): (r: seq<UserRecord>)
    ensures forall u :: u in r <==> u in rows && HandleOf(u, p).Some?
    ensures |r| <= |rows|
  {
    if rows == [] then []
    else (if HandleOf(rows[0], p).Some? then [rows[0]] else []) + Listed(rows[1..], p)
  }

  /** The filter keeps every linked row as often as the table holds it, and
      no other row: the board's length is fixed by the linked rows alone. */
  lemma {:induction false} ListedCounts(rows: seq<UserRecord>, p: Platform)
    ensures forall u :: multiset(Listed(rows, p))[u] == if HandleOf(u, p).Some? then multiset(rows)[u] else 0
    decreases |rows|
  {
    if rows != [] {
      ListedCounts(rows[1..], p);
      assert rows == [rows[0]] + rows[1..];
    }
  }

  ghost predicate SortedDesc(s: seq<UserRecord>, p: Platform) {
    forall i, j :: 0 <= i < j < |s| ==> KeyGe(Metric(s[i], p), Metric(s[j], p))
  }

  /** Place `x` before the first element it may precede; among equal keys it
      goes first, which keeps earlier rows first. */
  function InsertDesc(x: UserRecord, s: seq<UserRecord>, p: Platform): (r: seq<UserRecord>)
    requires SortedDesc(s, p)
    ensures multiset(r) == multiset(s) + multiset{x}
    ensures SortedDesc(r, p)
  {
    if s == [] || KeyGe(Metric(x, p), Metric(s[0], p)) then
      assert forall j :: 0 <= j < |s| ==> KeyGe(Metric(x, p), Metric(s[j], p));
      [x] + s
    else
      var t := InsertDesc(x, s[1..], p);
      assert s == [s[0]] + s[1..];
      HeadPrecedes(x, s, t, p);
      [s[0]] + t
  }

  /** The head of a sorted `s` may precede every element of a permutation of
      `s`'s tail with `x` added, when `x` may not precede the head. */
  lemma HeadPrecedes(x: UserRecord, s: seq<UserRecord>, t: seq<UserRecord>, p: Platform)
    requires s != [] && SortedDesc(s, p) && !KeyGe(Metric(x, p), Metric(s[0], p))
    requires multiset(t) == multiset(s[1..]) + multiset{x}
    ensures forall j :: 0 <= j < |t| ==> KeyGe(Metric(s[0], p), Metric(t[j], p))
  {
    forall j | 0 <= j < |t| ensures KeyGe(Metric(s[0], p), Metric(t[j], p)) {
      assert t[j] in multiset(t);
      if t[j] != x {
        assert t[j] in multiset(s[1..]);
        var k :| 0 <= k < |s[1..]| && s[1..][k] == t[j];
        assert s[k + 1] == t[j];
      }
    }
  }

  /** `ORDER BY metric DESC`, ties in table order: an insertion sort. */
  function SortDesc(s: seq<UserRecord>, p: Platform): (r: seq<UserRecord>)
    ensures multiset(r) == multiset(s)
    ensures SortedDesc(r, p)
  {
    if s == [] then []
    else
      assert s == [s[0]] + s[1..];
      InsertDesc(s[0], SortDesc(s[1..], p), p)
  }

  /** The rows the leaderboard query returns. */
  function QueryRows(rows: seq<UserRecord>, p: Platform): seq<UserRecord> {
    var sorted := SortDesc(Listed(rows, p), p);
    if |sorted| <= RowCap then sorted else sorted[..RowCap]
  }

  /** `rows.map((user, index) => …)` for one row. The query selects only the
      platform's own two counters, so the other platform's read as `undefined || 0`. */
  function Project(u: UserRecord, p: Platform, index: nat): Entry
    requires HandleOf(u, p).Some?
  {
    match p
    case Codeforces => Entry(u.cfHandle.value, index + 1, OrZero(u.cfRating), OrZero(u.cfSolved), 0, 0)
    case LeetCode => Entry(u.lcHandle.value, index + 1, 0, 0, OrZero(u.lcSolved), OrZero(u.lcRating))
  }

  /** The uncached leaderboard for the `platform` path parameter. */
  function Compute(rows: seq<UserRecord>, platform: string): (r: seq<Entry>)
    ensures |r| <= RowCap
    ensures |r| == if |Listed(rows, PlatformOf(platform))| <= RowCap then |Listed(rows, PlatformOf(platform))| else RowCap
    ensures forall i :: 0 <= i < |r| ==> r[i].rank == i + 1
  {
    var p := PlatformOf(platform);
    var q := QueryRows(rows, p);
    assert forall i :: 0 <= i < |q| ==> q[i] in multiset(Listed(rows, p));
    seq(|q|, i requires 0 <= i < |q| => Project(q[i], p, i))
  }

  /** The query returns only rows of the table with a handle for the platform,
      in descending order of the metric (NULL first). */
  lemma QueryRowsListed(rows: seq<UserRecord>, p: Platform)
    ensures forall u :: u in QueryRows(rows, p) ==> u in rows && HandleOf(u, p).Some?
    ensures SortedDesc(QueryRows(rows, p), p)
  {
    var sorted := SortDesc(Listed(rows, p), p);
    forall u | u in QueryRows(rows, p) ensures u in rows && HandleOf(u, p).Some? {
      assert u in sorted;
      assert u in multiset(Listed(rows, p));
    }
  }

  /** Top 50: every linked row is returned, or 50 rows are returned and each
      of them sorts at or before it. */
  lemma QueryRowsTop(rows: seq<UserRecord>, p: Platform, u: UserRecord)
    requires u in rows && HandleOf(u, p).Some?
    ensures var q := QueryRows(rows, p);
            u in q || (|q| == RowCap && forall i :: 0 <= i < |q| ==> KeyGe(Metric(q[i], p), Metric(u, p)))
  {
    var sorted := SortDesc(Listed(rows, p), p);
    assert u in multiset(sorted);
    var j :| 0 <= j < |sorted| && sorted[j] == u;
    if |sorted| > RowCap && j >= RowCap {
      assert forall i :: 0 <= i < RowCap ==> KeyGe(Metric(sorted[i], p), Metric(sorted[j], p));
    }
  }

  /** Entries appear in query order with ranks 1, 2, …, and NULL counters as 0;
      every handle shown belongs to a row of the table linked to the platform. */
  lemma EntriesFromRows(rows: seq<UserRecord>, platform: string)
    ensures var p := PlatformOf(platform);
            var q := QueryRows(rows, p);
            var r := Compute(rows, platform);
            && |r| == |q|
            && forall i :: 0 <= i < |r| ==>
                 && HandleOf(q[i], p) == Some(r[i].handle)
                 && q[i] in rows
                 && (p == Codeforces ==> r[i].cfRating == OrZero(q[i].cfRating) && r[i].cfSolved == OrZero(q[i].cfSolved)
                                         && r[i].lcSolved == 0 && r[i].lcRating == 0)
                 && (p == LeetCode ==> r[i].lcSolved == OrZero(q[i].lcSolved) && r[i].lcRating == OrZero(q[i].lcRating)
                                       && r[i].cfRating == 0 && r[i].cfSolved == 0)
  {
    QueryRowsListed(rows, PlatformOf(platform));
  }

  /** The metric shown in an entry. */
  function Shown(e: Entry, p: Platform): nat {
    match p
    case Codeforces => e.cfRating
    case LeetCode => e.lcSolved
  }

  /** When no linked row has a NULL metric, the shown metric never increases
      down the board. */
  lemma ShownNonIncreasing(rows: seq<UserRecord>, platform: string)
    requires forall u :: u in rows && HandleOf(u, PlatformOf(platform)).Some? ==> Metric(u, PlatformOf(platform)).Some?
    ensures var r := Compute(rows, platform);
            forall i, j :: 0 <= i < j < |r| ==> Shown(r[i], PlatformOf(platform)) >= Shown(r[j], PlatformOf(platform))
  {
    var p := PlatformOf(platform);
    var q := QueryRows(rows, p);
    var r := Compute(rows, platform);
    QueryRowsListed(rows, p);
    var sorted := SortDesc(Listed(rows, p), p);
    assert forall i, j :: 0 <= i < j < |q| ==> KeyGe(Metric(q[i], p), Metric(q[j], p)) by {
      forall i, j | 0 <= i < j < |q| ensures KeyGe(Metric(q[i], p), Metric(q[j], p)) {
        assert q[i] == sorted[i] && q[j] == sorted[j];
      }
    }
    forall i, j | 0 <= i < j < |r| ensures Shown(r[i], p) >= Shown(r[j], p) {
      assert q[i] in q && q[j] in q;
    }
  }

  /** A linked row whose metric is NULL is listed above every rated row and
      shows 0: NULLS FIRST under a descending order. */
  lemma NullMetricListedFirst(a: UserRecord, b: UserRecord)
    requires a.cfHandle.Some? && a.cfRating.None? && b.cfHandle.Some? && b.cfRating == Some(1500)
    ensures Compute([b, a], "codeforces") == [Entry(a.cfHandle.value, 1, 0, OrZero(a.cfSolved), 0, 0),
                                              Entry(b.cfHandle.value, 2, 1500, OrZero(b.cfSolved), 0, 0)]
  {
    assert [b, a][1..] == [a];
    assert [a][1..] == [];
    assert Listed([b, a], Codeforces) == [b, a];
    assert SortDesc([a], Codeforces) == [a];
    assert SortDesc([b, a], Codeforces) == [a, b];
  }

  /** `leaderboard_${platform}` */
  function CacheKey(platform: string): string {
    "leaderboard_" + platform
  }

  /** Distinct path parameters use distinct cache slots. */
  lemma CacheKeyInjective(a: string, b: string)
    requires CacheKey(a) == CacheKey(b)
    ensures a == b
  {
    var n := |"leaderboard_"|;
    assert a == CacheKey(a)[n..];
    assert b == CacheKey(b)[n..];
  }

  datatype Slot = Slot(entries: seq<Entry>, expiresAt: int)

  /** The module-level `NodeCache`, with the clock passed in by the caller. */
  class LeaderboardCache {
    var slots: map<string, Slot>

    constructor ()
      ensures slots == map[]
    {
      slots := map[];
    }

    /** `cache.has(key)` at time `now`: present and not yet past its expiry. */
    predicate Holds(key: string, now: int)
      reads this
    {
      key in slots && now <= slots[key].expiresAt
    }

    /** `getLeaderboard(platform)` at time `now`: a live slot is returned
        verbatim; otherwise the board is computed from `table` and stored for
        the TTL. */
    method Get(table: UserTable, platform: string, now: int) returns (entries: seq<Entry>)
      modifies this
      ensures var key := CacheKey(platform);
        if old(Holds(key, now)) then
          entries == old(slots[key].entries) && slots == old(slots)
        else
          entries == Compute(table.rows, platform) && slots == old(slots)[key := Slot(entries, now + TtlMillis)]
    {
      var key := CacheKey(platform);
      if Holds(key, now) {
        return slots[key].entries;
      }
      entries := Compute(table.rows, platform);
      slots := slots[key := Slot(entries, now + TtlMillis)];
    }
  }

  /** After a miss at `t0`, a read within the TTL returns the same entries even
      when the table changed in between; a read after the slot expired reflects
      the table as it then is. */
  method ReadsWithinTtl(cache: LeaderboardCache, before: UserTable, after: UserTable, platform: string, t0: int, t1: int, t2: int)
    returns (first: seq<Entry>, second: seq<Entry>, third: seq<Entry>)
    requires !cache.Holds(CacheKey(platform), t0)
    requires t0 <= t1 <= t0 + TtlMillis < t2
    modifies cache
    ensures first == Compute(before.rows, platform)
    ensures second == first
    ensures third == Compute(after.rows, platform)
  {
    first := cache.Get(before, platform, t0);
    second := cache.Get(after, platform, t1);
    third := cache.Get(after, platform, t2);
  }
}
