/** The per-user stats request (`getStats`): reconcile fresh platform data with
    the persisted snapshot, write back only what changed, initialise the daily
    baseline, compute today's progress and the user's rank. */
module Stats {
  import opened Wrappers
  import opened Users

  /** Goal shown when the column is NULL or 0 (`daily_goal || 3`). */
  const DefaultDailyGoal: int := 3

  /** What one platform block of `getStats` leaves in its `let` locals, and
      whether it issued its UPDATE. */
  datatype Reconciled = Reconciled(solved: nat, rating: nat, changed: bool)

  datatype StatsResponse = StatsResponse(
    handle: Option<string>,
    rating: nat,
    solved: nat,
    websiteRank: nat,
    dailyGoal: int,
    todaySolved: nat)

  datatype StatsError = NotFound

  /** The persisted values (NULL read as 0) unless a fetch succeeded; the
      UPDATE is issued exactly when the fetched pair differs from them. */
  function Reconcile(solved: Option<nat>, rating: Option<nat>, fetched: Option<PlatformStats>): (r: Reconciled)
    ensures fetched.None? ==> r == Reconciled(OrZero(solved), OrZero(rating), false)
    ensures fetched.Some? ==> r.solved == fetched.value.totalSolved && r.rating == fetched.value.rating
    ensures r.changed <==> fetched.Some? && (fetched.value.totalSolved != OrZero(solved) || fetched.value.rating != OrZero(rating))
  {
    var s, g := OrZero(solved), OrZero(rating);
    match fetched
    case None => Reconciled(s, g, false)
    case Some(data) =>
      if data.totalSolved != s || data.rating != g then Reconciled(data.totalSolved, data.rating, true)
      else Reconciled(s, g, false)
  }

  /** Baseline auto-initialisation: only the sentinel 0 (not NULL) is replaced,
      and only by a positive solved count. */
  function AutoInit(start: Option<nat>, solved: nat): (r: Option<nat>)
    ensures r != start <==> start == Some(0) && solved > 0
    ensures r != start ==> r == Some(solved)
  {
    if start == Some(0) && solved > 0 then Some(solved) else start
  }

  /** `Math.max(0, solved - (start || 0))` */
  function TodayProgress(solved: nat, start: Option<nat>): (r: nat)
    ensures solved >= OrZero(start) ==> r + OrZero(start) == solved
    ensures solved <= OrZero(start) ==> r == 0
  {
    if solved >= OrZero(start) then solved - OrZero(start) else 0
  }

  /** The row's metric is not NULL and strictly greater than `v`. */
  predicate Above(u: UserRecord, p: Platform, v: nat) {
    Metric(u, p).Some? && Metric(u, p).value > v
  }

  /** `SELECT COUNT(*) FROM users WHERE <metric> > $1`; a NULL metric never compares greater. */
  function CountAbove(rows: seq<UserRecord>, p: Platform, v: nat): (n: nat)
    ensures n <= |rows|
    ensures n == 0 <==> forall i :: 0 <= i < |rows| ==> !Above(rows[i], p, v)
    ensures n == |rows| <==> forall i :: 0 <= i < |rows| ==> Above(rows[i], p, v)
  {
    if rows == [] then 0
    else
      var rest := CountAbove(rows[1..], p, v);
      assert forall i :: 1 <= i < |rows| ==> rows[i] == rows[1..][i - 1];
      (if Above(rows[0], p, v) then 1 else 0) + rest
  }

  /** The count over two parts of the table is the sum of the counts. */
  lemma {:induction false} CountAboveAppend(a: seq<UserRecord>, b: seq<UserRecord>, p: Platform, v: nat)
    ensures CountAbove(a + b, p, v) == CountAbove(a, p, v) + CountAbove(b, p, v)
    decreases |a|
  {
    if a == [] {
      assert a + b == b;
    } else {
      assert (a + b)[1..] == a[1..] + b;
      CountAboveAppend(a[1..], b, p, v);
    }
  }

  /** Each row contributes exactly one to the count when its metric is above
      `v`, and nothing otherwise. */
  lemma CountAboveSplit(rows: seq<UserRecord>, p: Platform, v: nat, k: nat)
    requires k < |rows|
    ensures CountAbove(rows, p, v) == CountAbove(rows[..k] + rows[k + 1..], p, v) + (if Above(rows[k], p, v) then 1 else 0)
  {
    assert rows == rows[..k] + ([rows[k]] + rows[k + 1..]);
    CountAboveAppend(rows[..k], [rows[k]] + rows[k + 1..], p, v);
    CountAboveAppend([rows[k]], rows[k + 1..], p, v);
    CountAboveAppend(rows[..k], rows[k + 1..], p, v);
    assert [rows[k]][1..] == [];
  }

  function RankOf(rows: seq<UserRecord>, p: Platform, v: nat): nat {
    CountAbove(rows, p, v) + 1
  }

  function GoalOrDefault(goal: Option<int>): int {
    if goal.None? || goal.value == 0 then DefaultDailyGoal else goal.value
  }

  /** The UPDATEs `getStats` issues for user `u`, in program order. */
  function StatsWrites(u: UserRecord, cfFetch: Option<PlatformStats>, lcFetch: Option<PlatformStats>): seq<Write> {
    var cf := Reconcile(u.cfSolved, u.cfRating, cfFetch);
    var lc := Reconcile(u.lcSolved, u.lcRating, lcFetch);
    (if cf.changed then [SetCfStats(cf.rating, cf.solved)] else [])
    + (if lc.changed then [SetLcStats(lc.solved, lc.rating)] else [])
    + (if AutoInit(u.cfStart, cf.solved) != u.cfStart then [SetCfStart(cf.solved)] else [])
    + (if AutoInit(u.lcStart, lc.solved) != u.lcStart then [SetLcStart(lc.solved)] else [])
  }

  /** `cfToday + lcToday`: both platforms' progress, whichever platform was requested. */
  function TodaySolved(u: UserRecord, cfFetch: Option<PlatformStats>, lcFetch: Option<PlatformStats>): nat {
    var cf := Reconcile(u.cfSolved, u.cfRating, cfFetch);
    var lc := Reconcile(u.lcSolved, u.lcRating, lcFetch);
    TodayProgress(cf.solved, AutoInit(u.cfStart, cf.solved)) + TodayProgress(lc.solved, AutoInit(u.lcStart, lc.solved))
  }

  /** The value the rank query compares against: the current rating on
      Codeforces, the current solved count on LeetCode. */
  function RankedValue(u: UserRecord, p: Platform, cfFetch: Option<PlatformStats>, lcFetch: Option<PlatformStats>): nat {
    match p
    case Codeforces => Reconcile(u.cfSolved, u.cfRating, cfFetch).rating
    case LeetCode => Reconcile(u.lcSolved, u.lcRating, lcFetch).solved
  }

  /** The reply of `getStats` for user `u`, given the rank the count query returned. */
  function Respond(u: UserRecord, p: Platform, cfFetch: Option<PlatformStats>, lcFetch: Option<PlatformStats>, rank: nat): StatsResponse {
    var cf := Reconcile(u.cfSolved, u.cfRating, cfFetch);
    var lc := Reconcile(u.lcSolved, u.lcRating, lcFetch);
    match p
    case Codeforces => StatsResponse(u.cfHandle, cf.rating, cf.solved, rank, GoalOrDefault(u.dailyGoal), TodaySolved(u, cfFetch, lcFetch))
    case LeetCode => StatsResponse(u.lcHandle, lc.rating, lc.solved, rank, GoalOrDefault(u.dailyGoal), TodaySolved(u, cfFetch, lcFetch))
  }

  /** The baseline UPDATE of one platform. */
  function StartWriteFor(p: Platform, start: nat): Write {
    match p
    case Codeforces => SetCfStart(start)
    case LeetCode => SetLcStart(start)
  }

  /** One platform block of `getStats`: keep the persisted values unless the
      fetch succeeded, and UPDATE the row only when the values changed. `done`
      are the writes issued earlier in the request, `done'` those issued so far. */
  method ProcessPlatform(table: UserTable, userId: UserId, p: Platform,
                         persistedSolved: Option<nat>, persistedRating: Option<nat>, result: Option<PlatformStats>,
                         ghost rows0: seq<UserRecord>, ghost log0: seq<Statement>, ghost done: seq<Write>)
    returns (solved: nat, rating: nat, ghost done': seq<Write>)
    requires table.Valid()
    requires table.rows == ApplyAllWhere(rows0, userId, done) && table.log == log0 + UpdateStatements(userId, done)
    modifies table
    ensures table.Valid() && table.nextId == old(table.nextId)
    ensures var rec := Reconcile(persistedSolved, persistedRating, result);
      && solved == rec.solved && rating == rec.rating
      && done' == done + (if rec.changed then [StatsWriteFor(p, solved, rating)] else [])
    ensures table.rows == ApplyAllWhere(rows0, userId, done') && table.log == log0 + UpdateStatements(userId, done')
  {
    solved, rating := OrZero(persistedSolved), OrZero(persistedRating);
    done' := done;
    if result.Some? {
      var data := result.value;
      if data.totalSolved != solved || data.rating != rating {
        table.Update(userId, StatsWriteFor(p, data.totalSolved, data.rating));
        ApplyAllWhereSnoc(rows0, userId, done, StatsWriteFor(p, data.totalSolved, data.rating));
        done' := done + [StatsWriteFor(p, data.totalSolved, data.rating)];
        solved, rating := data.totalSolved, data.rating;
      }
    }
  }

  /** Baseline auto-initialisation of one platform: `start === 0 && solved > 0`. */
  method InitBaseline(table: UserTable, userId: UserId, p: Platform, persistedStart: Option<nat>, solved: nat,
                      ghost rows0: seq<UserRecord>, ghost log0: seq<Statement>, ghost done: seq<Write>)
    returns (start: Option<nat>, ghost done': seq<Write>)
    requires table.Valid()
    requires table.rows == ApplyAllWhere(rows0, userId, done) && table.log == log0 + UpdateStatements(userId, done)
    modifies table
    ensures table.Valid() && table.nextId == old(table.nextId)
    ensures start == AutoInit(persistedStart, solved)
    ensures done' == done + (if start != persistedStart then [StartWriteFor(p, solved)] else [])
    ensures table.rows == ApplyAllWhere(rows0, userId, done') && table.log == log0 + UpdateStatements(userId, done')
  {
    start := persistedStart;
    done' := done;
    if start == Some(0) && solved > 0 {
      table.Update(userId, StartWriteFor(p, solved));
      ApplyAllWhereSnoc(rows0, userId, done, StartWriteFor(p, solved));
      done' := done + [StartWriteFor(p, solved)];
      start := Some(solved);
    }
  }

  /** Steps 2 to 4 of `getStats` for the loaded row `user`: both platform
      blocks, then both baseline checks, each issuing its UPDATE only when due. */
  method WriteBack(table: UserTable, userId: UserId, user: UserRecord, cfResult: Option<PlatformStats>, lcResult: Option<PlatformStats>)
    returns (cfSolved: nat, cfRating: nat, lcSolved: nat, lcRating: nat, cfStart: Option<nat>, lcStart: Option<nat>)
    requires table.Valid()
    modifies table
    ensures table.Valid() && table.nextId == old(table.nextId)
    ensures var cf := Reconcile(user.cfSolved, user.cfRating, cfResult);
            var lc := Reconcile(user.lcSolved, user.lcRating, lcResult);
            && cfSolved == cf.solved && cfRating == cf.rating && lcSolved == lc.solved && lcRating == lc.rating
            && cfStart == AutoInit(user.cfStart, cf.solved) && lcStart == AutoInit(user.lcStart, lc.solved)
    ensures table.rows == ApplyAllWhere(old(table.rows), userId, StatsWrites(user, cfResult, lcResult))
    ensures table.log == old(table.log) + UpdateStatements(userId, StatsWrites(user, cfResult, lcResult))
  {
    ghost var rows0, log0 := table.rows, table.log;
    assert log0 + UpdateStatements(userId, []) == log0;
    ghost var done: seq<Write>;
    cfSolved, cfRating, done := ProcessPlatform(table, userId, Codeforces, user.cfSolved, user.cfRating, cfResult, rows0, log0, []);
    lcSolved, lcRating, done := ProcessPlatform(table, userId, LeetCode, user.lcSolved, user.lcRating, lcResult, rows0, log0, done);
    cfStart, done := InitBaseline(table, userId, Codeforces, user.cfStart, cfSolved, rows0, log0, done);
    lcStart, done := InitBaseline(table, userId, LeetCode, user.lcStart, lcSolved, rows0, log0, done);
    assert done == StatsWrites(user, cfResult, lcResult);
  }

  /** `getStats(userId, platform)`, with the two platform clients as oracles. */
  method GetStats(table: UserTable, userId: UserId, platform: string, cfClient: Client, lcClient: Client)
    returns (r: Result<StatsResponse, StatsError>)
    requires table.Valid()
    modifies table
    ensures table.Valid() && table.nextId == old(table.nextId)
    ensures Lookup(old(table.rows), userId).None? ==>
      r == Err(NotFound) && table.rows == old(table.rows) && table.log == old(table.log)
    ensures Lookup(old(table.rows), userId).Some? ==>
      var u := Lookup(old(table.rows), userId).value;
      var cfFetch, lcFetch := Fetch(cfClient, u.cfHandle), Fetch(lcClient, u.lcHandle);
      var ws := StatsWrites(u, cfFetch, lcFetch);
      var p := PlatformOf(platform);
      && table.rows == ApplyAllWhere(old(table.rows), userId, ws)
      && table.log == old(table.log) + UpdateStatements(userId, ws)
      && r == Ok(Respond(u, p, cfFetch, lcFetch, RankOf(table.rows, p, RankedValue(u, p, cfFetch, lcFetch))))
  {
    var found := Lookup(table.rows, userId);
    if found.None? {
      return Err(NotFound);
    }
    var user := found.value;

    // Both clients are asked when a handle is linked; a rejection reads as None.
    var cfResult := Fetch(cfClient, user.cfHandle);
    var lcResult := Fetch(lcClient, user.lcHandle);

    var cfSolved, cfRating, lcSolved, lcRating, cfStart, lcStart := WriteBack(table, userId, user, cfResult, lcResult);

    var cfToday := TodayProgress(cfSolved, cfStart);
    var lcToday := TodayProgress(lcSolved, lcStart);
    var totalToday := cfToday + lcToday;
    assert totalToday == TodaySolved(user, cfResult, lcResult);

    var p := PlatformOf(platform);
    var rank := CountAbove(table.rows, p, if p == Codeforces then cfRating else lcSolved) + 1;
    assert rank == RankOf(table.rows, p, RankedValue(user, p, cfResult, lcResult));
    r := Ok(StatsResponse(
      if p == Codeforces then user.cfHandle else user.lcHandle,
      if p == Codeforces then cfRating else lcRating,
      if p == Codeforces then cfSolved else lcSolved,
      rank,
      GoalOrDefault(user.dailyGoal),
      totalToday));
    assert r == Ok(Respond(user, p, cfResult, lcResult, rank));
  }

  /** The row after the UPDATEs of `getStats`: only the two stats columns of a
      platform whose values changed, and the baselines `AutoInit` moves. */
  lemma StatsWritesEffect(u: UserRecord, cfFetch: Option<PlatformStats>, lcFetch: Option<PlatformStats>)
    ensures var cf := Reconcile(u.cfSolved, u.cfRating, cfFetch);
            var lc := Reconcile(u.lcSolved, u.lcRating, lcFetch);
            ApplyAll(u, StatsWrites(u, cfFetch, lcFetch)) == u.(
              cfRating := if cf.changed then Some(cf.rating) else u.cfRating,
              cfSolved := if cf.changed then Some(cf.solved) else u.cfSolved,
              lcSolved := if lc.changed then Some(lc.solved) else u.lcSolved,
              lcRating := if lc.changed then Some(lc.rating) else u.lcRating,
              cfStart := AutoInit(u.cfStart, cf.solved),
              lcStart := AutoInit(u.lcStart, lc.solved))
  {
    var cf := Reconcile(u.cfSolved, u.cfRating, cfFetch);
    var lc := Reconcile(u.lcSolved, u.lcRating, lcFetch);
    var w1 := if cf.changed then [SetCfStats(cf.rating, cf.solved)] else [];
    var w2 := if lc.changed then [SetLcStats(lc.solved, lc.rating)] else [];
    var w3 := if AutoInit(u.cfStart, cf.solved) != u.cfStart then [SetCfStart(cf.solved)] else [];
    var w4 := if AutoInit(u.lcStart, lc.solved) != u.lcStart then [SetLcStart(lc.solved)] else [];
    var u1 := if cf.changed then u.(cfRating := Some(cf.rating), cfSolved := Some(cf.solved)) else u;
    var u2 := if lc.changed then u1.(lcSolved := Some(lc.solved), lcRating := Some(lc.rating)) else u1;
    var u3 := u2.(cfStart := AutoInit(u.cfStart, cf.solved));
    var u4 := u3.(lcStart := AutoInit(u.lcStart, lc.solved));
    assert ApplyAll(u, w1) == u1 by {
      if cf.changed { ApplyAllSingle(u, w1[0]); }
    }
    assert ApplyAll(u1, w2) == u2 by {
      if lc.changed { ApplyAllSingle(u1, w2[0]); }
    }
    assert ApplyAll(u2, w3) == u3 by {
      if w3 != [] { ApplyAllSingle(u2, w3[0]); }
    }
    assert ApplyAll(u3, w4) == u4 by {
      if w4 != [] { ApplyAllSingle(u3, w4[0]); }
    }
    ApplyAllAppend(u, w1, w2);
    ApplyAllAppend(u, w1 + w2, w3);
    ApplyAllAppend(u, w1 + w2 + w3, w4);
  }

  /** A failed or null fetch keeps the persisted values (NULL read as 0) and
      writes nothing to that platform's stats columns. */
  lemma FetchFailureKeepsPersisted(u: UserRecord, p: Platform, lcFetch: Option<PlatformStats>, rank: nat)
    ensures var ws := StatsWrites(u, None, lcFetch);
            var after1 := ApplyAll(u, ws);
            && (forall i :: 0 <= i < |ws| ==> !ws[i].SetCfStats?)
            && after1.cfSolved == u.cfSolved && after1.cfRating == u.cfRating
            && (p == Codeforces ==>
                  Respond(u, p, None, lcFetch, rank).solved == OrZero(u.cfSolved)
                  && Respond(u, p, None, lcFetch, rank).rating == OrZero(u.cfRating))
  {
    StatsWritesEffect(u, None, lcFetch);
  }

  /** The LeetCode half: a failed or null fetch keeps the persisted values and
      writes nothing to the LeetCode stats columns. */
  lemma LcFetchFailureKeepsPersisted(u: UserRecord, p: Platform, cfFetch: Option<PlatformStats>, rank: nat)
    ensures var ws := StatsWrites(u, cfFetch, None);
            var after1 := ApplyAll(u, ws);
            && (forall i :: 0 <= i < |ws| ==> !ws[i].SetLcStats?)
            && after1.lcSolved == u.lcSolved && after1.lcRating == u.lcRating
            && (p == LeetCode ==>
                  Respond(u, p, cfFetch, None, rank).solved == OrZero(u.lcSolved)
                  && Respond(u, p, cfFetch, None, rank).rating == OrZero(u.lcRating))
  {
    StatsWritesEffect(u, cfFetch, None);
  }

  /** The stats UPDATE of a platform is issued exactly when the fetched pair
      differs from the persisted one. */
  lemma WriteOnlyOnChange(u: UserRecord, cfFetch: Option<PlatformStats>, lcFetch: Option<PlatformStats>)
    ensures var ws := StatsWrites(u, cfFetch, lcFetch);
            (exists i :: 0 <= i < |ws| && ws[i].SetCfStats?) <==>
              cfFetch.Some? && (cfFetch.value.totalSolved != OrZero(u.cfSolved) || cfFetch.value.rating != OrZero(u.cfRating))
    ensures var ws := StatsWrites(u, cfFetch, lcFetch);
            (exists i :: 0 <= i < |ws| && ws[i].SetLcStats?) <==>
              lcFetch.Some? && (lcFetch.value.totalSolved != OrZero(u.lcSolved) || lcFetch.value.rating != OrZero(u.lcRating))
  {
    var cf := Reconcile(u.cfSolved, u.cfRating, cfFetch);
    var lc := Reconcile(u.lcSolved, u.lcRating, lcFetch);
    var ws := StatsWrites(u, cfFetch, lcFetch);
    if cf.changed { assert ws[0].SetCfStats?; }
    if lc.changed { assert ws[if cf.changed then 1 else 0].SetLcStats?; }
  }

  /** A second request with the same fetched values issues no UPDATE at all. */
  lemma SecondCallWritesNothing(u: UserRecord, cfFetch: Option<PlatformStats>, lcFetch: Option<PlatformStats>)
    ensures StatsWrites(ApplyAll(u, StatsWrites(u, cfFetch, lcFetch)), cfFetch, lcFetch) == []
  {
    StatsWritesEffect(u, cfFetch, lcFetch);
  }

  /** Baseline scenario: a sentinel baseline and a positive count make that
      platform's progress 0, and a later count shows the difference. */
  lemma BaselineScenario(u: UserRecord, d: PlatformStats, later: PlatformStats, lcFetch: Option<PlatformStats>)
    requires u.cfStart == Some(0) && d.totalSolved > 0
    ensures var after := ApplyAll(u, StatsWrites(u, Some(d), lcFetch));
            && after.cfStart == Some(d.totalSolved)
            && TodayProgress(Reconcile(u.cfSolved, u.cfRating, Some(d)).solved, after.cfStart) == 0
            && (later.totalSolved >= d.totalSolved ==>
                  TodayProgress(Reconcile(after.cfSolved, after.cfRating, Some(later)).solved,
                                AutoInit(after.cfStart, later.totalSolved)) == later.totalSolved - d.totalSolved)
  {
    StatsWritesEffect(u, Some(d), lcFetch);
  }

  /** `todaySolved` sums both platforms and does not depend on the requested one. */
  lemma TodayIndependentOfPlatform(u: UserRecord, cfFetch: Option<PlatformStats>, lcFetch: Option<PlatformStats>, cfRank: nat, lcRank: nat)
    ensures Respond(u, Codeforces, cfFetch, lcFetch, cfRank).todaySolved == Respond(u, LeetCode, cfFetch, lcFetch, lcRank).todaySolved
    ensures var cf := Reconcile(u.cfSolved, u.cfRating, cfFetch);
            var lc := Reconcile(u.lcSolved, u.lcRating, lcFetch);
            Respond(u, LeetCode, cfFetch, lcFetch, lcRank).todaySolved
              == TodayProgress(cf.solved, AutoInit(u.cfStart, cf.solved)) + TodayProgress(lc.solved, AutoInit(u.lcStart, lc.solved))
  {
  }

  /** A row whose metric is NULL or not above `v` is not counted: removing it
      leaves the count as it is, which is then below the number of rows. */
  lemma CountAboveExcludes(rows: seq<UserRecord>, p: Platform, v: nat, k: nat)
    requires k < |rows|
    requires Metric(rows[k], p).None? || Metric(rows[k], p).value <= v
    ensures CountAbove(rows, p, v) == CountAbove(rows[..k] + rows[k + 1..], p, v)
    ensures CountAbove(rows, p, v) < |rows|
  {
    CountAboveSplit(rows, p, v, k);
  }

  /** The rank is at least 1 and at most the number of users: the caller's own
      row, as written back, never counts as strictly greater. */
  lemma RankBounds(rows: seq<UserRecord>, k: nat, platform: string, cfFetch: Option<PlatformStats>, lcFetch: Option<PlatformStats>)
    requires UniqueIds(rows) && k < |rows|
    ensures var u := rows[k];
            var after := ApplyAllWhere(rows, u.id, StatsWrites(u, cfFetch, lcFetch));
            var p := PlatformOf(platform);
            1 <= RankOf(after, p, RankedValue(u, p, cfFetch, lcFetch)) <= |rows|
  {
    var u := rows[k];
    var ws := StatsWrites(u, cfFetch, lcFetch);
    var after := ApplyAllWhere(rows, u.id, ws);
    ApplyAllWhereAt(rows, u.id, ws);
    StatsWritesEffect(u, cfFetch, lcFetch);
    var cf := Reconcile(u.cfSolved, u.cfRating, cfFetch);
    var lc := Reconcile(u.lcSolved, u.lcRating, lcFetch);
    var p := PlatformOf(platform);
    var v := if p == Codeforces then cf.rating else lc.solved;
    assert after[k] == ApplyAll(u, ws);
    CountAboveExcludes(after, p, v, k);
  }

  /** For metrics [10, 20, 20, 5]: a user with 20 ranks first, a user with 5 fourth. */
  lemma RankExample(a: UserRecord, b: UserRecord, c: UserRecord, d: UserRecord)
    requires a.lcSolved == Some(10) && b.lcSolved == Some(20) && c.lcSolved == Some(20) && d.lcSolved == Some(5)
    ensures RankOf([a, b, c, d], LeetCode, 20) == 1
    ensures RankOf([a, b, c, d], LeetCode, 5) == 4
  {
    assert [a, b, c, d][1..] == [b, c, d];
    assert [b, c, d][1..] == [c, d];
    assert [c, d][1..] == [d];
    assert [d][1..] == [];
    assert CountAbove([d], LeetCode, 20) == 0 && CountAbove([d], LeetCode, 5) == 0;
    assert CountAbove([c, d], LeetCode, 20) == 0 && CountAbove([c, d], LeetCode, 5) == 1;
    assert CountAbove([b, c, d], LeetCode, 20) == 0 && CountAbove([b, c, d], LeetCode, 5) == 2;
  }
}
