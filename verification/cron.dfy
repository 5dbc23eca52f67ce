/** The scheduled batch sync (`updateUserStats`): one sequential pass over all
    users, one client call per linked platform, each followed by a fixed delay,
    with a failure confined to its (user, platform) pair. */
module Cron {
  import opened Wrappers
  import opened Users

  /** `sleep(500)` after each Codeforces call, `sleep(2000)` after each LeetCode call. */
  const CfDelayMillis: nat := 500
  const LcDelayMillis: nat := 2000

  /** One call to a platform client. */
  datatype Attempt = Attempt(platform: Platform, id: UserId, handle: string)

  /** `sleep(...)` after a call to platform `p`. */
  function DelayOf(p: Platform): nat {
    match p
    case Codeforces => CfDelayMillis
    case LeetCode => LcDelayMillis
  }

  /** The total time slept after the calls `attempts`. */
  function TotalDelay(attempts: seq<Attempt>): nat
    decreases |attempts|
  {
    if attempts == [] then 0 else TotalDelay(attempts[..|attempts| - 1]) + DelayOf(attempts[|attempts| - 1].platform)
  }

  /** The call made for one user and platform: one exactly when the handle is linked. */
  function PlatformAttempts(u: UserRecord, p: Platform): seq<Attempt> {
    if Linked(HandleOf(u, p)) then [Attempt(p, u.id, HandleOf(u, p).value)] else []
  }

  /** The calls made for one user: Codeforces first. */
  function UserAttempts(u: UserRecord): seq<Attempt> {
    PlatformAttempts(u, Codeforces) + PlatformAttempts(u, LeetCode)
  }

  /** The calls of a whole pass, in the order the users are listed. */
  function PlannedAttempts(users: seq<UserRecord>): seq<Attempt>
    decreases |users|
  {
    if users == [] then [] else PlannedAttempts(users[..|users| - 1]) + UserAttempts(users[|users| - 1])
  }

  /** One platform's step for one row: a non-null result overwrites both
      columns, whether or not they changed. */
  function Step(u: UserRecord, p: Platform, client: Client): UserRecord {
    match Fetch(client, HandleOf(u, p))
    case None => u
    case Some(data) => Apply(u, StatsWriteFor(p, data.totalSolved, data.rating))
  }

  /** The UPDATE issued by one platform's step. */
  function StepStatements(u: UserRecord, p: Platform, client: Client): seq<Statement> {
    match Fetch(client, HandleOf(u, p))
    case None => []
    case Some(data) => [UpdateRow(u.id, StatsWriteFor(p, data.totalSolved, data.rating))]
  }

  /** A user's row after the pass: the stats columns of each platform whose
      call returned data are overwritten, and nothing else changes. */
  function SyncRow(u: UserRecord, cf: Client, lc: Client): UserRecord
  {
    Step(Step(u, Codeforces, cf), LeetCode, lc)
  }

  /** What the pass does to one row: only the two stats columns of each
      platform whose call returned data change, and they take its values. */
  lemma SyncRowEffect(u: UserRecord, cf: Client, lc: Client)
    ensures var r := SyncRow(u, cf, lc);
      r.(cfRating := u.cfRating, cfSolved := u.cfSolved, lcSolved := u.lcSolved, lcRating := u.lcRating) == u
    ensures var r, d := SyncRow(u, cf, lc), Fetch(cf, u.cfHandle);
      if d.Some? then r.cfRating == Some(d.value.rating) && r.cfSolved == Some(d.value.totalSolved)
      else r.cfRating == u.cfRating && r.cfSolved == u.cfSolved
    ensures var r, d := SyncRow(u, cf, lc), Fetch(lc, u.lcHandle);
      if d.Some? then r.lcSolved == Some(d.value.totalSolved) && r.lcRating == Some(d.value.rating)
      else r.lcSolved == u.lcSolved && r.lcRating == u.lcRating
  {
  }

  /** The UPDATEs issued for one user. */
  function UserStatements(u: UserRecord, cf: Client, lc: Client): seq<Statement> {
    StepStatements(u, Codeforces, cf) + StepStatements(u, LeetCode, lc)
  }

  function PlannedLog(users: seq<UserRecord>, cf: Client, lc: Client): seq<Statement>
    decreases |users|
  {
    if users == [] then [] else PlannedLog(users[..|users| - 1], cf, lc) + UserStatements(users[|users| - 1], cf, lc)
  }

  /** The number of users with a linked handle for `p`. */
  function CountLinked(users: seq<UserRecord>, p: Platform): nat
    decreases |users|
  {
    if users == [] then 0
    else CountLinked(users[..|users| - 1], p) + (if Linked(HandleOf(users[|users| - 1], p)) then 1 else 0)
  }

  /** The time slept for one user: a delay after each platform with a linked handle. */
  function UserDelay(u: UserRecord): nat {
    (if Linked(HandleOf(u, Codeforces)) then CfDelayMillis else 0) + (if Linked(HandleOf(u, LeetCode)) then LcDelayMillis else 0)
  }

  /** The body of the loop for one platform of the user at position `i`: the
      call when the handle is linked, the UPDATE when it returned data, then the delay. */
  method SyncPlatform(table: UserTable, i: nat, p: Platform, client: Client) returns (tried: seq<Attempt>, delay: nat)
    requires table.Valid() && i < |table.rows|
    modifies table
    ensures table.Valid() && table.nextId == old(table.nextId) && |table.rows| == |old(table.rows)|
    ensures table.rows == old(table.rows)[i := Step(old(table.rows)[i], p, client)]
    ensures tried == PlatformAttempts(old(table.rows)[i], p)
    ensures delay == if Linked(HandleOf(old(table.rows)[i], p)) then DelayOf(p) else 0
    ensures table.log == old(table.log) + StepStatements(old(table.rows)[i], p, client)
  {
    var user := table.rows[i];
    var handle := HandleOf(user, p);
    tried, delay := [], 0;
    if Linked(handle) {
      tried := [Attempt(p, user.id, handle.value)];
      var data := client(handle.value);
      if data.Some? {
        table.Update(user.id, StatsWriteFor(p, data.value.totalSolved, data.value.rating));
        assert forall k :: 0 <= k < |table.rows| && k != i ==> old(table.rows)[k].id != user.id;
        assert table.rows == old(table.rows)[i := Step(user, p, client)];
      }
      delay := DelayOf(p);
    }
  }

  /** The body of the loop for the user at position `i`: Codeforces, then LeetCode. */
  method SyncUser(table: UserTable, i: nat, cf: Client, lc: Client) returns (tried: seq<Attempt>, delay: nat)
    requires table.Valid() && i < |table.rows|
    modifies table
    ensures table.Valid() && table.nextId == old(table.nextId) && |table.rows| == |old(table.rows)|
    ensures table.rows == old(table.rows)[i := SyncRow(old(table.rows)[i], cf, lc)]
    ensures tried == UserAttempts(old(table.rows)[i])
    ensures delay == UserDelay(old(table.rows)[i])
    ensures table.log == old(table.log) + UserStatements(old(table.rows)[i], cf, lc)
  {
    ghost var user := table.rows[i];
    var cfTried, cfDelay := SyncPlatform(table, i, Codeforces, cf);
    assert table.rows[i].id == user.id && table.rows[i].lcHandle == user.lcHandle;
    var lcTried, lcDelay := SyncPlatform(table, i, LeetCode, lc);
    assert table.rows == old(table.rows)[i := SyncRow(user, cf, lc)];
    tried, delay := cfTried + lcTried, cfDelay + lcDelay;
  }

  /** The rows `users` after the pass, position by position. */
  function SyncAll(users: seq<UserRecord>, cf: Client, lc: Client): (r: seq<UserRecord>)
  {
    seq(|users|, k requires 0 <= k < |users| => SyncRow(users[k], cf, lc))
  }

  /** The state of the pass once the first `i` users are done. */
  ghost predicate Synced(users: seq<UserRecord>, i: nat, rows: seq<UserRecord>, log: seq<Statement>, log0: seq<Statement>,
                         attempts: seq<Attempt>, waited: nat, cf: Client, lc: Client)
  {
    && i <= |users|
    && rows == SyncAll(users[..i], cf, lc) + users[i..]
    && attempts == PlannedAttempts(users[..i])
    && waited == CfDelayMillis * CountLinked(users[..i], Codeforces) + LcDelayMillis * CountLinked(users[..i], LeetCode)
    && log == log0 + PlannedLog(users[..i], cf, lc)
  }

  lemma SyncedStart(users: seq<UserRecord>, log0: seq<Statement>, cf: Client, lc: Client)
    ensures Synced(users, 0, users, log0, log0, [], 0, cf, lc)
  {
    assert users[..0] == [] && users[0..] == users;
  }

  /** Syncing the user at position `i` moves the pass on by one user. */
  lemma SyncedStep(users: seq<UserRecord>, i: nat, rows: seq<UserRecord>, log: seq<Statement>, log0: seq<Statement>,
                   attempts: seq<Attempt>, waited: nat, cf: Client, lc: Client)
    requires i < |users| && Synced(users, i, rows, log, log0, attempts, waited, cf, lc)
    ensures i < |rows| && rows[i] == users[i]
    ensures Synced(users, i + 1, rows[i := SyncRow(users[i], cf, lc)], log + UserStatements(users[i], cf, lc), log0,
                   attempts + UserAttempts(users[i]), waited + UserDelay(users[i]), cf, lc)
  {
    assert users[..i + 1][..i] == users[..i];
    assert SyncAll(users[..i + 1], cf, lc) + users[i + 1..] == rows[i := SyncRow(users[i], cf, lc)];
  }

  lemma SyncedDone(users: seq<UserRecord>, rows: seq<UserRecord>, log: seq<Statement>, log0: seq<Statement>,
                   attempts: seq<Attempt>, waited: nat, cf: Client, lc: Client)
    requires Synced(users, |users|, rows, log, log0, attempts, waited, cf, lc)
    ensures rows == SyncAll(users, cf, lc)
    ensures attempts == PlannedAttempts(users)
    ensures waited == CfDelayMillis * CountLinked(users, Codeforces) + LcDelayMillis * CountLinked(users, LeetCode)
    ensures log == log0 + PlannedLog(users, cf, lc)
  {
    assert users[..|users|] == users && users[|users|..] == [];
    assert rows == SyncAll(users, cf, lc) + [];
  }

  /** `updateUserStats()`. `usersQueryFails` stands for the initial SELECT
      failing, which ends the run in the outer catch block. */
  method UpdateUserStats(table: UserTable, cf: Client, lc: Client, usersQueryFails: bool)
    returns (attempts: seq<Attempt>, waited: nat)
    requires table.Valid()
    modifies table
    ensures table.Valid() && table.nextId == old(table.nextId)
    ensures usersQueryFails ==>
      attempts == [] && waited == 0 && table.rows == old(table.rows) && table.log == old(table.log)
    ensures !usersQueryFails ==>
      && attempts == PlannedAttempts(old(table.rows))
      && waited == CfDelayMillis * CountLinked(old(table.rows), Codeforces) + LcDelayMillis * CountLinked(old(table.rows), LeetCode)
      && |table.rows| == |old(table.rows)|
      && (forall k :: 0 <= k < |table.rows| ==> table.rows[k] == SyncRow(old(table.rows)[k], cf, lc))
      && table.log == old(table.log) + PlannedLog(old(table.rows), cf, lc)
  {
    attempts, waited := [], 0;
    if usersQueryFails {
      return;
    }
    var users := table.rows;
    ghost var log0 := table.log;
    SyncedStart(users, log0, cf, lc);
    var i := 0;
    while i < |users|
      invariant 0 <= i <= |users|
      invariant table.Valid() && table.nextId == old(table.nextId)
      invariant Synced(users, i, table.rows, table.log, log0, attempts, waited, cf, lc)
    {
      SyncedStep(users, i, table.rows, table.log, log0, attempts, waited, cf, lc);
      var tried, delay := SyncUser(table, i, cf, lc);
      attempts := attempts + tried;
      waited := waited + delay;
      i := i + 1;
    }
    SyncedDone(users, table.rows, table.log, log0, attempts, waited, cf, lc);
  }

  /** The number of attempts in `attempts` for platform `p` and user `id`. */
  function CountFor(attempts: seq<Attempt>, p: Platform, id: UserId): nat
    decreases |attempts|
  {
    if attempts == [] then 0
    else CountFor(attempts[..|attempts| - 1], p, id)
         + (if attempts[|attempts| - 1].platform == p && attempts[|attempts| - 1].id == id then 1 else 0)
  }

  lemma {:induction false} CountForAppend(a: seq<Attempt>, b: seq<Attempt>, p: Platform, id: UserId)
    ensures CountFor(a + b, p, id) == CountFor(a, p, id) + CountFor(b, p, id)
    decreases |b|
  {
    if b == [] {
      assert a + b == a;
    } else {
      assert (a + b)[..|a + b| - 1] == a + b[..|b| - 1];
      CountForAppend(a, b[..|b| - 1], p, id);
    }
  }

  lemma CountForPlatform(u: UserRecord, q: Platform, p: Platform, id: UserId)
    ensures CountFor(PlatformAttempts(u, q), p, id) == if q == p && u.id == id && Linked(HandleOf(u, p)) then 1 else 0
  {
    var a := PlatformAttempts(u, q);
    if a != [] {
      assert a[..0] == [];
    }
  }

  /** The number of listed users with id `id` and a linked handle for `p`. */
  function CountUsers(users: seq<UserRecord>, p: Platform, id: UserId): nat
    decreases |users|
  {
    if users == [] then 0
    else CountUsers(users[..|users| - 1], p, id)
         + (if users[|users| - 1].id == id && Linked(HandleOf(users[|users| - 1], p)) then 1 else 0)
  }

  lemma {:induction false} AttemptsCountUsers(users: seq<UserRecord>, p: Platform, id: UserId)
    ensures CountFor(PlannedAttempts(users), p, id) == CountUsers(users, p, id)
    decreases |users|
  {
    if users != [] {
      var last := users[|users| - 1];
      AttemptsCountUsers(users[..|users| - 1], p, id);
      CountForAppend(PlannedAttempts(users[..|users| - 1]), UserAttempts(last), p, id);
      CountForAppend(PlatformAttempts(last, Codeforces), PlatformAttempts(last, LeetCode), p, id);
      CountForPlatform(last, Codeforces, p, id);
      CountForPlatform(last, LeetCode, p, id);
    }
  }

  lemma {:induction false} CountUsersUnique(users: seq<UserRecord>, p: Platform, k: nat)
    requires UniqueIds(users) && k < |users|
    ensures CountUsers(users, p, users[k].id) == if Linked(HandleOf(users[k], p)) then 1 else 0
    decreases |users|
  {
    var n := |users| - 1;
    var prefix := users[..n];
    if k < n {
      assert prefix[k] == users[k];
      CountUsersUnique(prefix, p, k);
    } else {
      CountUsersNone(prefix, p, users[k].id);
    }
  }

  lemma {:induction false} CountUsersNone(users: seq<UserRecord>, p: Platform, id: UserId)
    requires forall j :: 0 <= j < |users| ==> users[j].id != id
    ensures CountUsers(users, p, id) == 0
    decreases |users|
  {
    if users != [] {
      CountUsersNone(users[..|users| - 1], p, id);
    }
  }

  /** Every user with a linked handle gets exactly one call for that platform
      in a pass, and a user without one gets none. */
  lemma AttemptsPerUser(users: seq<UserRecord>, k: nat)
    requires UniqueIds(users) && k < |users|
    ensures CountFor(PlannedAttempts(users), Codeforces, users[k].id) == if Linked(users[k].cfHandle) then 1 else 0
    ensures CountFor(PlannedAttempts(users), LeetCode, users[k].id) == if Linked(users[k].lcHandle) then 1 else 0
  {
    AttemptsCountUsers(users, Codeforces, users[k].id);
    CountUsersUnique(users, Codeforces, k);
    AttemptsCountUsers(users, LeetCode, users[k].id);
    CountUsersUnique(users, LeetCode, k);
  }

  /** A Codeforces call that fails for one user leaves that user's Codeforces
      columns as they were, while the other users' rows are still brought up to date. */
  lemma FailureIsolated(users: seq<UserRecord>, cf: Client, lc: Client, k: nat)
    requires k < |users| && Fetch(cf, users[k].cfHandle).None?
    ensures SyncRow(users[k], cf, lc).cfRating == users[k].cfRating
    ensures SyncRow(users[k], cf, lc).cfSolved == users[k].cfSolved
    ensures forall j :: 0 <= j < |users| && Fetch(cf, users[j].cfHandle).Some? ==>
      && SyncRow(users[j], cf, lc).cfSolved == Some(Fetch(cf, users[j].cfHandle).value.totalSolved)
      && SyncRow(users[j], cf, lc).cfRating == Some(Fetch(cf, users[j].cfHandle).value.rating)
  {
  }

  /** The same for a LeetCode call that fails for one user. */
  lemma LcFailureIsolated(users: seq<UserRecord>, cf: Client, lc: Client, k: nat)
    requires k < |users| && Fetch(lc, users[k].lcHandle).None?
    ensures SyncRow(users[k], cf, lc).lcRating == users[k].lcRating
    ensures SyncRow(users[k], cf, lc).lcSolved == users[k].lcSolved
    ensures forall j :: 0 <= j < |users| && Fetch(lc, users[j].lcHandle).Some? ==>
      && SyncRow(users[j], cf, lc).lcSolved == Some(Fetch(lc, users[j].lcHandle).value.totalSolved)
      && SyncRow(users[j], cf, lc).lcRating == Some(Fetch(lc, users[j].lcHandle).value.rating)
  {
  }

  lemma {:induction false} TotalDelayAppend(a: seq<Attempt>, b: seq<Attempt>)
    ensures TotalDelay(a + b) == TotalDelay(a) + TotalDelay(b)
    decreases |b|
  {
    if b == [] {
      assert a + b == a;
    } else {
      assert (a + b)[..|a + b| - 1] == a + b[..|b| - 1];
      TotalDelayAppend(a, b[..|b| - 1]);
    }
  }

  /** The time a pass sleeps is the sum of the delays after its calls: 500 ms
      per linked Codeforces handle and 2000 ms per linked LeetCode handle. */
  lemma {:induction false} PlanDelay(users: seq<UserRecord>)
    ensures TotalDelay(PlannedAttempts(users))
         == CfDelayMillis * CountLinked(users, Codeforces) + LcDelayMillis * CountLinked(users, LeetCode)
    decreases |users|
  {
    if users != [] {
      var last := users[|users| - 1];
      PlanDelay(users[..|users| - 1]);
      TotalDelayAppend(PlannedAttempts(users[..|users| - 1]), UserAttempts(last));
      TotalDelayAppend(PlatformAttempts(last, Codeforces), PlatformAttempts(last, LeetCode));
      var a := PlatformAttempts(last, Codeforces);
      var b := PlatformAttempts(last, LeetCode);
      if a != [] { assert a[..0] == []; }
      if b != [] { assert b[..0] == []; }
    }
  }
}
