/** The `users` table: one record per registered user, the column writes the
    controllers and the sync job issue, and the table itself as mutable state. */
module Users {
  import opened Wrappers

  type UserId = nat

  datatype Platform = Codeforces | LeetCode

  /** A request's `platform` path parameter selects Codeforces only when it is
      exactly "codeforces"; every other string selects LeetCode. */
  function PlatformOf(name: string): Platform {
    if name == "codeforces" then Codeforces else LeetCode
  }

  /** One row of `users`. Every column but the id may be SQL NULL (`None`). */
  datatype UserRecord = UserRecord(
    id: UserId,
    email: string,
    passwordHash: string,
    cfHandle: Option<string>,
    lcHandle: Option<string>,
    dailyGoal: Option<int>,
    cfStart: Option<nat>,
    lcStart: Option<nat>,
    cfSolved: Option<nat>,
    lcSolved: Option<nat>,
    cfRating: Option<nat>,
    lcRating: Option<nat>)

  /** What a platform client returns on success. */
  datatype PlatformStats = PlatformStats(handle: string, totalSolved: nat, rating: nat)

  /** A platform client: `None` is a rejected call, a thrown error or a null result. */
  type Client = string -> Option<PlatformStats>

  /** JavaScript's `x || 0` on a nullable counter. */
  function OrZero(n: Option<nat>): nat {
    n.GetOr(0)
  }

  /** JavaScript truthiness of a handle column: present and not the empty string. */
  predicate Linked(h: Option<string>) {
    h.Some? && h.value != ""
  }

  /** `handle ? client(handle) : null` */
  function Fetch(client: Client, h: Option<string>): Option<PlatformStats> {
    if Linked(h) then client(h.value) else None
  }

  function HandleOf(u: UserRecord, p: Platform): Option<string> {
    match p
    case Codeforces => u.cfHandle
    case LeetCode => u.lcHandle
  }

  /** The primary metric of a platform: `cf_rating` for Codeforces, `lc_solved` for LeetCode. */
  function Metric(u: UserRecord, p: Platform): Option<nat> {
    match p
    case Codeforces => u.cfRating
    case LeetCode => u.lcSolved
  }

  /** The column assignments of the UPDATE statements in the controllers and the sync job. */
  datatype Write =
    | SetCfStats(rating: nat, solved: nat)      // cf_rating, cf_solved
    | SetLcStats(solved: nat, rating: nat)      // lc_solved, lc_rating
    | SetCfStart(start: nat)                    // cf_start_count
    | SetLcStart(start: nat)                    // lc_start_count
    | SetCfInitial(rating: nat, solved: nat)    // cf_rating, cf_solved, cf_start_count = cf_solved
    | SetLcInitial(solved: nat, rating: nat)    // lc_solved, lc_rating, lc_start_count = lc_solved
    | SetHandles(cf: Option<string>, lc: Option<string>)
    | SetGoal(goal: Option<int>)

  /** The stats UPDATE of one platform: `cf_rating, cf_solved` or `lc_solved, lc_rating`. */
  function StatsWriteFor(p: Platform, solved: nat, rating: nat): Write {
    match p
    case Codeforces => SetCfStats(rating, solved)
    case LeetCode => SetLcStats(solved, rating)
  }

  /** A statement sent to the store. */
  datatype Statement = InsertRow(row: UserRecord) | UpdateRow(id: UserId, write: Write)

  /** The row after one UPDATE; the id and the credentials are never written. */
  function Apply(u: UserRecord, w: Write): (r: UserRecord)
    ensures r.id == u.id && r.email == u.email && r.passwordHash == u.passwordHash
  {
    match w
    case SetCfStats(rating, solved) => u.(cfRating := Some(rating), cfSolved := Some(solved))
    case SetLcStats(solved, rating) => u.(lcSolved := Some(solved), lcRating := Some(rating))
    case SetCfStart(start) => u.(cfStart := Some(start))
    case SetLcStart(start) => u.(lcStart := Some(start))
    case SetCfInitial(rating, solved) => u.(cfRating := Some(rating), cfSolved := Some(solved), cfStart := Some(solved))
    case SetLcInitial(solved, rating) => u.(lcSolved := Some(solved), lcRating := Some(rating), lcStart := Some(solved))
    case SetHandles(cf, lc) => u.(cfHandle := cf, lcHandle := lc)
    case SetGoal(goal) => u.(dailyGoal := goal)
  }

  /** The row after a sequence of UPDATEs, applied in order. */
  function ApplyAll(u: UserRecord, ws: seq<Write>): UserRecord
    decreases |ws|
  {
    if ws == [] then u else Apply(ApplyAll(u, ws[..|ws| - 1]), ws[|ws| - 1])
  }

  /** `UPDATE users SET … WHERE id = $id` over the whole table. */
  function ApplyWhere(rows: seq<UserRecord>, id: UserId, w: Write): seq<UserRecord> {
    seq(|rows|, i requires 0 <= i < |rows| => if rows[i].id == id then Apply(rows[i], w) else rows[i])
  }

  /** Applying `a + b` is applying `a`, then `b`. */
  lemma {:induction false} ApplyAllAppend(u: UserRecord, a: seq<Write>, b: seq<Write>)
    ensures ApplyAll(u, a + b) == ApplyAll(ApplyAll(u, a), b)
    decreases |b|
  {
    if b == [] {
      assert a + b == a;
    } else {
      assert (a + b)[..|a + b| - 1] == a + b[..|b| - 1];
      ApplyAllAppend(u, a, b[..|b| - 1]);
    }
  }

  lemma ApplyAllSingle(u: UserRecord, w: Write)
    ensures ApplyAll(u, [w]) == Apply(u, w)
  {
    assert [w][..0] == [];
  }

  /** One more UPDATE on the same id extends the table-level fold. */
  lemma ApplyAllWhereSnoc(rows: seq<UserRecord>, id: UserId, ws: seq<Write>, w: Write)
    ensures ApplyAllWhere(rows, id, ws + [w]) == ApplyWhere(ApplyAllWhere(rows, id, ws), id, w)
    ensures UpdateStatements(id, ws + [w]) == UpdateStatements(id, ws) + [UpdateRow(id, w)]
  {
    assert (ws + [w])[..|ws + [w]| - 1] == ws;
  }

  lemma {:induction false} ApplyAllKeepsId(u: UserRecord, ws: seq<Write>)
    ensures ApplyAll(u, ws).id == u.id
    decreases |ws|
  {
    if ws != [] {
      ApplyAllKeepsId(u, ws[..|ws| - 1]);
    }
  }

  /** A sequence of UPDATEs on the same id, applied in order. */
  function ApplyAllWhere(rows: seq<UserRecord>, id: UserId, ws: seq<Write>): seq<UserRecord>
    decreases |ws|
  {
    if ws == [] then rows else ApplyWhere(ApplyAllWhere(rows, id, ws[..|ws| - 1]), id, ws[|ws| - 1])
  }

  function UpdateStatements(id: UserId, ws: seq<Write>): seq<Statement> {
    seq(|ws|, i requires 0 <= i < |ws| => UpdateRow(id, ws[i]))
  }

  /** Applying UPDATEs to the table is applying them to each row whose id matches. */
  lemma {:induction false} ApplyAllWhereAt(rows: seq<UserRecord>, id: UserId, ws: seq<Write>)
    ensures |ApplyAllWhere(rows, id, ws)| == |rows|
    ensures forall i :: 0 <= i < |rows| ==>
      ApplyAllWhere(rows, id, ws)[i] == if rows[i].id == id then ApplyAll(rows[i], ws) else rows[i]
    decreases |ws|
  {
    if ws != [] {
      var before := ws[..|ws| - 1];
      ApplyAllWhereAt(rows, id, before);
      var mid := ApplyAllWhere(rows, id, before);
      forall i | 0 <= i < |rows|
        ensures ApplyAllWhere(rows, id, ws)[i] == if rows[i].id == id then ApplyAll(rows[i], ws) else rows[i]
      {
        if rows[i].id == id {
          assert mid[i] == ApplyAll(rows[i], before);
          assert mid[i].id == id by { ApplyAllKeepsId(rows[i], before); }
        }
      }
    }
  }

  /** `SELECT … FROM users WHERE id = $1`, first row. */
  function Lookup(rows: seq<UserRecord>, id: UserId): (r: Option<UserRecord>)
    ensures r.Some? <==> exists i :: 0 <= i < |rows| && rows[i].id == id
    ensures r.Some? ==> r.value in rows && r.value.id == id
  {
    if rows == [] then None
    else if rows[0].id == id then Some(rows[0])
    else Lookup(rows[1..], id)
  }

  ghost predicate UniqueIds(rows: seq<UserRecord>) {
    forall i, j :: 0 <= i < j < |rows| ==> rows[i].id != rows[j].id
  }

  /** With the primary key unique, the looked-up row is the one at the position holding the id. */
  lemma {:induction false} LookupAt(rows: seq<UserRecord>, k: nat)
    requires UniqueIds(rows) && k < |rows|
    ensures Lookup(rows, rows[k].id) == Some(rows[k])
  {
    if k > 0 {
      assert rows[0].id != rows[k].id;
      assert rows[1..][k - 1] == rows[k];
      LookupAt(rows[1..], k - 1);
    }
  }

  /** The `users` table as the store keeps it, with the log of statements it has executed. */
  class UserTable {
    var rows: seq<UserRecord>
    var nextId: UserId
    var log: seq<Statement>

    /** The primary key is unique and every id was handed out by the id sequence. */
    ghost predicate Valid()
      reads this
    {
      UniqueIds(rows) && forall i :: 0 <= i < |rows| ==> rows[i].id < nextId
    }

    constructor ()
      ensures Valid() && rows == [] && log == [] && nextId == 0
    {
      rows, nextId, log := [], 0, [];
    }

    /** `UPDATE users SET … WHERE id = $id` */
    method Update(id: UserId, w: Write)
      requires Valid()
      modifies this
      ensures Valid()
      ensures rows == ApplyWhere(old(rows), id, w)
      ensures nextId == old(nextId) && log == old(log) + [UpdateRow(id, w)]
    {
      rows := ApplyWhere(rows, id, w);
      log := log + [UpdateRow(id, w)];
    }

    /** `INSERT INTO users … RETURNING *`, of which signup keeps the id: the row receives the next id of the sequence. */
    method Insert(row: UserRecord) returns (id: UserId)
      requires Valid()
      modifies this
      ensures Valid()
      ensures id == old(nextId) && nextId == old(nextId) + 1
      ensures rows == old(rows) + [row.(id := id)]
      ensures log == old(log) + [InsertRow(row.(id := id))]
    {
      id := nextId;
      rows := rows + [row.(id := id)];
      nextId := nextId + 1;
      log := log + [InsertRow(row.(id := id))];
    }
  }
}
