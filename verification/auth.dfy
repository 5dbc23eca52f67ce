/** Account operations: handle normalisation, signup with its baseline
    writes, login, and the profile and goal updates. Password hashing and
    comparison are foreign: the hash is an input, the comparison a parameter. */
module Auth {
  import opened Wrappers
  import opened Users
  import Stats

  /** The characters `String.prototype.trim` removes: ECMAScript WhiteSpace
      (including every space separator) and LineTerminator. */
  predicate IsJsWhitespace(c: char) {
    c in {'\t', '\n', '\U{000B}', '\U{000C}', '\r', ' ', '\U{00A0}', '\U{1680}',
          '\U{2000}', '\U{2001}', '\U{2002}', '\U{2003}', '\U{2004}', '\U{2005}',
          '\U{2006}', '\U{2007}', '\U{2008}', '\U{2009}', '\U{200A}',
          '\U{2028}', '\U{2029}', '\U{202F}', '\U{205F}', '\U{3000}', '\U{FEFF}'}
  }

  /** Every character is whitespace (the empty string included). */
  predicate Blank(s: string) {
    forall i :: 0 <= i < |s| ==> IsJsWhitespace(s[i])
  }

  /** Leading whitespace removed. */
  function TrimStart(s: string): (r: string)
    ensures |r| <= |s| && r == s[|s| - |r|..]
    ensures Blank(s[..|s| - |r|])
    ensures r == [] || !IsJsWhitespace(r[0])
    decreases |s|
  {
    if s != [] && IsJsWhitespace(s[0]) then
      var r := TrimStart(s[1..]);
      assert s[..|s| - |r|] == [s[0]] + s[1..][..|s| - 1 - |r|];
      r
    else s
  }

  /** Trailing whitespace removed. */
  function TrimEnd(s: string): (r: string)
    ensures |r| <= |s| && r == s[..|r|]
    ensures Blank(s[|r|..])
    ensures r == [] || !IsJsWhitespace(r[|r| - 1])
    decreases |s|
  {
    if s != [] && IsJsWhitespace(s[|s| - 1]) then
      var r := TrimEnd(s[..|s| - 1]);
      assert s[|r|..] == s[..|s| - 1][|r|..] + [s[|s| - 1]];
      r
    else s
  }

  /** `s.trim()` */
  function Trim(s: string): string {
    TrimEnd(TrimStart(s))
  }

  /** Trimming leaves nothing exactly when the string is all whitespace. */
  lemma TrimEmptyIffBlank(s: string)
    ensures Trim(s) == "" <==> Blank(s)
  {
    var t := TrimStart(s);
    if Trim(s) == "" {
      assert Blank(t[0..]);
      assert t == [];
      assert s[..|s|] == s;
    }
  }

  /** `if (!h || h.trim() === '') h = null`: an absent, empty or whitespace-only
      handle becomes NULL; any other string is kept as given, untrimmed. */
  function NormaliseHandle(h: Option<string>): (r: Option<string>)
    ensures r.None? <==> h.None? || Blank(h.value)
    ensures r.Some? ==> r == h && r.value != ""
  {
    if h.None? || h.value == "" then None
    else
      TrimEmptyIffBlank(h.value);
      if Trim(h.value) == "" then None else h
  }

  datatype AuthError = MissingHandle | UserExists | InvalidCredentials

  /** `SELECT * FROM users WHERE email = $1` returns a row. */
  predicate EmailTaken(rows: seq<UserRecord>, email: string) {
    exists i :: 0 <= i < |rows| && rows[i].email == email
  }

  /** The checks `signup` makes before inserting, in its order: the handle
      check comes before the email lookup. */
  function SignupRejection(rows: seq<UserRecord>, email: string, cfHandle: Option<string>, lcHandle: Option<string>): (r: Option<AuthError>)
    ensures r == Some(MissingHandle) <==> NormaliseHandle(cfHandle).None? && NormaliseHandle(lcHandle).None?
    ensures r == Some(UserExists) <==>
      (NormaliseHandle(cfHandle).Some? || NormaliseHandle(lcHandle).Some?) && EmailTaken(rows, email)
    ensures r.None? || r == Some(MissingHandle) || r == Some(UserExists)
  {
    if NormaliseHandle(cfHandle).None? && NormaliseHandle(lcHandle).None? then Some(MissingHandle)
    else if EmailTaken(rows, email) then Some(UserExists)
    else None
  }

  /** The row `INSERT INTO users (email, password, codeforces_handle, leetcode_handle)`
      creates: the columns it does not name take their defaults, 0 for the
      counters and baselines and 3 for the daily goal. */
  function NewRow(id: UserId, email: string, passwordHash: string, cfHandle: Option<string>, lcHandle: Option<string>): UserRecord {
    UserRecord(id, email, passwordHash, cfHandle, lcHandle, Some(Stats.DefaultDailyGoal),
               Some(0), Some(0), Some(0), Some(0), Some(0), Some(0))
  }

  /** The signup UPDATE of one platform: the stats and a baseline equal to the solved count. */
  function InitialWrite(p: Platform, data: PlatformStats): Write {
    match p
    case Codeforces => SetCfInitial(data.rating, data.totalSolved)
    case LeetCode => SetLcInitial(data.totalSolved, data.rating)
  }

  /** The row after one platform's signup fetch: written only when it returned data. */
  function BaselineStep(u: UserRecord, p: Platform, client: Client): UserRecord {
    match Fetch(client, HandleOf(u, p))
    case None => u
    case Some(data) => Apply(u, InitialWrite(p, data))
  }

  function BaselineStatements(u: UserRecord, p: Platform, client: Client): seq<Statement> {
    match Fetch(client, HandleOf(u, p))
    case None => []
    case Some(data) => [UpdateRow(u.id, InitialWrite(p, data))]
  }

  /** The new user's row once both signup fetches have settled, Codeforces first. */
  function SignedUpRow(row: UserRecord, cf: Client, lc: Client): UserRecord {
    BaselineStep(BaselineStep(row, Codeforces, cf), LeetCode, lc)
  }

  /** One of the fire-and-forget baseline updates of `signup`, for the row at the
      end of the table. */
  method SetBaseline(table: UserTable, p: Platform, client: Client)
    requires table.Valid() && |table.rows| > 0
    modifies table
    ensures table.Valid() && table.nextId == old(table.nextId) && |table.rows| == |old(table.rows)|
    ensures var n := |table.rows| - 1;
      table.rows == old(table.rows)[..n] + [BaselineStep(old(table.rows)[n], p, client)]
    ensures table.log == old(table.log) + BaselineStatements(old(table.rows)[|table.rows| - 1], p, client)
  {
    var n := |table.rows| - 1;
    var user := table.rows[n];
    var handle := HandleOf(user, p);
    if Linked(handle) {
      var data := client(handle.value);
      if data.Some? {
        table.Update(user.id, InitialWrite(p, data.value));
        assert forall k :: 0 <= k < n ==> old(table.rows)[k].id != user.id;
        assert table.rows == old(table.rows)[..n] + [BaselineStep(user, p, client)];
      }
    }
  }

  /** `signup`, with the hashed password given and the two baseline updates
      run to completion after the insert. */
  method Signup(table: UserTable, email: string, passwordHash: string, cfHandle: Option<string>, lcHandle: Option<string>,
                cf: Client, lc: Client) returns (r: Result<UserId, AuthError>)
    requires table.Valid()
    modifies table
    ensures table.Valid()
    ensures var rejection := SignupRejection(old(table.rows), email, cfHandle, lcHandle);
      if rejection.Some? then
        r == Err(rejection.value) && table.rows == old(table.rows) && table.log == old(table.log)
        && table.nextId == old(table.nextId)
      else
        var row := NewRow(old(table.nextId), email, passwordHash, NormaliseHandle(cfHandle), NormaliseHandle(lcHandle));
        var cfRow := BaselineStep(row, Codeforces, cf);
        && r == Ok(old(table.nextId))
        && table.nextId == old(table.nextId) + 1
        && table.rows == old(table.rows) + [SignedUpRow(row, cf, lc)]
        && table.log == old(table.log) + [InsertRow(row)] + BaselineStatements(row, Codeforces, cf) + BaselineStatements(cfRow, LeetCode, lc)
  {
    var cfH, lcH := NormaliseHandle(cfHandle), NormaliseHandle(lcHandle);
    if cfH.None? && lcH.None? {
      return Err(MissingHandle);
    }
    if EmailTaken(table.rows, email) {
      return Err(UserExists);
    }
    var id := table.Insert(NewRow(0, email, passwordHash, cfH, lcH));
    ghost var row := NewRow(id, email, passwordHash, cfH, lcH);
    ghost var rows1 := table.rows;
    ghost var log1 := table.log;
    SetBaseline(table, Codeforces, cf);
    assert table.rows == old(table.rows) + [BaselineStep(row, Codeforces, cf)] by {
      assert rows1[..|rows1| - 1] == old(table.rows);
    }
    SetBaseline(table, LeetCode, lc);
    assert table.rows[..|table.rows| - 1] == old(table.rows) by {
      assert (old(table.rows) + [BaselineStep(row, Codeforces, cf)])[..|old(table.rows)|] == old(table.rows);
    }
    r := Ok(id);
  }

  /** After a signup fetch that returned data, that platform's baseline equals
      its solved count, so its progress for today starts at 0, and a next
      `getStats` that fetches the same count leaves the baseline in place. */
  lemma SignupBaseline(row: UserRecord, cf: Client, lc: Client)
    ensures var u := SignedUpRow(row, cf, lc);
            var d := Fetch(cf, row.cfHandle);
            d.Some? ==>
              && u.cfStart == u.cfSolved == Some(d.value.totalSolved)
              && Stats.AutoInit(u.cfStart, d.value.totalSolved) == u.cfStart
              && Stats.TodayProgress(d.value.totalSolved, Stats.AutoInit(u.cfStart, d.value.totalSolved)) == 0
    ensures var u := SignedUpRow(row, cf, lc);
            var d := Fetch(lc, row.lcHandle);
            d.Some? ==>
              && u.lcStart == u.lcSolved == Some(d.value.totalSolved)
              && Stats.AutoInit(u.lcStart, d.value.totalSolved) == u.lcStart
              && Stats.TodayProgress(d.value.totalSolved, Stats.AutoInit(u.lcStart, d.value.totalSolved)) == 0
  {
  }

  /** A signup fetch that reports 0 solved stores the baseline 0, which is also
      the sentinel `getStats` replaces: the first request that sees a positive
      count moves the baseline up to it, so the problems solved since signup
      do not show as today's progress. */
  lemma SignupZeroCountBaseline(row: UserRecord, cf: Client, lc: Client, later: PlatformStats)
    requires Fetch(cf, row.cfHandle).Some? && Fetch(cf, row.cfHandle).value.totalSolved == 0
    requires later.totalSolved > 0
    ensures var u := SignedUpRow(row, cf, lc);
            var solved := Stats.Reconcile(u.cfSolved, u.cfRating, Some(later)).solved;
            && u.cfStart == Some(0)
            && Stats.AutoInit(u.cfStart, solved) == Some(later.totalSolved)
            && Stats.TodayProgress(solved, Stats.AutoInit(u.cfStart, solved)) == 0
  {
  }

  /** The row `SELECT * FROM users WHERE email = $1` puts first. */
  function FindByEmail(rows: seq<UserRecord>, email: string): (r: Option<UserRecord>)
    ensures r.Some? <==> EmailTaken(rows, email)
    ensures r.Some? ==> exists i :: 0 <= i < |rows| && rows[i] == r.value && r.value.email == email &&
                                   forall j :: 0 <= j < i ==> rows[j].email != email
  {
    if rows == [] then None
    else if rows[0].email == email then Some(rows[0])
    else
      var r := FindByEmail(rows[1..], email);
      assert forall i :: 1 <= i < |rows| ==> rows[i] == rows[1..][i - 1];
      r
  }

  /** `login`: the id of the first row with the email when `matches(password, hash)`
      holds for its stored hash; an unknown email and a wrong password fail alike. */
  function Login(rows: seq<UserRecord>, email: string, password: string, matches: (string, string) -> bool): (r: Result<UserId, AuthError>)
    ensures r.Err? ==> r.error == InvalidCredentials
    ensures !EmailTaken(rows, email) ==> r == Err(InvalidCredentials)
    ensures r.Ok? <==> EmailTaken(rows, email) && matches(password, FindByEmail(rows, email).value.passwordHash)
    ensures r.Ok? ==> exists i :: 0 <= i < |rows| && rows[i].id == r.value && rows[i].email == email &&
                                 matches(password, rows[i].passwordHash)
    ensures r.Ok? ==> r.value == FindByEmail(rows, email).value.id
  {
    match FindByEmail(rows, email)
    case None => Err(InvalidCredentials)
    case Some(u) => if matches(password, u.passwordHash) then Ok(u.id) else Err(InvalidCredentials)
  }

  /** The handle columns `RETURNING codeforces_handle, leetcode_handle` reports. */
  datatype Handles = Handles(cfHandle: Option<string>, lcHandle: Option<string>)

  /** `updateProfile` for user `userId`: both handle columns are set to the
      normalised inputs, so an omitted handle unlinks that platform; nothing
      requires a handle to remain. The reply is `None` when no row has the id. */
  method UpdateProfile(table: UserTable, userId: UserId, cfHandle: Option<string>, lcHandle: Option<string>)
    returns (r: Option<Handles>)
    requires table.Valid()
    modifies table
    ensures table.Valid() && table.nextId == old(table.nextId)
    ensures table.rows == ApplyWhere(old(table.rows), userId, SetHandles(NormaliseHandle(cfHandle), NormaliseHandle(lcHandle)))
    ensures table.log == old(table.log) + [UpdateRow(userId, SetHandles(NormaliseHandle(cfHandle), NormaliseHandle(lcHandle)))]
    ensures r == if Lookup(old(table.rows), userId).Some? then Some(Handles(NormaliseHandle(cfHandle), NormaliseHandle(lcHandle))) else None
  {
    var cfH, lcH := NormaliseHandle(cfHandle), NormaliseHandle(lcHandle);
    var found := Lookup(table.rows, userId).Some?;
    table.Update(userId, SetHandles(cfH, lcH));
    r := if found then Some(Handles(cfH, lcH)) else None;
  }

  /** A profile update changes only the two handle columns of the user's row,
      to the normalised inputs; the other rows are untouched. */
  lemma ProfileChangesOnlyHandles(rows: seq<UserRecord>, userId: UserId, cfHandle: Option<string>, lcHandle: Option<string>)
    ensures var after := ApplyWhere(rows, userId, SetHandles(NormaliseHandle(cfHandle), NormaliseHandle(lcHandle)));
      && |after| == |rows|
      && forall k :: 0 <= k < |rows| ==>
           if rows[k].id == userId then
             && after[k].(cfHandle := rows[k].cfHandle, lcHandle := rows[k].lcHandle) == rows[k]
             && after[k].cfHandle == NormaliseHandle(cfHandle) && after[k].lcHandle == NormaliseHandle(lcHandle)
           else after[k] == rows[k]
  {
  }

  /** `updateGoal`: `daily_goal` is written as given, NULL when it was omitted. */
  method UpdateGoal(table: UserTable, userId: UserId, goal: Option<int>)
    requires table.Valid()
    modifies table
    ensures table.Valid() && table.nextId == old(table.nextId)
    ensures table.rows == ApplyWhere(old(table.rows), userId, SetGoal(goal))
    ensures table.log == old(table.log) + [UpdateRow(userId, SetGoal(goal))]
  {
    table.Update(userId, SetGoal(goal));
  }

  /** The goal `getStats` reports after `updateGoal`: the stored value, except
      that NULL and 0 read as the default 3. */
  lemma GoalReadBack(u: UserRecord, goal: Option<int>)
    ensures Stats.GoalOrDefault(Apply(u, SetGoal(goal)).dailyGoal)
         == if goal.None? || goal.value == 0 then Stats.DefaultDailyGoal else goal.value
  {
  }
}
