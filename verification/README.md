# Code_Police stats engine in Dafny

This project models the backend core of Code_Police, which collects
competitive-programming statistics for each user from Codeforces and LeetCode.
The model covers five parts of the backend:

- **The per-user stats request** (`getStats`). It reconciles freshly fetched
  platform data with the stored snapshot and writes back only what changed. It
  also initialises the daily baseline and computes today's progress and the
  user's rank.
- **The public leaderboard** (`getLeaderboard`). It returns the top 50 rows per
  platform and keeps them in a five-minute read-through cache.
- **The scheduled batch sync** (`updateUserStats`). It makes one sequential
  pass over all users, with a fixed delay after every platform call.
- **The LeetCode client's normalisation** of a GraphQL reply.
- **The account operations**: handle normalisation, signup with its baseline
  writes, login, and the profile and goal updates.

The modules follow the repository's files:

| module | models |
|---|---|
| `Users` (users.dfy) | The `users` table: one record per user, with SQL NULL as `None`. The table is a class holding its rows (in table order), the id sequence, and the log of statements it has executed. Also the column writes (`Write`) the controllers and the job issue. |
| `Stats` (stats.dfy) | `getStats`. |
| `Leaderboard` (leaderboard.dfy) | `getLeaderboard` and the `NodeCache` instance in front of it. |
| `Cron` (cron.dfy) | `updateUserStats`. |
| `LeetCode` (leetcode.dfy) | The body of `fetchLeetcodeStats` after its HTTP POST. |
| `Auth` (auth.dfy) | `signup`, `login`, `updateProfile` and `updateGoal`. |
| `Wrappers` (wrappers.dfy) | `Option` and `Result`. |

The platform clients are oracles of type `string -> Option<PlatformStats>`.
`None` stands for any of three outcomes: a rejected promise, a thrown error,
or a null result. The leaderboard cache takes its clock as an argument. Login
takes the password comparison as a predicate argument, and signup receives the
password hash already computed.

A few behaviours of the code are worth stating up front:

- **`getStats` on an unlinked platform.** There is no error for it. The reply
  carries a null handle and the stored figures.
- **`updateProfile`.** Nothing requires a handle to remain, so a profile update
  may unlink both platforms. The at-least-one-handle rule applies only at
  signup.
- **Sync writes.** The sync writes every non-null result without comparing it
  with the stored values first.
- **Daily reset.** None of the modelled files contains a daily reset. The
  "midnight script" that backend/src/controllers/statsController.js:66 mentions
  is not among them and is not part of this model. In the model, a baseline
  moves only at signup and through `getStats`'s auto-initialisation.
- **Zero solved at signup.** A signup fetch that reports 0 solved stores the
  baseline 0, which is the sentinel `getStats` replaces. The first request that
  then sees a positive count moves the baseline up to it, so problems solved
  since signup never show as today's progress (`Auth.SignupZeroCountBaseline`).

## Model

| member | source | states |
|---|---|---|
| Users.Apply | backend/src/controllers/statsController.js:44-45 | An UPDATE never changes the id, the email or the password hash. |
| Users.Lookup | backend/src/controllers/statsController.js:15-22 | The lookup by id finds a row exactly when some row has that id. The row it returns is in the table and carries the id. |
| Users.LookupAt | backend/src/controllers/statsController.js:15-22 | With a unique primary key, the lookup of a row's id returns that very row. |
| Users.ApplyAllWhereAt | backend/src/controllers/statsController.js:44-74 | A sequence of UPDATEs on one id transforms exactly the rows with that id, each by the same sequence of writes, and leaves every other row as it was. |
| Users.UserTable.Update | backend/src/controllers/statsController.js:44-45 | `UPDATE … WHERE id = $id` rewrites exactly the rows with that id and appends the statement to the log. The key invariant is kept. |
| Users.UserTable.Insert | backend/src/controllers/authController.js:25-30 | `INSERT … RETURNING *`, of which signup keeps the id, appends the row under the next id of the sequence and logs it. The ids stay unique. |
| LeetCode.AllCount | backend/src/services/leetcodeService.js:49-51 | `find(item => item.difficulty === 'All')` yields nothing exactly when no entry is 'All'. Otherwise it yields the count of the first such entry. |
| LeetCode.Normalise | backend/src/services/leetcodeService.js:41-69 | A missing `data` or `matchedUser` gives null. A result exists exactly when the whole path down to an 'All' entry exists. The result keeps the requested handle and has the 'All' count as `totalSolved`. Its rating is 0 without a contest ranking. |
| LeetCode.ClientResult | backend/src/services/leetcodeService.js:3-70 | The client's result carries the requested handle. It exists exactly when the reply has `data`, `matchedUser`, `submitStats` and an 'All' entry. |
| LeetCode.PartialBreakdownRejected | backend/src/services/leetcodeService.js:49-51 | A breakdown with only Easy, Medium and Hard entries is rejected rather than summed. |
| Stats.Reconcile | backend/src/controllers/statsController.js:37-63 | A failed or null fetch keeps the stored values, reading NULL as 0. A successful fetch supplies the values. The UPDATE is due exactly when the fetched pair differs from the stored one. |
| Stats.AutoInit | backend/src/controllers/statsController.js:68-75 | The baseline changes exactly when it is the sentinel 0 (not NULL) and the solved count is positive. It then becomes the solved count. |
| Stats.TodayProgress | backend/src/controllers/statsController.js:78-79 | Today's progress is the solved count minus the baseline (NULL read as 0), clamped at 0. |
| Stats.CountAbove | backend/src/controllers/statsController.js:83-89 | The count never exceeds the number of rows. It is 0 exactly when no row has a non-NULL metric above the value, and equals the number of rows exactly when every row has one. |
| Stats.CountAboveAppend | backend/src/controllers/statsController.js:83-89 | The count over two parts of the table is the sum of their counts. |
| Stats.CountAboveSplit | backend/src/controllers/statsController.js:83-89 | Each row adds exactly 1 to the count when its metric is non-NULL and strictly above the value, and 0 otherwise. |
| Stats.ProcessPlatform | backend/src/controllers/statsController.js:37-63 | One platform block returns the reconciled values. It issues its UPDATE exactly when `Reconcile` says the values changed. |
| Stats.InitBaseline | backend/src/controllers/statsController.js:68-75 | One baseline check returns `AutoInit`'s baseline. It issues its UPDATE exactly when the baseline moved. |
| Stats.WriteBack | backend/src/controllers/statsController.js:37-75 | The four conditional UPDATEs run in program order. The table and the log afterwards are those of `StatsWrites`. |
| Stats.GetStats | backend/src/controllers/statsController.js:9-105 | An unknown id gives `NotFound` and changes nothing. Otherwise the table is updated by exactly `StatsWrites` and the reply is `Respond`. The rank in the reply is one more than the number of rows strictly above the requested platform's current metric, counted after the writes. |
| Stats.StatsWritesEffect | backend/src/controllers/statsController.js:36-75 | After the writes, a platform's stats columns change only if its values changed. The baselines become `AutoInit`'s. No other column changes. |
| Stats.FetchFailureKeepsPersisted | backend/src/controllers/statsController.js:37-49 | A failed Codeforces fetch issues no Codeforces stats UPDATE and leaves those columns as they were. The reply shows the stored values with NULL as 0. |
| Stats.LcFetchFailureKeepsPersisted | backend/src/controllers/statsController.js:52-63 | A failed LeetCode fetch issues no LeetCode stats UPDATE and leaves those columns as they were. The reply shows the stored values with NULL as 0. |
| Stats.WriteOnlyOnChange | backend/src/controllers/statsController.js:43-48 | Each platform's stats UPDATE is issued if and only if its fetch succeeded with a pair that differs from the stored one. |
| Stats.SecondCallWritesNothing | backend/src/controllers/statsController.js:43-75 | A second request that fetches the same values issues no UPDATE at all. |
| Stats.BaselineScenario | backend/src/controllers/statsController.js:65-79 | A sentinel baseline with a positive count gives 0 progress today. A later, higher count shows the difference. |
| Stats.TodayIndependentOfPlatform | backend/src/controllers/statsController.js:77-98 | `todaySolved` sums both platforms' progress, whichever platform was requested. |
| Stats.CountAboveExcludes | backend/src/controllers/statsController.js:83-89 | A row with a NULL metric, or one not above the value, is not counted: removing it leaves the count unchanged, and the count is then below the number of rows. |
| Stats.RankBounds | backend/src/controllers/statsController.js:83-89 | For a user in the table, the rank lies between 1 and the number of users. |
| Stats.RankExample | backend/src/controllers/statsController.js:83-89 | For solved counts [10, 20, 20, 5], a user with 20 ranks 1st and a user with 5 ranks 4th. Ties share a rank. |
| Leaderboard.Listed | backend/src/controllers/statsController.js:116-118 | `IS NOT NULL` keeps exactly the rows with a handle for the platform. |
| Leaderboard.ListedCounts | backend/src/controllers/statsController.js:116-118 | The filter keeps every linked row exactly as often as the table holds it, and no other row. |
| Leaderboard.InsertDesc | backend/src/controllers/statsController.js:116-118 | Inserting into a descending list gives a permutation of the list plus the new row, and keeps the order descending. |
| Leaderboard.SortDesc | backend/src/controllers/statsController.js:116-118 | `ORDER BY metric DESC` yields a descending permutation of its input, with NULL first. |
| Leaderboard.Compute | backend/src/controllers/statsController.js:114-130 | The board has min(50, number of linked rows) entries, ranked 1, 2, … in order. |
| Leaderboard.QueryRowsListed | backend/src/controllers/statsController.js:116-121 | The query returns only table rows with a handle for the platform, in descending order of the metric. |
| Leaderboard.QueryRowsTop | backend/src/controllers/statsController.js:116-118 | A linked row either appears, or 50 rows appear and each sorts at or before it. |
| Leaderboard.EntriesFromRows | backend/src/controllers/statsController.js:123-130 | Entry i shows the handle and counters of row i of the query, with NULL as 0. The other platform's counters show as 0. |
| Leaderboard.ShownNonIncreasing | backend/src/controllers/statsController.js:116-130 | When no linked row has a NULL metric, the shown metric never increases down the board. |
| Leaderboard.NullMetricListedFirst | backend/src/controllers/statsController.js:116 | An unrated Codeforces user is listed above a rated one and shows rating 0. |
| Leaderboard.CacheKeyInjective | backend/src/controllers/statsController.js:109 | Different platform parameters use different cache keys. |
| Leaderboard.LeaderboardCache.constructor | backend/src/controllers/statsController.js:7 | The cache starts empty. |
| Leaderboard.LeaderboardCache.Get | backend/src/controllers/statsController.js:107-133 | A live slot is returned unchanged. Otherwise the board is computed from the current table and stored until now + 300000 ms. |
| Leaderboard.ReadsWithinTtl | backend/src/controllers/statsController.js:107-133 | After a miss, a read within the TTL returns the same board even if the table changed. A read after expiry reflects the table as it then is. |
| Cron.SyncRowEffect | backend/src/services/cronService.js:17-53 | After a pass, each platform whose call returned data has both stats columns overwritten by it. A failed call leaves them. No other column changes. |
| Cron.SyncPlatform | backend/src/services/cronService.js:19-34 | One platform block makes one call exactly when the handle is linked, and then the delay. It issues the UPDATE when data came back and touches only that user's row. |
| Cron.SyncUser | backend/src/services/cronService.js:17-52 | One user's iteration handles Codeforces, then LeetCode. Only that user's row becomes `SyncRow`. The calls, the delays and the statements are those planned for the user. |
| Cron.SyncedStep | backend/src/services/cronService.js:17-53 | Handling the next user advances the state of the pass by exactly that user. |
| Cron.UpdateUserStats | backend/src/services/cronService.js:9-59 | A failed initial query changes nothing. Otherwise every row is synced in table order, the calls made are the planned ones, and the log receives the planned UPDATEs. The time slept is 500 ms per linked Codeforces handle plus 2000 ms per linked LeetCode handle. |
| Cron.AttemptsCountUsers | backend/src/services/cronService.js:17-52 | A pass calls a platform for an id as often as the table lists a user with that id and a linked handle. |
| Cron.AttemptsPerUser | backend/src/services/cronService.js:17-52 | With unique ids, a user with a linked handle gets exactly one call for that platform per pass, and a user without one gets none. |
| Cron.FailureIsolated | backend/src/services/cronService.js:20-31 | A failed Codeforces call leaves that user's Codeforces columns as they were. Every other user whose Codeforces call succeeded still gets both columns updated. |
| Cron.LcFailureIsolated | backend/src/services/cronService.js:37-49 | A failed LeetCode call leaves that user's LeetCode columns as they were. Every other user whose LeetCode call succeeded still gets both columns updated. |
| Cron.PlanDelay | backend/src/services/cronService.js:32-51 | The delays after the planned calls add up to 500 ms per linked Codeforces handle plus 2000 ms per linked LeetCode handle. |
| Auth.TrimStart | backend/src/controllers/authController.js:10 | What remains is a suffix that starts with a non-whitespace character, and everything removed is whitespace. |
| Auth.TrimEnd | backend/src/controllers/authController.js:10 | What remains is a prefix that ends with a non-whitespace character, and everything removed is whitespace. |
| Auth.TrimEmptyIffBlank | backend/src/controllers/authController.js:10-11 | `trim()` returns '' exactly when every character is ECMAScript whitespace. |
| Auth.NormaliseHandle | backend/src/controllers/authController.js:10-11 | An absent, empty or whitespace-only handle becomes NULL. Any other handle is kept unchanged and untrimmed. |
| Auth.SignupRejection | backend/src/controllers/authController.js:14-19 | Signup is refused for a missing handle exactly when both normalised handles are NULL. It is refused for an existing user exactly when a handle remains and the email is taken. The handle check comes first. |
| Auth.SetBaseline | backend/src/controllers/authController.js:34-54 | A baseline update touches only the new row, and only when its fetch returned data. |
| Auth.Signup | backend/src/controllers/authController.js:10-54 | A refused signup changes nothing. Otherwise one row is inserted under the next id with the normalised handles, and each successful fetch then sets that platform's stats and baseline. |
| Auth.SignupBaseline | backend/src/controllers/authController.js:34-51 | After a successful fetch at signup, on either platform, the baseline equals the solved count, so today's progress there is 0. A next request that fetches the same count leaves the baseline in place. |
| Auth.SignupZeroCountBaseline | backend/src/controllers/authController.js:34-40 | A signup fetch of 0 solved stores the sentinel baseline 0. A later positive count then moves the baseline to that count, and progress reads 0. |
| Auth.FindByEmail | backend/src/controllers/authController.js:71 | The lookup by email finds a row exactly when the email is taken. It returns the first such row. |
| Auth.Login | backend/src/controllers/authController.js:71-75 | Login succeeds exactly when the email's first row matches the password, and then yields that row's id. An unknown email and a wrong password both give `InvalidCredentials`. |
| Auth.UpdateProfile | backend/src/controllers/authController.js:91-99 | Both handle columns are set to the normalised inputs, with no at-least-one check. The reply holds the new handles, or is `None` when no row has the id. |
| Auth.ProfileChangesOnlyHandles | backend/src/controllers/authController.js:95-98 | A profile update changes only the two handle columns of the user's row. An omitted handle becomes NULL. Other rows are untouched. |
| Auth.UpdateGoal | backend/src/controllers/authController.js:110 | `daily_goal` is set as given, NULL when omitted, on exactly the user's row. |
| Auth.GoalReadBack | backend/src/controllers/statsController.js:97 | After a goal update the stats reply shows the stored goal, except that NULL and 0 read as 3. |

## Left out

- **HTTP, JSON and route dispatch.** The request layer, status codes and the 500 `Server Error` replies are not modelled. The model keeps only the outcomes that carry meaning: `NotFound`, `MissingHandle`, `UserExists` and `InvalidCredentials`.
- **Network calls.** The Codeforces client and the LeetCode HTTP POST are oracles, and only the LeetCode reply's normalisation is modelled. An oracle answers the same for the same handle within one operation.
- **`Math.round` of the LeetCode rating.** The rating is a float in the source. The model receives it already rounded to a natural number.
- **Foreign cryptography.** bcrypt hashing and comparison and JWT signing are not modelled. The hash is an input and the comparison a predicate argument.
- **Scheduling and time.** `node-cron` scheduling and the real `sleep` are not modelled. The sync returns the total time it would sleep instead.
- **Concurrency.** `Promise.allSettled` in `getStats` becomes two independent oracle results. The fire-and-forget signup updates are run to completion, in order, after the insert. Races between requests and the sync job are not modelled.
- **Store failures.** The only store failure modelled is the failure of the sync's initial SELECT. A failed UPDATE inside the sync's inner `try` behaves like a call that returned nothing, so it is not modelled separately. Other store failures end in the 500 reply.
- **node-cache internals.** Cloning, eviction and `checkperiod` are not modelled. A slot is live while `now <= expiresAt`.
- **Non-string request values.** `trim` on a non-string value, and a `daily_goal` that is not an integer, are not modelled.
- **The schema.** The schema is not part of this model. The columns a signup INSERT leaves out are taken as 0 for counters and baselines and 3 for the goal.
- **Row order of the SELECTs.** SQL leaves row order unspecified for SELECTs without `ORDER BY`, and for tied rows under `ORDER BY`. The model uses table order throughout: for ties on the leaderboard, for the first row found by id or by email, and for the order in which the sync visits users.
- **The daily reset and `server.js`.** The "midnight script" that resets baselines, mentioned at backend/src/controllers/statsController.js:66, is not among the modelled files and is not part of this model. Nor is the server bootstrap.
