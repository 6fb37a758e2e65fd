# Last Man Standing — a Dafny model of the game engine

The Koishi plugin `koishi-plugin-last-man-standing` runs a Russian-roulette
style chat game. Each guild has at most one `lms_games` row, the session.
It is either a lobby that players join and leave, or a running game in which
the turn-holder shoots. Every user has one `lms_rank` row on a leaderboard
shared by all guilds. A shot either misses, and the turn moves to the next
player, or hits, and the shooter leaves the roster. When one player is left,
that player is credited the pot (the number of players at the start), and
the session goes back to the lobby.

Each command handler reads the two tables, checks, and writes. The model
treats each handler as one atomic, pure transition on a `World`: a map
from guild id to `Session`, plus the leaderboard as a map from user id to
`RankEntry`. A handler returns the next world and a tagged `Outcome` that
stands for the reply. Randomness is supplied by the caller:

- the swap indices the shuffle draws;
- whether a shot hits (`Math.random() < hitRate`);
- the unclamped `p + e` value that `getHitRate` computes before clamping.

The modules follow the program's structure:

- `Roster`: the array operations the handlers use, with JavaScript
  semantics. `indexOf` gives -1 when the id is absent. `splice(i, 1)`
  counts a negative `i` from the end. `getNextPlayerId` moves
  `(indexOf + 1) % length`, so an id not on the roster gives the first
  member and an empty roster gives `undefined`.
- `Shuffle`: the in-place Fisher–Yates `shuffleArray`, as a loop and as a
  recursive definition, proved to be a permutation.
- `Leaderboard`: the name sync done at the top of `lms.join`, and the
  winner's credit from `updateScoreForWinner`.
- `RankView`: the `lms.rank` view, a stable sort by descending score cut to
  the first ten rows.
- `GameState`: sessions, worlds and outcomes; `createGame`, `restartGame`
  and the clamp; and the well-formedness invariant.
- `Commands`: `lms.join`, `lms.quit`, `lms.start`, `lms.restart` and
  `lms.shoot` (with `handleResult`), and sequences of commands.
- `Invariants`: every command keeps the world well-formed, and no command
  lowers a score.
- `Scenarios`: properties spanning several commands, and a concrete
  three-player game.

The model follows the code in these places, even where the behaviour looks
unintended:

- Restart, and the reset after a win, write the roster `[""]`, not an empty
  list. The empty id then counts toward the two-player minimum and can be
  dealt a turn.
- After a death the next shooter is whoever now stands at the dead shooter's
  index, with no wrap-around. When the last player on the roster dies and
  at least two remain, the turn-holder is `undefined`. The game then stalls:
  every shot is refused until someone restarts.
- `updateScoreForWinner` reads the winner's leaderboard entry without
  checking that it exists. For a winner without one (the `""` placeholder),
  it throws. `lms.shoot` catches and logs the error. The roster change was
  never written, so the stored state stays as it was; the model replies
  `Crashed` and leaves the world unchanged.
- `lms.join` creates or renames the leaderboard entry before it looks at the
  session, so a refused join still updates the leaderboard.
- `lms.quit` and `lms.start` answer a guild without a session with the same
  "game already started" reply they give for a running game.
- No command takes a per-guild lock. Two commands on the same guild may
  interleave their reads and writes.

## Model

| member | source | states |
|---|---|---|
| `Commands.Join` | src/index.ts:138-176 | The leaderboard gains the user or renames them, keeping the score. Without a session, a lobby holding only the user is created, and the reply counts 1. A running game, or a lobby the user is already in, keeps every session. Otherwise the user is appended to the end of the roster, and the count replied is the new roster length. Other guilds are untouched. |
| `Commands.Quit` | src/index.ts:183-204 | No session, or a running game, gives the "already started" reply with nothing changed. A non-member gives "not joined" with nothing changed. Otherwise exactly one entry (the user's first occurrence) is cut out, everything else stays in order, and the reply counts the remaining players. |
| `Commands.Start` | src/index.ts:206-231 | Succeeds exactly when a lobby with at least two members exists. On success the roster is a permutation of the lobby's, the first member of the new roster holds the turn and is named in the reply, the pot equals the player count, and the hit rate is clamped into [0, 1]. Otherwise nothing changes. |
| `Commands.Restart` | src/index.ts:233-242 | Without a session nothing changes. Otherwise the session is back in the lobby with the placeholder roster `[""]`, its other fields are kept, and the leaderboard is untouched. |
| `Commands.Shoot` | src/index.ts:244-266 | With no session, or in a lobby, the shot is refused and nothing changes. If the user does not hold the turn, it is refused and nothing changes. Otherwise the shot is resolved by `handleResult`. |
| `Commands.SurvivalOutcome` | src/index.ts:424-429 | A miss changes only the turn-holder field of the shooter's session, and leaves the leaderboard untouched. The reply names the new turn-holder, who is on the roster whenever the roster is not empty. |
| `Commands.DeathOutcome` | src/index.ts:408-423 | A hit with three or more players makes the roster one shorter. The old roster is the new one with the shooter put back at their old index. The turn passes to whoever now stands at that index, or to no one if the index is past the end. The hit rate is re-drawn and clamped, and the leaderboard is untouched. |
| `Commands.WinOutcome` | src/index.ts:408-418 | A hit with two players makes the other player the winner. The winner's leaderboard entry is credited the pot, through exactly one credit. The session resets to the placeholder lobby, and the reply names the winner and the pot. |
| `Commands.WinWithoutEntryCrashes` | src/index.ts:432-435 | When the would-be winner has no leaderboard entry, the credit throws, and the whole shot leaves the world unchanged. |
| `Leaderboard.SyncName` | src/index.ts:143-153 | A new user gets an entry with score 0. A known user keeps their score and gets the new display name. No other entry changes, and no entry disappears. |
| `Leaderboard.Credit` | src/index.ts:432-435 | There is a new board exactly when the winner has an entry. Then the winner's score grows by the pot, the name is kept, and every other entry is unchanged. |
| `Leaderboard.CreditAdditive` | src/index.ts:432-435 | Crediting `a` and then `b` gives the same board as one credit of `a + b`. |
| `Roster.IndexOf` | src/index.ts:344-346 | The result is -1 exactly when the id is absent. Otherwise it is the position of the id's first occurrence. |
| `Roster.SpliceOne` | src/index.ts:196 | `splice(start, 1)` keeps every other element and their order. A start in range, counting a negative one from the end, removes exactly one element. A start past the end removes nothing. |
| `Roster.RemoveMember` | src/index.ts:410-411 | On a duplicate-free roster, removing a member's first occurrence leaves a duplicate-free roster without that member, holding every other member. |
| `Roster.NextPlayer` | src/index.ts:367-370 | There is a next player exactly when the roster is not empty, and it is then on the roster. An id not on the roster gives the first member. |
| `Roster.NextPlayerIsModular` | src/index.ts:369 | The next player is the member at `(indexOf(current) + 1) % length`. |
| `Roster.NextPlayerFollows` | src/index.ts:368-369 | On a duplicate-free roster, the next player's position is the successor of the current one, wrapping from the last position back to the first. |
| `Roster.NextPlayerDiffers` | src/index.ts:367-370 | With two or more players on a duplicate-free roster, the next player is someone other than the current one. |
| `Shuffle.Pick` | src/index.ts:356 | A drawn swap partner never lies above the current position. |
| `Shuffle.ShuffleArray` | src/index.ts:352-361 | The loop that runs from the last position down to 1 computes exactly the recursive Fisher–Yates definition. |
| `Shuffle.ShufflePermutes` | src/index.ts:354-359 | The shuffle keeps the length and the multiset of ids, and keeps a duplicate-free roster duplicate-free. |
| `Shuffle.IdentityDrawsKeepOrder` | src/index.ts:352-361 | Draws that choose `j = i` at every step leave the roster in its original order. |
| `GameState.Clamp` | src/index.ts:383 | The hit rate always lies in [0, 1]. Values inside the interval pass unchanged, and values outside are cut to the nearer bound. |
| `RankView.Rows` | src/index.ts:281 | Reading the leaderboard in the store's listing order gives one row per listed key, in that order. Each row carries exactly that key's display name and score. |
| `RankView.SortDescSorts` | src/index.ts:283 | The sort returns a permutation of the rows in non-increasing score order. It is stable: for every score, the rows with that score come out in the order they went in. |
| `RankView.SortDescStable` | src/index.ts:283 | For any one score, the rows with that score keep their store order through the sort, as the stable `Array.prototype.sort` keeps them. |
| `RankView.Top` | src/index.ts:285 | The view shows `min(10, n)` rows. |
| `RankView.TopIsRanking` | src/index.ts:281-286 | The rows shown and the rows left out are together a permutation of the rows read. The rows shown are in non-increasing score order. No row left out scores above a row shown. Among rows that tie on a score, the ones shown are the earliest in store order. |
| `RankView.TopReadsBoard` | src/index.ts:281-285 | Every row the view shows is an entry of the leaderboard, with that entry's name and score. |
| `RankView.ListingSize` | src/index.ts:281 | A listing that names each key once names exactly as many distinct keys as it has entries. |
| `RankView.TopCoversBoard` | src/index.ts:281-285 | When the store lists every leaderboard key exactly once, as fetching the whole table does, the rows read are the whole board: one row per entry and every user among them. The view then shows `min(10, n)` rows of an `n`-entry board. |
| `Invariants.JoinKeepsInv` | src/index.ts:155-175 | A join keeps the roster duplicate-free, and keeps every real member on the leaderboard. |
| `Invariants.QuitKeepsInv` | src/index.ts:194-198 | A quit keeps every session well-formed. |
| `Invariants.StartKeepsInv` | src/index.ts:215-225 | A start keeps every session well-formed, and its turn-holder is on the roster. |
| `Invariants.RestartKeepsInv` | src/index.ts:320-322 | A restart keeps every session well-formed. |
| `Invariants.ShootKeepsInv` | src/index.ts:407-430 | Every shot, whether a miss, a death or a win, keeps every session well-formed. |
| `Invariants.ReachableIsWellFormed` | src/index.ts:138-266 | Every world reached from the empty store, by any sequence of commands, has duplicate-free rosters, a hit rate in [0, 1], and a leaderboard entry for every real member. In it, a running game has at least two players, a pot at least the roster size, and a turn-holder (if any) on the roster. |
| `Invariants.RunKeepsScores` | src/index.ts:147-151 | Along any sequence of commands, no leaderboard entry disappears and no score goes down. |
| `Scenarios.JoinThenQuit` | src/index.ts:171-196 | In a lobby, joining and then quitting restores every session, and the quit reply counts the original roster. |
| `Scenarios.DistinctJoinsFormRoster` | src/index.ts:155-174 | Distinct users joining a guild without a session form a lobby whose roster is exactly those users, in join order. |
| `Scenarios.SurvivalPassesTurn` | src/index.ts:424-428 | After a miss the roster is unchanged. The turn moves to the cyclic successor in roster order, and to someone other than the shooter once two or more play. |
| `Scenarios.SurvivalNextIsModular` | src/index.ts:426 | After a miss the turn-holder is `members[(indexOf(shooter) + 1) % length]`. |
| `Scenarios.DeathRemovesShooter` | src/index.ts:408-411 | A hit with three or more players removes exactly the shooter: one fewer member, and every other member kept. |
| `Scenarios.FrontShooterDies` | src/index.ts:410-423 | When the first player on the roster is hit, the others move up one place and the new first player shoots next. |
| `Scenarios.LastShooterDeathStalls` | src/index.ts:420-423 | When the last player on a roster of three or more is hit, the game keeps running with at least two players and no turn-holder. |
| `Scenarios.StalledGameRefusesShots` | src/index.ts:253-256 | A running game without a turn-holder refuses every shot and stays as it is. |
| `Scenarios.PlaceholderCountsAsPlayer` | src/index.ts:320-322 | After a restart, a single real player joining gets the count 2 and can start a game, in which `""` is a player. |
| `Scenarios.PlaceholderWinnerCrashes` | src/index.ts:413-415 | In a two-player game against the placeholder, hitting the real player makes `""` the winner. The credit then fails and the world stays unchanged. |
| `Scenarios.MissIsShoot` | src/index.ts:424-428 | A missed shot by the turn-holder is exactly one step of turn rotation. |
| `Scenarios.AdvanceIsModular` | src/index.ts:369 | Moving `k` single places on is adding `k` modulo the roster size. |
| `Scenarios.MissesOnlyPassTurn` | src/index.ts:424-428 | After `k` misses in a row, the turn has moved `k` places on in roster order. Every other field of every session, and the leaderboard, stay as they were. |
| `Scenarios.RoundOfMissesReturns` | src/index.ts:367-370 | One miss per player brings the world back to exactly where the round began. |
| `Scenarios.ThreeJoins` | src/index.ts:138-176 | From the empty store, "a", "b" and "c" joining get the counts 1, 2 and 3. They form one lobby in join order, each with a leaderboard entry at score 0. |
| `Scenarios.StartThree` | src/index.ts:206-231 | With order-keeping draws, that lobby starts with "a" to shoot and a pot of three. |
| `Scenarios.FirstShooterDies` | src/index.ts:407-423 | "a" is hit. The roster becomes `["b", "c"]`, "b" shoots next, and the pot stays three. |
| `Scenarios.SecondShooterSurvives` | src/index.ts:424-428 | "b" misses and the turn passes to "c". |
| `Scenarios.LastDeathCrownsWinner` | src/index.ts:413-418 | "c" is hit. "b" wins the pot and the session returns to the placeholder lobby. |

## Left out

- Koishi plumbing is not modelled: `apply`, `ctx.guild()`, command registration and the `lms` help command (src/index.ts:66-73, 133-136). The guild and user ids are parameters.
- Table provisioning in `extendAllTables` (src/index.ts:76-104) is not modelled. The two tables are in-memory maps keyed by guild id and by user id. The auto-increment `id` columns, the never-read `isHitRateAuto` column and `guildId` as a field (it is the map key) are dropped.
- `getHitRate` and `randomNormal` (src/index.ts:372-392) are floating-point logarithm, square root and cosine plus noise. Only their final clamp is modelled. The caller passes the unclamped value as a `real`.
- `Math.random` (src/index.ts:356, 396) is replaced by parameters: the swap indices, and a boolean for whether a shot hits. A swap index above the current position cannot come from `Math.random`; the model reads it as a swap that moves nothing.
- Messages are not modelled: `sendQueued`, `h.at` mentions and the narration strings. Each reply is an `Outcome` tag with the numbers or ids it carries.
- `generateRankTable` (src/index.ts:437-446) is string padding and is not modelled. The order in which the store lists its rows is a parameter of `RankView.Rows`; that the listing holds every key once is the precondition of `RankView.TopCoversBoard`.
- The handlers are async and some writes are not awaited (src/index.ts:147, 151, 157, 225, 240, 422, 427), with no locking per guild. Interleavings are not modelled: each command is one atomic transition.
- `lms.points` (src/index.ts:268-276) only reads one score and is not part of the modelled core.
- `Commands.HandleResult` has no contract of its own. Its three outcomes are stated by `Commands.SurvivalOutcome`, `Commands.DeathOutcome`, `Commands.WinOutcome` and `Commands.WinWithoutEntryCrashes`.
