/**
 * The persisted state of the game: one `lms_games` row per guild (a
 * `Session`) and the `lms_rank` leaderboard, plus the tagged outcome each
 * command replies with.
 */
module GameState {
  import opened Wrappers
  import opened Roster
  import opened Leaderboard

  type GuildId = string

  /**
   * One `lms_games` row. `memberId` is the turn-holder (None when the row
   * has never had one, or when the source stored `undefined`); `score` is
   * the pot the winner receives; `hitRate` is the current chance that a
   * shot is fatal.
   */
  datatype Session = Session(
    started: bool,
    members: seq<UserId>,
    memberId: Option<UserId>,
    hitRate: real,
    score: nat)

  /** Every guild's session and the shared leaderboard. */
  datatype World = World(games: map<GuildId, Session>, ranks: Board)

  /** What each command replies; the narration strings are left out. */
  datatype Outcome =
    | Joined(count: nat)            // JOIN_SUCCESS with the new player count
    | AlreadyJoined                 // JOIN_FAIL
    | GameStarted                   // GAME_STARTED: join/quit/start refused
    | Left(count: nat)              // QUIT_SUCCESS with the new player count
    | NotJoined                     // QUIT_FAIL
    | Began(first: UserId)          // START_SUCCESS, naming the first shooter
    | TooFewPlayers                 // START_FAIL
    | Restarted                     // RESTART_SUCCESS
    | NothingToRestart              // RESTART_FAIL
    | GameNotStarted                // GAME_NOT_STARTED
    | NotYourTurn                   // SHOOT_FAIL
    | Survived(next: Option<UserId>)
    | Died(next: Option<UserId>)
    | Won(winner: UserId, pot: nat)
    | Crashed                       // exception caught and logged by `lms.shoot`

  datatype Reply = Reply(world: World, out: Outcome)

  /** The roster `restartGame` writes: one empty id, not an empty list. */
  const Placeholder: seq<UserId> := [""]

  /** The hit rate `createGame` writes. */
  const InitialHitRate: real := 0.5

  /** The last step of `getHitRate`: `Math.max(0, Math.min(1, p + e))`. */
  function Clamp(x: real): (r: real)
    ensures 0.0 <= r <= 1.0
    ensures 0.0 <= x <= 1.0 ==> r == x
    ensures x < 0.0 ==> r == 0.0
    ensures 1.0 < x ==> r == 1.0
  {
    if x < 0.0 then 0.0 else if x > 1.0 then 1.0 else x
  }

  /** `createGame`: a lobby holding only the first joiner. */
  function NewLobby(user: UserId): Session {
    Session(false, [user], None, InitialHitRate, 0)
  }

  /** `restartGame`: back to the lobby with the placeholder roster; other fields stay. */
  function Reset(s: Session): Session {
    s.(started := false, members := Placeholder)
  }

  /**
   * What every reachable session satisfies: no duplicate members; a hit
   * rate in [0, 1]; every real member has a leaderboard entry; and a running
   * game has at least two members, a pot no smaller than the roster, and a
   * turn-holder (when there is one) who is on the roster.
   */
  predicate SessionOk(s: Session, b: Board) {
    && NoDup(s.members)
    && 0.0 <= s.hitRate <= 1.0
    && (forall m :: m in s.members && m != "" ==> m in b)
    && (s.started ==> 2 <= |s.members| <= s.score)
    && (s.started && s.memberId.Some? ==> s.memberId.value in s.members)
  }

  predicate Inv(w: World) {
    forall g :: g in w.games ==> SessionOk(w.games[g], w.ranks)
  }

  /** `user` may shoot in guild `g`: the game runs and it is their turn. */
  predicate HoldsTurn(w: World, g: GuildId, user: UserId) {
    g in w.games && w.games[g].started && w.games[g].memberId == Some(user)
  }

  /** A session stays well-formed when the leaderboard only gains entries. */
  lemma SessionOkGrows(s: Session, b1: Board, b2: Board)
    requires SessionOk(s, b1) && b1.Keys <= b2.Keys
    ensures SessionOk(s, b2)
  {
  }

  /** Replacing one guild's session by a well-formed one keeps the whole world well-formed. */
  lemma InvUpdate(w: World, g: GuildId, s: Session, b: Board)
    requires Inv(w) && w.ranks.Keys <= b.Keys && SessionOk(s, b)
    ensures Inv(World(w.games[g := s], b))
  {
    forall h | h in w.games && h != g
      ensures SessionOk(w.games[h], b)
    {
      SessionOkGrows(w.games[h], w.ranks, b);
    }
  }
}
