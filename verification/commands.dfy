/**
 * The command handlers `lms.join`, `lms.quit`, `lms.start`,
 * `lms.restart` and `lms.shoot`, each one atomic transition from the
 * current world to the next world plus the outcome it replies with.
 * Random draws are parameters: the shuffle indices of `lms.start`, whether
 * a shot hits, and the unclamped `p + e` value `getHitRate` would produce.
 */
module Commands {
  import opened Wrappers
  import opened Roster
  import opened Shuffle
  import opened Leaderboard
  import opened GameState

  /**
   * `lms.join`. The leaderboard entry is created or renamed first, whatever
   * happens next. Without a session the guild gets a new lobby holding the
   * user; a running game refuses; a lobby appends the user unless already
   * on the roster.
   */
  function Join(w: World, g: GuildId, user: UserId, name: string): (r: Reply)
    ensures r.world.ranks == SyncName(w.ranks, user, name)
    ensures r.world.games.Keys == w.games.Keys + {g}
    ensures forall h :: h in w.games && h != g ==> r.world.games[h] == w.games[h]
    ensures g !in w.games ==> r.world.games[g] == NewLobby(user) && r.out == Joined(1)
    ensures g in w.games && w.games[g].started ==> r.world.games == w.games && r.out == GameStarted
    ensures g in w.games && !w.games[g].started && user in w.games[g].members ==>
      r.world.games == w.games && r.out == AlreadyJoined
    ensures g in w.games && !w.games[g].started && user !in w.games[g].members ==>
      && r.world.games[g] == w.games[g].(members := w.games[g].members + [user])
      && r.out == Joined(|w.games[g].members| + 1)
    ensures r.out.Joined? ==> !r.world.games[g].started && r.out.count == |r.world.games[g].members|
  {
    var ranks := SyncName(w.ranks, user, name);
    if g !in w.games then
      Reply(World(w.games[g := NewLobby(user)], ranks), Joined(1))
    else
      var s := w.games[g];
      if s.started then Reply(World(w.games, ranks), GameStarted)
      else if user in s.members then Reply(World(w.games, ranks), AlreadyJoined)
      else
        var s' := s.(members := s.members + [user]);
        Reply(World(w.games[g := s'], ranks), Joined(|s'.members|))
  }

  /**
   * `lms.quit`. Refused with the "already started" reply both when there is
   * no session and when the game runs; refused for a user not on the
   * roster; otherwise the user's first occurrence is spliced out.
   */
  function Quit(w: World, g: GuildId, user: UserId): (r: Reply)
    ensures r.world.ranks == w.ranks
    ensures g !in w.games || w.games[g].started ==> r == Reply(w, GameStarted)
    ensures g in w.games && !w.games[g].started && user !in w.games[g].members ==> r == Reply(w, NotJoined)
    ensures g in w.games && !w.games[g].started && user in w.games[g].members ==>
      var m := w.games[g].members;
      var i := IndexOf(m, user);
      && g in r.world.games
      && r.world.games == w.games[g := w.games[g].(members := r.world.games[g].members)]
      && |r.world.games[g].members| == |m| - 1
      && m == r.world.games[g].members[..i] + [user] + r.world.games[g].members[i..]
      && r.out == Left(|m| - 1)
  {
    if g !in w.games || w.games[g].started then Reply(w, GameStarted)
    else
      var s := w.games[g];
      if user !in s.members then Reply(w, NotJoined)
      else
        var m := SpliceOne(s.members, IndexOf(s.members, user));
        Reply(World(w.games[g := s.(members := m)], w.ranks), Left(|m|))
  }

  /**
   * `lms.start`. Refused with the "already started" reply when there is no
   * session or the game runs, and with "too few players" below two members.
   * Otherwise the roster is shuffled, the first member of the shuffled
   * roster holds the turn, and the pot is the number of players.
   */
  function Start(w: World, g: GuildId, draws: seq<nat>, rawRate: real): (r: Reply)
    ensures r.world.ranks == w.ranks
    ensures r.out.Began? <==> g in w.games && !w.games[g].started && |w.games[g].members| >= 2
    ensures (g !in w.games || w.games[g].started) ==> r == Reply(w, GameStarted)
    ensures g in w.games && !w.games[g].started && |w.games[g].members| < 2 ==> r == Reply(w, TooFewPlayers)
    ensures r.out.Began? ==>
      var m := w.games[g].members;
      && g in r.world.games
      && var s := r.world.games[g];
      && r.world.games == w.games[g := s]
      && s.started
      && |s.members| == |m| && multiset(s.members) == multiset(m)
      && s.memberId == Some(s.members[0]) && r.out.first == s.members[0]
      && s.score == |m|
      && s.hitRate == Clamp(rawRate)
  {
    if g !in w.games || w.games[g].started then Reply(w, GameStarted)
    else
      var s := w.games[g];
      if |s.members| < 2 then Reply(w, TooFewPlayers)
      else
        ShufflePermutes(s.members, draws);
        var m := FisherYates(s.members, draws);
        var s' := Session(true, m, Some(m[0]), Clamp(rawRate), |m|);
        Reply(World(w.games[g := s'], w.ranks), Began(m[0]))
  }

  /**
   * `lms.restart`. Refused without a session; otherwise the session returns
   * to the lobby with the placeholder roster, whatever its state, and no one
   * is credited.
   */
  function Restart(w: World, g: GuildId): (r: Reply)
    ensures r.world.ranks == w.ranks
    ensures g !in w.games ==> r == Reply(w, NothingToRestart)
    ensures g in w.games ==>
      && r.out == Restarted
      && r.world.games == w.games[g := w.games[g].(started := false, members := Placeholder)]
  {
    if g !in w.games then Reply(w, NothingToRestart)
    else Reply(World(w.games[g := Reset(w.games[g])], w.ranks), Restarted)
  }

  /**
   * `handleResult`, reached once `user` holds the turn of a running game.
   * On survival the turn moves to the next member cyclically. On a hit the
   * shooter is spliced out; with one member left that member is credited
   * the pot and the session resets (a missing leaderboard entry makes the
   * credit throw, which `lms.shoot` catches, and nothing is written);
   * otherwise the turn goes to whoever now stands at the dead shooter's
   * index, which does not exist when the shooter was last.
   */
  function HandleResult(w: World, g: GuildId, user: UserId, hit: bool, rawRate: real): (r: Reply)
    requires HoldsTurn(w, g, user)
  {
    var s := w.games[g];
    if !hit then
      var next := NextPlayer(s.members, user);
      Reply(World(w.games[g := s.(memberId := next)], w.ranks), Survived(next))
    else
      var i := IndexOf(s.members, user);
      var m := SpliceOne(s.members, i);
      if |m| == 1 then
        match Credit(w.ranks, m[0], s.score)
        case None => Reply(w, Crashed)
        case Some(b) => Reply(World(w.games[g := Reset(s)], b), Won(m[0], s.score))
      else
        var next := if 0 <= i < |m| then Some(m[i]) else None;
        var s' := s.(members := m, memberId := next, hitRate := Clamp(rawRate));
        Reply(World(w.games[g := s'], w.ranks), Died(next))
  }

  /**
   * A miss changes only the turn-holder, who is on the roster whenever the
   * roster is not empty; the leaderboard is untouched.
   */
  lemma SurvivalOutcome(w: World, g: GuildId, user: UserId, rawRate: real)
    requires HoldsTurn(w, g, user)
    ensures var s := w.games[g];
      var r := HandleResult(w, g, user, false, rawRate);
      && r.world.ranks == w.ranks
      && r.world.games == w.games[g := s.(memberId := r.world.games[g].memberId)]
      && r.out == Survived(r.world.games[g].memberId)
      && (|s.members| > 0 ==> r.world.games[g].memberId.Some? && r.world.games[g].memberId.value in s.members)
  {
  }

  /**
   * A hit with three or more players cuts the shooter out at their index:
   * putting them back at that index restores the roster. The turn goes to
   * whoever now stands at that index, with no wrap-around, and the hit rate
   * is redrawn.
   */
  lemma DeathOutcome(w: World, g: GuildId, user: UserId, rawRate: real)
    requires HoldsTurn(w, g, user) && user in w.games[g].members && |w.games[g].members| >= 3
    ensures var s := w.games[g];
      var r := HandleResult(w, g, user, true, rawRate);
      var s' := r.world.games[g];
      var i := IndexOf(s.members, user);
      && r.world.ranks == w.ranks
      && |s'.members| == |s.members| - 1
      && s.members == s'.members[..i] + [user] + s'.members[i..]
      && s'.memberId == (if i < |s'.members| then Some(s'.members[i]) else None)
      && r.world.games == w.games[g := s.(members := s'.members, memberId := s'.memberId, hitRate := Clamp(rawRate))]
      && r.out == Died(s'.memberId)
  {
  }

  /**
   * A hit with two players leaves the other one as winner. With a
   * leaderboard entry the winner is credited the pot exactly once and the
   * session resets to the placeholder lobby.
   */
  lemma WinOutcome(w: World, g: GuildId, user: UserId, rawRate: real)
    requires HoldsTurn(w, g, user) && user in w.games[g].members && |w.games[g].members| == 2
    requires w.games[g].members[1 - IndexOf(w.games[g].members, user)] in w.ranks
    ensures var s := w.games[g];
      var r := HandleResult(w, g, user, true, rawRate);
      var winner := s.members[1 - IndexOf(s.members, user)];
      && r.out == Won(winner, s.score)
      && r.world.games == w.games[g := s.(started := false, members := Placeholder)]
      && Credit(w.ranks, winner, s.score) == Some(r.world.ranks)
  {
    var s := w.games[g];
    var i := IndexOf(s.members, user);
    SpliceOfPair(s.members, i);
    var winner := s.members[1 - i];
    var m := SpliceOne(s.members, i);
    assert m == [winner];
    var c := Credit(w.ranks, winner, s.score);
    assert c.Some?;
    var r := HandleResult(w, g, user, true, rawRate);
    assert r == Reply(World(w.games[g := Reset(s)], c.value), Won(winner, s.score));
  }

  /**
   * A two-player win whose winner has no leaderboard entry: crediting
   * throws, `lms.shoot` swallows the error, and nothing is written.
   */
  lemma WinWithoutEntryCrashes(w: World, g: GuildId, user: UserId, rawRate: real)
    requires HoldsTurn(w, g, user) && user in w.games[g].members && |w.games[g].members| == 2
    requires w.games[g].members[1 - IndexOf(w.games[g].members, user)] !in w.ranks
    ensures HandleResult(w, g, user, true, rawRate) == Reply(w, Crashed)
  {
    var s := w.games[g];
    SpliceOfPair(s.members, IndexOf(s.members, user));
  }

  /**
   * `lms.shoot`. Refused when no game runs in the guild or it is not the
   * user's turn; otherwise the shot is resolved by `HandleResult`.
   */
  function Shoot(w: World, g: GuildId, user: UserId, hit: bool, rawRate: real): (r: Reply)
    ensures (g !in w.games || !w.games[g].started) ==> r == Reply(w, GameNotStarted)
    ensures g in w.games && w.games[g].started && w.games[g].memberId != Some(user) ==> r == Reply(w, NotYourTurn)
    ensures HoldsTurn(w, g, user) ==> r == HandleResult(w, g, user, hit, rawRate)
  {
    if g !in w.games || !w.games[g].started then Reply(w, GameNotStarted)
    else if w.games[g].memberId != Some(user) then Reply(w, NotYourTurn)
    else HandleResult(w, g, user, hit, rawRate)
  }

  /** One inbound command with the random draws it consumes. */
  datatype Command =
    | JoinCmd(g: GuildId, user: UserId, name: string)
    | QuitCmd(g: GuildId, user: UserId)
    | StartCmd(g: GuildId, draws: seq<nat>, rawRate: real)
    | RestartCmd(g: GuildId)
    | ShootCmd(g: GuildId, user: UserId, hit: bool, rawRate: real)

  function Apply(w: World, c: Command): Reply {
    match c
    case JoinCmd(g, user, name) => Join(w, g, user, name)
    case QuitCmd(g, user) => Quit(w, g, user)
    case StartCmd(g, draws, rawRate) => Start(w, g, draws, rawRate)
    case RestartCmd(g) => Restart(w, g)
    case ShootCmd(g, user, hit, rawRate) => Shoot(w, g, user, hit, rawRate)
  }

  /** The world after a sequence of commands, applied one at a time. */
  function Run(w: World, cs: seq<Command>): World
    decreases |cs|
  {
    if |cs| == 0 then w else Run(Apply(w, cs[0]).world, cs[1..])
  }
}
