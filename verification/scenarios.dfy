/**
 * Properties that relate several commands: join and quit undo each other,
 * distinct joins build the roster in order, survivals rotate the turn
 * cyclically, a hit with three or more players removes exactly the
 * shooter, and the consequences of the placeholder roster (it counts as a
 * player and crashes the credit when it wins) and of the unwrapped turn
 * after a death.
 */
module Scenarios {
  import opened Wrappers
  import opened Roster
  import opened Shuffle
  import opened Leaderboard
  import opened GameState
  import opened Commands
  import opened Invariants

  /** Two session maps that differ at most at `g` agree once `g` is put back. */
  lemma PutBack(a: map<GuildId, Session>, b: map<GuildId, Session>, g: GuildId)
    requires g in b && a.Keys == b.Keys
    requires forall h :: h in b && h != g ==> a[h] == b[h]
    ensures a[g := b[g]] == b
  {
  }

  /** In a lobby, quitting right after joining restores every session. */
  lemma JoinThenQuit(w: World, g: GuildId, user: UserId, name: string)
    requires g in w.games && !w.games[g].started && user !in w.games[g].members
    ensures var w1 := Join(w, g, user, name).world;
      && Quit(w1, g, user).out == Left(|w.games[g].members|)
      && Quit(w1, g, user).world.games == w.games
  {
    var m := w.games[g].members;
    var w1 := Join(w, g, user, name).world;
    assert w1.games[g] == w.games[g].(members := m + [user]);
    assert IndexOf(m + [user], user) == |m|;
    var m' := Quit(w1, g, user).world.games[g].members;
    assert m' == m by {
      assert m + [user] == m'[..|m|] + [user] + m'[|m|..];
      assert m'[..|m|] == m' && m'[|m|..] == [];
      assert (m' + [user])[..|m|] == m';
    }
    PutBack(w1.games, w.games, g);
  }

  /** Joining `users` one after another, each under their own id as display name. */
  function JoinAll(w: World, g: GuildId, users: seq<UserId>): World
    decreases |users|
  {
    if |users| == 0 then w
    else
      var last := users[|users| - 1];
      Join(JoinAll(w, g, users[..|users| - 1]), g, last, last).world
  }

  /**
   * Distinct users joining a guild without a session form a lobby whose
   * roster is exactly the users in join order.
   */
  lemma {:induction false} DistinctJoinsFormRoster(w: World, g: GuildId, users: seq<UserId>)
    requires g !in w.games && NoDup(users) && |users| >= 1
    ensures g in JoinAll(w, g, users).games
    ensures JoinAll(w, g, users).games[g].members == users
    ensures !JoinAll(w, g, users).games[g].started
    decreases |users|
  {
    var init := users[..|users| - 1];
    var last := users[|users| - 1];
    if |users| == 1 {
      assert users == [last];
    } else {
      assert NoDup(init);
      DistinctJoinsFormRoster(w, g, init);
      assert last !in init;
      assert init + [last] == users;
    }
  }

  /**
   * After a miss the turn passes to the next member in roster order,
   * cyclically, and to someone other than the shooter once two or more play.
   */
  lemma SurvivalPassesTurn(w: World, g: GuildId, user: UserId, rawRate: real)
    requires HoldsTurn(w, g, user) && NoDup(w.games[g].members) && user in w.games[g].members
    ensures var s := w.games[g];
      var s' := Shoot(w, g, user, false, rawRate).world.games[g];
      && s'.members == s.members
      && s'.started
      && s'.memberId.Some?
      && s'.memberId == NextPlayer(s.members, user)
      && IndexOf(s.members, s'.memberId.value) == Successor(IndexOf(s.members, user), |s.members|)
      && (|s.members| >= 2 ==> s'.memberId != Some(user))
  {
    var s := w.games[g];
    NextPlayerFollows(s.members, user);
    if |s.members| >= 2 {
      NextPlayerDiffers(s.members, user);
    }
  }

  /** The survivor's successor is the source's `members[(indexOf(memberId) + 1) % members.length]`. */
  lemma SurvivalNextIsModular(w: World, g: GuildId, user: UserId, rawRate: real)
    requires HoldsTurn(w, g, user) && |w.games[g].members| > 0
    ensures var m := w.games[g].members;
      Shoot(w, g, user, false, rawRate).world.games[g].memberId == Some(m[(IndexOf(m, user) + 1) % |m|])
  {
    NextPlayerIsModular(w.games[g].members, user);
  }

  /**
   * A fatal shot with three or more players removes exactly the shooter:
   * one fewer member, the shooter gone, everyone else kept.
   */
  lemma DeathRemovesShooter(w: World, g: GuildId, user: UserId, rawRate: real)
    requires Inv(w) && HoldsTurn(w, g, user) && |w.games[g].members| >= 3
    ensures var s := w.games[g];
      var s' := Shoot(w, g, user, true, rawRate).world.games[g];
      && s'.started
      && |s'.members| == |s.members| - 1
      && user !in s'.members
      && (forall u :: u in s'.members <==> u in s.members && u != user)
  {
    RemoveMember(w.games[g].members, user);
  }

  /**
   * When the shooter who dies stood last on a roster of three or more, no
   * one stands at their index afterwards: the game keeps running with no
   * turn-holder.
   */
  lemma LastShooterDeathStalls(w: World, g: GuildId, user: UserId, rawRate: real)
    requires Inv(w) && HoldsTurn(w, g, user)
    requires |w.games[g].members| >= 3 && w.games[g].members[|w.games[g].members| - 1] == user
    ensures var s' := Shoot(w, g, user, true, rawRate).world.games[g];
      s'.started && s'.memberId == None && |s'.members| >= 2
  {
    IndexOfNoDup(w.games[g].members, |w.games[g].members| - 1);
  }

  /**
   * When the first player on the roster is hit, everyone moves up one place
   * and the new first player shoots next.
   */
  lemma FrontShooterDies(w: World, g: GuildId, user: UserId, rawRate: real)
    requires HoldsTurn(w, g, user)
    requires |w.games[g].members| >= 3 && w.games[g].members[0] == user
    ensures var s := w.games[g];
      var m := s.members;
      Shoot(w, g, user, true, rawRate)
        == Reply(World(w.games[g := s.(members := m[1..], memberId := Some(m[1]), hitRate := Clamp(rawRate))], w.ranks),
                 Died(Some(m[1])))
  {
    var m := w.games[g].members;
    assert IndexOf(m, user) == 0;
    assert SpliceOne(m, 0) == m[1..];
  }

  /** A running game without a turn-holder refuses every shot and stays as it is. */
  lemma StalledGameRefusesShots(w: World, g: GuildId, user: UserId, hit: bool, rawRate: real)
    requires g in w.games && w.games[g].started && w.games[g].memberId == None
    ensures Shoot(w, g, user, hit, rawRate) == Reply(w, NotYourTurn)
  {
  }

  /**
   * After a restart the placeholder id `""` stays on the roster, so one
   * real player joining is enough for a game to start, and `""` is then
   * one of the players.
   */
  lemma PlaceholderCountsAsPlayer(w: World, g: GuildId, user: UserId, name: string, draws: seq<nat>, rawRate: real)
    requires g in w.games && user != ""
    ensures var w1 := Restart(w, g).world;
      var j := Join(w1, g, user, name);
      var st := Start(j.world, g, draws, rawRate);
      && j.out == Joined(2)
      && j.world.games[g].members == ["", user]
      && st.out.Began?
      && "" in st.world.games[g].members
  {
    var w1 := Restart(w, g).world;
    var j := Join(w1, g, user, name);
    assert Placeholder + [user] == ["", user];
    var st := Start(j.world, g, draws, rawRate);
    var m := st.world.games[g].members;
    assert "" in multiset(j.world.games[g].members);
    assert "" in multiset(m);
  }

  /**
   * A two-player game between a real player and the placeholder: when the
   * real player is hit, the placeholder wins, has no leaderboard entry, and
   * the credit fails; nothing is written, so the same turn-holder stands.
   */
  lemma PlaceholderWinnerCrashes(w: World, g: GuildId, user: UserId, rawRate: real)
    requires HoldsTurn(w, g, user) && user != "" && "" !in w.ranks
    requires w.games[g].members == [user, ""] || w.games[g].members == ["", user]
    ensures Shoot(w, g, user, true, rawRate) == Reply(w, Crashed)
  {
    var m := w.games[g].members;
    if m == [user, ""] {
      assert IndexOf(m, user) == 0;
    } else {
      assert IndexOf(m, user) == 1;
    }
  }

  /** A running game whose turn-holder is on a duplicate-free roster. */
  predicate Rotating(w: World, g: GuildId) {
    && g in w.games
    && w.games[g].started
    && w.games[g].memberId.Some?
    && w.games[g].memberId.value in w.games[g].members
    && NoDup(w.games[g].members)
  }

  /** Position `i` moved `k` places on around a roster of `n`, one place at a time. */
  function Advance(i: int, k: nat, n: nat): (r: int)
    requires 0 <= i < n
    ensures 0 <= r < n
    decreases k
  {
    if k == 0 then i else Advance(Successor(i, n), k - 1, n)
  }

  /** Moving `k` single places on is adding `k` modulo the roster size. */
  lemma {:induction false} AdvanceIsModular(i: int, k: nat, n: nat)
    requires 0 <= i < n
    ensures Advance(i, k, n) == (i + k) % n
    decreases k
  {
    if k == 0 {
      ModUnique(i, n, 0, i);
    } else {
      SuccessorIsMod(i, n);
      AdvanceIsModular(Successor(i, n), k - 1, n);
      ModShift(i + 1, k - 1, n);
    }
  }

  /** The world once the turn-holder has shot and missed: the turn moves one place on. */
  function Miss(w: World, g: GuildId): World
    requires Rotating(w, g)
  {
    var s := w.games[g];
    var j := Successor(IndexOf(s.members, s.memberId.value), |s.members|);
    World(w.games[g := s.(memberId := Some(s.members[j]))], w.ranks)
  }

  /** `Miss` is what `lms.shoot` does when the turn-holder is not hit. */
  lemma MissIsShoot(w: World, g: GuildId, rawRate: real)
    requires Rotating(w, g)
    ensures var r := Shoot(w, g, w.games[g].memberId.value, false, rawRate);
      r.world == Miss(w, g) && r.out == Survived(Miss(w, g).games[g].memberId)
  {
  }

  /** The world after `k` shots in a row, each by the current turn-holder and none a hit. */
  function Misses(w: World, g: GuildId, k: nat): World
    requires Rotating(w, g)
    decreases k
  {
    if k == 0 then w else Misses(Miss(w, g), g, k - 1)
  }

  /**
   * A run of misses changes nothing but the turn: the turn-holder moves `k`
   * places on in roster order, and every other field of every session, and
   * the leaderboard, stay as they were.
   */
  lemma {:induction false} MissesOnlyPassTurn(w: World, g: GuildId, k: nat)
    requires Rotating(w, g)
    ensures var s := w.games[g];
      var i := Advance(IndexOf(s.members, s.memberId.value), k, |s.members|);
      Misses(w, g, k) == World(w.games[g := s.(memberId := Some(s.members[i]))], w.ranks)
    decreases k
  {
    var s := w.games[g];
    var m := s.members;
    var i := IndexOf(m, s.memberId.value);
    if k == 0 {
      assert s.(memberId := Some(m[i])) == s;
      assert w.games[g := s] == w.games;
    } else {
      var j := Successor(i, |m|);
      IndexOfNoDup(m, j);
      MissesOnlyPassTurn(Miss(w, g), g, k - 1);
      assert Miss(w, g).games[g := s.(memberId := Some(m[Advance(j, k - 1, |m|)]))]
          == w.games[g := s.(memberId := Some(m[Advance(i, k, |m|)]))];
    }
  }

  /** A full round of `n` single steps around a roster of `n` comes back to the start. */
  lemma AdvanceFullRound(i: int, n: nat)
    requires 0 <= i < n
    ensures Advance(i, n, n) == i
  {
    AdvanceIsModular(i, n, n);
    ModUnique(i + n, n, 1, i);
  }

  /** A full round of misses, one per player, hands the turn back to the player who began it. */
  lemma RoundOfMissesReturns(w: World, g: GuildId)
    requires Rotating(w, g)
    ensures Misses(w, g, |w.games[g].members|) == w
  {
    var s := w.games[g];
    var m := s.members;
    var i := IndexOf(m, s.memberId.value);
    MissesOnlyPassTurn(w, g, |m|);
    AdvanceFullRound(i, |m|);
    assert s.(memberId := Some(m[i])) == s;
    assert w.games[g := s] == w.games;
  }

  /** The leaderboard once "a", "b" and "c" have joined under the names "A", "B" and "C". */
  function Joined3Ranks(): Board {
    map["a" := RankEntry("A", 0), "b" := RankEntry("B", 0), "c" := RankEntry("C", 0)]
  }

  /** Three distinct joins from the empty store give one lobby with the roster in join order. */
  lemma ThreeJoins()
    ensures var w1 := Join(Empty, "g", "a", "A");
      var w2 := Join(w1.world, "g", "b", "B");
      var w3 := Join(w2.world, "g", "c", "C");
      && w1.out == Joined(1) && w2.out == Joined(2) && w3.out == Joined(3)
      && w3.world == World(map["g" := Session(false, ["a", "b", "c"], None, InitialHitRate, 0)], Joined3Ranks())
  {
    var w1 := Join(Empty, "g", "a", "A").world;
    assert w1 == World(map["g" := Session(false, ["a"], None, InitialHitRate, 0)], map["a" := RankEntry("A", 0)]);
    var w2 := Join(w1, "g", "b", "B").world;
    assert ["a"] + ["b"] == ["a", "b"];
    assert w2 == World(map["g" := Session(false, ["a", "b"], None, InitialHitRate, 0)],
                       map["a" := RankEntry("A", 0), "b" := RankEntry("B", 0)]);
    assert ["a", "b"] + ["c"] == ["a", "b", "c"];
  }

  /** The one guild's session, over the three-player leaderboard. */
  function InGuild(s: Session): World {
    World(map["g" := s], Joined3Ranks())
  }

  /** Replacing the one guild's session leaves a world with only the new session. */
  lemma ReplaceInGuild(s: Session, s': Session)
    ensures InGuild(s).games["g" := s'] == InGuild(s').games
  {
  }

  /** Draws that keep the order start the game with "a" to shoot and a pot of three. */
  lemma StartThree()
    ensures Start(InGuild(Session(false, ["a", "b", "c"], None, InitialHitRate, 0)), "g", [0, 1, 2], 0.4)
      == Reply(InGuild(Session(true, ["a", "b", "c"], Some("a"), 0.4, 3)), Began("a"))
  {
    var w := InGuild(Session(false, ["a", "b", "c"], None, InitialHitRate, 0));
    assert w.games["g"].members == ["a", "b", "c"];
    IdentityDrawsKeepOrder(["a", "b", "c"], [0, 1, 2]);
    assert Clamp(0.4) == 0.4;
    ReplaceInGuild(w.games["g"], Session(true, ["a", "b", "c"], Some("a"), 0.4, 3));
  }

  /** "a" is hit first: "b", now at index 0, shoots next at the freshly drawn hit rate. */
  lemma FirstShooterDies(rawRate: real)
    requires 0.0 <= rawRate <= 1.0
    ensures Shoot(InGuild(Session(true, ["a", "b", "c"], Some("a"), 0.4, 3)), "g", "a", true, rawRate)
      == Reply(InGuild(Session(true, ["b", "c"], Some("b"), rawRate, 3)), Died(Some("b")))
  {
    var m: seq<UserId> := ["a", "b", "c"];
    var s := Session(true, m, Some("a"), 0.4, 3);
    var s' := Session(true, ["b", "c"], Some("b"), rawRate, 3);
    FrontShooterDies(InGuild(s), "g", "a", rawRate);
    assert m[1..] == ["b", "c"];
    assert s.(members := m[1..], memberId := Some(m[1]), hitRate := Clamp(rawRate)) == s';
    ReplaceInGuild(s, s');
  }

  /** "b" survives: the turn passes to "c". */
  lemma SecondShooterSurvives()
    ensures Shoot(InGuild(Session(true, ["b", "c"], Some("b"), 0.6, 3)), "g", "b", false, 0.6)
      == Reply(InGuild(Session(true, ["b", "c"], Some("c"), 0.6, 3)), Survived(Some("c")))
  {
    assert IndexOf(["b", "c"], "b") == 0;
  }

  /** "c" is hit: "b" is the last one standing and is credited the whole pot. */
  lemma LastDeathCrownsWinner(pot: nat)
    ensures Shoot(InGuild(Session(true, ["b", "c"], Some("c"), 0.6, pot)), "g", "c", true, 0.6)
      == Reply(World(map["g" := Session(false, Placeholder, Some("c"), 0.6, pot)], Joined3Ranks()["b" := RankEntry("B", pot)]),
               Won("b", pot))
  {
    var s := Session(true, ["b", "c"], Some("c"), 0.6, pot);
    assert IndexOf(["b", "c"], "c") == 1;
    assert SpliceOne(["b", "c"], 1) == ["b"];
    assert Credit(Joined3Ranks(), "b", pot) == Some(Joined3Ranks()["b" := RankEntry("B", pot)]);
    ReplaceInGuild(s, Reset(s));
  }
}
