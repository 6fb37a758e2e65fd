/**
 * Every command keeps the world well-formed (`Inv`), so every world reached
 * from the empty store by any sequence of commands is well-formed; and no
 * command lowers a leaderboard score or loses an entry.
 */
module Invariants {
  import opened Roster
  import opened Shuffle
  import opened Leaderboard
  import opened GameState
  import opened Commands

  /** The store before any command: no sessions, no leaderboard entries. */
  const Empty: World := World(map[], map[])

  lemma JoinKeepsInv(w: World, g: GuildId, user: UserId, name: string)
    requires Inv(w)
    ensures Inv(Join(w, g, user, name).world)
  {
    var r := Join(w, g, user, name);
    var b := r.world.ranks;
    if g !in w.games {
      InvUpdate(w, g, NewLobby(user), b);
    } else if w.games[g].started || user in w.games[g].members {
      InvUpdate(w, g, w.games[g], b) by {
        SessionOkGrows(w.games[g], w.ranks, b);
      }
      assert w.games[g := w.games[g]] == w.games;
    } else {
      var s := w.games[g];
      AppendNoDup(s.members, user);
      SessionOkGrows(s, w.ranks, b);
      InvUpdate(w, g, r.world.games[g], b);
    }
  }

  lemma QuitKeepsInv(w: World, g: GuildId, user: UserId)
    requires Inv(w)
    ensures Inv(Quit(w, g, user).world)
  {
    if g in w.games && !w.games[g].started && user in w.games[g].members {
      var s := w.games[g];
      RemoveMember(s.members, user);
      InvUpdate(w, g, Quit(w, g, user).world.games[g], w.ranks);
    }
  }

  lemma StartKeepsInv(w: World, g: GuildId, draws: seq<nat>, rawRate: real)
    requires Inv(w)
    ensures Inv(Start(w, g, draws, rawRate).world)
  {
    var r := Start(w, g, draws, rawRate);
    if r.out.Began? {
      var m := w.games[g].members;
      var s := r.world.games[g];
      ShufflePermutes(m, draws);
      forall x | x in s.members
        ensures x in m
      {
        assert x in multiset(s.members);
      }
      InvUpdate(w, g, s, w.ranks);
    }
  }

  lemma RestartKeepsInv(w: World, g: GuildId)
    requires Inv(w)
    ensures Inv(Restart(w, g).world)
  {
    if g in w.games {
      InvUpdate(w, g, Reset(w.games[g]), w.ranks);
    }
  }

  /** A miss only moves the turn, to someone on the roster. */
  lemma MissKeepsInv(w: World, g: GuildId, user: UserId, rawRate: real)
    requires Inv(w) && HoldsTurn(w, g, user)
    ensures Inv(HandleResult(w, g, user, false, rawRate).world)
  {
    InvUpdate(w, g, HandleResult(w, g, user, false, rawRate).world.games[g], w.ranks);
  }

  /** A hit with three or more players removes the shooter and leaves a well-formed session. */
  lemma DeathKeepsInv(w: World, g: GuildId, user: UserId, rawRate: real)
    requires Inv(w) && HoldsTurn(w, g, user) && |w.games[g].members| != 2
    ensures Inv(HandleResult(w, g, user, true, rawRate).world)
  {
    var s := w.games[g];
    var s' := HandleResult(w, g, user, true, rawRate).world.games[g];
    RemoveMember(s.members, user);
    assert SessionOk(s', w.ranks);
    InvUpdate(w, g, s', w.ranks);
  }

  /** The winning shot resets the session to the placeholder lobby and only raises scores. */
  lemma WinKeepsInv(w: World, g: GuildId, user: UserId, rawRate: real)
    requires Inv(w) && HoldsTurn(w, g, user) && |w.games[g].members| == 2
    ensures Inv(HandleResult(w, g, user, true, rawRate).world)
  {
    var s := w.games[g];
    var r := HandleResult(w, g, user, true, rawRate);
    if r.out.Won? {
      assert SessionOk(Reset(s), r.world.ranks);
      InvUpdate(w, g, Reset(s), r.world.ranks);
    }
  }

  lemma ShootKeepsInv(w: World, g: GuildId, user: UserId, hit: bool, rawRate: real)
    requires Inv(w)
    ensures Inv(Shoot(w, g, user, hit, rawRate).world)
  {
    if HoldsTurn(w, g, user) {
      if !hit {
        MissKeepsInv(w, g, user, rawRate);
      } else if |w.games[g].members| == 2 {
        WinKeepsInv(w, g, user, rawRate);
      } else {
        DeathKeepsInv(w, g, user, rawRate);
      }
    }
  }

  lemma ApplyKeepsInv(w: World, c: Command)
    requires Inv(w)
    ensures Inv(Apply(w, c).world)
  {
    match c
    case JoinCmd(g, user, name) => JoinKeepsInv(w, g, user, name);
    case QuitCmd(g, user) => QuitKeepsInv(w, g, user);
    case StartCmd(g, draws, rawRate) => StartKeepsInv(w, g, draws, rawRate);
    case RestartCmd(g) => RestartKeepsInv(w, g);
    case ShootCmd(g, user, hit, rawRate) => ShootKeepsInv(w, g, user, hit, rawRate);
  }

  /** Any sequence of commands keeps the world well-formed. */
  lemma {:induction false} RunKeepsInv(w: World, cs: seq<Command>)
    requires Inv(w)
    ensures Inv(Run(w, cs))
    decreases |cs|
  {
    if |cs| > 0 {
      ApplyKeepsInv(w, cs[0]);
      RunKeepsInv(Apply(w, cs[0]).world, cs[1..]);
    }
  }

  /**
   * Every world reachable from the empty store has no duplicate members,
   * a turn-holder on the roster, and a leaderboard entry for every member.
   */
  lemma ReachableIsWellFormed(cs: seq<Command>)
    ensures Inv(Run(Empty, cs))
  {
    RunKeepsInv(Empty, cs);
  }

  /** A single command never lowers a score nor drops an entry. */
  lemma ApplyKeepsScores(w: World, c: Command)
    ensures NoLoss(w.ranks, Apply(w, c).world.ranks)
  {
    match c
    case JoinCmd(g, user, name) =>
      UpdatesKeepScores(w.ranks, user, name, user, 0);
    case ShootCmd(g, user, hit, rawRate) =>
      if HoldsTurn(w, g, user) && hit {
        var s := w.games[g];
        var m := SpliceOne(s.members, IndexOf(s.members, user));
        if |m| == 1 {
          UpdatesKeepScores(w.ranks, user, "", m[0], s.score);
        }
      }
    case _ =>
  }

  /** Leaderboard scores are monotone along any run: credits only ever add. */
  lemma {:induction false} RunKeepsScores(w: World, cs: seq<Command>)
    ensures NoLoss(w.ranks, Run(w, cs).ranks)
    decreases |cs|
  {
    if |cs| > 0 {
      var w1 := Apply(w, cs[0]).world;
      ApplyKeepsScores(w, cs[0]);
      RunKeepsScores(w1, cs[1..]);
      NoLossTrans(w.ranks, w1.ranks, Run(w1, cs[1..]).ranks);
    }
  }
}
