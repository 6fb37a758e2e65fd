/**
 * The `lms_rank` table: one entry per user, holding the last display name
 * seen and the accumulated score. Keyed by user id.
 */
module Leaderboard {
  import opened Wrappers
  import opened Roster

  datatype RankEntry = RankEntry(userName: string, score: nat)

  type Board = map<UserId, RankEntry>

  /**
   * The leaderboard side effect at the top of `lms.join`: a user seen for the
   * first time gets an entry with score 0; a known user whose display name
   * changed has the name replaced; the score is never touched.
   */
  function SyncName(b: Board, user: UserId, name: string): (r: Board)
    ensures r.Keys == b.Keys + {user}
    ensures user !in b ==> r[user] == RankEntry(name, 0)
    ensures user in b ==> r[user] == RankEntry(name, b[user].score)
    ensures forall u :: u in b && u != user ==> r[u] == b[u]
  {
    if user !in b then b[user := RankEntry(name, 0)]
    else if b[user].userName != name then b[user := b[user].(userName := name)]
    else b
  }

  /**
   * `updateScoreForWinner`: reads the winner's entry and writes back its
   * score plus the pot. With no entry the read `rankInfo[0].score` throws, so
   * there is no new board (None).
   */
  function Credit(b: Board, winner: UserId, pot: nat): (r: Option<Board>)
    ensures r.Some? <==> winner in b
    ensures r.Some? ==> r.value.Keys == b.Keys
    ensures r.Some? ==> r.value[winner] == RankEntry(b[winner].userName, b[winner].score + pot)
    ensures r.Some? ==> forall u :: u in b && u != winner ==> r.value[u] == b[u]
  {
    if winner !in b then None
    else Some(b[winner := b[winner].(score := b[winner].score + pot)])
  }

  /** `b2` keeps every entry of `b1` with at least the same score. */
  predicate NoLoss(b1: Board, b2: Board) {
    forall u :: u in b1 ==> u in b2 && b1[u].score <= b2[u].score
  }

  /** Crediting `a` and then `b` is one credit of `a + b`: credits are additive. */
  lemma CreditAdditive(board: Board, winner: UserId, a: nat, b: nat)
    requires winner in board
    ensures Credit(board, winner, a).Some?
    ensures Credit(Credit(board, winner, a).value, winner, b) == Credit(board, winner, a + b)
  {
    var e := board[winner];
    var once := board[winner := e.(score := e.score + a)];
    assert Credit(board, winner, a) == Some(once);
    assert once[winner := once[winner].(score := once[winner].score + b)]
      == board[winner := e.(score := e.score + (a + b))];
  }

  /** Neither side effect on the leaderboard loses an entry or lowers a score. */
  lemma UpdatesKeepScores(b: Board, user: UserId, name: string, winner: UserId, pot: nat)
    ensures NoLoss(b, SyncName(b, user, name))
    ensures Credit(b, winner, pot).Some? ==> NoLoss(b, Credit(b, winner, pot).value)
  {
  }

  /** NoLoss composes along a sequence of updates. */
  lemma NoLossTrans(b1: Board, b2: Board, b3: Board)
    requires NoLoss(b1, b2) && NoLoss(b2, b3)
    ensures NoLoss(b1, b3)
  {
  }
}
