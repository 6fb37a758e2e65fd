/**
 * The `lms.rank` view: all leaderboard rows, sorted by descending score
 * with the stable `Array.prototype.sort`, cut to the first ten.
 */
module RankView {
  import opened Roster
  import opened Leaderboard

  /** A leaderboard row as the store returns it: the key with its entry's fields. */
  datatype Row = Row(userId: UserId, userName: string, score: nat)

  /** `r` is the store's row for an entry of `b`. */
  predicate FromBoard(r: Row, b: Board) {
    r.userId in b && b[r.userId] == RankEntry(r.userName, r.score)
  }

  /**
   * `ctx.model.get(RANK_ID, {})`: the board's entries as rows, in the order
   * `order` the store happens to list its keys.
   */
  function Rows(b: Board, order: seq<UserId>): (r: seq<Row>)
    requires forall u :: u in order ==> u in b
    ensures |r| == |order|
    ensures forall i :: 0 <= i < |r| ==> r[i].userId == order[i] && FromBoard(r[i], b)
  {
    if |order| == 0 then []
    else [Row(order[0], b[order[0]].userName, b[order[0]].score)] + Rows(b, order[1..])
  }

  /** The rows of `s` scoring exactly `k`, in their order in `s`. */
  function WithScore(s: seq<Row>, k: nat): seq<Row> {
    if |s| == 0 then []
    else (if s[0].score == k then [s[0]] else []) + WithScore(s[1..], k)
  }

  /** Picking the rows of one score distributes over concatenation. */
  lemma {:induction false} WithScoreConcat(a: seq<Row>, b: seq<Row>, k: nat)
    ensures WithScore(a + b, k) == WithScore(a, k) + WithScore(b, k)
  {
    if |a| > 0 {
      WithScoreConcat(a[1..], b, k);
      assert (a + b)[1..] == a[1..] + b;
    } else {
      assert a + b == b;
    }
  }

  /** The number of rows the view shows. */
  const TopCount: nat := 10

  /** Non-increasing by score. */
  predicate SortedDesc(s: seq<Row>) {
    forall i, j :: 0 <= i < j < |s| ==> s[i].score >= s[j].score
  }

  /**
   * Inserts `e` in front of the first row whose score is not above its own,
   * so that `e` stays ahead of the rows it preceded that tie with it.
   */
  function Insert(e: Row, s: seq<Row>): (r: seq<Row>)
    ensures |r| == |s| + 1
  {
    if |s| == 0 || s[0].score <= e.score then [e] + s
    else [s[0]] + Insert(e, s[1..])
  }

  /** Every row of `s` scores at most `m`. */
  predicate AllAtMost(s: seq<Row>, m: nat) {
    forall i :: 0 <= i < |s| ==> s[i].score <= m
  }

  /** Insertion adds exactly `e` to the rows. */
  lemma {:induction false} InsertPermutes(e: Row, s: seq<Row>)
    ensures multiset(Insert(e, s)) == multiset(s) + multiset{e}
  {
    if |s| > 0 && s[0].score > e.score {
      InsertPermutes(e, s[1..]);
      assert s == [s[0]] + s[1..];
    }
  }

  /** Insertion keeps a common upper bound on the scores. */
  lemma {:induction false} InsertBound(e: Row, s: seq<Row>, m: nat)
    requires AllAtMost(s, m) && e.score <= m
    ensures AllAtMost(Insert(e, s), m)
  {
    if |s| > 0 && s[0].score > e.score {
      InsertBound(e, s[1..], m);
    }
  }

  /** Insertion keeps a non-increasing list non-increasing. */
  lemma {:induction false} InsertSorted(e: Row, s: seq<Row>)
    requires SortedDesc(s)
    ensures SortedDesc(Insert(e, s))
  {
    if |s| > 0 && s[0].score > e.score {
      var t := Insert(e, s[1..]);
      InsertSorted(e, s[1..]);
      InsertBound(e, s[1..], s[0].score);
      var r := [s[0]] + t;
      assert Insert(e, s) == r;
      forall i, j | 0 <= i < j < |r|
        ensures r[i].score >= r[j].score
      {
        if i > 0 {
          assert r[i] == t[i - 1];
        }
        assert r[j] == t[j - 1];
      }
    }
  }

  /**
   * Insertion passes `e` only over rows scoring strictly more, so among the
   * rows of any one score `e` keeps its place in front of `s`.
   */
  lemma {:induction false} InsertStable(e: Row, s: seq<Row>, k: nat)
    ensures WithScore(Insert(e, s), k) == WithScore([e] + s, k)
  {
    if |s| > 0 && s[0].score > e.score {
      var t := Insert(e, s[1..]);
      var hs := if s[0].score == k then [s[0]] else [];
      var he := if e.score == k then [e] else [];
      InsertStable(e, s[1..], k);
      assert WithScore(Insert(e, s), k) == hs + WithScore(t, k) by {
        assert Insert(e, s) == [s[0]] + t;
      }
      assert WithScore(t, k) == he + WithScore(s[1..], k) by {
        assert ([e] + s[1..])[1..] == s[1..];
      }
      assert WithScore([e] + s, k) == he + (hs + WithScore(s[1..], k)) by {
        assert ([e] + s)[1..] == s;
      }
      // `e` scores strictly less than `s[0]`, so at most one of them scores `k`
      assert hs + he == he + hs;
    }
  }

  /** The stable sort `rankInfo.sort((a, b) => b.score - a.score)`. */
  function SortDesc(s: seq<Row>): (r: seq<Row>)
    ensures |r| == |s|
  {
    if |s| == 0 then []
    else Insert(s[0], SortDesc(s[1..]))
  }

  /** Rows of equal score come out of the sort in the order they went in. */
  lemma {:induction false} SortDescStable(s: seq<Row>, k: nat)
    ensures WithScore(SortDesc(s), k) == WithScore(s, k)
  {
    if |s| > 0 {
      SortDescStable(s[1..], k);
      InsertStable(s[0], SortDesc(s[1..]), k);
      WithScoreConcat([s[0]], SortDesc(s[1..]), k);
      WithScoreConcat([s[0]], s[1..], k);
      assert s == [s[0]] + s[1..];
    }
  }

  /**
   * The sort yields a non-increasing permutation of its input, and it is
   * stable: rows of equal score keep their store order.
   */
  lemma {:induction false} SortDescSorts(s: seq<Row>)
    ensures multiset(SortDesc(s)) == multiset(s)
    ensures SortedDesc(SortDesc(s))
    ensures forall k :: WithScore(SortDesc(s), k) == WithScore(s, k)
  {
    if |s| > 0 {
      SortDescSorts(s[1..]);
      InsertPermutes(s[0], SortDesc(s[1..]));
      InsertSorted(s[0], SortDesc(s[1..]));
      assert s == [s[0]] + s[1..];
    }
    forall k {
      SortDescStable(s, k);
    }
  }

  /** How many rows the view shows out of `n`. */
  function Shown(n: nat): nat {
    if n < TopCount then n else TopCount
  }

  /** `rankInfo.slice(0, 10)` after the sort. */
  function Top(rows: seq<Row>): (r: seq<Row>)
    ensures |r| == Shown(|rows|)
  {
    SortDesc(rows)[..Shown(|rows|)]
  }

  /** The rows the view leaves out. */
  function Rest(rows: seq<Row>): (r: seq<Row>)
    ensures |r| == |rows| - Shown(|rows|)
  {
    SortDesc(rows)[Shown(|rows|)..]
  }

  /**
   * The view and the rows it leaves out split the board between them; the
   * view is in non-increasing score order, and no row left out scores
   * above a row shown. Among rows that tie on a score, the ones shown are
   * the earliest in store order.
   */
  lemma TopIsRanking(rows: seq<Row>)
    ensures multiset(rows) == multiset(Top(rows)) + multiset(Rest(rows))
    ensures SortedDesc(Top(rows))
    ensures forall i, j :: 0 <= i < |Top(rows)| && 0 <= j < |Rest(rows)| ==> Rest(rows)[j].score <= Top(rows)[i].score
    ensures forall k :: WithScore(Top(rows), k) <= WithScore(rows, k)
  {
    var s := SortDesc(rows);
    var n := Shown(|rows|);
    SortDescSorts(rows);
    assert s == Top(rows) + Rest(rows);
    forall i, j | 0 <= i < n && 0 <= j < |s| - n
      ensures Rest(rows)[j].score <= Top(rows)[i].score
    {
      assert Top(rows)[i] == s[i] && Rest(rows)[j] == s[n + j];
    }
    forall k
      ensures WithScore(Top(rows), k) <= WithScore(rows, k)
    {
      WithScoreConcat(Top(rows), Rest(rows), k);
    }
  }

  /** Every row the view shows is the store's row for an entry of the board. */
  lemma TopReadsBoard(b: Board, order: seq<UserId>)
    requires forall u :: u in order ==> u in b
    ensures forall i :: 0 <= i < |Top(Rows(b, order))| ==> FromBoard(Top(Rows(b, order))[i], b)
  {
    var rows := Rows(b, order);
    TopIsRanking(rows);
    forall i | 0 <= i < |Top(rows)|
      ensures FromBoard(Top(rows)[i], b)
    {
      assert Top(rows)[i] in multiset(rows);
    }
  }

  /** A duplicate-free listing names as many distinct keys as it has entries. */
  lemma {:induction false} ListingSize(order: seq<UserId>)
    requires NoDup(order)
    ensures |set u | u in order| == |order|
    decreases |order|
  {
    if |order| == 0 {
      assert (set u | u in order) == {};
    } else {
      var rest := order[1..];
      forall i, j | 0 <= i < j < |rest|
        ensures rest[i] != rest[j]
      {
        assert rest[i] == order[i + 1] && rest[j] == order[j + 1];
      }
      ListingSize(rest);
      forall j | 0 <= j < |rest|
        ensures rest[j] != order[0]
      {
        assert rest[j] == order[j + 1];
      }
      assert (set u | u in order) == {order[0]} + (set u | u in rest);
    }
  }

  /**
   * The store lists every key of the board exactly once, so the view ranks
   * the whole leaderboard: one row per entry, every user among the rows,
   * and `min(10, n)` rows shown for a board of `n` entries.
   */
  lemma TopCoversBoard(b: Board, order: seq<UserId>)
    requires NoDup(order) && forall u :: u in b <==> u in order
    ensures |Rows(b, order)| == |b|
    ensures |Top(Rows(b, order))| == Shown(|b|)
    ensures forall u :: u in b ==> exists i :: 0 <= i < |Rows(b, order)| && Rows(b, order)[i].userId == u
  {
    var rows := Rows(b, order);
    ListingSize(order);
    assert b.Keys == set u | u in order;
    forall u | u in b
      ensures exists i :: 0 <= i < |rows| && rows[i].userId == u
    {
      var i :| 0 <= i < |order| && order[i] == u;
      assert rows[i].userId == u;
    }
  }
}
