/**
 * The roster of a session: the ordered list of user ids in turn order,
 * and the JavaScript array operations the command handlers apply to it
 * (`indexOf`, `splice(i, 1)` and the modular successor of `getNextPlayerId`).
 */
module Roster {
  import opened Wrappers

  /** A user id as delivered by the chat platform. */
  type UserId = string

  /** No user id occurs twice. */
  predicate NoDup(s: seq<UserId>) {
    forall i, j :: 0 <= i < j < |s| ==> s[i] != s[j]
  }

  /** `s.indexOf(x)`: the first position that holds `x`, or -1 when there is none. */
  function IndexOf(s: seq<UserId>, x: UserId): (r: int)
    ensures -1 <= r < |s|
    ensures r == -1 <==> x !in s
    ensures 0 <= r ==> s[r] == x && forall k :: 0 <= k < r ==> s[k] != x
  {
    if |s| == 0 then -1
    else if s[0] == x then 0
    else
      var k := IndexOf(s[1..], x);
      if k == -1 then -1 else k + 1
  }

  /** In a roster without duplicates every position is the index of its own element. */
  lemma IndexOfNoDup(s: seq<UserId>, i: int)
    requires NoDup(s) && 0 <= i < |s|
    ensures IndexOf(s, s[i]) == i
  {
  }

  /**
   * `s.splice(start, 1)`: removes the element at `start`. A negative `start`
   * counts back from the end (and is clamped at 0); a `start` at or past the
   * end removes nothing.
   */
  function SpliceOne(s: seq<UserId>, start: int): (r: seq<UserId>)
    ensures multiset(r) <= multiset(s)
    ensures -|s| <= start < |s| ==> |r| == |s| - 1
    ensures 0 <= start < |s| ==> s == r[..start] + [s[start]] + r[start..]
    ensures -|s| <= start < 0 ==> s == r[..|s| + start] + [s[|s| + start]] + r[|s| + start..]
    ensures start < -|s| && |s| > 0 ==> r == s[1..]
    ensures |s| <= start ==> r == s
  {
    var k := if start >= 0 then start else if |s| + start >= 0 then |s| + start else 0;
    if k < |s| then
      var r := s[..k] + s[k + 1..];
      assert r[..k] == s[..k] && r[k..] == s[k + 1..];
      assert s == s[..k] + [s[k]] + s[k + 1..];
      r
    else s
  }

  /** Splicing one of two entries out leaves the other. */
  lemma SpliceOfPair(s: seq<UserId>, i: int)
    requires |s| == 2 && 0 <= i < 2
    ensures SpliceOne(s, i) == [s[1 - i]]
  {
    assert s == [s[0], s[1]];
  }

  /** `push` of a new id keeps the roster duplicate-free. */
  lemma AppendNoDup(s: seq<UserId>, x: UserId)
    requires NoDup(s) && x !in s
    ensures NoDup(s + [x])
  {
    var r := s + [x];
    forall a, b | 0 <= a < b < |r|
      ensures r[a] != r[b]
    {
      if b == |s| {
        assert r[a] == s[a];
      }
    }
  }

  /** Removing position `i` from a duplicate-free roster leaves it duplicate-free. */
  lemma RemoveAtNoDup(s: seq<UserId>, i: nat)
    requires NoDup(s) && i < |s|
    ensures NoDup(s[..i] + s[i + 1..])
  {
    var r := s[..i] + s[i + 1..];
    forall a, b | 0 <= a < b < |r|
      ensures r[a] != r[b]
    {
      var a' := if a < i then a else a + 1;
      var b' := if b < i then b else b + 1;
      assert r[a] == s[a'] && r[b] == s[b'];
    }
  }

  /** Removing position `i` keeps exactly the elements other than `s[i]`, when `s[i]` occurs once. */
  lemma RemoveAtMembers(s: seq<UserId>, i: nat)
    requires NoDup(s) && i < |s|
    ensures forall y :: y in s[..i] + s[i + 1..] <==> y in s && y != s[i]
  {
    var r := s[..i] + s[i + 1..];
    forall y | y in s && y != s[i]
      ensures y in r
    {
      var k :| 0 <= k < |s| && s[k] == y;
      if k < i { assert r[k] == y; } else { assert r[k - 1] == y; }
    }
  }

  /**
   * Splicing a member of a duplicate-free roster out at its `indexOf`
   * position removes exactly that member: one fewer entry, the member gone,
   * everyone else still present and still without duplicates.
   */
  lemma RemoveMember(s: seq<UserId>, x: UserId)
    requires NoDup(s) && x in s
    ensures var r := SpliceOne(s, IndexOf(s, x));
      && |r| == |s| - 1
      && NoDup(r)
      && x !in r
      && (forall y :: y in r <==> y in s && y != x)
  {
    var i := IndexOf(s, x);
    assert SpliceOne(s, i) == s[..i] + s[i + 1..];
    RemoveAtNoDup(s, i);
    RemoveAtMembers(s, i);
  }

  /**
   * `getNextPlayerId`: the member after `current` in roster order, wrapping
   * from the last position to the first. A `current` not on the roster has
   * index -1, so the first member is returned; an empty roster has no member
   * to return (the source's `undefined`).
   */
  function NextPlayer(s: seq<UserId>, current: UserId): (r: Option<UserId>)
    ensures r.Some? <==> |s| > 0
    ensures r.Some? ==> r.value in s
    ensures current !in s && |s| > 0 ==> r == Some(s[0])
  {
    if |s| == 0 then None else Some(s[Successor(IndexOf(s, current), |s|)])
  }

  /** The successor step is the source's `(idx + 1) % members.length`. */
  lemma NextPlayerIsModular(s: seq<UserId>, current: UserId)
    requires |s| > 0
    ensures NextPlayer(s, current) == Some(s[(IndexOf(s, current) + 1) % |s|])
  {
    SuccessorIsMod(IndexOf(s, current), |s|);
  }

  /**
   * On a duplicate-free roster the next player sits exactly one position
   * after the current one, cyclically.
   */
  lemma NextPlayerFollows(s: seq<UserId>, current: UserId)
    requires NoDup(s) && current in s
    ensures NextPlayer(s, current).Some?
    ensures IndexOf(s, NextPlayer(s, current).value) == Successor(IndexOf(s, current), |s|)
  {
    IndexOfNoDup(s, Successor(IndexOf(s, current), |s|));
  }

  /** With two or more members on a duplicate-free roster, the turn really passes to someone else. */
  lemma NextPlayerDiffers(s: seq<UserId>, current: UserId)
    requires NoDup(s) && current in s && |s| >= 2
    ensures NextPlayer(s, current) != Some(current)
  {
    var c := IndexOf(s, current);
    var k := Successor(c, |s|);
    assert s[k] != s[c];
  }

  /** The successor of position `c` modulo `n`, as `getNextPlayerId` computes it. */
  function Successor(c: int, n: int): (k: int)
    requires -1 <= c < n && 0 < n
    ensures 0 <= k < n
    ensures n >= 2 && 0 <= c ==> k != c
  {
    if c + 1 < n then c + 1 else 0
  }

  /** `Successor` agrees with the source's `(c + 1) % n`. */
  lemma SuccessorIsMod(c: int, n: int)
    requires -1 <= c < n && 0 < n
    ensures Successor(c, n) == (c + 1) % n
  {
    if c + 1 < n {
      ModUnique(c + 1, n, 0, c + 1);
    } else {
      ModUnique(c + 1, n, 1, 0);
    }
  }

  /** A positive multiple of `n` is at least `n`. */
  lemma MulAtLeast(d: int, n: int)
    requires d >= 1 && n > 0
    ensures d * n >= n
  {
  }

  /** Division with remainder is unique: the remainder of `q * n + r` is `r`. */
  lemma ModUnique(a: int, n: int, q: int, r: int)
    requires n > 0 && 0 <= r < n && a == q * n + r
    ensures a % n == r
  {
    var q', r' := a / n, a % n;
    assert a == q' * n + r';
    assert (q - q') * n == r' - r;
    if q > q' {
      MulAtLeast(q - q', n);
    } else if q < q' {
      MulAtLeast(q' - q, n);
    }
  }

  /** Taking a position modulo `n` before moving `b` places on lands in the same place. */
  lemma ModShift(a: nat, b: nat, n: nat)
    requires n > 0
    ensures (a % n + b) % n == (a + b) % n
  {
    var q := a / n;
    var c := (a % n + b) % n;
    var p := (a % n + b) / n;
    assert a % n + b == p * n + c;
    assert a + b == (q + p) * n + c;
    ModUnique(a + b, n, q + p, c);
  }
}
