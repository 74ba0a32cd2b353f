/** Ordered selection from a table: the rows `SELECT ... ORDER BY ... LIMIT n` answers with. */
module Queries {

  /** `before(a, b)` says row `a` may be listed ahead of row `b`. */
  ghost predicate Ordering<K(!new)>(before: (K, K) -> bool) {
    && (forall a, b :: before(a, b) || before(b, a))
    && (forall a, b, c :: before(a, b) && before(b, c) ==> before(a, c))
  }

  ghost predicate First<K>(rows: set<K>, before: (K, K) -> bool, k: K) {
    k in rows && forall x :: x in rows ==> before(k, x)
  }

  lemma {:induction false} FirstExists<K(!new)>(rows: set<K>, before: (K, K) -> bool)
    requires rows != {} && Ordering(before)
    ensures exists k :: First(rows, before, k)
    decreases |rows|
  {
    var x :| x in rows;
    var rest := rows - {x};
    if rest == {} {
      assert rows == {x} && before(x, x);
      assert First(rows, before, x);
    } else {
      FirstExists(rest, before);
      var y :| First(rest, before, y);
      if before(y, x) {
        assert First(rows, before, y);
      } else {
        forall z | z in rows
          ensures before(x, z)
        {
          assert before(x, y) && (z == x || before(y, z));
        }
        assert First(rows, before, x);
      }
    }
  }

  /** The listed rows are the first ones, each once, as many as there are up to the limit. */
  ghost predicate Listed<K(!new)>(rows: set<K>, before: (K, K) -> bool, limit: nat, found: seq<K>) {
    && |found| == (if |rows| < limit then |rows| else limit)
    && (forall i, k :: 0 <= i < k < |found| ==> found[i] != found[k] && before(found[i], found[k]))
    && (forall i :: 0 <= i < |found| ==> found[i] in rows)
    && (forall i, x :: 0 <= i < |found| && x in rows && x !in found ==> before(found[i], x))
  }

  /** Without an effective limit, every row is listed. */
  lemma AllListed<K(!new)>(rows: set<K>, before: (K, K) -> bool, limit: nat, found: seq<K>)
    requires Listed(rows, before, limit, found) && limit >= |rows|
    ensures forall x :: x in found <==> x in rows
  {
    DistinctSize(found);
    SubsetOfSameSize((set x | x in found), rows);
  }

  lemma {:induction false} DistinctSize<K(!new)>(found: seq<K>)
    requires forall i, k :: 0 <= i < k < |found| ==> found[i] != found[k]
    ensures |set x | x in found| == |found|
  {
    if found != [] {
      var rest, last := found[..|found| - 1], found[|found| - 1];
      DistinctSize(rest);
      assert (set x | x in found) == (set x | x in rest) + {last};
      assert last !in rest;
    }
  }

  lemma SubsetOfSameSize<K(!new)>(a: set<K>, b: set<K>)
    requires a <= b && |a| == |b|
    ensures a == b
  {
    assert b == a + (b - a);
    assert |b - a| == 0;
  }

  ghost predicate Strict<K(!new)>(before: (K, K) -> bool) {
    forall a, b :: before(a, b) && before(b, a) ==> a == b
  }

  /** An order without ties leaves only one answer. */
  lemma ListedOnce<K(!new)>(rows: set<K>, before: (K, K) -> bool, limit: nat, a: seq<K>, b: seq<K>)
    requires Strict(before) && Listed(rows, before, limit, a) && Listed(rows, before, limit, b)
    ensures a == b
  {
    ListedPrefix(rows, before, limit, a, b, |a|);
    assert a == a[..|a|] && b == b[..|a|];
  }

  lemma {:induction false} ListedPrefix<K(!new)>(rows: set<K>, before: (K, K) -> bool, limit: nat, a: seq<K>,
                                                 b: seq<K>, n: nat)
    requires Strict(before) && Listed(rows, before, limit, a) && Listed(rows, before, limit, b) && n <= |a|
    ensures a[..n] == b[..n]
  {
    if n > 0 {
      ListedPrefix(rows, before, limit, a, b, n - 1);
      NextIsAhead(rows, before, limit, a, b, n - 1);
      NextIsAhead(rows, before, limit, b, a, n - 1);
    }
  }

  /** After equal beginnings, the next row of one answer is ahead of the next row of the other. */
  lemma NextIsAhead<K(!new)>(rows: set<K>, before: (K, K) -> bool, limit: nat, a: seq<K>, b: seq<K>, i: nat)
    requires Listed(rows, before, limit, a) && Listed(rows, before, limit, b) && i < |a| && a[..i] == b[..i]
    ensures a[i] == b[i] || before(a[i], b[i])
  {
    forall k | 0 <= k < i
      ensures a[k] != b[i]
    {
      assert a[k] == a[..i][k] == b[k];
    }
  }

  method Select<K(!new, ==)>(rows: set<K>, before: (K, K) -> bool, limit: nat) returns (found: seq<K>)
    requires Ordering(before)
    ensures Listed(rows, before, limit, found)
  {
    found := [];
    var rest := rows;
    while |found| < limit && rest != {}
      invariant |found| <= limit && |rest| + |found| == |rows|
      invariant forall x :: x in rows <==> x in rest || x in found
      invariant forall i :: 0 <= i < |found| ==> found[i] !in rest && found[i] in rows
      invariant forall i, k :: 0 <= i < k < |found| ==> found[i] != found[k] && before(found[i], found[k])
      invariant forall i, x :: 0 <= i < |found| && x in rest ==> before(found[i], x)
      decreases rest
    {
      FirstExists(rest, before);
      var k :| k in rest && forall x :: x in rest ==> before(k, x);
      found := found + [k];
      rest := rest - {k};
    }
  }
}
