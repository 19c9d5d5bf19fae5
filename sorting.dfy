/**
 * Ordered listing of table rows (`ORDER BY ...`): sorted insertion under a
 * comparator that is a total preorder. Rows that compare equal may come out
 * in any relative order, as SQL leaves them.
 */
module Sorting {
  import opened Seqs

  /** `before(a, b)`: `a` may be listed ahead of `b`. */
  ghost predicate IsTotalPreorder<T(!new)>(before: (T, T) -> bool)
  {
    && (forall a, b :: before(a, b) || before(b, a))
    && (forall a, b, c :: before(a, b) && before(b, c) ==> before(a, c))
  }

  predicate SortedBy<T>(s: seq<T>, before: (T, T) -> bool)
  {
    forall i, j :: 0 <= i < j < |s| ==> before(s[i], s[j])
  }

  /** Where `x` goes: ahead of the first element it may precede. */
  function InsertPosition<T>(s: seq<T>, x: T, before: (T, T) -> bool): (k: nat)
    ensures k <= |s|
    ensures forall i :: 0 <= i < k ==> !before(x, s[i])
    ensures k < |s| ==> before(x, s[k])
    decreases |s|
  {
    if |s| == 0 || before(x, s[0]) then 0 else 1 + InsertPosition(s[1..], x, before)
  }

  function Insert<T>(s: seq<T>, x: T, before: (T, T) -> bool): seq<T>
  {
    var k := InsertPosition(s, x, before);
    s[..k] + [x] + s[k..]
  }

  /** Inserting into a sorted sequence keeps it sorted. */
  lemma InsertSorted<T(!new)>(s: seq<T>, x: T, before: (T, T) -> bool)
    requires IsTotalPreorder(before)
    requires SortedBy(s, before)
    ensures SortedBy(Insert(s, x, before), before)
  {
    var k := InsertPosition(s, x, before);
    var r := Insert(s, x, before);
    assert |r| == |s| + 1;
    forall i, j | 0 <= i < j < |r|
      ensures before(r[i], r[j])
    {
      if j < k {
        assert r[i] == s[i] && r[j] == s[j];
      } else if j == k {
        assert r[i] == s[i] && !before(x, s[i]);
      } else if i < k {
        assert r[i] == s[i] && r[j] == s[j - 1];
        assert before(s[i], x);
        assert before(x, s[k]);
        assert before(s[i], s[k]);
        if j - 1 > k {
          assert before(s[k], s[j - 1]);
        }
      } else if i == k {
        assert r[i] == x && r[j] == s[j - 1];
        if j - 1 > k {
          assert before(s[k], s[j - 1]);
        }
      } else {
        assert r[i] == s[i - 1] && r[j] == s[j - 1];
      }
    }
  }

  /** Insertion adds exactly `x`. */
  lemma InsertMembers<T>(s: seq<T>, x: T, before: (T, T) -> bool, y: T)
    ensures |Insert(s, x, before)| == |s| + 1
    ensures y in Insert(s, x, before) <==> y in s || y == x
  {
    var k := InsertPosition(s, x, before);
    assert s == s[..k] + s[k..];
  }

  /** Inserting a new element keeps the sequence free of duplicates. */
  lemma InsertNoDuplicates<T>(s: seq<T>, x: T, before: (T, T) -> bool)
    requires NoDuplicates(s)
    requires x !in s
    ensures NoDuplicates(Insert(s, x, before))
  {
    var k := InsertPosition(s, x, before);
    var r := Insert(s, x, before);
    forall i, j | 0 <= i < j < |r|
      ensures r[i] != r[j]
    {
      if j < k {
      } else if j == k {
        assert r[i] == s[i];
      } else if i < k {
        assert r[i] == s[i] && r[j] == s[j - 1];
      } else if i == k {
        assert r[j] == s[j - 1];
      } else {
        assert r[i] == s[i - 1] && r[j] == s[j - 1];
      }
    }
  }

  /**
   * The rows of a table keyed by `idOf`, listed in an order allowed by
   * `before`: each row once, sorted.
   */
  method ListRows<T(!new)>(table: map<string, T>, idOf: T -> string, before: (T, T) -> bool) returns (list: seq<T>)
    requires IsTotalPreorder(before)
    requires forall k :: k in table ==> idOf(table[k]) == k
    ensures SortedBy(list, before)
    ensures NoDuplicates(list)
    ensures |list| == |table|
    ensures forall k :: k in table ==> table[k] in list
    ensures forall x :: x in list ==> idOf(x) in table && table[idOf(x)] == x
  {
    list := [];
    var remaining := table.Keys;
    while remaining != {}
      invariant remaining <= table.Keys
      invariant SortedBy(list, before)
      invariant NoDuplicates(list)
      invariant |list| + |remaining| == |table.Keys|
      invariant forall k :: k in table && k !in remaining ==> table[k] in list
      invariant forall x :: x in list ==> idOf(x) in table && idOf(x) !in remaining && table[idOf(x)] == x
      decreases remaining
    {
      var k :| k in remaining;
      var row := table[k];
      InsertSorted(list, row, before);
      InsertNoDuplicates(list, row, before);
      forall y
        ensures y in Insert(list, row, before) <==> y in list || y == row
      {
        InsertMembers(list, row, before, y);
      }
      list := Insert(list, row, before);
      remaining := remaining - {k};
    }
  }
}
