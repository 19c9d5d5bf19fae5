/**
 * Sequence operations of JavaScript arrays and strings used by the
 * application: `Array.prototype.filter`, filter-then-map, `String.prototype.includes`
 * and `String.prototype.split` on one separator character, with the facts
 * about them that the rest of the model needs.
 */
module Seqs {
  import opened Wrappers

  /** `s.filter(p)`: the elements satisfying `p`, in their original order. */
  function Filter<T>(s: seq<T>, p: T -> bool): (r: seq<T>)
    ensures |r| <= |s|
    decreases |s|
  {
    if |s| == 0 then [] else Filter(s[..|s| - 1], p) + (if p(s[|s| - 1]) then [s[|s| - 1]] else [])
  }

  /** Filtering a sequence extended by one element. */
  lemma FilterSnoc<T>(s: seq<T>, x: T, p: T -> bool)
    ensures Filter(s + [x], p) == Filter(s, p) + (if p(x) then [x] else [])
  {
    assert (s + [x])[..|s|] == s;
  }

  lemma {:induction false} FilterMembers<T>(s: seq<T>, p: T -> bool, x: T)
    ensures x in Filter(s, p) <==> x in s && p(x)
    decreases |s|
  {
    if |s| > 0 {
      var init := s[..|s| - 1];
      FilterMembers(init, p, x);
      assert s == init + [s[|s| - 1]];
    }
  }

  /** When every element passes, filtering returns the sequence unchanged. */
  lemma {:induction false} FilterKeepsAll<T>(s: seq<T>, p: T -> bool)
    requires forall i :: 0 <= i < |s| ==> p(s[i])
    ensures Filter(s, p) == s
    decreases |s|
  {
    if |s| > 0 {
      FilterKeepsAll(s[..|s| - 1], p);
    }
  }

  /** Whatever `p` keeps, `q` or `r` keeps: `p` keeps no more than the two together. */
  lemma {:induction false} FilterCountCovered<T>(s: seq<T>, p: T -> bool, q: T -> bool, r: T -> bool)
    requires forall x :: p(x) ==> q(x) || r(x)
    ensures |Filter(s, p)| <= |Filter(s, q)| + |Filter(s, r)|
    decreases |s|
  {
    if |s| > 0 {
      FilterCountCovered(s[..|s| - 1], p, q, r);
    }
  }

  /** Two predicates that agree on the elements give the same filter. */
  lemma {:induction false} FilterCongruent<T>(s: seq<T>, p: T -> bool, q: T -> bool)
    requires forall i :: 0 <= i < |s| ==> p(s[i]) == q(s[i])
    ensures Filter(s, p) == Filter(s, q)
    decreases |s|
  {
    if |s| > 0 {
      FilterCongruent(s[..|s| - 1], p, q);
    }
  }

  /** `idx` lists, in increasing order, positions of `b` whose elements spell `a`. */
  ghost predicate Embeds<T>(idx: seq<nat>, a: seq<T>, b: seq<T>)
  {
    && |idx| == |a|
    && (forall i :: 0 <= i < |idx| ==> idx[i] < |b| && a[i] == b[idx[i]])
    && (forall i, j :: 0 <= i < j < |idx| ==> idx[i] < idx[j])
  }

  /** `a` is an order-preserving subsequence of `b`. */
  ghost predicate IsSubsequence<T>(a: seq<T>, b: seq<T>)
  {
    exists idx :: Embeds(idx, a, b)
  }

  /** The positions `Filter` keeps. */
  lemma {:induction false} FilterPositions<T>(s: seq<T>, p: T -> bool) returns (idx: seq<nat>)
    ensures Embeds(idx, Filter(s, p), s)
    decreases |s|
  {
    if |s| == 0 {
      idx := [];
    } else {
      var n := |s| - 1;
      var init := s[..n];
      var front := FilterPositions(init, p);
      var r0 := Filter(init, p);
      assert forall i :: 0 <= i < |front| ==> s[front[i]] == init[front[i]];
      if p(s[n]) {
        assert Filter(s, p) == r0 + [s[n]];
        idx := front + [n];
        assert forall i :: 0 <= i < |front| ==> idx[i] == front[i] && Filter(s, p)[i] == r0[i];
      } else {
        assert Filter(s, p) == r0;
        idx := front;
      }
    }
  }

  lemma FilterInOrder<T>(s: seq<T>, p: T -> bool)
    ensures IsSubsequence(Filter(s, p), s)
  {
    var idx := FilterPositions(s, p);
  }

  /** Filter and transform in one pass: keep `y` for each element `x` with `f(x) == Some(y)`. */
  function FilterMap<T, U>(s: seq<T>, f: T -> Option<U>): (r: seq<U>)
    ensures |r| <= |s|
    decreases |s|
  {
    if |s| == 0 then []
    else FilterMap(s[..|s| - 1], f) + (match f(s[|s| - 1]) case Some(y) => [y] case None => [])
  }

  lemma FilterMapSnoc<T, U>(s: seq<T>, x: T, f: T -> Option<U>)
    ensures FilterMap(s + [x], f) == FilterMap(s, f) + (match f(x) case Some(y) => [y] case None => [])
  {
    assert (s + [x])[..|s|] == s;
  }

  /** Each result comes from an element, in increasing positions. */
  lemma {:induction false} FilterMapPositions<T, U>(s: seq<T>, f: T -> Option<U>) returns (idx: seq<nat>)
    ensures |idx| == |FilterMap(s, f)|
    ensures forall i :: 0 <= i < |idx| ==> idx[i] < |s| && f(s[idx[i]]) == Some(FilterMap(s, f)[i])
    ensures forall i, j :: 0 <= i < j < |idx| ==> idx[i] < idx[j]
    decreases |s|
  {
    if |s| == 0 {
      idx := [];
    } else {
      var n := |s| - 1;
      var init := s[..n];
      var front := FilterMapPositions(init, f);
      var r0 := FilterMap(init, f);
      assert forall i :: 0 <= i < |front| ==> s[front[i]] == init[front[i]];
      match f(s[n])
      case None =>
        assert FilterMap(s, f) == r0;
        idx := front;
      case Some(y) =>
        assert FilterMap(s, f) == r0 + [y];
        idx := front + [n];
        assert forall i :: 0 <= i < |front| ==> idx[i] == front[i] && FilterMap(s, f)[i] == r0[i];
    }
  }

  lemma {:induction false} FilterMapMembers<T, U>(s: seq<T>, f: T -> Option<U>, y: U)
    ensures y in FilterMap(s, f) <==> exists x :: x in s && f(x) == Some(y)
    decreases |s|
  {
    if |s| > 0 {
      var init := s[..|s| - 1];
      FilterMapMembers(init, f, y);
      assert s == init + [s[|s| - 1]];
    }
  }

  /** Two transformations that agree on the elements give the same result. */
  lemma {:induction false} FilterMapCongruent<T, U>(s: seq<T>, f: T -> Option<U>, g: T -> Option<U>)
    requires forall i :: 0 <= i < |s| ==> f(s[i]) == g(s[i])
    ensures FilterMap(s, f) == FilterMap(s, g)
    decreases |s|
  {
    if |s| > 0 {
      FilterMapCongruent(s[..|s| - 1], f, g);
    }
  }

  /** No element occurs twice. */
  predicate NoDuplicates<T(==)>(s: seq<T>)
  {
    forall i, j :: 0 <= i < j < |s| ==> s[i] != s[j]
  }

  lemma {:induction false} FilterNoDuplicates<T>(s: seq<T>, p: T -> bool)
    requires NoDuplicates(s)
    ensures NoDuplicates(Filter(s, p))
  {
    var idx := FilterPositions(s, p);
  }

  predicate IsPrefix<T(==)>(part: seq<T>, s: seq<T>)
  {
    |part| <= |s| && s[..|part|] == part
  }

  /** `s.includes(part)`. */
  predicate Contains<T(==)>(s: seq<T>, part: seq<T>)
    decreases |s|
  {
    IsPrefix(part, s) || (|s| > 0 && Contains(s[1..], part))
  }

  /** `part` occurs in `s` starting at offset `k`. */
  predicate OccursAt<T(==)>(s: seq<T>, part: seq<T>, k: int)
  {
    0 <= k && k + |part| <= |s| && s[k..k + |part|] == part
  }

  /** `includes` holds exactly when `part` occurs at some offset. */
  lemma {:induction false} ContainsAt<T>(s: seq<T>, part: seq<T>)
    ensures Contains(s, part) <==> exists k :: OccursAt(s, part, k)
    decreases |s|
  {
    if IsPrefix(part, s) {
      assert OccursAt(s, part, 0);
    } else if |s| > 0 {
      ContainsAt(s[1..], part);
      if exists k :: OccursAt(s, part, k) {
        var k :| OccursAt(s, part, k);
        assert k > 0;
        assert s[1..][k - 1..k - 1 + |part|] == s[k..k + |part|];
        assert OccursAt(s[1..], part, k - 1);
      }
      if Contains(s[1..], part) {
        var k :| OccursAt(s[1..], part, k);
        assert s[k + 1..k + 1 + |part|] == s[1..][k..k + |part|];
        assert OccursAt(s, part, k + 1);
      }
    }
  }

  /** The empty string occurs in every string. */
  lemma ContainsEmpty<T>(s: seq<T>)
    ensures Contains(s, [])
  {
    assert IsPrefix([], s);
  }

  /** `s.split(sep)`: never empty; separators delimit the pieces. */
  function Split(s: string, sep: char): (r: seq<string>)
    ensures |r| >= 1
    decreases |s|
  {
    if |s| == 0 then [""]
    else if s[0] == sep then [""] + Split(s[1..], sep)
    else var rest := Split(s[1..], sep); [[s[0]] + rest[0]] + rest[1..]
  }

  /** A piece without the separator splits to itself. */
  lemma {:induction false} SplitPlain(s: string, sep: char)
    requires sep !in s
    ensures Split(s, sep) == [s]
    decreases |s|
  {
    if |s| > 0 {
      SplitPlain(s[1..], sep);
      assert [s[0]] + s[1..] == s;
    }
  }

  /** Splitting `a + sep + b` where `a` has no separator yields `a` and then the pieces of `b`. */
  lemma {:induction false} SplitAfterPiece(a: string, sep: char, b: string)
    requires sep !in a
    ensures Split(a + [sep] + b, sep) == [a] + Split(b, sep)
    decreases |a|
  {
    var s := a + [sep] + b;
    if |a| == 0 {
      assert s == [sep] + b;
      assert s[1..] == b;
    } else {
      assert s[1..] == a[1..] + [sep] + b;
      SplitAfterPiece(a[1..], sep, b);
      assert [a[0]] + a[1..] == a;
    }
  }
}
