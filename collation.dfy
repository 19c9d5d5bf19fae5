/**
 * SQLite's default ordering of TEXT columns (BINARY collation): code point
 * by code point, a proper prefix first, NULL ahead of every text.
 */
module Collation {
  import opened Wrappers

  /** `a <= b` under the BINARY collation. */
  predicate TextLe(a: string, b: string)
    decreases |a|
  {
    |a| == 0 || (|b| > 0 && (a[0] < b[0] || (a[0] == b[0] && TextLe(a[1..], b[1..]))))
  }

  lemma {:induction false} TextLeReflexive(a: string)
    ensures TextLe(a, a)
    decreases |a|
  {
    if |a| > 0 {
      TextLeReflexive(a[1..]);
    }
  }

  lemma {:induction false} TextLeTotal(a: string, b: string)
    ensures TextLe(a, b) || TextLe(b, a)
    decreases |a|
  {
    if |a| > 0 && |b| > 0 && a[0] == b[0] {
      TextLeTotal(a[1..], b[1..]);
    }
  }

  lemma {:induction false} TextLeTransitive(a: string, b: string, c: string)
    requires TextLe(a, b) && TextLe(b, c)
    ensures TextLe(a, c)
    decreases |a|
  {
    if |a| > 0 && a[0] == b[0] && b[0] == c[0] {
      TextLeTransitive(a[1..], b[1..], c[1..]);
    }
  }

  lemma {:induction false} TextLeAntisymmetric(a: string, b: string)
    requires TextLe(a, b) && TextLe(b, a)
    ensures a == b
    decreases |a|
  {
    if |a| > 0 {
      TextLeAntisymmetric(a[1..], b[1..]);
      assert a == [a[0]] + a[1..] && b == [b[0]] + b[1..];
    }
  }

  /** A nullable column: NULL sorts first. */
  predicate ColumnLe(a: Option<string>, b: Option<string>)
  {
    a.None? || (b.Some? && TextLe(a.value, b.value))
  }

  lemma ColumnLeReflexive(a: Option<string>)
    ensures ColumnLe(a, a)
  {
    if a.Some? {
      TextLeReflexive(a.value);
    }
  }

  lemma ColumnLeTotal(a: Option<string>, b: Option<string>)
    ensures ColumnLe(a, b) || ColumnLe(b, a)
  {
    if a.Some? && b.Some? {
      TextLeTotal(a.value, b.value);
    }
  }

  lemma ColumnLeTransitive(a: Option<string>, b: Option<string>, c: Option<string>)
    requires ColumnLe(a, b) && ColumnLe(b, c)
    ensures ColumnLe(a, c)
  {
    if a.Some? {
      TextLeTransitive(a.value, b.value, c.value);
    }
  }

  lemma ColumnLeAntisymmetric(a: Option<string>, b: Option<string>)
    ensures ColumnLe(a, b) && ColumnLe(b, a) ==> a == b
  {
    if a.Some? && b.Some? && ColumnLe(a, b) && ColumnLe(b, a) {
      TextLeAntisymmetric(a.value, b.value);
    }
  }
}
