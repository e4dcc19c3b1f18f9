/**
 The two query forms of the generic data-access repository that the
 controllers use: `GetAll(filter)` (every row satisfying a filter, in the
 store's enumeration order) and `GetFirstOrDefault(filter)` (the first such
 row, or nothing). A table is a sequence of rows in enumeration order.
 */
module Repository {

  datatype Option<+T> = None | Some(value: T)

  /** `a` is an order-preserving subsequence of `b`. */
  predicate IsSubsequence<T(==)>(a: seq<T>, b: seq<T>)
    decreases |b|
  {
    a == [] ||
    (b != [] &&
     ((a[0] == b[0] && IsSubsequence(a[1..], b[1..])) || IsSubsequence(a, b[1..])))
  }

  lemma {:induction false} SubsequenceReflexive<T>(a: seq<T>)
    ensures IsSubsequence(a, a)
    decreases |a|
  {
    if a != [] {
      SubsequenceReflexive(a[1..]);
    }
  }

  lemma {:induction false} SubsequenceTransitive<T>(a: seq<T>, b: seq<T>, c: seq<T>)
    requires IsSubsequence(a, b) && IsSubsequence(b, c)
    ensures IsSubsequence(a, c)
    decreases |c|
  {
    if a != [] {
      assert b != [] && c != [];
      if b[0] == c[0] && IsSubsequence(b[1..], c[1..]) {
        if a[0] == b[0] && IsSubsequence(a[1..], b[1..]) {
          SubsequenceTransitive(a[1..], b[1..], c[1..]);
        } else {
          SubsequenceTransitive(a, b[1..], c[1..]);
        }
      } else {
        SubsequenceTransitive(a, b, c[1..]);
      }
    }
  }

  /** `GetAll(filter)`: the rows of `rows` that satisfy `filter`, in order. */
  function Where<T(!new)>(rows: seq<T>, filter: T -> bool): (r: seq<T>)
    ensures IsSubsequence(r, rows)
    ensures forall x :: x in r <==> x in rows && filter(x)
  {
    if rows == [] then []
    else
      var rest := Where(rows[1..], filter);
      assert rows == [rows[0]] + rows[1..];
      if filter(rows[0]) then [rows[0]] + rest else rest
  }

  /** `GetAll(filter)` keeps every copy of an accepted row and no copy of a
      rejected one. */
  lemma {:induction false} WhereMultiplicity<T(!new)>(rows: seq<T>, filter: T -> bool)
    ensures forall x ::
      multiset(Where(rows, filter))[x] == if filter(x) then multiset(rows)[x] else 0
    decreases |rows|
  {
    if rows != [] {
      WhereMultiplicity(rows[1..], filter);
      assert rows == [rows[0]] + rows[1..];
      assert multiset(rows) == multiset{rows[0]} + multiset(rows[1..]);
      if filter(rows[0]) {
        assert multiset(Where(rows, filter)) ==
          multiset{rows[0]} + multiset(Where(rows[1..], filter));
      }
    }
  }

  /** A subsequence is no longer than the sequence it is drawn from. */
  lemma {:induction false} SubsequenceLength<T>(a: seq<T>, b: seq<T>)
    requires IsSubsequence(a, b)
    ensures |a| <= |b|
    decreases |b|
  {
    if a != [] {
      if a[0] == b[0] && IsSubsequence(a[1..], b[1..]) {
        SubsequenceLength(a[1..], b[1..]);
      } else {
        SubsequenceLength(a, b[1..]);
      }
    }
  }

  /** `GetFirstOrDefault(filter)`: the position of the first row that satisfies
      `filter`, or None when no row does. */
  function FirstWhere<T>(rows: seq<T>, filter: T -> bool): (r: Option<nat>)
    ensures r.None? <==> forall k :: 0 <= k < |rows| ==> !filter(rows[k])
    ensures r.Some? ==>
      r.value < |rows| && filter(rows[r.value]) &&
      forall k :: 0 <= k < r.value ==> !filter(rows[k])
  {
    if rows == [] then None
    else if filter(rows[0]) then Some(0)
    else
      match FirstWhere(rows[1..], filter)
      case None => None
      case Some(k) => Some(k + 1)
  }

  // How `Where` behaves on a table that grows by one row or has one row
  // replaced by another the filter treats alike.

  lemma WhereCons<T(!new)>(x: T, rest: seq<T>, filter: T -> bool)
    ensures Where([x] + rest, filter) == (if filter(x) then [x] else []) + Where(rest, filter)
  {
    assert ([x] + rest)[0] == x && ([x] + rest)[1..] == rest;
  }

  lemma {:induction false} WhereAppend<T(!new)>(rows: seq<T>, x: T, filter: T -> bool)
    ensures Where(rows + [x], filter) == Where(rows, filter) + (if filter(x) then [x] else [])
    decreases |rows|
  {
    if rows == [] {
      assert Where([x], filter) == (if filter(x) then [x] else []) + Where([], filter);
    } else {
      assert (rows + [x])[1..] == rows[1..] + [x];
      WhereAppend(rows[1..], x, filter);
    }
  }

  lemma {:induction false} WhereUpdateLength<T(!new)>(rows: seq<T>, i: nat, y: T, filter: T -> bool)
    requires i < |rows| && filter(y) == filter(rows[i])
    ensures |Where(rows[i := y], filter)| == |Where(rows, filter)|
    decreases |rows|
  {
    if i == 0 {
      assert rows[i := y][1..] == rows[1..];
    } else {
      assert rows[i := y][1..] == rows[1..][i - 1 := y];
      WhereUpdateLength(rows[1..], i - 1, y, filter);
    }
  }
}
