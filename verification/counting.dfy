/** Counting occurrences in sequences: the arithmetic under the dashboard's
    boolean `.sum()` counts, `value_counts` and `crosstab`. A column of the
    dataset is a sequence; counting a label is counting the positions that
    hold it. */
module Counting {

  /** No element occurs twice. */
  predicate Distinct<T(==)>(s: seq<T>) {
    forall i, j :: 0 <= i < j < |s| ==> s[i] != s[j]
  }

  /** The set of elements of a sequence. */
  function Elems<T>(s: seq<T>): set<T> {
    set x | x in s
  }

  /** Number of positions of `xs` holding `x`. */
  function Count<T(==)>(xs: seq<T>, x: T): (n: nat)
    ensures n <= |xs|
    ensures n == 0 <==> x !in xs
  {
    if xs == [] then 0
    else
      var init := xs[..|xs| - 1];
      assert xs == init + [xs[|xs| - 1]];
      Count(init, x) + (if xs[|xs| - 1] == x then 1 else 0)
  }

  /** The positions that Count counts. */
  function Positions<T(==)>(xs: seq<T>, x: T): set<int> {
    set i | 0 <= i < |xs| && xs[i] == x
  }

  /** Count is the size of the set of matching positions. */
  lemma {:induction false} CountIsPositions<T>(xs: seq<T>, x: T)
    ensures Count(xs, x) == |Positions(xs, x)|
  {
    if xs == [] {
      assert Positions(xs, x) == {};
    } else {
      var n := |xs| - 1;
      var init := xs[..n];
      CountIsPositions(init, x);
      var p := Positions(init, x);
      assert n !in p;
      if xs[n] == x {
        assert Positions(xs, x) == p + {n};
      } else {
        assert Positions(xs, x) == p;
      }
    }
  }

  /** Counting distributes over concatenation. */
  lemma {:induction false} CountAppend<T>(a: seq<T>, b: seq<T>, x: T)
    ensures Count(a + b, x) == Count(a, x) + Count(b, x)
  {
    if b == [] {
      assert a + b == a;
    } else {
      var n := |b| - 1;
      CountAppend(a, b[..n], x);
      assert (a + b)[..|a + b| - 1] == a + b[..n];
    }
  }

  /** In a duplicate-free sequence every value occurs at most once. */
  lemma {:induction false} CountDistinct<T>(keys: seq<T>, y: T)
    requires Distinct(keys)
    ensures Count(keys, y) == if y in keys then 1 else 0
  {
    if keys != [] {
      var n := |keys| - 1;
      var init := keys[..n];
      assert keys == init + [keys[n]];
      CountDistinct(init, y);
      if keys[n] == y {
        assert y !in init by {
          forall i | 0 <= i < n ensures init[i] != y {
            assert keys[i] != keys[n];
          }
        }
      }
    }
  }

  /** Number of positions of `xs` whose element lies in `s`. */
  function CountIn<T>(xs: seq<T>, s: set<T>): (n: nat)
    ensures n <= |xs|
    ensures n == |xs| <==> forall i :: 0 <= i < |xs| ==> xs[i] in s
  {
    if xs == [] then 0
    else
      var init := xs[..|xs| - 1];
      assert forall i :: 0 <= i < |init| ==> init[i] == xs[i];
      CountIn(init, s) + (if xs[|xs| - 1] in s then 1 else 0)
  }

  /** Sum, over `keys`, of the occurrences of each key in `xs`. */
  function SumCounts<T(==)>(xs: seq<T>, keys: seq<T>): nat {
    if keys == [] then 0 else Count(xs, keys[0]) + SumCounts(xs, keys[1..])
  }

  lemma {:induction false} SumCountsEmpty<T>(keys: seq<T>)
    ensures SumCounts([], keys) == 0
  {
    if keys != [] {
      SumCountsEmpty(keys[1..]);
    }
  }

  /** Appending `y` adds one to the sum once per occurrence of `y` among the keys. */
  lemma {:induction false} SumCountsSnoc<T>(xs: seq<T>, y: T, keys: seq<T>)
    ensures SumCounts(xs + [y], keys) == SumCounts(xs, keys) + Count(keys, y)
  {
    if keys != [] {
      SumCountsSnoc(xs, y, keys[1..]);
      CountAppend([keys[0]], keys[1..], y);
      assert [keys[0]] + keys[1..] == keys;
      assert (xs + [y])[..|xs + [y]| - 1] == xs;
    }
  }

  /** Summing the counts of distinct keys counts the positions whose element is one of the keys. */
  lemma {:induction false} SumCountsIsCountIn<T>(xs: seq<T>, keys: seq<T>)
    requires Distinct(keys)
    ensures SumCounts(xs, keys) == CountIn(xs, Elems(keys))
  {
    if xs == [] {
      SumCountsEmpty(keys);
    } else {
      var n := |xs| - 1;
      var init := xs[..n];
      assert xs == init + [xs[n]];
      SumCountsIsCountIn(init, keys);
      SumCountsSnoc(init, xs[n], keys);
      CountDistinct(keys, xs[n]);
    }
  }

  /** Duplicate-free list of the values of `xs`, in order of first occurrence. */
  function Unique<T(==)>(xs: seq<T>): (u: seq<T>)
    ensures Distinct(u)
    ensures forall i :: 0 <= i < |u| ==> u[i] in xs
    ensures forall i :: 0 <= i < |xs| ==> xs[i] in u
  {
    if xs == [] then []
    else
      var init := xs[..|xs| - 1];
      var last := xs[|xs| - 1];
      assert xs == init + [last];
      var v := Unique(init);
      if last in v then v else v + [last]
  }

  /** The second components of a sequence of pairs. */
  function Seconds<A, B>(ps: seq<(A, B)>): (r: seq<B>)
    ensures |r| == |ps|
    ensures forall i :: 0 <= i < |ps| ==> r[i] == ps[i].1
  {
    seq(|ps|, i requires 0 <= i < |ps| => ps[i].1)
  }

  /** Sum, over `rows`, of the occurrences of the pair `(r, b)` in `ps`:
      one column of a cross-tabulation of `ps`. */
  function ColumnCount<A(==), B(==)>(ps: seq<(A, B)>, rows: seq<A>, b: B): nat {
    if rows == [] then 0 else Count(ps, (rows[0], b)) + ColumnCount(ps, rows[1..], b)
  }

  lemma {:induction false} ColumnCountEmpty<A, B>(rows: seq<A>, b: B)
    ensures ColumnCount([], rows, b) == 0
  {
    if rows != [] {
      ColumnCountEmpty(rows[1..], b);
    }
  }

  /** Appending the pair `q` adds to column `b` once per occurrence of its first component among the rows. */
  lemma {:induction false} ColumnCountSnoc<A, B>(ps: seq<(A, B)>, q: (A, B), rows: seq<A>, b: B)
    ensures ColumnCount(ps + [q], rows, b) == ColumnCount(ps, rows, b) + (if q.1 == b then Count(rows, q.0) else 0)
  {
    if rows != [] {
      ColumnCountSnoc(ps, q, rows[1..], b);
      CountAppend([rows[0]], rows[1..], q.0);
      assert [rows[0]] + rows[1..] == rows;
      assert (ps + [q])[..|ps + [q]| - 1] == ps;
    }
  }

  /** A column of the cross-tabulation, summed over distinct rows that cover every
      first component, is the number of pairs whose second component is `b`. */
  lemma {:induction false} ColumnCountIsCount<A, B>(ps: seq<(A, B)>, rows: seq<A>, b: B)
    requires Distinct(rows)
    requires forall i :: 0 <= i < |ps| ==> ps[i].0 in rows
    ensures ColumnCount(ps, rows, b) == Count(Seconds(ps), b)
  {
    if ps == [] {
      ColumnCountEmpty(rows, b);
    } else {
      var n := |ps| - 1;
      var init := ps[..n];
      assert ps == init + [ps[n]];
      ColumnCountIsCount(init, rows, b);
      ColumnCountSnoc(init, ps[n], rows, b);
      CountDistinct(rows, ps[n].0);
      assert Seconds(ps)[..n] == Seconds(init);
    }
  }
}
