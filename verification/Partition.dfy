/** Splitting a list by a key: whatever is summed over the parts is the sum over the whole. */
module Partition {
  import opened Tally

  /** The items with one key, in order. */
  function Pick<T, K(==)>(xs: seq<T>, f: T -> K, k: K): seq<T> {
    if xs == [] then []
    else Pick(xs[..|xs| - 1], f, k) + (if f(xs[|xs| - 1]) == k then [xs[|xs| - 1]] else [])
  }

  function Weigh<T>(xs: seq<T>, w: T -> int): int {
    if xs == [] then 0 else Weigh(xs[..|xs| - 1], w) + w(xs[|xs| - 1])
  }

  /** The weights of the parts with the keys listed. */
  ghost function WeighParts<T, K>(xs: seq<T>, f: T -> K, ks: seq<K>, w: T -> int): int {
    if ks == [] then 0 else WeighParts(xs, f, ks[..|ks| - 1], w) + Weigh(Pick(xs, f, ks[|ks| - 1]), w)
  }

  lemma PickAppend<T, K>(xs: seq<T>, x: T, f: T -> K, k: K)
    ensures Pick(xs + [x], f, k) == Pick(xs, f, k) + (if f(x) == k then [x] else [])
  {
    assert (xs + [x])[..|xs|] == xs;
  }

  lemma WeighAppend<T>(xs: seq<T>, x: T, w: T -> int)
    ensures Weigh(xs + [x], w) == Weigh(xs, w) + w(x)
  {
    assert (xs + [x])[..|xs|] == xs;
  }

  lemma {:induction false} PickHas<T(!new), K>(xs: seq<T>, f: T -> K, k: K, x: T)
    ensures x in Pick(xs, f, k) <==> x in xs && f(x) == k
  {
    if xs != [] {
      PickHas(xs[..|xs| - 1], f, k, x);
      assert xs == xs[..|xs| - 1] + [xs[|xs| - 1]];
    }
  }

  /** A new item adds its weight to the part of its key alone. */
  lemma {:induction false} PartsAppend<T, K(!new)>(xs: seq<T>, x: T, f: T -> K, ks: seq<K>, w: T -> int)
    requires AllDifferent(ks)
    ensures WeighParts(xs + [x], f, ks, w) == WeighParts(xs, f, ks, w) + (if f(x) in ks then w(x) else 0)
  {
    if ks != [] {
      var init, last := ks[..|ks| - 1], ks[|ks| - 1];
      PartsAppend(xs, x, f, init, w);
      PickAppend(xs, x, f, last);
      assert ks == init + [last];
      if f(x) == last { WeighAppend(Pick(xs, f, last), x, w); }
      assert Pick(xs, f, last) + [] == Pick(xs, f, last);
    }
  }

  lemma {:induction false} EmptyParts<T, K>(f: T -> K, ks: seq<K>, w: T -> int)
    ensures WeighParts([], f, ks, w) == 0
  {
    if ks != [] { EmptyParts<T, K>(f, ks[..|ks| - 1], w); }
  }

  /** The parts together weigh what the whole does. */
  lemma {:induction false} PartsAreWhole<T(!new), K(!new)>(xs: seq<T>, f: T -> K, ks: seq<K>, w: T -> int)
    requires AllDifferent(ks) && forall i | 0 <= i < |xs| :: f(xs[i]) in ks
    ensures WeighParts(xs, f, ks, w) == Weigh(xs, w)
  {
    if xs == [] {
      EmptyParts<T, K>(f, ks, w);
    } else {
      hide AllDifferent, Weigh, WeighParts;
      var init, last := xs[..|xs| - 1], xs[|xs| - 1];
      PartsAreWhole(init, f, ks, w);
      PartsAppend(init, last, f, ks, w);
      WeighAppend(init, last, w);
      assert f(last) in ks;
      assert xs == init + [last];
    }
  }

  /** A column of a table summed over its rows. */
  ghost function SumRows<K, R>(rows: map<K, R>, ks: seq<K>, column: R -> int): int
    requires forall i | 0 <= i < |ks| :: ks[i] in rows
  {
    if ks == [] then 0 else SumRows(rows, ks[..|ks| - 1], column) + column(rows[ks[|ks| - 1]])
  }

  lemma {:induction false} ColumnSums<T, K, R>(rows: map<K, R>, ks: seq<K>, column: R -> int, xs: seq<T>, f: T -> K, w: T -> int)
    requires forall i | 0 <= i < |ks| :: ks[i] in rows && column(rows[ks[i]]) == Weigh(Pick(xs, f, ks[i]), w)
    ensures SumRows(rows, ks, column) == WeighParts(xs, f, ks, w)
  {
    if ks != [] {
      ColumnSums(rows, ks[..|ks| - 1], column, xs, f, w);
    }
  }

  /** A listing of a table's keys. */
  ghost predicate Lists<K(!new), R>(rows: map<K, R>, ks: seq<K>) {
    AllDifferent(ks) && (forall i | 0 <= i < |ks| :: ks[i] in rows) && forall k <- rows :: k in ks
  }

  /** A table whose rows weigh the parts of a list, and whose keys cover it, sums to the whole in that column. */
  lemma TableSums<T(!new), K(!new), R>(rows: map<K, R>, ks: seq<K>, column: R -> int, xs: seq<T>, f: T -> K, w: T -> int)
    requires Lists(rows, ks)
    requires forall k <- rows :: column(rows[k]) == Weigh(Pick(xs, f, k), w)
    requires forall i | 0 <= i < |xs| :: f(xs[i]) in rows
    ensures SumRows(rows, ks, column) == Weigh(xs, w)
  {
    ColumnSums(rows, ks, column, xs, f, w);
    PartsAreWhole(xs, f, ks, w);
  }
}
