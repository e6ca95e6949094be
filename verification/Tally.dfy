/** Counting as the metric modules do it: `distinct` and `counts` over lists of values. */
module Tally {
  ghost predicate AllDifferent<K(!new)>(ks: seq<K>) {
    forall i, j | 0 <= i < j < |ks| :: ks[i] != ks[j]
  }

  /** How often a value occurs. */
  function CountOf<T(==)>(values: seq<T>, v: T): nat {
    if values == [] then 0
    else CountOf(values[..|values| - 1], v) + (if values[|values| - 1] == v then 1 else 0)
  }

  /** The keys whose value is v. */
  ghost function Holders<K, T>(ks: seq<K>, values: seq<T>, v: T): set<K>
    requires |ks| == |values|
  {
    set i | 0 <= i < |ks| && values[i] == v :: ks[i]
  }

  lemma HoldersExtend<K, T>(ks: seq<K>, values: seq<T>, k: K, last: T, v: T)
    requires |ks| == |values|
    ensures Holders(ks + [k], values + [last], v) == Holders(ks, values, v) + (if last == v then {k} else {})
  {
    var more := Holders(ks + [k], values + [last], v);
    assert last == v ==> (ks + [k])[|ks|] in more;
    forall x | x in Holders(ks, values, v)
      ensures x in more
    {
      var i :| 0 <= i < |ks| && values[i] == v && ks[i] == x;
      assert (ks + [k])[i] == x && (values + [last])[i] == v;
    }
  }

  /** With distinct keys, counting values counts keys. */
  lemma {:induction false} CountHolders<K(!new), T>(ks: seq<K>, values: seq<T>, v: T)
    requires |ks| == |values| && AllDifferent(ks)
    ensures CountOf(values, v) == |Holders(ks, values, v)|
  {
    if ks != [] {
      var n := |ks| - 1;
      CountHolders(ks[..n], values[..n], v);
      HoldersExtend(ks[..n], values[..n], ks[n], values[n], v);
      assert ks[..n] + [ks[n]] == ks && values[..n] + [values[n]] == values;
      assert ks[n] !in Holders(ks[..n], values[..n], v);
    }
  }

  lemma SubsetCard<T>(a: set<T>, b: set<T>)
    requires a <= b
    ensures |a| <= |b| && (|a| == |b| ==> a == b)
  {
    assert b == a + (b - a);
  }

  ghost function Members<K>(ks: seq<K>): set<K> { set k | k in ks }

  lemma {:induction false} CountMembers<K(!new)>(ks: seq<K>)
    requires AllDifferent(ks)
    ensures |Members(ks)| == |ks|
  {
    if ks != [] {
      var n := |ks| - 1;
      CountMembers(ks[..n]);
      assert Members(ks) == Members(ks[..n]) + {ks[n]};
    }
  }

  /** Each value once, in order of first occurrence. */
  function Distinct<T(==)>(values: seq<T>): (r: seq<T>)
    ensures |r| <= |values|
  {
    if values == [] then []
    else
      var rest := Distinct(values[..|values| - 1]);
      if values[|values| - 1] in rest then rest else rest + [values[|values| - 1]]
  }

  lemma {:induction false} DistinctHas<T(!new)>(values: seq<T>, v: T)
    ensures v in Distinct(values) <==> v in values
  {
    if values != [] {
      DistinctHas(values[..|values| - 1], v);
      assert values == values[..|values| - 1] + [values[|values| - 1]];
    }
  }

  lemma {:induction false} DistinctDiffer<T(!new)>(values: seq<T>)
    ensures AllDifferent(Distinct(values))
  {
    if values != [] { DistinctDiffer(values[..|values| - 1]); }
  }

  /** A list is as long as its distinct values exactly when nothing repeats. */
  lemma {:induction false} DistinctLength<T(!new)>(values: seq<T>)
    ensures |Distinct(values)| == |values| <==> AllDifferent(values)
  {
    if values != [] {
      var n := |values| - 1;
      DistinctLength(values[..n]);
      DistinctHas(values[..n], values[n]);
      LastDiffers(values, n);
    }
  }

  lemma LastDiffers<T(!new)>(values: seq<T>, n: nat)
    requires |values| == n + 1
    ensures AllDifferent(values) <==> AllDifferent(values[..n]) && values[n] !in values[..n]
  {
    if AllDifferent(values[..n]) && values[n] !in values[..n] {
      forall i, j | 0 <= i < j < |values|
        ensures values[i] != values[j]
      {
        assert values[..n][i] == values[i];
        assert j < n ==> values[..n][j] == values[j];
      }
    }
  }

  /** More than one distinct value: two that differ. */
  lemma DistinctMany<T(!new)>(values: seq<T>)
    ensures |Distinct(values)| > 1 <==> exists i, j :: 0 <= i < |values| && 0 <= j < |values| && values[i] != values[j]
    ensures values != [] <==> Distinct(values) != []
    ensures |Distinct(values)| == 1 ==> forall i | 0 <= i < |values| :: values[i] == Distinct(values)[0]
  {
    var d := Distinct(values);
    DistinctDiffer(values);
    forall i | 0 <= i < |values|
      ensures values[i] in d
    {
      DistinctHas(values, values[i]);
    }
    if |d| > 1 {
      DistinctHas(values, d[0]);
      DistinctHas(values, d[1]);
      var i :| 0 <= i < |values| && values[i] == d[0];
      var j :| 0 <= j < |values| && values[j] == d[1];
      assert values[i] != values[j];
    }
  }
}
