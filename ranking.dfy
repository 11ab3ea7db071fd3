/** Ranking of (key, index) records in descending key order. One stable
    insertion sort serves every "sort by score, highest first" of the core:
    numpy's argsort on attribution magnitudes and Python's list.sort on
    similarity scores. */
module Ranking {

  function Abs(x: real): (r: real)
    ensures r >= 0.0 && (r == x || r == -x)
  {
    if x < 0.0 then -x else x
  }

  /** A key with the position it came from. */
  datatype Scored = Scored(key: real, index: nat)

  /** The order a stable descending sort produces: higher key first, and on
      equal keys the earlier position first. */
  predicate Precedes(a: Scored, b: Scored)
  {
    a.key > b.key || (a.key == b.key && a.index < b.index)
  }

  ghost predicate Ordered(s: seq<Scored>)
  {
    forall i, j :: 0 <= i < j < |s| ==> Precedes(s[i], s[j])
  }

  ghost predicate IndexIncreasing(s: seq<Scored>)
  {
    forall i, j :: 0 <= i < j < |s| ==> s[i].index < s[j].index
  }

  /** Puts `x` after every record with a larger key and before the rest. */
  function Insert(x: Scored, s: seq<Scored>): (r: seq<Scored>)
    ensures multiset(r) == multiset(s) + multiset{x}
    ensures |r| == |s| + 1
  {
    if s == [] then [x]
    else if x.key >= s[0].key then [x] + s
    else
      assert s == [s[0]] + s[1..];
      [s[0]] + Insert(x, s[1..])
  }

  /** Stable sort, highest key first. */
  function SortDesc(s: seq<Scored>): (r: seq<Scored>)
    ensures multiset(r) == multiset(s)
    ensures |r| == |s|
  {
    if s == [] then []
    else
      assert s == [s[0]] + s[1..];
      Insert(s[0], SortDesc(s[1..]))
  }

  lemma {:induction false} InsertOrdered(x: Scored, s: seq<Scored>)
    requires Ordered(s)
    requires forall y :: y in s ==> x.index < y.index
    ensures Ordered(Insert(x, s))
  {
    if s != [] && x.key < s[0].key {
      InsertOrdered(x, s[1..]);
      var t := Insert(x, s[1..]);
      forall z | z in t ensures Precedes(s[0], z) {
        assert z in multiset(t);
        if z != x {
          assert z in multiset(s[1..]);
          var j :| 0 <= j < |s[1..]| && s[1..][j] == z;
          assert s[j + 1] == z;
        }
      }
    }
  }

  /** Sorting records whose positions increase yields the stable descending order. */
  lemma {:induction false} SortDescOrdered(s: seq<Scored>)
    requires IndexIncreasing(s)
    ensures Ordered(SortDesc(s))
  {
    if s != [] {
      SortDescOrdered(s[1..]);
      var t := SortDesc(s[1..]);
      forall y | y in t ensures s[0].index < y.index {
        assert y in multiset(s[1..]);
        var j :| 0 <= j < |s[1..]| && s[1..][j] == y;
        assert s[j + 1] == y;
      }
      InsertOrdered(s[0], t);
    }
  }

  /** The absolute value of every entry: what attributions are ranked by. */
  function Magnitudes(shap: seq<real>): (r: seq<real>)
    ensures |r| == |shap| && forall i :: 0 <= i < |shap| ==> r[i] == Abs(shap[i])
  {
    seq(|shap|, i requires 0 <= i < |shap| => Abs(shap[i]))
  }

  /** Each key tagged with its position. */
  function Entries(keys: seq<real>): (r: seq<Scored>)
    ensures |r| == |keys|
    ensures forall i :: 0 <= i < |keys| ==> r[i] == Scored(keys[i], i)
  {
    seq(|keys|, i requires 0 <= i < |keys| => Scored(keys[i], i))
  }

  function Indices(s: seq<Scored>): (r: seq<nat>)
    ensures |r| == |s|
    ensures forall i :: 0 <= i < |s| ==> r[i] == s[i].index
  {
    seq(|s|, i requires 0 <= i < |s| => s[i].index)
  }

  /** Positions of `keys`, highest key first. */
  function RankDesc(keys: seq<real>): seq<nat>
  {
    Indices(SortDesc(Entries(keys)))
  }

  /** Every element of the sorted entries is a key at its own position. */
  lemma SortedEntry(keys: seq<real>, p: nat)
    requires p < |keys|
    ensures var e := SortDesc(Entries(keys))[p]; e.index < |keys| && e.key == keys[e.index]
  {
    var r := SortDesc(Entries(keys));
    assert r[p] in multiset(Entries(keys));
  }

  /** RankDesc is a permutation of the positions of `keys`; it lists them in
      non-increasing key order, and equal keys keep their original order. */
  lemma RankDescSpec(keys: seq<real>)
    ensures var r := RankDesc(keys);
      && |r| == |keys|
      && (forall p :: 0 <= p < |r| ==> r[p] < |keys|)
      && (forall i :: 0 <= i < |keys| ==> i in r)
      && (forall p, q :: 0 <= p < q < |r| ==> r[p] != r[q])
      && (forall p, q :: 0 <= p < q < |r| ==> keys[r[p]] >= keys[r[q]])
      && (forall p, q :: 0 <= p < q < |r| && keys[r[p]] == keys[r[q]] ==> r[p] < r[q])
  {
    var es := Entries(keys);
    var s := SortDesc(es);
    var r := RankDesc(keys);
    SortDescOrdered(es);
    forall p | 0 <= p < |r| ensures r[p] < |keys| && s[p].key == keys[r[p]] {
      SortedEntry(keys, p);
    }
    forall i | 0 <= i < |keys| ensures i in r {
      assert es[i] in multiset(s);
      var p :| 0 <= p < |s| && s[p] == es[i];
      assert r[p] == i;
    }
  }

  /** A prefix of the ranking holds the largest keys: nothing left out ranks
      above anything kept. */
  lemma RankDescPrefixLargest(keys: seq<real>, m: nat, i: nat, j: nat)
    requires m <= |keys| && i < |keys| && j < |keys|
    requires i in RankDesc(keys)[..m] && j !in RankDesc(keys)[..m]
    ensures keys[i] >= keys[j]
  {
    RankDescSpec(keys);
    var r := RankDesc(keys);
    var p :| 0 <= p < m && r[p] == i;
    assert j in r;
    var q :| 0 <= q < |r| && r[q] == j;
  }
}
