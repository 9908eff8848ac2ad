/** Ranking of per-product quantities: a stable sort by descending quantity,
    as `Array.prototype.sort` with the comparator `b[1] - a[1]`, and the
    first `n` entries of the result. */
module Ranking {

  /** A (product, summed quantity) pair, as an element of `Object.entries`. */
  datatype Entry = Entry(producto: nat, cantidad: int)

  ghost predicate NonIncreasing(s: seq<Entry>)
  {
    forall i, j | 0 <= i < j < |s| :: s[i].cantidad >= s[j].cantidad
  }

  /** No product appears twice. */
  ghost predicate DistinctKeys(s: seq<Entry>)
  {
    forall i, j | 0 <= i < j < |s| :: s[i].producto != s[j].producto
  }

  /** Inserts `e` into a sorted list before the first entry whose quantity is
      not greater than its own; `e` is taken to come before every element of
      `s` in the input, so equal quantities keep their input order. */
  function Insert(e: Entry, s: seq<Entry>): (r: seq<Entry>)
    requires NonIncreasing(s)
    ensures NonIncreasing(r)
    ensures multiset(r) == multiset(s) + multiset{e}
    ensures |r| == |s| + 1
    ensures r[0] == e || (s != [] && r[0] == s[0])
  {
    if s == [] || e.cantidad >= s[0].cantidad then
      ConsKeepsOrder(e, s);
      [e] + s
    else
      var t := Insert(e, s[1..]);
      ConsKeepsOrder(s[0], t);
      assert multiset([s[0]] + t) == multiset(s) + multiset{e} by {
        assert s == [s[0]] + s[1..];
      }
      [s[0]] + t
  }

  /** A head no smaller than the first element of a descending list keeps
      it descending. */
  lemma ConsKeepsOrder(h: Entry, t: seq<Entry>)
    requires NonIncreasing(t)
    requires t == [] || h.cantidad >= t[0].cantidad
    ensures NonIncreasing([h] + t)
  {
    var r := [h] + t;
    forall i, j | 0 <= i < j < |r|
      ensures r[i].cantidad >= r[j].cantidad
    {
      assert r[j] == t[j - 1];
      if i > 0 {
        assert r[i] == t[i - 1];
      }
    }
  }

  /** The entries in descending order of quantity. */
  function SortDesc(s: seq<Entry>): (r: seq<Entry>)
    ensures NonIncreasing(r)
    ensures multiset(r) == multiset(s)
    ensures |r| == |s|
  {
    if s == [] then []
    else
      assert s == [s[0]] + s[1..];
      Insert(s[0], SortDesc(s[1..]))
  }

  /** The `n` entries of largest quantity: the first `n` of the sorted list
      (all of them when there are fewer). */
  function Top(s: seq<Entry>, n: nat): (r: seq<Entry>)
    ensures |r| == if |s| < n then |s| else n
    ensures NonIncreasing(r)
    ensures forall k | 0 <= k < |r| :: r[k] in s
    ensures multiset(r) <= multiset(s)
  {
    var sorted := SortDesc(s);
    var r := sorted[..if |s| < n then |s| else n];
    PrefixSubMultiset(sorted, |r|);
    assert forall k | 0 <= k < |r| :: r[k] in s by {
      forall k | 0 <= k < |r|
        ensures r[k] in s
      {
        assert r[k] == sorted[k];
        assert sorted[k] in multiset(sorted);
        assert sorted[k] in multiset(s);
      }
    }
    assert NonIncreasing(r) by {
      forall i, j | 0 <= i < j < |r|
        ensures r[i].cantidad >= r[j].cantidad
      {
        assert r[i] == sorted[i] && r[j] == sorted[j];
      }
    }
    r
  }

  /** Nothing left out of the top list outranks anything in it: every entry of
      the input that is not among the first `n` has a quantity no greater than
      each of them. */
  lemma TopDominates(s: seq<Entry>, n: nat, x: Entry)
    requires x in s
    requires x !in Top(s, n)
    ensures forall k | 0 <= k < |Top(s, n)| :: Top(s, n)[k].cantidad >= x.cantidad
  {
    var sorted := SortDesc(s);
    assert x in multiset(sorted);
    var j :| 0 <= j < |sorted| && sorted[j] == x;
    var m := if |s| < n then |s| else n;
    assert Top(s, n) == sorted[..m];
  }

  lemma PrefixSubMultiset(s: seq<Entry>, m: nat)
    requires m <= |s|
    ensures multiset(s[..m]) <= multiset(s)
  {
    assert s == s[..m] + s[m..];
  }

  /** Inserting an entry whose product is new keeps the products distinct. */
  lemma {:induction false} InsertDistinct(e: Entry, t: seq<Entry>)
    requires NonIncreasing(t) && DistinctKeys(t)
    requires forall k | 0 <= k < |t| :: t[k].producto != e.producto
    ensures DistinctKeys(Insert(e, t))
  {
    if t != [] && e.cantidad < t[0].cantidad {
      var rest := t[1..];
      assert forall k | 0 <= k < |rest| :: rest[k] == t[k + 1];
      InsertDistinct(e, rest);
      var u := Insert(e, rest);
      var r := [t[0]] + u;
      assert Insert(e, t) == r;
      forall i, j | 0 <= i < j < |r|
        ensures r[i].producto != r[j].producto
      {
        assert r[j] == u[j - 1];
        if i > 0 {
          assert r[i] == u[i - 1];
        } else {
          assert u[j - 1] in multiset(rest) + multiset{e};
          if u[j - 1] != e {
            assert u[j - 1] in rest;
          }
        }
      }
    } else {
      var r := [e] + t;
      assert Insert(e, t) == r;
      forall i, j | 0 <= i < j < |r|
        ensures r[i].producto != r[j].producto
      {
        assert r[j] == t[j - 1];
        if i > 0 {
          assert r[i] == t[i - 1];
        }
      }
    }
  }

  /** Sorting keeps the products distinct. */
  lemma {:induction false} SortDescDistinct(s: seq<Entry>)
    requires DistinctKeys(s)
    ensures DistinctKeys(SortDesc(s))
  {
    if s != [] {
      var rest := s[1..];
      assert forall k | 0 <= k < |rest| :: rest[k] == s[k + 1];
      SortDescDistinct(rest);
      var t := SortDesc(rest);
      forall k | 0 <= k < |t|
        ensures t[k].producto != s[0].producto
      {
        assert t[k] in multiset(rest);
        assert t[k] in rest;
      }
      InsertDistinct(s[0], t);
    }
  }

  /** The top list of entries with distinct products has distinct products. */
  lemma TopDistinct(s: seq<Entry>, n: nat)
    requires DistinctKeys(s)
    ensures DistinctKeys(Top(s, n))
  {
    SortDescDistinct(s);
    var sorted := SortDesc(s);
    var r := Top(s, n);
    assert r == sorted[..|r|];
    forall i, j | 0 <= i < j < |r|
      ensures r[i].producto != r[j].producto
    {
      assert r[i] == sorted[i] && r[j] == sorted[j];
    }
  }
}
