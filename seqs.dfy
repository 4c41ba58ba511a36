/** Sequence operations the pages use through `filter`, `reduce` and `Map`. */
module Seqs {
  import opened Common

  /** The elements of `xs` that satisfy `p`, in their original order (`Array.prototype.filter`). */
  function Keep<T>(xs: seq<T>, p: T -> bool): (r: seq<T>)
    ensures |r| <= |xs|
    ensures forall i :: 0 <= i < |r| ==> p(r[i])
  {
    if xs == [] then [] else (if p(xs[0]) then [xs[0]] else []) + Keep(xs[1..], p)
  }

  /** Filtering distributes over concatenation, so it keeps the original order. */
  lemma {:induction false} KeepAppend<T>(a: seq<T>, b: seq<T>, p: T -> bool)
    ensures Keep(a + b, p) == Keep(a, p) + Keep(b, p)
  {
    if a == [] {
      assert a + b == b;
    } else {
      assert (a + b)[1..] == a[1..] + b;
      KeepAppend(a[1..], b, p);
    }
  }

  /** An element is kept exactly when it is in the sequence and passes the filter. */
  lemma {:induction false} KeepContains<T>(xs: seq<T>, p: T -> bool, x: T)
    ensures x in Keep(xs, p) <==> x in xs && p(x)
  {
    if xs != [] {
      KeepContains(xs[1..], p, x);
      assert xs == [xs[0]] + xs[1..];
    }
  }

  /** A filter that every element passes returns the whole sequence. */
  lemma {:induction false} KeepAll<T>(xs: seq<T>, p: T -> bool)
    requires forall i :: 0 <= i < |xs| ==> p(xs[i])
    ensures Keep(xs, p) == xs
  {
    if xs != [] {
      KeepAll(xs[1..], p);
    }
  }

  /** Two filters that agree on every element keep the same elements. */
  lemma {:induction false} KeepSame<T>(xs: seq<T>, p: T -> bool, q: T -> bool)
    requires forall i :: 0 <= i < |xs| ==> p(xs[i]) == q(xs[i])
    ensures Keep(xs, p) == Keep(xs, q)
  {
    if xs != [] {
      KeepSame(xs[1..], p, q);
    }
  }

  /** A filter no element passes returns nothing. */
  lemma {:induction false} KeepNone<T>(xs: seq<T>, p: T -> bool)
    requires forall i :: 0 <= i < |xs| ==> !p(xs[i])
    ensures Keep(xs, p) == []
  {
    if xs != [] {
      KeepNone(xs[1..], p);
    }
  }

  /** A filter that passes exactly the positions `lo` to `hi` keeps that slice. */
  lemma KeepRange<T>(xs: seq<T>, p: T -> bool, lo: nat, hi: nat)
    requires lo <= hi <= |xs|
    requires forall i :: 0 <= i < |xs| ==> (p(xs[i]) <==> lo <= i < hi)
    ensures Keep(xs, p) == xs[lo..hi]
  {
    KeepSlice(xs, p, 0, lo, false);
    KeepSlice(xs, p, lo, hi, true);
    KeepSlice(xs, p, hi, |xs|, false);
    KeepSlices(xs, p, lo, hi);
  }

  lemma KeepSlices<T>(xs: seq<T>, p: T -> bool, lo: nat, hi: nat)
    requires lo <= hi <= |xs|
    requires Keep(xs[0..lo], p) == [] && Keep(xs[lo..hi], p) == xs[lo..hi] && Keep(xs[hi..|xs|], p) == []
    ensures Keep(xs, p) == xs[lo..hi]
  {
    SplitThree(xs, lo, hi);
    KeepThree(xs[0..lo], xs[lo..hi], xs[hi..|xs|], p);
  }

  lemma SplitThree<T>(xs: seq<T>, lo: nat, hi: nat)
    requires lo <= hi <= |xs|
    ensures xs[0..lo] + (xs[lo..hi] + xs[hi..|xs|]) == xs
  {
  }

  /** A slice on which the filter is constant keeps all of it or nothing. */
  lemma KeepSlice<T>(xs: seq<T>, p: T -> bool, from: nat, to: nat, passes: bool)
    requires from <= to <= |xs|
    requires forall i :: from <= i < to ==> p(xs[i]) == passes
    ensures Keep(xs[from..to], p) == if passes then xs[from..to] else []
  {
    var s := xs[from..to];
    forall i | 0 <= i < |s| ensures p(s[i]) == passes {
      assert s[i] == xs[from + i];
    }
    if passes {
      KeepAll(s, p);
    } else {
      KeepNone(s, p);
    }
  }

  lemma KeepThree<T>(a: seq<T>, b: seq<T>, c: seq<T>, p: T -> bool)
    requires Keep(a, p) == [] && Keep(b, p) == b && Keep(c, p) == []
    ensures Keep(a + (b + c), p) == b
  {
    KeepAppend(b, c, p);
    KeepAppend(a, b + c, p);
  }

  /** A filter that rejects exactly one element splices that element out. */
  lemma {:induction false} KeepDropOne<T>(xs: seq<T>, i: nat, p: T -> bool)
    requires i < |xs|
    requires !p(xs[i])
    requires forall j :: 0 <= j < |xs| && j != i ==> p(xs[j])
    ensures Keep(xs, p) == xs[..i] + xs[i + 1..]
  {
    if i == 0 {
      KeepAll(xs[1..], p);
    } else {
      KeepDropOne(xs[1..], i - 1, p);
      assert xs[1..][..i - 1] + xs[1..][i..] == xs[1..i] + xs[i + 1..];
      assert [xs[0]] + xs[1..i] == xs[..i];
    }
  }



  /** `reduce((sum, x) => sum + f(x), 0)`. */
  function SumReal<T>(xs: seq<T>, f: T -> real): real
  {
    if xs == [] then 0.0 else f(xs[0]) + SumReal(xs[1..], f)
  }

  lemma {:induction false} SumAppend<T>(a: seq<T>, b: seq<T>, f: T -> real)
    ensures SumReal(a + b, f) == SumReal(a, f) + SumReal(b, f)
  {
    if a == [] {
      assert a + b == b;
    } else {
      assert (a + b)[1..] == a[1..] + b;
      SumAppend(a[1..], b, f);
    }
  }

  /** Replacing one element changes the sum by the difference of the two terms. */
  lemma {:induction false} SumUpdate<T>(xs: seq<T>, i: nat, v: T, f: T -> real)
    requires i < |xs|
    ensures SumReal(xs[i := v], f) == SumReal(xs, f) - f(xs[i]) + f(v)
  {
    if i > 0 {
      assert xs[i := v][1..] == xs[1..][i - 1 := v];
      SumUpdate(xs[1..], i - 1, v, f);
    } else {
      assert xs[i := v][1..] == xs[1..];
    }
  }

  /** A sum splits into the part a filter keeps and the part it drops. */
  lemma {:induction false} SumKeepSplit<T>(xs: seq<T>, f: T -> real, p: T -> bool, q: T -> bool)
    requires forall x :: q(x) == !p(x)
    ensures SumReal(xs, f) == SumReal(Keep(xs, p), f) + SumReal(Keep(xs, q), f)
  {
    if xs != [] {
      SumKeepSplit(xs[1..], f, p, q);
      var head := [xs[0]];
      assert Keep(xs, p) == (if p(xs[0]) then head else []) + Keep(xs[1..], p);
      assert Keep(xs, q) == (if q(xs[0]) then head else []) + Keep(xs[1..], q);
      if p(xs[0]) {
        SumAppend(head, Keep(xs[1..], p), f);
        SumAppend([], Keep(xs[1..], q), f);
      } else {
        SumAppend([], Keep(xs[1..], p), f);
        SumAppend(head, Keep(xs[1..], q), f);
      }
    }
  }

  /** Element-count of a predicate. */
  function Count<T>(xs: seq<T>, p: T -> bool): (n: nat)
    ensures n <= |xs|
    ensures n == |Keep(xs, p)|
  {
    if xs == [] then 0 else (if p(xs[0]) then 1 else 0) + Count(xs[1..], p)
  }

  // ---------------------------------------------------------------------
  // Association lists: a JavaScript `Map` keeps its keys in first-insertion
  // order, and `set` on a present key replaces the value in place.

  function Keys<V>(m: seq<(string, V)>): (ks: seq<string>)
    ensures |ks| == |m|
    ensures forall i :: 0 <= i < |m| ==> ks[i] == m[i].0
  {
    if m == [] then [] else [m[0].0] + Keys(m[1..])
  }

  predicate DistinctKeys<V>(m: seq<(string, V)>)
  {
    forall i, j :: 0 <= i < j < |m| ==> m[i].0 != m[j].0
  }

  /** `map.get(k)`. */
  function Lookup<V>(m: seq<(string, V)>, k: string): (r: Option<V>)
    ensures r.None? <==> forall i :: 0 <= i < |m| ==> m[i].0 != k
    ensures r.Some? ==> exists i :: 0 <= i < |m| && m[i] == (k, r.value)
  {
    if m == [] then None
    else if m[0].0 == k then Some(m[0].1)
    else Lookup(m[1..], k)
  }

  /** The position of key `k`, if present. */
  function IndexOf<V>(m: seq<(string, V)>, k: string): (r: Option<nat>)
    ensures r.None? <==> forall i :: 0 <= i < |m| ==> m[i].0 != k
    ensures r.Some? ==> r.value < |m| && m[r.value].0 == k
    ensures r.Some? ==> forall i :: 0 <= i < r.value ==> m[i].0 != k
  {
    if m == [] then None
    else if m[0].0 == k then Some(0)
    else match IndexOf(m[1..], k)
      case None => None
      case Some(i) => Some(i + 1)
  }

  /** `map.set(k, v)`: replace in place when present, append otherwise. */
  function Put<V>(m: seq<(string, V)>, k: string, v: V): (r: seq<(string, V)>)
    ensures IndexOf(m, k).Some? ==> r == m[IndexOf(m, k).value := (k, v)]
    ensures IndexOf(m, k).None? ==> r == m + [(k, v)]
  {
    match IndexOf(m, k)
    case Some(i) => m[i := (k, v)]
    case None => m + [(k, v)]
  }

  /** `set` keeps the keys distinct, stores `v` under `k`, and keeps the other entries. */
  lemma PutProperties<V>(m: seq<(string, V)>, k: string, v: V)
    requires DistinctKeys(m)
    ensures DistinctKeys(Put(m, k, v))
    ensures Lookup(Put(m, k, v), k) == Some(v)
    ensures forall k' :: k' != k ==> Lookup(Put(m, k, v), k') == Lookup(m, k')
    ensures |Put(m, k, v)| == |m| + (if IndexOf(m, k).Some? then 0 else 1)
  {
    var r := Put(m, k, v);
    assert |r| == |m| || |r| == |m| + 1;
    assert forall j :: 0 <= j < |m| && m[j].0 != k ==> r[j] == m[j];
    assert forall j :: 0 <= j < |r| ==> r[j].0 == k || (j < |m| && r[j] == m[j]);
    assert DistinctKeys(r);
    LookupUnique(r, k);
    var i :| 0 <= i < |r| && r[i] == (k, v);
    forall k' | k' != k
      ensures Lookup(r, k') == Lookup(m, k')
    {
      LookupUnique(m, k');
      LookupUnique(r, k');
    }
  }

  /** With distinct keys, the entry found for a key is its unique entry. */
  lemma LookupUnique<V>(m: seq<(string, V)>, k: string)
    requires DistinctKeys(m)
    ensures forall i :: 0 <= i < |m| && m[i].0 == k ==> Lookup(m, k) == Some(m[i].1)
  {
    if m != [] && m[0].0 != k {
      assert DistinctKeys(m[1..]);
      LookupUnique(m[1..], k);
      forall i | 0 <= i < |m| && m[i].0 == k
        ensures Lookup(m, k) == Some(m[i].1)
      {
        assert m[1..][i - 1] == m[i];
      }
    }
  }

  /** The values of an association list. */
  function Values<V>(m: seq<(string, V)>): (vs: seq<V>)
    ensures |vs| == |m|
    ensures forall i :: 0 <= i < |m| ==> vs[i] == m[i].1
  {
    if m == [] then [] else [m[0].1] + Values(m[1..])
  }
}
