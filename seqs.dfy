/** Sequence operations shared by the slice- and collection-backed stores:
    first-match search, order-preserving splice, and filtering. */
module Seqs {
  import opened Wrappers

  /** `order` lists every key of `m` exactly once: one of the orders a Go range loop over a map may take. */
  predicate IsIterationOrder<K, V>(m: map<K, V>, order: seq<K>) {
    && (forall i :: 0 <= i < |order| ==> order[i] in m)
    && (forall k :: k in m ==> k in order)
    && (forall i, j :: 0 <= i < j < |order| ==> order[i] != order[j])
  }

  /** The index of the first element satisfying `p`, as a range loop with an early return finds it. */
  function FirstWhere<T>(s: seq<T>, p: T -> bool): (r: Option<nat>)
    ensures r.Some? ==> r.value < |s| && p(s[r.value])
    ensures r.Some? ==> forall j :: 0 <= j < r.value ==> !p(s[j])
    ensures r.None? <==> forall j :: 0 <= j < |s| ==> !p(s[j])
  {
    if |s| == 0 then None
    else if p(s[0]) then Some(0)
    else match FirstWhere(s[1..], p)
      case None => None
      case Some(i) => Some(i + 1)
  }

  /** Go's `append(s[:i], s[i+1:]...)`: drop position `i`, keep the rest in order. */
  function RemoveAt<T>(s: seq<T>, i: nat): (r: seq<T>)
    requires i < |s|
    ensures |r| == |s| - 1
    ensures forall j :: 0 <= j < i ==> r[j] == s[j]
    ensures forall j :: i <= j < |r| ==> r[j] == s[j + 1]
    ensures multiset(r) + multiset{s[i]} == multiset(s)
  {
    assert s == s[..i] + [s[i]] + s[i+1..];
    s[..i] + s[i+1..]
  }

  /** The elements satisfying `p`, in their original order. */
  function Filter<T>(s: seq<T>, p: T -> bool): (r: seq<T>)
    ensures |r| <= |s|
    ensures forall j :: 0 <= j < |r| ==> p(r[j])
    ensures forall j :: 0 <= j < |r| ==> r[j] in s
    ensures forall j :: 0 <= j < |s| && p(s[j]) ==> s[j] in r
  {
    if |s| == 0 then []
    else if p(s[0]) then [s[0]] + Filter(s[1..], p)
    else Filter(s[1..], p)
  }

  /** The number of elements satisfying `p`. */
  function CountWhere<T>(s: seq<T>, p: T -> bool): (n: nat)
    ensures n <= |s|
    ensures n == 0 <==> forall j :: 0 <= j < |s| ==> !p(s[j])
  {
    if |s| == 0 then 0
    else (if p(s[0]) then 1 else 0) + CountWhere(s[1..], p)
  }

  /** Filtering out the elements that satisfy `p` removes exactly `CountWhere(s, p)` of them. */
  lemma {:induction false} FilterComplementCount<T>(s: seq<T>, p: T -> bool, q: T -> bool)
    requires forall x :: q(x) == !p(x)
    ensures |Filter(s, q)| + CountWhere(s, p) == |s|
  {
    if |s| > 0 {
      FilterComplementCount(s[1..], p, q);
    }
  }

  /** Removing the first match drops exactly one of the matches. */
  lemma {:induction false} RemoveFirstCount<T>(s: seq<T>, p: T -> bool)
    requires FirstWhere(s, p).Some?
    ensures CountWhere(RemoveAt(s, FirstWhere(s, p).value), p) == CountWhere(s, p) - 1
  {
    if !p(s[0]) {
      RemoveFirstCount(s[1..], p);
      assert RemoveAt(s, FirstWhere(s, p).value)[1..] == RemoveAt(s[1..], FirstWhere(s[1..], p).value);
    } else {
      assert RemoveAt(s, 0) == s[1..];
    }
  }
}
