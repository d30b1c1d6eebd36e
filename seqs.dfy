/** `Array.prototype.filter` and `Array.prototype.map` as the components use
    them on their state lists, with the facts about order and membership the
    rest of the model relies on. */
module Seqs {

  /** No element occurs twice. */
  predicate NoDuplicates<T(==)>(s: seq<T>) {
    forall i, j :: 0 <= i < j < |s| ==> s[i] != s[j]
  }

  /** `r` is obtained from `s` by deleting elements, keeping the order of
      the rest. */
  predicate IsSubsequence<T(==)>(r: seq<T>, s: seq<T>)
    decreases |s|
  {
    if r == [] then true
    else if s == [] then false
    else if r[0] == s[0] then IsSubsequence(r[1..], s[1..])
    else IsSubsequence(r, s[1..])
  }

  /** `s.filter(p)`: the order-preserving sub-list of the elements that
      satisfy `p`. `FilterCounts` adds that each is kept as often as it
      occurs in `s`. */
  function Filter<T(==, !new)>(s: seq<T>, p: T -> bool): (r: seq<T>)
    ensures |r| <= |s|
    ensures forall i :: 0 <= i < |r| ==> p(r[i])
    ensures IsSubsequence(r, s)
  {
    if s == [] then []
    else
      var rest := Filter(s[1..], p);
      if p(s[0]) then
        assert ([s[0]] + rest)[1..] == rest;
        [s[0]] + rest
      else
        rest
  }

  /** Filtering keeps each element that satisfies `p` as many times as it
      occurs, and drops every other element. */
  lemma {:induction false} FilterCounts<T(!new)>(s: seq<T>, p: T -> bool)
    ensures forall x :: multiset(Filter(s, p))[x] == if p(x) then multiset(s)[x] else 0
    ensures forall x :: x in Filter(s, p) <==> x in s && p(x)
  {
    if s != [] {
      var rest := Filter(s[1..], p);
      FilterCounts(s[1..], p);
      assert s == [s[0]] + s[1..];
      assert multiset(s) == multiset{s[0]} + multiset(s[1..]);
      if p(s[0]) {
        assert multiset([s[0]] + rest) == multiset{s[0]} + multiset(rest);
      }
    }
  }

  /** Filtering a list whose every element passes gives the list back. */
  lemma {:induction false} FilterAllPass<T(!new)>(s: seq<T>, p: T -> bool)
    requires forall i :: 0 <= i < |s| ==> p(s[i])
    ensures Filter(s, p) == s
  {
    if s != [] {
      assert forall i :: 0 <= i < |s[1..]| ==> s[1..][i] == s[i + 1];
      FilterAllPass(s[1..], p);
      assert s == [s[0]] + s[1..];
    }
  }

  /** Filtering distributes over concatenation. */
  lemma {:induction false} FilterConcat<T(!new)>(a: seq<T>, b: seq<T>, p: T -> bool)
    ensures Filter(a + b, p) == Filter(a, p) + Filter(b, p)
  {
    if a == [] {
      assert a + b == b;
    } else {
      assert (a + b)[1..] == a[1..] + b;
      FilterConcat(a[1..], b, p);
    }
  }

  /** A sub-list of a duplicate-free list is duplicate-free. */
  lemma {:induction false} SubsequenceNoDuplicates<T>(r: seq<T>, s: seq<T>)
    requires IsSubsequence(r, s) && NoDuplicates(s)
    ensures NoDuplicates(r)
    decreases |s|
  {
    if r != [] && s != [] {
      if r[0] == s[0] {
        SubsequenceNoDuplicates(r[1..], s[1..]);
        SubsequenceElements(r[1..], s[1..]);
        forall j | 0 < j < |r| ensures r[0] != r[j] {
          assert r[j] == r[1..][j - 1];
          assert r[j] in s[1..];
        }
      } else {
        SubsequenceNoDuplicates(r, s[1..]);
      }
    }
  }

  /** The elements of a sub-list are elements of the list. */
  lemma {:induction false} SubsequenceElements<T>(r: seq<T>, s: seq<T>)
    requires IsSubsequence(r, s)
    ensures forall x :: x in r ==> x in s
    decreases |s|
  {
    if r != [] && s != [] {
      if r[0] == s[0] {
        SubsequenceElements(r[1..], s[1..]);
        assert forall x :: x in r ==> x == r[0] || x in r[1..];
      } else {
        SubsequenceElements(r, s[1..]);
      }
    }
  }

  /** `s.map(x => sel(x) ? f(x) : x)`: the elements that `sel` picks are
      replaced by their image under `f`, every other element stays where it
      was. */
  function MapWhere<T>(s: seq<T>, sel: T -> bool, f: T -> T): (r: seq<T>)
    ensures |r| == |s|
    ensures forall i :: 0 <= i < |s| && sel(s[i]) ==> r[i] == f(s[i])
    ensures forall i :: 0 <= i < |s| && !sel(s[i]) ==> r[i] == s[i]
  {
    if s == [] then []
    else [if sel(s[0]) then f(s[0]) else s[0]] + MapWhere(s[1..], sel, f)
  }
}
