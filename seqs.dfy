/** The array methods the stores lean on (`filter`, `findIndex`, and the
    `reduce` that finds the largest id), as functions over sequences, each
    specified by what it computes rather than how. */
module Seqs {

  /** `s.filter(keep)`: the elements that pass, in their original order. */
  function Filter<T>(s: seq<T>, keep: T -> bool): (r: seq<T>)
    ensures |r| <= |s|
    ensures forall i :: 0 <= i < |r| ==> r[i] in s && keep(r[i])
    ensures forall i :: 0 <= i < |s| && keep(s[i]) ==> s[i] in r
  {
    if s == [] then []
    else
      assert s == [s[0]] + s[1..];
      (if keep(s[0]) then [s[0]] else []) + Filter(s[1..], keep)
  }

  /** How many elements of `s` pass `keep`, counted one by one. */
  function Count<T>(s: seq<T>, keep: T -> bool): nat {
    if s == [] then 0 else (if keep(s[0]) then 1 else 0) + Count(s[1..], keep)
  }

  /** `s.filter(keep).length`: the filter keeps exactly the passing elements,
      so its length is their count. */
  lemma {:induction false} FilterLength<T>(s: seq<T>, keep: T -> bool)
    ensures |Filter(s, keep)| == Count(s, keep)
  {
    if s != [] {
      FilterLength(s[1..], keep);
    }
  }

  /** Filtering works element by element, so it keeps the relative order:
      the filter of a concatenation is the concatenation of the filters. */
  lemma {:induction false} FilterConcat<T>(a: seq<T>, b: seq<T>, keep: T -> bool)
    ensures Filter(a + b, keep) == Filter(a, keep) + Filter(b, keep)
  {
    if a == [] {
      assert a + b == b;
    } else {
      assert (a + b)[1..] == a[1..] + b;
      FilterConcat(a[1..], b, keep);
    }
  }

  /** A filter that keeps everything is the identity. */
  lemma {:induction false} FilterKeepsAll<T>(s: seq<T>, keep: T -> bool)
    requires forall i :: 0 <= i < |s| ==> keep(s[i])
    ensures Filter(s, keep) == s
  {
    if s != [] {
      FilterKeepsAll(s[1..], keep);
    }
  }

  /** `s.findIndex(x => idOf(x) === id)`: the position of the first element
      carrying `id`, or -1 when there is none. */
  function FindIndex<T>(s: seq<T>, id: int, idOf: T -> int): (r: int)
    ensures -1 <= r < |s|
    ensures r == -1 <==> forall k :: 0 <= k < |s| ==> idOf(s[k]) != id
    ensures 0 <= r ==> idOf(s[r]) == id && forall k :: 0 <= k < r ==> idOf(s[k]) != id
  {
    if s == [] then -1
    else if idOf(s[0]) == id then 0
    else
      var k := FindIndex(s[1..], id, idOf);
      if k == -1 then -1 else k + 1
  }

  /** `s.reduce((acc, x) => Math.max(acc, idOf(x)), acc)`: the least upper
      bound of `acc` and every id in `s`. */
  function MaxIdFrom<T>(acc: int, s: seq<T>, idOf: T -> int): (r: int)
    decreases |s|
    ensures acc <= r
    ensures forall k :: 0 <= k < |s| ==> idOf(s[k]) <= r
    ensures r == acc || exists k :: 0 <= k < |s| && idOf(s[k]) == r
  {
    if s == [] then acc
    else
      var r := MaxIdFrom(if idOf(s[0]) > acc then idOf(s[0]) else acc, s[1..], idOf);
      assert forall k :: 1 <= k < |s| ==> s[k] == s[1..][k - 1];
      r
  }

  /** The next id every store derives on load and the service uses on post:
      one past the largest id, and 1 for an empty list. */
  function NextIdAfter<T>(s: seq<T>, idOf: T -> int): (r: int)
    ensures 1 <= r
    ensures IdsBelow(s, r, idOf)
    ensures r == 1 || exists k :: 0 <= k < |s| && idOf(s[k]) == r - 1
  {
    MaxIdFrom(0, s, idOf) + 1
  }

  /** Every id in `s` is below `bound`: `bound` is fresh for `s`. */
  predicate IdsBelow<T>(s: seq<T>, bound: int, idOf: T -> int) {
    forall k :: 0 <= k < |s| ==> idOf(s[k]) < bound
  }

  /** The predicate `x => idOf(x) !== id` that `remove` filters with. */
  function OtherThan<T>(id: int, idOf: T -> int): T -> bool {
    x => idOf(x) != id
  }
}
