/**
 * The array operations the stores are built from (`findIndex`, `find`,
 * `some`, `push`, `splice`) and the id discipline every store keeps: ids
 * strictly increasing along the array and all below the store's counter.
 */
module Seqs {

  /**
   * `s.findIndex(p)`: the index of the first element satisfying `p`, or -1
   * when there is none. `find` and `some` are this index compared with -1.
   */
  method FindIndex<T>(s: seq<T>, p: T -> bool) returns (i: int)
    ensures -1 <= i < |s|
    ensures i == -1 <==> forall k :: 0 <= k < |s| ==> !p(s[k])
    ensures i != -1 ==> p(s[i]) && forall k :: 0 <= k < i ==> !p(s[k])
  {
    i := 0;
    while i < |s|
      invariant 0 <= i <= |s|
      invariant forall k :: 0 <= k < i ==> !p(s[k])
    {
      if p(s[i]) {
        return;
      }
      i := i + 1;
    }
    i := -1;
  }

  /** Keys strictly increase from the front of the array to the back. */
  predicate Increasing<T>(s: seq<T>, key: T -> int)
  {
    forall i, j :: 0 <= i < j < |s| ==> key(s[i]) < key(s[j])
  }

  /** Every key lies in `[lo, hi)`. */
  predicate Within<T>(s: seq<T>, key: T -> int, lo: int, hi: int)
  {
    forall i :: 0 <= i < |s| ==> lo <= key(s[i]) < hi
  }

  /** Some element has key `k`. */
  predicate HasKey<T>(s: seq<T>, key: T -> int, k: int)
  {
    exists i :: 0 <= i < |s| && key(s[i]) == k
  }

  /** `s.splice(i, 1)`: the array without its element at `i`, the rest in order. */
  function RemoveAt<T>(s: seq<T>, i: nat): (r: seq<T>)
    requires i < |s|
    ensures |r| == |s| - 1
    ensures forall k :: 0 <= k < i ==> r[k] == s[k]
    ensures forall k :: i <= k < |r| ==> r[k] == s[k + 1]
    ensures multiset(r) + multiset{s[i]} == multiset(s)
  {
    assert s == s[..i] + [s[i]] + s[i + 1..];
    s[..i] + s[i + 1..]
  }

  /** In an increasing array a key identifies at most one position. */
  lemma IncreasingKeyUnique<T>(s: seq<T>, key: T -> int, i: int, j: int)
    requires Increasing(s, key)
    requires 0 <= i < |s| && 0 <= j < |s|
    requires key(s[i]) == key(s[j])
    ensures i == j
  {
  }

  /** Appending an element keyed by the counter keeps the discipline, with the counter one higher. */
  lemma PushKeepsIds<T>(s: seq<T>, key: T -> int, x: T, next: int)
    requires Increasing(s, key) && Within(s, key, 1, next)
    requires 1 <= next && key(x) == next
    ensures Increasing(s + [x], key) && Within(s + [x], key, 1, next + 1)
  {
  }

  /** Splicing one element out keeps the discipline and leaves no element with its key. */
  lemma RemoveAtKeepsIds<T>(s: seq<T>, key: T -> int, i: nat, next: int)
    requires i < |s|
    requires Increasing(s, key) && Within(s, key, 1, next)
    ensures Increasing(RemoveAt(s, i), key) && Within(RemoveAt(s, i), key, 1, next)
    ensures !HasKey(RemoveAt(s, i), key, key(s[i]))
  {
  }

  /** Replacing an element by one with the same key keeps the discipline. */
  lemma ReplaceKeepsIds<T>(s: seq<T>, key: T -> int, i: nat, x: T, next: int)
    requires i < |s| && key(x) == key(s[i])
    requires Increasing(s, key) && Within(s, key, 1, next)
    ensures Increasing(s[i := x], key) && Within(s[i := x], key, 1, next)
  {
  }

  /** Dropping the first element keeps the discipline. */
  lemma DropFirstKeepsIds<T>(s: seq<T>, key: T -> int, next: int)
    requires s != []
    requires Increasing(s, key) && Within(s, key, 1, next)
    ensures Increasing(s[1..], key) && Within(s[1..], key, 1, next)
  {
  }

  /** Putting in front an element whose key is smaller than every other keeps the discipline. */
  lemma ConsKeepsIds<T>(x: T, t: seq<T>, key: T -> int, next: int)
    requires Increasing(t, key) && Within(t, key, 1, next)
    requires 1 <= key(x) < next
    requires forall y :: y in t ==> key(x) < key(y)
    ensures Increasing([x] + t, key) && Within([x] + t, key, 1, next)
  {
  }
}
