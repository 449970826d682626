/** Order-preserving sub-sequences, used to state what a `filter` keeps, and lists whose
    elements are told apart by a key (an id). */
module Seqs {

  /** `sub` is obtained from `s` by deleting some elements, keeping the order of the rest. */
  predicate IsSubsequence<T(==)>(sub: seq<T>, s: seq<T>)
    decreases |s|
  {
    if sub == [] then true
    else if s == [] then false
    else (sub[0] == s[0] && IsSubsequence(sub[1..], s[1..])) || IsSubsequence(sub, s[1..])
  }

  /** A sub-sequence is never longer than the sequence it comes from. */
  lemma {:induction false} SubsequenceLength<T>(sub: seq<T>, s: seq<T>)
    requires IsSubsequence(sub, s)
    ensures |sub| <= |s|
    decreases |s|
  {
    if sub != [] {
      if sub[0] == s[0] && IsSubsequence(sub[1..], s[1..]) {
        SubsequenceLength(sub[1..], s[1..]);
      } else {
        SubsequenceLength(sub, s[1..]);
      }
    }
  }

  /** No two elements of `s` have the same key. */
  predicate DistinctKeys<T, K(==)>(s: seq<T>, key: T -> K)
  {
    forall i, j :: 0 <= i < j < |s| ==> key(s[i]) != key(s[j])
  }

  /** How many elements of `s` have the key `k`. */
  function CountKey<T, K(==)>(s: seq<T>, key: T -> K, k: K): nat
  {
    if |s| == 0 then 0 else (if key(s[0]) == k then 1 else 0) + CountKey(s[1..], key, k)
  }

  /** Dropping the first element keeps the keys distinct. */
  lemma DistinctKeysTail<T, K>(s: seq<T>, key: T -> K)
    requires DistinctKeys(s, key) && |s| > 0
    ensures DistinctKeys(s[1..], key)
  {
  }

  /** An element whose key no other element has can be put in front of a list with
      distinct keys. */
  lemma DistinctKeysCons<T, K>(x: T, rest: seq<T>, key: T -> K)
    requires DistinctKeys(rest, key)
    requires forall i :: 0 <= i < |rest| ==> key(rest[i]) != key(x)
    ensures DistinctKeys([x] + rest, key)
  {
  }

  /** With distinct keys, a key that occurs is counted once and one that does not occur
      is not counted. */
  lemma {:induction false} DistinctKeyCountsOnce<T, K>(s: seq<T>, key: T -> K, k: K)
    requires DistinctKeys(s, key)
    ensures CountKey(s, key, k) == if exists i :: 0 <= i < |s| && key(s[i]) == k then 1 else 0
  {
    if |s| > 0 {
      var tail := s[1..];
      DistinctKeysTail(s, key);
      DistinctKeyCountsOnce(tail, key, k);
      if key(s[0]) == k {
        assert forall i :: 0 <= i < |tail| ==> key(tail[i]) != k by {
          forall i | 0 <= i < |tail| ensures key(tail[i]) != k {
            assert tail[i] == s[i + 1];
          }
        }
      } else {
        if exists i :: 0 <= i < |s| && key(s[i]) == k {
          var i :| 0 <= i < |s| && key(s[i]) == k;
          assert key(tail[i - 1]) == k;
        }
        if exists i :: 0 <= i < |tail| && key(tail[i]) == k {
          var i :| 0 <= i < |tail| && key(tail[i]) == k;
          assert key(s[i + 1]) == k;
        }
      }
    }
  }
}
