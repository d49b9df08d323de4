/** Facts about sequences and maps shared by the other modules. */
module Sequences {

  datatype Option<+T> = None | Some(value: T)

  /** The last n elements of s, or all of s when it is shorter. */
  function KeepLast<T>(s: seq<T>, n: nat): seq<T> {
    if |s| <= n then s else s[|s| - n..]
  }

  /** Trimming after every append is the same as trimming once at the end. */
  lemma KeepLastAppend<T>(s: seq<T>, x: T, n: nat)
    requires n > 0
    ensures KeepLast(KeepLast(s, n) + [x], n) == KeepLast(s + [x], n)
  {
  }

  /** The value stored under k, or the given default: Go's reading of a missing key. */
  function Lookup<K, V>(m: map<K, V>, k: K, default: V): V {
    if k in m then m[k] else default
  }

  /** b is what is left of a after deleting some of its positions. */
  ghost predicate Subsequence<T>(b: seq<T>, a: seq<T>)
    decreases |a|
  {
    if b == [] then true
    else if a == [] then false
    else (b[0] == a[0] && Subsequence(b[1..], a[1..])) || Subsequence(b, a[1..])
  }

  predicate NonDecreasing(s: seq<int>) {
    forall i, j | 0 <= i < j < |s| :: s[i] <= s[j]
  }
}
