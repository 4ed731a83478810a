/** The handful of `Vec` operations the engine relies on, over any element type. */
module Seqs {
  import opened Wrappers

  /** `i` is the first position of `x` in `s`. */
  predicate FirstAt<T(==)>(s: seq<T>, x: T, i: int) {
    0 <= i < |s| && s[i] == x && forall j :: 0 <= j < i ==> s[j] != x
  }

  /** `iter().position(|e| e == x)`: the first index holding `x`, if any. */
  function Position<T(==)>(s: seq<T>, x: T): (r: Option<nat>)
    ensures r.None? <==> x !in s
    ensures r.Some? ==> FirstAt(s, x, r.value)
  {
    if |s| == 0 then None
    else if s[0] == x then Some(0)
    else
      match Position(s[1..], x)
      case None => None
      case Some(i) => Some(i + 1)
  }

  /**
   * `if let Some(i) = s.iter().position(..) { s[i] = y }`: overwrite the first
   * occurrence of `x` with `y`; leave `s` alone when `x` does not occur.
   */
  function ReplaceFirst<T(==)>(s: seq<T>, x: T, y: T): (r: seq<T>)
    ensures |r| == |s|
    ensures x !in s ==> r == s
    ensures x in s ==> exists i :: FirstAt(s, x, i) && r == s[i := y]
  {
    match Position(s, x)
    case None => s
    case Some(i) => s[i := y]
  }

  /**
   * `if let Some(i) = s.iter().position(..) { s.remove(i) }`: drop the first
   * occurrence of `x`; `s` itself when `x` does not occur.
   */
  function RemoveFirst<T(==)>(s: seq<T>, x: T): (r: seq<T>)
    ensures x !in s ==> r == s
    ensures x in s ==> |r| == |s| - 1 && multiset(r) + multiset{x} == multiset(s)
    ensures x in s ==> exists i :: FirstAt(s, x, i) && r == s[..i] + s[i + 1..]
  {
    match Position(s, x)
    case None => s
    case Some(i) =>
      assert s == s[..i] + [s[i]] + s[i + 1..];
      s[..i] + s[i + 1..]
  }

  /** `iter().filter(p)`: the elements satisfying `p`, each as often as it occurs in `s`. */
  function Filter<T(==,!new)>(s: seq<T>, p: T -> bool): (r: seq<T>)
    ensures |r| <= |s|
    ensures forall x :: multiset(r)[x] == if p(x) then multiset(s)[x] else 0
    ensures forall i :: 0 <= i < |r| ==> p(r[i])
  {
    if |s| == 0 then []
    else
      assert s == [s[0]] + s[1..];
      (if p(s[0]) then [s[0]] else []) + Filter(s[1..], p)
  }
}
