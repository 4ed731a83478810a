/**
 * `sort_unstable` on card vectors, written as insertion sort. On a totally
 * ordered value type a sorted permutation is unique, so stability does not
 * matter here.
 */
module CardSort {
  import opened Cards

  /** Inserts `x` into the sorted `s` before the first card it does not follow. */
  function Insert(x: Card, s: seq<Card>): (r: seq<Card>)
    requires Sorted(s)
    ensures Sorted(r)
    ensures multiset(r) == multiset(s) + multiset{x}
  {
    if |s| == 0 then [x]
    else if LexLe(x, s[0]) then [x] + s
    else
      var tail := Insert(x, s[1..]);
      assert s == [s[0]] + s[1..];
      assert forall i :: 0 <= i < |tail| ==> LexLe(s[0], tail[i]) by {
        forall i | 0 <= i < |tail|
          ensures LexLe(s[0], tail[i])
        {
          assert tail[i] in multiset(tail);
          if tail[i] != x {
            assert tail[i] in multiset(s[1..]);
            var k :| 0 <= k < |s[1..]| && s[1..][k] == tail[i];
            assert s[k + 1] == tail[i];
          }
        }
      }
      ConsSorted(s[0], tail);
      [s[0]] + tail
  }

  /** A card no greater than any card of a sorted list can lead it. */
  lemma ConsSorted(h: Card, tail: seq<Card>)
    requires Sorted(tail)
    requires forall i :: 0 <= i < |tail| ==> LexLe(h, tail[i])
    ensures Sorted([h] + tail)
  {
    var r := [h] + tail;
    forall i, j | 0 <= i < j < |r|
      ensures LexLe(r[i], r[j])
    {
      if i > 0 {
        assert r[i] == tail[i - 1] && r[j] == tail[j - 1];
      }
    }
  }

  /** The cards of `s` in ascending (suit, variant) order. */
  function Sort(s: seq<Card>): (r: seq<Card>)
    ensures Sorted(r)
    ensures multiset(r) == multiset(s)
    ensures |r| == |s|
  {
    if |s| == 0 then []
    else
      assert s == [s[0]] + s[1..];
      Insert(s[0], Sort(s[1..]))
  }
}
