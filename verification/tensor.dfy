/**
 * The encoder helpers that turn cards into network input rows: a card's slot
 * in a 48-wide row, the multi-hot row of a card list, the suit mask, and the
 * count of a list's cards that lie in a set. Rows of `f32` are rows of 0/1
 * integers here.
 */
module Tensor {
  import opened Cards

  /** The slot `(suit - 1) * 4 + (variant - 1)` a card takes in a 48-wide row. */
  function CardIndex(c: Card): int {
    (c.0 - 1) * 4 + (c.1 - 1)
  }

  /**
   * The engine can encode `c`: the byte subtractions do not underflow (an underflow panics
   * in a debug build) and the slot is inside the row.
   */
  predicate Encodable(c: Card) {
    1 <= c.0 && 1 <= c.1 && CardIndex(c) < 48
  }

  /** The card whose slot is `k`. */
  function CardAt(k: nat): (c: Card)
    requires k < 48
    ensures IsCard(c) && CardIndex(c) == k
  {
    (k / 4 + 1, k % 4 + 1)
  }

  /** Every real card is encodable, its slot is its own, and the deck lists the cards slot by slot. */
  lemma CardIndexBijective()
    ensures forall c :: IsCard(c) ==> Encodable(c) && CardAt(CardIndex(c)) == c
    ensures forall c, d :: IsCard(c) && IsCard(d) && CardIndex(c) == CardIndex(d) ==> c == d
    ensures forall k :: 0 <= k < 48 ==> CardIndex(Deck()[k]) == k
  {
    forall c | IsCard(c)
      ensures Encodable(c) && CardAt(CardIndex(c)) == c
    {
      var k := CardIndex(c);
      assert k / 4 == c.0 - 1 && k % 4 == c.1 - 1;
    }
    DeckIndex();
  }

  /** Some card of `cards` takes slot `k`. */
  predicate Covers(cards: seq<Card>, k: int) {
    exists j :: 0 <= j < |cards| && CardIndex(cards[j]) == k
  }

  /** One more card covers one more slot. */
  lemma CoversExtend(cards: seq<Card>, i: nat)
    requires i < |cards|
    ensures forall k :: Covers(cards[..i + 1], k) <==> Covers(cards[..i], k) || k == CardIndex(cards[i])
  {
    var p, q := cards[..i], cards[..i + 1];
    forall k
      ensures Covers(q, k) <==> Covers(p, k) || k == CardIndex(cards[i])
    {
      if Covers(p, k) {
        var j :| 0 <= j < |p| && CardIndex(p[j]) == k;
        assert q[j] == p[j];
      }
      if k == CardIndex(cards[i]) {
        assert q[i] == cards[i];
      }
      if Covers(q, k) {
        var j :| 0 <= j < |q| && CardIndex(q[j]) == k;
        if j < i {
          assert p[j] == q[j];
        }
      }
    }
  }

  /** `card_to_multi_hot`: a 48-wide row with 1 in the slot of each listed card and 0 elsewhere. */
  method CardToMultiHot(cards: seq<Card>) returns (row: seq<int>)
    requires forall j :: 0 <= j < |cards| ==> Encodable(cards[j])
    ensures |row| == 48
    ensures forall k :: 0 <= k < 48 ==> (row[k] == 1 <==> Covers(cards, k))
    ensures forall k :: 0 <= k < 48 ==> row[k] == 0 || row[k] == 1
  {
    row := seq(48, _ => 0);
    var i := 0;
    while i < |cards|
      invariant 0 <= i <= |cards|
      invariant |row| == 48
      invariant forall k :: 0 <= k < 48 ==> (row[k] == 1 <==> Covers(cards[..i], k))
      invariant forall k :: 0 <= k < 48 ==> row[k] == 0 || row[k] == 1
    {
      var slot := CardIndex(cards[i]);
      row := row[slot := 1];
      CoversExtend(cards, i);
      i := i + 1;
    }
    assert cards[..i] == cards;
  }

  /** The cards a multi-hot row marks. */
  function Decode(row: seq<int>): set<Card>
    requires |row| == 48
  {
    set k: nat | k < 48 && row[k] == 1 :: CardAt(k)
  }

  /** A row that marks exactly the slots of real cards decodes to the set of those cards. */
  lemma {:induction false} MultiHotRoundTrip(cards: seq<Card>, row: seq<int>)
    requires forall j :: 0 <= j < |cards| ==> IsCard(cards[j])
    requires |row| == 48
    requires forall k :: 0 <= k < 48 ==> (row[k] == 1 <==> Covers(cards, k))
    ensures Decode(row) == set c | c in cards
  {
    CardIndexBijective();
    forall c | c in Decode(row)
      ensures c in cards
    {
      var k: nat :| k < 48 && row[k] == 1 && c == CardAt(k);
      var j :| 0 <= j < |cards| && CardIndex(cards[j]) == k;
      assert cards[j] == c;
    }
    forall c | c in cards
      ensures c in Decode(row)
    {
      var j :| 0 <= j < |cards| && cards[j] == c;
      var k: nat := CardIndex(c);
      assert Covers(cards, k);
      assert CardAt(k) == c;
    }
  }

  /** The slots a row marks with 1; their number is the number of ones in the row. */
  function Ones(row: seq<int>): set<nat>
    requires |row| == 48
  {
    set k: nat | k < 48 && row[k] == 1
  }

  /** Distinct slots belong to distinct cards, so a set of slots and the set of their cards have the same size. */
  lemma {:induction false} SlotImageSize(slots: set<nat>)
    requires forall k :: k in slots ==> k < 48
    ensures |set k | k in slots && k < 48 :: CardAt(k)| == |slots|
    decreases |slots|
  {
    if slots != {} {
      var a :| a in slots;
      var rest := slots - {a};
      SlotImageSize(rest);
      var image := set k | k in slots && k < 48 :: CardAt(k);
      var restImage := set k | k in rest && k < 48 :: CardAt(k);
      assert image == restImage + {CardAt(a)};
      forall k | k in rest && k < 48
        ensures CardAt(k) != CardAt(a)
      {
        assert CardIndex(CardAt(k)) == k != a == CardIndex(CardAt(a));
      }
    }
  }

  /** The multi-hot row of real cards has as many ones as the list has distinct cards. */
  lemma MultiHotCountsDistinct(cards: seq<Card>, row: seq<int>)
    requires forall j :: 0 <= j < |cards| ==> IsCard(cards[j])
    requires |row| == 48
    requires forall k :: 0 <= k < 48 ==> (row[k] == 1 <==> Covers(cards, k))
    ensures |Ones(row)| == |set c | c in cards|
  {
    MultiHotRoundTrip(cards, row);
    SlotImageSize(Ones(row));
    assert Decode(row) == set k | k in Ones(row) && k < 48 :: CardAt(k);
  }

  /** The four cards of suit `m`. */
  function SuitCards(m: int): seq<Card> {
    [(m, 1), (m, 2), (m, 3), (m, 4)]
  }

  /** `card_suit_array`: a 12 x 48 mask whose row `i` is 1 exactly on the four slots `4i .. 4i + 3`. */
  method CardSuitArray() returns (a: seq<seq<int>>)
    ensures |a| == 12
    ensures forall i :: 0 <= i < 12 ==> |a[i]| == 48
    ensures forall i, k :: 0 <= i < 12 && 0 <= k < 48 ==> (a[i][k] == 1 <==> 4 * i <= k < 4 * i + 4)
    ensures forall i, k :: 0 <= i < 12 && 0 <= k < 48 ==> a[i][k] == 0 || a[i][k] == 1
  {
    a := seq(12, _ => seq(48, _ => 0));
    var i := 0;
    while i < 12
      invariant 0 <= i <= 12
      invariant |a| == 12
      invariant forall r :: 0 <= r < 12 ==> |a[r]| == 48
      invariant forall r, k :: 0 <= r < 12 && 0 <= k < 48 ==> (a[r][k] == 1 <==> r < i && 4 * r <= k < 4 * r + 4)
      invariant forall r, k :: 0 <= r < 12 && 0 <= k < 48 ==> a[r][k] == 0 || a[r][k] == 1
    {
      var row := a[i];
      var k := 4 * i;
      while k < 4 * i + 4
        invariant 4 * i <= k <= 4 * i + 4
        invariant |row| == 48
        invariant forall x :: 0 <= x < 48 ==> (row[x] == 1 <==> 4 * i <= x < k)
        invariant forall x :: 0 <= x < 48 ==> row[x] == 0 || row[x] == 1
      {
        row := row[k := 1];
        k := k + 1;
      }
      a := a[i := row];
      i := i + 1;
    }
  }

  /** Row `i` of the suit mask marks exactly the real cards of suit `i + 1`: it is the multi-hot row of that suit. */
  lemma {:induction false} SuitRowIsSuitMultiHot(a: seq<seq<int>>, i: nat)
    requires |a| == 12 && i < 12
    requires |a[i]| == 48
    requires forall k :: 0 <= k < 48 ==> (a[i][k] == 1 <==> 4 * i <= k < 4 * i + 4)
    ensures forall k :: 0 <= k < 48 ==> (a[i][k] == 1 <==> Covers(SuitCards(i + 1), k))
    ensures forall c :: IsCard(c) ==> (a[i][CardIndex(c)] == 1 <==> c.0 == i + 1)
  {
    var cards := SuitCards(i + 1);
    forall k | 0 <= k < 48
      ensures a[i][k] == 1 <==> Covers(cards, k)
    {
      if 4 * i <= k < 4 * i + 4 {
        assert CardIndex(cards[k - 4 * i]) == k;
      }
    }
    forall c | IsCard(c)
      ensures a[i][CardIndex(c)] == 1 <==> c.0 == i + 1
    {
      assert 0 <= CardIndex(c) < 48;
    }
  }

  /** Every column of the suit mask holds a single 1, in row `k / 4`, the suit half of the slot `CardIndex` assigns. */
  lemma SuitMaskColumns(a: seq<seq<int>>)
    requires |a| == 12
    requires forall i :: 0 <= i < 12 ==> |a[i]| == 48
    requires forall i, k :: 0 <= i < 12 && 0 <= k < 48 ==> (a[i][k] == 1 <==> 4 * i <= k < 4 * i + 4)
    ensures forall i, k :: 0 <= i < 12 && 0 <= k < 48 ==> (a[i][k] == 1 <==> i == k / 4)
    ensures forall c :: IsCard(c) ==> a[c.0 - 1][CardIndex(c)] == 1
  {
  }

  /** `inter_len`: how many entries of `slice` lie in `pile`, which is the number of positions holding such a card. */
  function InterLen(slice: seq<Card>, pile: set<Card>): (n: nat)
    ensures n == |HitIndices(slice, pile)|
    ensures n <= |slice|
  {
    CountInIsHitCount(slice, pile);
    CountIn(slice, pile)
  }
}
