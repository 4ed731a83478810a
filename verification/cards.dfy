/**
 * The card taxonomy of game.rs: a card is a (suit, variant) pair, the 48 real
 * cards are suits 1..12 times variants 1..4, and scoring categories are plain
 * lists of cards looked up by membership.
 */
module Cards {

  /** A card `(suit, variant)`; the source stores both halves as `u8`. */
  type Card = (int, int)

  /** The value `(0, 0)` that marks an empty field slot. */
  const SENTINEL: Card := (0, 0)

  /** One of the 48 real cards. */
  predicate IsCard(c: Card) {
    1 <= c.0 <= 12 && 1 <= c.1 <= 4
  }

  // Named cards, each a one-element list as in the source.
  const CRANE: seq<Card> := [(1, 1)]
  const CURTAIN: seq<Card> := [(3, 1)]
  const MOON: seq<Card> := [(8, 1)]
  const RAIN_MAN: seq<Card> := [(11, 1)]
  const PHOENIX: seq<Card> := [(12, 1)]
  const SAKE: seq<Card> := [(9, 1)]

  // The four bulk categories. The sake cup (9,1) is listed in SEED and again in DROSS.
  const LIGHT: seq<Card> := [(1, 1), (3, 1), (8, 1), (11, 1), (12, 1)]
  const SEED: seq<Card> := [(2, 1), (4, 1), (5, 1), (6, 1), (7, 1), (8, 2), (9, 1), (10, 1), (11, 2)]
  const RIBBON: seq<Card> := [(1, 2), (2, 2), (3, 2), (4, 2), (5, 2), (6, 2), (7, 2), (9, 2), (10, 2), (11, 3)]
  const DROSS: seq<Card> :=
    [(1, 3), (1, 4), (2, 3), (2, 4), (3, 3), (3, 4), (4, 3), (4, 4), (5, 3), (5, 4), (6, 3), (6, 4), (7, 3),
     (7, 4), (8, 3), (8, 4), (9, 3), (9, 4), (10, 3), (10, 4), (11, 4), (12, 2), (12, 3), (12, 4), (9, 1)]

  // Groups used only by the combination evaluator.
  const BOAR_DEER_BUTTERFLY: seq<Card> := [(6, 1), (7, 1), (10, 1)]
  const FLOWER_SAKE: seq<Card> := [(3, 1), (9, 1)]
  const MOON_SAKE: seq<Card> := [(8, 1), (9, 1)]
  const RED_RIBBON: seq<Card> := [(1, 2), (2, 2), (3, 2)]
  const BLUE_RIBBON: seq<Card> := [(6, 2), (9, 2), (10, 2)]
  const RED_BLUE_RIBBON: seq<Card> := [(1, 2), (2, 2), (3, 2), (6, 2), (9, 2), (10, 2)]

  /** Lexicographic order on (suit, variant), the order of Rust tuples. */
  predicate LexLe(a: Card, b: Card) {
    a.0 < b.0 || (a.0 == b.0 && a.1 <= b.1)
  }

  predicate Sorted(s: seq<Card>) {
    forall i, j :: 0 <= i < j < |s| ==> LexLe(s[i], s[j])
  }

  /** No card occurs twice. */
  predicate NoDup(s: seq<Card>) {
    forall i, j :: 0 <= i < j < |s| ==> s[i] != s[j]
  }

  /** The deck the dealer builds with its two nested loops: (1,1), (1,2), ..., (12,4). */
  function Deck(): (d: seq<Card>)
    ensures |d| == 48
    ensures forall c :: c in d <==> IsCard(c)
    ensures Sorted(d) && NoDup(d)
  {
    DeckFromMembers(1);
    DeckFromOrdered(1);
    DeckFrom(1)
  }

  /** The cards of suits `suit`..12 in loop order. */
  function DeckFrom(suit: int): (d: seq<Card>)
    requires 1 <= suit <= 13
    ensures |d| == 4 * (13 - suit)
    ensures forall k :: 0 <= k < |d| ==> suit <= d[k].0 <= 12 && 1 <= d[k].1 <= 4
    decreases 13 - suit
  {
    if suit == 13 then []
    else [(suit, 1), (suit, 2), (suit, 3), (suit, 4)] + DeckFrom(suit + 1)
  }

  /** Position `k` of the deck from `suit` on holds variant `k % 4 + 1` of suit `suit + k / 4`. */
  lemma {:induction false} DeckFromIndex(suit: int)
    requires 1 <= suit <= 13
    ensures forall k :: 0 <= k < |DeckFrom(suit)| ==> DeckFrom(suit)[k] == (suit + k / 4, k % 4 + 1)
    decreases 13 - suit
  {
    if suit < 13 {
      DeckFromIndex(suit + 1);
      var d := DeckFrom(suit);
      forall k | 0 <= k < |d|
        ensures d[k] == (suit + k / 4, k % 4 + 1)
      {
        if k >= 4 {
          assert d[k] == DeckFrom(suit + 1)[k - 4];
          assert (k - 4) / 4 == k / 4 - 1 && (k - 4) % 4 == k % 4;
        }
      }
    }
  }

  /** The dealer's loops put variant `k % 4 + 1` of suit `k / 4 + 1` at position `k`. */
  lemma DeckIndex()
    ensures forall k :: 0 <= k < 48 ==> Deck()[k] == (k / 4 + 1, k % 4 + 1)
  {
    DeckFromIndex(1);
  }

  /** Strictly increasing in the lexicographic order. */
  predicate StrictlySorted(s: seq<Card>) {
    forall i, j :: 0 <= i < j < |s| ==> s[i].0 < s[j].0 || (s[i].0 == s[j].0 && s[i].1 < s[j].1)
  }

  /** The deck from `suit` on holds every card of those suits. */
  lemma {:induction false} DeckFromMembers(suit: int)
    requires 1 <= suit <= 13
    ensures forall c :: c in DeckFrom(suit) <==> suit <= c.0 <= 12 && 1 <= c.1 <= 4
    decreases 13 - suit
  {
    if suit < 13 {
      DeckFromMembers(suit + 1);
      var row := [(suit, 1), (suit, 2), (suit, 3), (suit, 4)];
      var rest := DeckFrom(suit + 1);
      assert DeckFrom(suit) == row + rest;
      forall c: Card | suit <= c.0 <= 12 && 1 <= c.1 <= 4
        ensures c in row + rest
      {
        if c.0 == suit {
          assert c == row[c.1 - 1];
        } else {
          assert c in rest;
        }
      }
    }
  }

  /** The deck from `suit` on is strictly increasing, hence sorted and free of repeats. */
  lemma {:induction false} DeckFromOrdered(suit: int)
    requires 1 <= suit <= 13
    ensures StrictlySorted(DeckFrom(suit))
    decreases 13 - suit
  {
    if suit < 13 {
      DeckFromOrdered(suit + 1);
      var row := [(suit, 1), (suit, 2), (suit, 3), (suit, 4)];
      var rest := DeckFrom(suit + 1);
      var d := row + rest;
      assert d == DeckFrom(suit);
      forall i, j | 0 <= i < j < |d|
        ensures d[i].0 < d[j].0 || (d[i].0 == d[j].0 && d[i].1 < d[j].1)
      {
        if j >= 4 && i < 4 {
          assert d[j] == rest[j - 4];
        } else if i >= 4 {
          assert d[i] == rest[i - 4] && d[j] == rest[j - 4];
        }
      }
    }
  }

  /** `iter().all(|c| pile.contains(c))`: every card of the group is held. */
  predicate AllIn(cards: seq<Card>, pile: set<Card>) {
    forall i :: 0 <= i < |cards| ==> cards[i] in pile
  }

  /**
   * `iter().filter(|c| set.contains(c)).count()`: how many entries of `cards`
   * belong to `pile` (an entry listed twice is counted twice).
   */
  function CountIn(cards: seq<Card>, pile: set<Card>): (n: nat)
    ensures n <= |cards|
    ensures n == |cards| <==> AllIn(cards, pile)
  {
    if |cards| == 0 then 0
    else
      var last := cards[|cards| - 1];
      CountIn(cards[..|cards| - 1], pile) + (if last in pile then 1 else 0)
  }

  /** The positions of `cards` whose card lies in `pile`. */
  function HitIndices(cards: seq<Card>, pile: set<Card>): set<int> {
    set i | 0 <= i < |cards| && cards[i] in pile
  }

  /** CountIn counts exactly the positions whose card is in the set. */
  lemma {:induction false} CountInIsHitCount(cards: seq<Card>, pile: set<Card>)
    ensures CountIn(cards, pile) == |HitIndices(cards, pile)|
    decreases |cards|
  {
    if |cards| > 0 {
      var n := |cards| - 1;
      var front := cards[..n];
      CountInIsHitCount(front, pile);
      if cards[n] in pile {
        assert HitIndices(cards, pile) == HitIndices(front, pile) + {n};
      } else {
        assert HitIndices(cards, pile) == HitIndices(front, pile);
      }
    }
  }

  /** The four bulk categories together are exactly the 48 cards. */
  lemma TaxonomyCoversDeck()
    ensures forall c :: (c in LIGHT || c in SEED || c in RIBBON || c in DROSS) <==> IsCard(c)
  {
    forall c: Card | IsCard(c)
      ensures c in LIGHT || c in SEED || c in RIBBON || c in DROSS
    {
      var (x, y) := c;
      assert x in {1, 2, 3, 4, 5, 6, 7, 8, 9, 10, 11, 12};
      assert y in {1, 2, 3, 4};
    }
  }

  /** The table sizes; together they list 49 entries for 48 cards. */
  lemma TaxonomySizes()
    ensures |LIGHT| == 5 && |SEED| == 9 && |RIBBON| == 10 && |DROSS| == 25
    ensures |LIGHT| + |SEED| + |RIBBON| + |DROSS| == 48 + 1
  {
  }

  // The position of each category in the (suit, variant) grid.
  predicate LightSpot(c: Card) { c.1 == 1 && (c.0 == 1 || c.0 == 3 || c.0 == 8 || c.0 == 11 || c.0 == 12) }
  predicate SeedSpot(c: Card) { (c.1 == 1 && 2 <= c.0 <= 11 && c.0 != 3 && c.0 != 8) || c == (8, 2) || c == (11, 2) }
  predicate RibbonSpot(c: Card) { (c.1 == 2 && 1 <= c.0 <= 10 && c.0 != 8) || c == (11, 3) }
  predicate DrossSpot(c: Card) { c.1 >= 3 || c == (12, 2) || c == (9, 1) }

  lemma LightShape(c: Card)
    requires c in LIGHT
    ensures LightSpot(c)
  {
  }

  lemma SeedShape(c: Card)
    requires c in SEED
    ensures SeedSpot(c)
  {
  }

  lemma RibbonShape(c: Card)
    requires c in RIBBON
    ensures RibbonSpot(c)
  {
  }

  lemma DrossShape(c: Card)
    requires c in DROSS
    ensures DrossSpot(c)
  {
  }

  /** The only card two categories share is the sake cup, which is both a seed and a dross card. */
  lemma SeedDrossOverlap()
    ensures forall c :: c in SEED && c in DROSS <==> c == SAKE[0]
  {
    forall c | c in SEED && c in DROSS
      ensures c == SAKE[0]
    {
      SeedShape(c);
      DrossShape(c);
    }
    assert SEED[6] == SAKE[0] && DROSS[24] == SAKE[0];
  }

  /** Lights share no card with the other categories. */
  lemma LightDisjoint()
    ensures forall c :: c in LIGHT ==> c !in SEED && c !in RIBBON && c !in DROSS
  {
    forall c | c in LIGHT
      ensures c !in SEED && c !in RIBBON && c !in DROSS
    {
      LightShape(c);
      if c in SEED { SeedShape(c); }
      if c in RIBBON { RibbonShape(c); }
      if c in DROSS { DrossShape(c); }
    }
  }

  /** Ribbons share no card with seeds or dross. */
  lemma RibbonDisjoint()
    ensures forall c :: c in RIBBON ==> c !in SEED && c !in DROSS
  {
    forall c | c in RIBBON
      ensures c !in SEED && c !in DROSS
    {
      RibbonShape(c);
      if c in SEED { SeedShape(c); }
      if c in DROSS { DrossShape(c); }
    }
  }

  /** The named groups sit inside the categories they score for. */
  lemma GroupsWithinCategories()
    ensures RED_BLUE_RIBBON == RED_RIBBON + BLUE_RIBBON
    ensures forall c :: c in RED_BLUE_RIBBON ==> c in RIBBON
    ensures forall c :: c in BOAR_DEER_BUTTERFLY ==> c in SEED
    ensures CRANE + CURTAIN + MOON + RAIN_MAN + PHOENIX == LIGHT
  {
  }
}
