/**
 * `_collect_card`: matching the shown card against the field. With no field
 * card of its suit it is laid in the first empty slot; with one or three it
 * takes them all; with two (or, in states the engine never reaches, four) it
 * takes the one the player picked.
 */
module Matching {
  import opened Wrappers
  import opened Cards
  import opened Seqs
  import opened Round

  /** The shown card exists, and when something will be captured the turn player indexes a pile. */
  predicate CollectDefined(s: RoundState) {
    |s.show| > 0 && (|Pairing(s)| == 0 || TurnPlayer(s) < 2)
  }

  /** Overwriting one slot swaps one card of the multiset for another. */
  lemma MultisetUpdate(s: seq<Card>, i: nat, y: Card)
    requires i < |s|
    ensures multiset(s[i := y]) == multiset(s) - multiset{s[i]} + multiset{y}
  {
    assert s == s[..i] + [s[i]] + s[i + 1..];
    assert s[i := y] == s[..i] + [y] + s[i + 1..];
  }

  /** Emptying the first slot that holds the live card `x` removes exactly that card from the field. */
  lemma ClearOne(slots: seq<Card>, x: Card)
    requires x != SENTINEL && x in Live(slots)
    ensures Live(ReplaceFirst(slots, x, SENTINEL)) == Live(slots) - multiset{x}
  {
    assert x in multiset(slots);
    var i := Position(slots, x).value;
    MultisetUpdate(slots, i, SENTINEL);
  }

  /** Filling the first empty slot with the live card `x` adds exactly that card to the field. */
  lemma FillOne(slots: seq<Card>, x: Card)
    requires x != SENTINEL && SENTINEL in slots
    ensures Live(ReplaceFirst(slots, SENTINEL, x)) == Live(slots) + multiset{x}
  {
    var i := Position(slots, SENTINEL).value;
    MultisetUpdate(slots, i, x);
  }

  /** Empties, card by card, the first slot holding each of `cards`. */
  function ClearAll(slots: seq<Card>, cards: seq<Card>): (r: seq<Card>)
    ensures |r| == |slots|
    ensures SENTINEL !in cards && multiset(cards) <= Live(slots) ==> Live(r) == Live(slots) - multiset(cards)
    decreases |cards|
  {
    if |cards| == 0 then slots
    else
      var next := ReplaceFirst(slots, cards[0], SENTINEL);
      assert cards == [cards[0]] + cards[1..];
      if SENTINEL !in cards && multiset(cards) <= Live(slots) then
        ClearOne(slots, cards[0]);
        ClearAll(next, cards[1..])
      else
        ClearAll(next, cards[1..])
  }

  /** The shown card is matched; only `collect`, the field slots and the turn player's pile change. */
  function Collect(s: RoundState, card: Card): (t: RoundState)
    requires CollectDefined(s)
    ensures t.state == s.state && t.waitAction == s.waitAction && t.winner == s.winner && t.exhausted == s.exhausted
    ensures t.hand == s.hand && t.stock == s.stock && t.show == s.show && t.koikoi == s.koikoi
    ensures t.turn16 == s.turn16 && t.dealer == s.dealer && t.turnPoint == s.turnPoint
    ensures |t.fieldSlot| == |s.fieldSlot|
    ensures |Pairing(s)| == 0 ==> t.collect == [] && t.pile == s.pile
    ensures |Pairing(s)| > 0 ==> t.pile == s.pile.Set(TurnPlayer(s), s.pile.Get(TurnPlayer(s)) + t.collect)
    ensures |Pairing(s)| == 1 || |Pairing(s)| == 3 ==> t.collect == s.show + Pairing(s)
    ensures |Pairing(s)| == 2 || |Pairing(s)| > 3 ==> t.collect == s.show + [card]
  {
    var pairing := Pairing(s);
    var n := |pairing|;
    if n == 0 then
      s.(collect := [], fieldSlot := ReplaceFirst(s.fieldSlot, SENTINEL, s.show[0]))
    else
      var tp := TurnPlayer(s);
      if n == 1 || n == 3 then
        var taken := s.show + pairing;
        s.(collect := taken, fieldSlot := ClearAll(s.fieldSlot, pairing), pile := s.pile.Set(tp, s.pile.Get(tp) + taken))
      else
        var taken := s.show + [card];
        s.(collect := taken, fieldSlot := ReplaceFirst(s.fieldSlot, card, SENTINEL), pile := s.pile.Set(tp, s.pile.Get(tp) + taken))
  }

  /** With no match the shown card joins the field if an empty slot exists, and is lost otherwise. */
  lemma CollectNoMatch(s: RoundState, card: Card)
    requires CollectDefined(s) && |Pairing(s)| == 0
    requires s.show[0] != SENTINEL
    ensures SENTINEL in s.fieldSlot ==> Live(Collect(s, card).fieldSlot) == Live(s.fieldSlot) + multiset{s.show[0]}
    ensures SENTINEL in s.fieldSlot ==>
      exists i :: FirstAt(s.fieldSlot, SENTINEL, i) && Collect(s, card).fieldSlot == s.fieldSlot[i := s.show[0]]
    ensures SENTINEL !in s.fieldSlot ==> Collect(s, card).fieldSlot == s.fieldSlot
  {
    if SENTINEL in s.fieldSlot {
      FillOne(s.fieldSlot, s.show[0]);
    }
  }

  /** The matches are field cards, with multiplicity. */
  lemma PairingOnField(s: RoundState)
    requires |s.show| > 0
    ensures multiset(Pairing(s)) <= Live(s.fieldSlot)
    ensures SENTINEL !in Pairing(s)
  {
    PairingMatchesSuit(s);
  }

  /** One or three matches: all of them leave the field. */
  lemma CollectTakesAll(s: RoundState, card: Card)
    requires CollectDefined(s) && (|Pairing(s)| == 1 || |Pairing(s)| == 3)
    ensures Live(Collect(s, card).fieldSlot) == Live(s.fieldSlot) - multiset(Pairing(s))
  {
    PairingOnField(s);
  }

  /** After one or three matches are taken, no card of the shown suit remains on the field. */
  lemma CollectClearsSuit(s: RoundState, card: Card)
    requires CollectDefined(s) && (|Pairing(s)| == 1 || |Pairing(s)| == 3)
    ensures forall c :: c in Field(Collect(s, card)) ==> c.0 != s.show[0].0
  {
    CollectTakesAll(s, card);
    PairingMatchesSuit(s);
    var t := Collect(s, card);
    forall c | c in Field(t)
      ensures c.0 != s.show[0].0
    {
      assert multiset(Field(t))[c] > 0;
    }
  }

  /** A picked match is a live field card. */
  lemma PickOnField(s: RoundState, card: Card)
    requires |s.show| > 0 && card in Pairing(s)
    ensures card in Live(s.fieldSlot) && card != SENTINEL
  {
    PairingOnField(s);
    assert multiset(Pairing(s))[card] > 0;
  }

  /** Two matches: the picked card leaves the field when it is one of them. */
  lemma CollectTakesPick(s: RoundState, card: Card)
    requires CollectDefined(s) && |Pairing(s)| == 2
    requires card in Pairing(s)
    ensures Live(Collect(s, card).fieldSlot) == Live(s.fieldSlot) - multiset{card}
  {
    PickOnField(s, card);
    ClearOne(s.fieldSlot, card);
  }

  /** A capture moves cards to player 1's pile, the only pile a usable turn player can name. */
  lemma CollectPiles(s: RoundState, card: Card)
    requires CollectDefined(s) && |Pairing(s)| > 0
    ensures Collect(s, card).pile.first == s.pile.first
    ensures Collect(s, card).pile.second == s.pile.second + Collect(s, card).collect
  {
    assert TurnPlayer(s) == 1;
  }

  /** Moving a part `moved` of the field into the second pile, along with the shown cards, keeps the total. */
  lemma MoveAccounting(field: multiset<Card>, moved: multiset<Card>, a: multiset<Card>, b: multiset<Card>, shown: multiset<Card>)
    requires moved <= field
    ensures (field - moved) + a + (b + (shown + moved)) == field + a + b + shown
  {
    assert forall c :: ((field - moved) + a + (b + (shown + moved)))[c] == (field + a + b + shown)[c];
  }

  /** The field, the two piles and the shown cards, counted together. */
  function Holdings(field: seq<Card>, pile: Pair<seq<Card>>): multiset<Card> {
    Live(field) + multiset(pile.first) + multiset(pile.second)
  }

  /** Adding cards to the field keeps them in the total. */
  lemma AddAccounting(field: multiset<Card>, added: multiset<Card>, a: multiset<Card>, b: multiset<Card>)
    ensures (field + added) + a + b == field + a + b + added
  {
    assert forall c :: ((field + added) + a + b)[c] == (field + a + b + added)[c];
  }

  /** The bookkeeping of laying the shown cards on the field, on any before and after states. */
  lemma LayAccounting(s: RoundState, t: RoundState)
    requires Live(t.fieldSlot) == Live(s.fieldSlot) + multiset(s.show)
    requires t.pile == s.pile
    ensures Holdings(t.fieldSlot, t.pile) == Holdings(s.fieldSlot, s.pile) + multiset(s.show)
  {
    AddAccounting(Live(s.fieldSlot), multiset(s.show), multiset(s.pile.first), multiset(s.pile.second));
  }

  /** Laying the shown card on the field keeps every card. */
  lemma ConservesNoMatch(s: RoundState, card: Card)
    requires CollectDefined(s) && |Pairing(s)| == 0
    requires |s.show| == 1 && s.show[0] != SENTINEL && SENTINEL in s.fieldSlot
    ensures Holdings(Collect(s, card).fieldSlot, Collect(s, card).pile) == Holdings(s.fieldSlot, s.pile) + multiset(s.show)
  {
    var t := Collect(s, card);
    assert Live(t.fieldSlot) == Live(s.fieldSlot) + multiset(s.show) by {
      CollectNoMatch(s, card);
      assert multiset(s.show) == multiset{s.show[0]};
    }
    LayAccounting(s, t);
  }

  /** The bookkeeping of a capture, on any before and after states. */
  lemma CaptureAccounting(s: RoundState, t: RoundState, moved: multiset<Card>)
    requires moved <= Live(s.fieldSlot)
    requires Live(t.fieldSlot) == Live(s.fieldSlot) - moved
    requires t.pile.first == s.pile.first
    requires multiset(t.pile.second) == multiset(s.pile.second) + (multiset(s.show) + moved)
    ensures Holdings(t.fieldSlot, t.pile) == Holdings(s.fieldSlot, s.pile) + multiset(s.show)
  {
    MoveAccounting(Live(s.fieldSlot), moved, multiset(s.pile.first), multiset(s.pile.second), multiset(s.show));
  }

  /** Taking all one or three matches keeps every card. */
  lemma ConservesTakeAll(s: RoundState, card: Card)
    requires CollectDefined(s) && (|Pairing(s)| == 1 || |Pairing(s)| == 3)
    ensures Holdings(Collect(s, card).fieldSlot, Collect(s, card).pile) == Holdings(s.fieldSlot, s.pile) + multiset(s.show)
  {
    var p := Pairing(s);
    var t := Collect(s, card);
    assert multiset(p) <= Live(s.fieldSlot) by {
      PairingOnField(s);
    }
    assert Live(t.fieldSlot) == Live(s.fieldSlot) - multiset(p) by {
      CollectTakesAll(s, card);
    }
    assert t.pile.first == s.pile.first && t.pile.second == s.pile.second + (s.show + p) by {
      CollectPiles(s, card);
    }
    CaptureAccounting(s, t, multiset(p));
  }

  /** Taking the picked one of two or more matches keeps every card. */
  lemma ConservesPick(s: RoundState, card: Card)
    requires CollectDefined(s) && (|Pairing(s)| == 2 || |Pairing(s)| > 3)
    requires card in Pairing(s)
    ensures Holdings(Collect(s, card).fieldSlot, Collect(s, card).pile) == Holdings(s.fieldSlot, s.pile) + multiset(s.show)
  {
    var p := Pairing(s);
    var t := Collect(s, card);
    CollectPiles(s, card);
    PickOnField(s, card);
    ClearOne(s.fieldSlot, card);
    assert t.collect == s.show + [card];
    CaptureAccounting(s, t, multiset{card});
  }

  /**
   * No card appears or vanishes: the field and the two piles together gain
   * exactly the shown card, provided the shown card is a single live card, an
   * empty slot is free when nothing matches, and a pick among two or more is one of them.
   */
  lemma CollectConserves(s: RoundState, card: Card)
    requires CollectDefined(s) && |s.show| == 1 && s.show[0] != SENTINEL
    requires |Pairing(s)| == 0 ==> SENTINEL in s.fieldSlot
    requires |Pairing(s)| == 2 || |Pairing(s)| > 3 ==> card in Pairing(s)
    ensures Holdings(Collect(s, card).fieldSlot, Collect(s, card).pile) == Holdings(s.fieldSlot, s.pile) + multiset(s.show)
  {
    if |Pairing(s)| == 0 {
      ConservesNoMatch(s, card);
    } else if |Pairing(s)| == 1 || |Pairing(s)| == 3 {
      ConservesTakeAll(s, card);
    } else {
      ConservesPick(s, card);
    }
  }
}
