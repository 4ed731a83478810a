/**
 * The round's transitions: dealing, discarding a hand card and taking its
 * matches, drawing from the stock and taking its matches, and the koi-koi
 * decision that either ends the round or passes the turn.
 *
 * The phase checks on `state` and on the picked card are disabled in the
 * engine, so no transition here checks them either; the one check the engine
 * does perform, that a discarded card is in the mover's hand, is an error result.
 */
module Machine {
  import opened Wrappers
  import opened Cards
  import opened CardSort
  import opened Seqs
  import opened Round
  import opened Matching

  /** The engine's one checked rejection. */
  datatype Fault = CardNotInHand

  /** The ten empty slots that follow the eight dealt field cards. */
  const EMPTY_SLOTS: seq<Card> := [SENTINEL, SENTINEL, SENTINEL, SENTINEL, SENTINEL, SENTINEL, SENTINEL, SENTINEL, SENTINEL, SENTINEL]

  /** The four parts a deal cuts the deck into hold, together, the whole deck. */
  lemma CutIntoFour(cards: seq<Card>)
    requires |cards| == 48
    ensures multiset(cards[..8]) + multiset(cards[8..16]) + multiset(cards[16..24]) + multiset(cards[24..]) == multiset(cards)
  {
    assert cards == cards[..8] + cards[8..16] + cards[16..24] + cards[24..];
  }

  /**
   * One pass of `_deal_card` over `cards` (the engine's shuffle is disabled,
   * so it passes the ordered deck): eight cards to each hand, eight to the
   * field followed by ten empty slots, the rest to the stock.
   */
  function DealFrom(s: RoundState, cards: seq<Card>): (t: RoundState)
    requires |cards| == 48
    ensures |t.hand.first| == 8 && |t.hand.second| == 8 && |t.fieldSlot| == 18 && |t.stock| == 24
    ensures Sorted(t.hand.first) && Sorted(t.hand.second) && Sorted(t.fieldSlot[..8])
    ensures t.fieldSlot[8..] == EMPTY_SLOTS
    ensures multiset(t.hand.first) + multiset(t.hand.second) + multiset(t.fieldSlot[..8]) + multiset(t.stock) == multiset(cards)
    ensures multiset(t.hand.first) == multiset(cards[..8]) && multiset(t.hand.second) == multiset(cards[8..16])
    ensures multiset(t.fieldSlot[..8]) == multiset(cards[16..24])
    ensures t.stock == cards[24..]
    ensures t.state == State.Discard && t.waitAction
    ensures t.pile == s.pile && t.show == s.show && t.collect == s.collect && SameClock(s, t) && t.turnPoint == s.turnPoint
  {
    var h0 := Sort(cards[..8]);
    var h1 := Sort(cards[8..16]);
    var field := Sort(cards[16..24]);
    var slots := field + EMPTY_SLOTS;
    assert slots[..8] == field && slots[8..] == EMPTY_SLOTS;
    CutIntoFour(cards);
    s.(hand := Pair(h0, h1), fieldSlot := slots, stock := cards[24..], state := State.Discard, waitAction := true)
  }

  /** `_deal_card` on the ordered deck. */
  function Deal(s: RoundState): (t: RoundState)
    ensures |t.hand.first| == 8 && |t.hand.second| == 8 && |t.fieldSlot| == 18 && |t.stock| == 24
    ensures multiset(t.hand.first) + multiset(t.hand.second) + multiset(t.fieldSlot[..8]) + multiset(t.stock) == multiset(Deck())
    ensures forall c :: (c in t.hand.first || c in t.hand.second || c in t.fieldSlot[..8] || c in t.stock) <==> IsCard(c)
    ensures t.state == State.Discard && t.waitAction
  {
    var d := Deck();
    var t := DealFrom(s, d);
    forall c
      ensures (c in t.hand.first || c in t.hand.second || c in t.fieldSlot[..8] || c in t.stock) <==> c in d
    {
      assert c in multiset(d) <==> c in d;
    }
    t
  }

  /** Eight cards in loop order are the four of suit 1 followed by the four of suit 2. */
  lemma FirstEightInLoopOrder(top: seq<Card>)
    requires |top| == 8
    requires forall k :: 0 <= k < 8 ==> top[k] == (k / 4 + 1, k % 4 + 1)
    ensures top == SUITS_ONE_TWO
  {
    assert top[0] == (1, 1) && top[1] == (1, 2) && top[2] == (1, 3) && top[3] == (1, 4);
    assert top[4] == (2, 1) && top[5] == (2, 2) && top[6] == (2, 3) && top[7] == (2, 4);
  }

  /** The first eight cards of a deck in loop order. */
  const SUITS_ONE_TWO: seq<Card> := [(1, 1), (1, 2), (1, 3), (1, 4), (2, 1), (2, 2), (2, 3), (2, 4)]

  /**
   * The deck is unshuffled, so player 0 always holds exactly the four cards of
   * suit 1 and the four of suit 2: the redeal rule the engine leaves commented
   * out would reject every deal, which is why its retry loop cannot be given an exit.
   */
  lemma DealGivesFourOfASuit(s: RoundState)
    ensures multiset(Deal(s).hand.first) == multiset(SUITS_ONE_TWO)
  {
    DeckIndex();
    FirstEightInLoopOrder(Deck()[..8]);
  }

  /** `discard`: the mover plays a card from their hand; it becomes the shown card. */
  function Discard(s: RoundState, card: Card): (r: Result<RoundState, Fault>)
    requires TurnPlayer(s) < 2
    ensures r.Err? <==> card !in s.hand.Get(TurnPlayer(s))
    ensures r.Err? ==> r.error == CardNotInHand
    ensures r.Ok? ==>
      var t := r.value;
      var tp := TurnPlayer(s);
      && t.show == [card]
      && t.hand.Get(tp) == RemoveFirst(s.hand.Get(tp), card)
      && t.hand.Get(1 - tp) == s.hand.Get(1 - tp)
      && t.turnPoint == YakuPoint(s, tp)
      && t.state == State.DiscardPick
      && SameClock(s, t) && t.pile == s.pile && t.fieldSlot == s.fieldSlot && t.stock == s.stock && t.collect == s.collect
  {
    var tp := TurnPlayer(s);
    var h := s.hand.Get(tp);
    if card !in h then Err(CardNotInHand)
    else
      var t := s.(turnPoint := YakuPoint(s, tp), hand := s.hand.Set(tp, RemoveFirst(h, card)), show := [card], state := State.DiscardPick);
      Ok(t.(waitAction := |Pairing(t)| == 2))
  }

  /** A discard moves one card, the first copy of it, from the mover's hand to the shown cards. */
  lemma DiscardMovesCard(s: RoundState, card: Card)
    requires TurnPlayer(s) < 2 && card in s.hand.Get(TurnPlayer(s))
    ensures var t := Discard(s, card).value; var tp := TurnPlayer(s);
      multiset(t.hand.Get(tp)) + multiset(t.show) == multiset(s.hand.Get(tp))
      && |t.hand.Get(tp)| + 1 == |s.hand.Get(tp)|
      && exists i :: FirstAt(s.hand.Get(tp), card, i) && t.hand.Get(tp) == s.hand.Get(tp)[..i] + s.hand.Get(tp)[i + 1..]
  {
  }

  /** After a discard the engine waits for a pick exactly when two field cards match. */
  lemma DiscardWaitsOnTwoMatches(s: RoundState, card: Card)
    requires TurnPlayer(s) < 2 && card in s.hand.Get(TurnPlayer(s))
    ensures Discard(s, card).value.waitAction <==> |Pairing(Discard(s, card).value)| == 2
  {
  }

  /** `discard_pick`: take the discarded card's matches, or skip matching when no pick is given. */
  function DiscardPick(s: RoundState, card: Option<Card>): (t: RoundState)
    requires card.Some? ==> CollectDefined(s)
    ensures card.None? ==> t.fieldSlot == s.fieldSlot && t.pile == s.pile && t.collect == s.collect
    ensures card.Some? ==>
      var u := Collect(s, card.value);
      t.fieldSlot == u.fieldSlot && t.pile == u.pile && t.collect == u.collect
    ensures SameClock(s, t) && t.hand == s.hand && t.stock == s.stock && t.show == s.show && t.turnPoint == s.turnPoint
    ensures t.state == State.Draw && !t.waitAction
  {
    match card
    case None => s.(state := State.Draw, waitAction := false)
    case Some(c) => Collect(s, c).(state := State.Draw, waitAction := false)
  }

  /** `draw`: the top of the stock becomes the shown card; with an empty stock the old shown card stays. */
  function Draw(s: RoundState): (t: RoundState)
    requires |s.stock| > 0 || |s.show| > 0
    ensures |s.stock| > 0 ==> |t.show| == 1 && t.stock + t.show == s.stock
    ensures |s.stock| == 0 ==> t.stock == s.stock && t.show == s.show
    ensures t.state == State.DrawPick
    ensures SameClock(s, t) && t.hand == s.hand && t.pile == s.pile && t.fieldSlot == s.fieldSlot
    ensures t.collect == s.collect && t.turnPoint == s.turnPoint
  {
    var u := if |s.stock| > 0 then s.(stock := s.stock[..|s.stock| - 1], show := [s.stock[|s.stock| - 1]]) else s;
    assert |s.stock| > 0 ==> u.stock + u.show == s.stock;
    u.(state := State.DrawPick, waitAction := |Pairing(u)| == 2)
  }

  /** After a draw the engine waits for a pick exactly when two field cards match. */
  lemma DrawWaitsOnTwoMatches(s: RoundState)
    requires |s.stock| > 0 || |s.show| > 0
    ensures |Draw(s).show| > 0
    ensures Draw(s).waitAction <==> |Pairing(Draw(s))| == 2
  {
  }

  /** `draw_pick`: take the drawn card's matches, then offer koi-koi if the score rose before the last turn. */
  function DrawPick(s: RoundState, card: Card): (t: RoundState)
    requires CollectDefined(s) && TurnPlayer(s) < 2
    ensures var u := Collect(s, card);
      t.fieldSlot == u.fieldSlot && t.pile == u.pile && t.collect == u.collect
    ensures SameClock(s, t) && t.hand == s.hand && t.stock == s.stock && t.show == s.show && t.turnPoint == s.turnPoint
    ensures t.state == State.KoiKoi
    ensures t.waitAction <==> YakuPoint(t, TurnPlayer(s)) > s.turnPoint && Turn8(s) < 8
  {
    var u := Collect(s, card);
    var tp := TurnPlayer(u);
    TurnPlayerReadsClock(s, u);
    var t := u.(state := State.KoiKoi, waitAction := YakuPoint(u, tp) > u.turnPoint && Turn8(u) < 8);
    YakuPointOnlyKoiKoi(u, t, tp);
    t
  }

  /** The score rose during the last turn, so the round must stop whatever the player chose. */
  predicate ForcedStop(s: RoundState)
    requires TurnPlayer(s) < 2
  {
    YakuPoint(s, TurnPlayer(s)) > s.turnPoint && Turn8(s) == 8
  }

  /** The player stops, by choice or by force. */
  predicate Stops(s: RoundState, isKoikoi: Option<bool>)
    requires TurnPlayer(s) < 2
  {
    ForcedStop(s) || isKoikoi == Some(false)
  }

  /** The entry recorded for this turn: 1 only for an unforced `Some(true)`. */
  function Mark(s: RoundState, isKoikoi: Option<bool>): (m: int)
    requires TurnPlayer(s) < 2
    ensures m == 1 <==> !ForcedStop(s) && isKoikoi == Some(true)
    ensures m == 0 || m == 1
  {
    var decision := if ForcedStop(s) then Some(false) else isKoikoi;
    if decision.UnwrapOr(false) then 1 else 0
  }

  /**
   * `claim_koikoi`: record the decision for this turn; stopping ends the round
   * with the mover as winner, the sixteenth half-turn ends it exhausted with
   * the dealer as winner, and otherwise the turn passes.
   */
  function ClaimKoiKoi(s: RoundState, isKoikoi: Option<bool>): (t: RoundState)
    requires TurnPlayer(s) < 2
    requires 1 <= Turn8(s) <= 8
    ensures t.koikoi == s.koikoi.Set(TurnPlayer(s), s.koikoi.Get(TurnPlayer(s))[Turn8(s) - 1 := Mark(s, isKoikoi)])
    ensures t.state == State.RoundOver <==> Stops(s, isKoikoi) || s.turn16 == 16
    ensures Stops(s, isKoikoi) ==> t.winner == Some(TurnPlayer(s)) && t.exhausted == s.exhausted
    ensures !Stops(s, isKoikoi) && s.turn16 == 16 ==> t.winner == Some(s.dealer) && t.exhausted
    ensures t.state == State.RoundOver ==> !t.waitAction && t.turn16 == s.turn16
    ensures t.state != State.RoundOver ==> t.state == State.Discard && t.waitAction && t.turn16 == s.turn16 + 1 && t.winner == s.winner && t.exhausted == s.exhausted
    ensures t.hand == s.hand && t.pile == s.pile && t.fieldSlot == s.fieldSlot && t.stock == s.stock
    ensures t.show == s.show && t.collect == s.collect && t.dealer == s.dealer && t.turnPoint == s.turnPoint
  {
    var tp := TurnPlayer(s);
    var turn8 := Turn8(s);
    var decision := if YakuPoint(s, tp) > s.turnPoint && turn8 == 8 then Some(false) else isKoikoi;
    var row: KoiKoiRow := s.koikoi.Get(tp)[turn8 - 1 := if decision.UnwrapOr(false) then 1 else 0];
    var u := s.(koikoi := s.koikoi.Set(tp, row));
    if decision == Some(false) then
      u.(state := State.RoundOver, waitAction := false, winner := Some(tp))
    else if s.turn16 == 16 then
      u.(state := State.RoundOver, waitAction := false, exhausted := true, winner := Some(s.dealer))
    else
      u.(turn16 := s.turn16 + 1, state := State.Discard, waitAction := true)
  }

  /** The mover's koi-koi count moves by the recorded mark minus whatever was in the slot before. */
  lemma ClaimKoiKoiCounts(s: RoundState, isKoikoi: Option<bool>)
    requires TurnPlayer(s) < 2
    requires 1 <= Turn8(s) <= 8
    ensures KoiKoiNum(ClaimKoiKoi(s, isKoikoi), TurnPlayer(s))
         == KoiKoiNum(s, TurnPlayer(s)) - s.koikoi.Get(TurnPlayer(s))[Turn8(s) - 1] + Mark(s, isKoikoi)
    ensures KoiKoiNum(ClaimKoiKoi(s, isKoikoi), 1 - TurnPlayer(s)) == KoiKoiNum(s, 1 - TurnPlayer(s))
  {
    var tp := TurnPlayer(s);
    RowSumUpdate(s.koikoi.Get(tp), Turn8(s) - 1, Mark(s, isKoikoi));
  }

  /** The half-turn counter stays within 1..16: a claim either ends the round or advances a counter below 16 by one. */
  lemma ClaimKoiKoiClockInRange(s: RoundState, isKoikoi: Option<bool>)
    requires TurnPlayer(s) < 2
    requires 1 <= Turn8(s) <= 8
    requires 1 <= s.turn16 <= 16
    ensures var t := ClaimKoiKoi(s, isKoikoi);
      1 <= t.turn16 <= 16 && (t.state == State.RoundOver || t.turn16 == s.turn16 + 1)
  {
  }

  /** A round that goes on hands the move to player 2, which no transition can index: the next discard cannot be made. */
  lemma ContinueHandsOverToPlayerTwo(s: RoundState, isKoikoi: Option<bool>)
    requires TurnPlayer(s) < 2
    requires 1 <= Turn8(s) <= 8
    requires ClaimKoiKoi(s, isKoikoi).state == State.Discard
    ensures TurnPlayer(ClaimKoiKoi(s, isKoikoi)) == 2
  {
    TurnAlternates(s);
  }

  /** The score snapshot taken at the discard still equals the mover's current score. */
  predicate SnapshotCurrent(s: RoundState) {
    TurnPlayer(s) < 2 && s.turnPoint == YakuPoint(s, TurnPlayer(s))
  }

  /** A discard takes the snapshot. */
  lemma DiscardSnapshots(s: RoundState, card: Card)
    requires TurnPlayer(s) < 2 && card in s.hand.Get(TurnPlayer(s))
    ensures SnapshotCurrent(Discard(s, card).value)
  {
    var t := Discard(s, card).value;
    TurnPlayerReadsClock(s, t);
    YakuPointOnlyKoiKoi(s, t, TurnPlayer(s));
  }

  /** Taking the discard's matches keeps the snapshot current. */
  lemma DiscardPickKeepsSnapshot(s: RoundState, card: Option<Card>)
    requires card.Some? ==> CollectDefined(s)
    requires SnapshotCurrent(s)
    ensures SnapshotCurrent(DiscardPick(s, card))
  {
    var t := DiscardPick(s, card);
    TurnPlayerReadsClock(s, t);
    YakuPointOnlyKoiKoi(s, t, TurnPlayer(s));
  }

  /** Drawing keeps the snapshot current. */
  lemma DrawKeepsSnapshot(s: RoundState)
    requires |s.stock| > 0 || |s.show| > 0
    requires SnapshotCurrent(s)
    ensures SnapshotCurrent(Draw(s))
  {
    var t := Draw(s);
    TurnPlayerReadsClock(s, t);
    YakuPointOnlyKoiKoi(s, t, TurnPlayer(s));
  }

  /**
   * With the snapshot current, taking the draw's matches cannot raise the
   * score, because as written the score reads only the koi-koi record: so
   * koi-koi is never offered, and the last turn's forced stop never triggers.
   */
  lemma KoiKoiNeverOffered(s: RoundState, card: Card)
    requires CollectDefined(s) && SnapshotCurrent(s)
    ensures !DrawPick(s, card).waitAction
    ensures SnapshotCurrent(DrawPick(s, card)) && !ForcedStop(DrawPick(s, card))
  {
    var t := DrawPick(s, card);
    TurnPlayerReadsClock(s, t);
    YakuPointOnlyKoiKoi(s, t, TurnPlayer(s));
  }
}
