/**
 * The state of one Koi-Koi round, its read-only queries and its scoring.
 *
 * Players are the indices 0 and 1 of every two-element array, but the engine's
 * `turn_player` answers 1 or 2; a query or transition that indexes an array
 * with 2 would panic, and that panic is a precondition here.
 */
module Round {
  import opened Wrappers
  import opened Cards
  import opened CardSort
  import opened Seqs
  import opened Yaku

  /** The phase the round is in. */
  datatype State = Init | Discard | DiscardPick | Draw | DrawPick | KoiKoi | RoundOver

  /** A fixed two-element array, one slot per player. */
  datatype Pair<T> = Pair(first: T, second: T) {
    function Get(i: nat): T
      requires i < 2
    {
      if i == 0 then first else second
    }

    /** Overwrites slot `i` and keeps the other slot. */
    function Set(i: nat, v: T): (p: Pair<T>)
      requires i < 2
      ensures p.Get(i) == v
      ensures p.Get(1 - i) == Get(1 - i)
    {
      if i == 0 then Pair(v, second) else Pair(first, v)
    }
  }

  /** One player's koi-koi record: one entry per turn of theirs. */
  type KoiKoiRow = r: seq<int> | |r| == 8 witness [0, 0, 0, 0, 0, 0, 0, 0]

  const EMPTY_ROW: KoiKoiRow := [0, 0, 0, 0, 0, 0, 0, 0]

  datatype RoundState = RoundState(
    hand: Pair<seq<Card>>,
    pile: Pair<seq<Card>>,
    fieldSlot: seq<Card>,
    stock: seq<Card>,
    show: seq<Card>,
    collect: seq<Card>,
    turn16: nat,
    dealer: nat,
    koikoi: Pair<KoiKoiRow>,
    winner: Option<nat>,
    exhausted: bool,
    turnPoint: int,
    state: State,
    waitAction: bool)

  /** Two states agree on the turn counter, the dealer, the koi-koi records and the outcome. */
  predicate SameClock(s: RoundState, t: RoundState) {
    t.turn16 == s.turn16 && t.dealer == s.dealer && t.koikoi == s.koikoi && t.winner == s.winner && t.exhausted == s.exhausted
  }

  /** A fresh round before dealing: empty card vectors, turn 1, dealer 1 unless given. */
  function NewRound(dealer: Option<nat>): (s: RoundState)
    ensures s.state == Init && s.turn16 == 1 && !s.waitAction
    ensures s.winner == None && !s.exhausted
    ensures dealer.Some? ==> s.dealer == dealer.value
    ensures dealer.None? ==> s.dealer == 1
    ensures s.hand == Pair([], []) && s.pile == Pair([], [])
    ensures s.fieldSlot == [] && s.stock == [] && s.show == [] && s.collect == []
    ensures s.koikoi == Pair(EMPTY_ROW, EMPTY_ROW) && s.turnPoint == 0
  {
    RoundState(Pair([], []), Pair([], []), [], [], [], [], 1, dealer.UnwrapOr(1),
               Pair(EMPTY_ROW, EMPTY_ROW), None, false, 0, Init, false)
  }

  /** `n % 2 == 0`, decided one step at a time. */
  predicate Even(n: nat) {
    if n == 0 then true else !Even(n - 1)
  }

  /** The step-by-step parity is the remainder modulo 2. */
  lemma {:induction false} EvenIsMod(n: nat)
    ensures Even(n) <==> n % 2 == 0
  {
    if n > 0 {
      EvenIsMod(n - 1);
    }
  }

  /** The player to move, as the engine numbers it: 1 when `turn_16 + dealer` is even, else 2. */
  function TurnPlayer(s: RoundState): (p: nat)
    ensures p == 1 || p == 2
  {
    if Even(s.turn16 + s.dealer) then 1 else 2
  }

  /** The player not to move. */
  function IdlePlayer(s: RoundState): (p: nat)
    ensures p == 1 || p == 2
    ensures p != TurnPlayer(s)
  {
    3 - TurnPlayer(s)
  }

  /** Advancing the half-turn counter by one hands the move to the other player. */
  lemma TurnAlternates(s: RoundState)
    ensures TurnPlayer(s.(turn16 := s.turn16 + 1)) == IdlePlayer(s)
  {
  }

  /** The mover is read off the clock alone: states on the same half-turn with the same dealer agree on it. */
  lemma TurnPlayerReadsClock(s: RoundState, t: RoundState)
    requires t.turn16 == s.turn16 && t.dealer == s.dealer
    ensures TurnPlayer(t) == TurnPlayer(s)
    ensures IdlePlayer(t) == IdlePlayer(s)
  {
  }

  /** The turn player is a usable array index exactly when the half-turn counter and the dealer have the same parity. */
  lemma TurnPlayerInRange(s: RoundState)
    ensures TurnPlayer(s) < 2 <==> (s.turn16 + s.dealer) % 2 == 0
    ensures TurnPlayer(s) < 2 ==> TurnPlayer(s) == 1
  {
    EvenIsMod(s.turn16 + s.dealer);
  }

  /** A fresh round with the default dealer opens with player 1, a usable index; dealer 0 opens with the unusable 2. */
  lemma NewRoundFirstPlayer()
    ensures TurnPlayer(NewRound(None)) == 1
    ensures TurnPlayer(NewRound(Some(1))) == 1
    ensures TurnPlayer(NewRound(Some(0))) == 2
  {
  }

  /** The full-turn number: half-turns 2t-1 and 2t both belong to turn t. */
  function Turn8(s: RoundState): (t: nat)
    ensures 2 * t - 1 <= s.turn16 <= 2 * t
  {
    (s.turn16 + 1) / 2
  }

  /** The occupied field slots. */
  predicate Occupied(c: Card) { c != SENTINEL }

  /** The live cards of the field slots, counted with multiplicity. */
  function Live(slots: seq<Card>): multiset<Card> {
    multiset(slots)[SENTINEL := 0]
  }

  /** The field: the occupied slots' cards, sorted. */
  function Field(s: RoundState): (f: seq<Card>)
    ensures Sorted(f)
    ensures multiset(f) == Live(s.fieldSlot)
    ensures SENTINEL !in f
  {
    var f := Sort(Filter(s.fieldSlot, Occupied));
    assert multiset(f)[SENTINEL] == 0;
    f
  }

  /** The cards `player` cannot see: the stock followed by the opponent's hand. */
  function UnseenCards(s: RoundState, player: nat): (u: seq<Card>)
    ensures |u| == |s.stock| + |s.hand.Get(if player == 0 then 1 else 0)|
    ensures u[..|s.stock|] == s.stock
    ensures u[|s.stock|..] == s.hand.Get(if player == 0 then 1 else 0)
    ensures forall c :: c in u <==> c in s.stock || c in s.hand.Get(if player == 0 then 1 else 0)
  {
    var other := if player == 0 then s.hand.second else s.hand.first;
    assert (s.stock + other)[..|s.stock|] == s.stock && (s.stock + other)[|s.stock|..] == other;
    s.stock + other
  }

  /** The cards of `cards` whose suit is `suit`, in their order. */
  function OfSuit(cards: seq<Card>, suit: int): seq<Card> {
    if |cards| == 0 then []
    else (if cards[0].0 == suit then [cards[0]] else []) + OfSuit(cards[1..], suit)
  }

  /** Selecting one suit keeps every card of that suit, as often as it occurs, and nothing else. */
  lemma {:induction false} OfSuitCounts(cards: seq<Card>, suit: int)
    ensures forall c :: multiset(OfSuit(cards, suit))[c] == if c.0 == suit then multiset(cards)[c] else 0
  {
    if |cards| > 0 {
      assert cards == [cards[0]] + cards[1..];
      OfSuitCounts(cards[1..], suit);
    }
  }

  /** The field cards of the shown card's suit. */
  function Pairing(s: RoundState): seq<Card>
    requires |s.show| > 0
  {
    OfSuit(Field(s), s.show[0].0)
  }

  /** The matches are exactly the field cards of the shown suit, each as often as it lies on the field. */
  lemma PairingMatchesSuit(s: RoundState)
    requires |s.show| > 0
    ensures forall c :: multiset(Pairing(s))[c] == if c.0 == s.show[0].0 then Live(s.fieldSlot)[c] else 0
    ensures forall c :: c in Pairing(s) <==> c in Field(s) && c.0 == s.show[0].0
  {
    var p := Pairing(s);
    OfSuitCounts(Field(s), s.show[0].0);
    assert forall c :: c in p <==> multiset(p)[c] > 0;
  }

  /** Sum of the entries of a koi-koi row. */
  function RowSum(r: seq<int>): (n: int)
    ensures (forall i :: 0 <= i < |r| ==> 0 <= r[i] <= 1) ==> 0 <= n <= |r|
  {
    if |r| == 0 then 0 else RowSum(r[..|r| - 1]) + r[|r| - 1]
  }

  /** Overwriting one entry shifts the sum by the difference. */
  lemma {:induction false} RowSumUpdate(r: seq<int>, i: nat, v: int)
    requires i < |r|
    ensures RowSum(r[i := v]) == RowSum(r) - r[i] + v
    decreases |r|
  {
    var n := |r| - 1;
    if i < n {
      assert r[i := v][..n] == r[..n][i := v];
      RowSumUpdate(r[..n], i, v);
    } else {
      assert r[i := v][..n] == r[..n];
    }
  }

  /** The turns a row records a call on: the entries equal to 1. */
  function Calls(r: seq<int>): set<int> {
    set i | 0 <= i < |r| && r[i] == 1
  }

  /** A row of 0/1 entries sums to the number of its 1 entries. */
  lemma {:induction false} RowSumCountsCalls(r: seq<int>)
    requires forall i :: 0 <= i < |r| ==> 0 <= r[i] <= 1
    ensures RowSum(r) == |Calls(r)|
    decreases |r|
  {
    if |r| > 0 {
      var n := |r| - 1;
      var p := r[..n];
      RowSumCountsCalls(p);
      assert forall i :: 0 <= i < n ==> p[i] == r[i];
      if r[n] == 1 {
        assert Calls(r) == Calls(p) + {n};
      } else {
        assert Calls(r) == Calls(p);
      }
    }
  }

  /** `koikoi_num`: how many koi-koi the player has called, one per turn marked 1 in their row. */
  function KoiKoiNum(s: RoundState, player: nat): (n: int)
    requires player < 2
    ensures (forall i :: 0 <= i < 8 ==> 0 <= s.koikoi.Get(player)[i] <= 1) ==>
      n == |Calls(s.koikoi.Get(player))| && 0 <= n <= 8
  {
    var row := s.koikoi.Get(player);
    if forall i :: 0 <= i < 8 ==> 0 <= row[i] <= 1 then
      RowSumCountsCalls(row);
      RowSum(row)
    else
      RowSum(row)
  }

  /**
   * `yaku_point` as written: the combination points are not summed yet, so the
   * score is the koi-koi count when that is at most 3 and 0 * (count - 2) otherwise.
   */
  function YakuPoint(s: RoundState, player: nat): (p: int)
    requires player < 2
    ensures KoiKoiNum(s, player) <= 3 ==> p == KoiKoiNum(s, player)
    ensures KoiKoiNum(s, player) > 3 ==> p == 0
  {
    var point := 0;
    var k := KoiKoiNum(s, player);
    if k <= 3 then point + k else point * (k - 2)
  }

  /** The score reads nothing but the koi-koi record: cards moving anywhere leave it unchanged. */
  lemma YakuPointOnlyKoiKoi(s: RoundState, t: RoundState, player: nat)
    requires player < 2
    requires s.koikoi.Get(player) == t.koikoi.Get(player)
    ensures YakuPoint(s, player) == YakuPoint(t, player)
  {
  }

  /** A record of 0/1 entries scores between 0 and 3. */
  lemma YakuPointBounds(s: RoundState, player: nat)
    requires player < 2
    requires forall i :: 0 <= i < 8 ==> 0 <= s.koikoi.Get(player)[i] <= 1
    ensures 0 <= YakuPoint(s, player) <= 3
  {
  }

  /** `yaku(player)`: the evaluator applied to the set of the player's pile and their koi-koi count. */
  function YakuOf(s: RoundState, player: nat): (r: seq<Entry>)
    requires player < 2
    ensures IncreasingIds(r)
    ensures HasId(r, 16) <==> KoiKoiNum(s, player) > 0
  {
    var pile := set c | c in s.pile.Get(player);
    EvaluateCountBonuses(pile, KoiKoiNum(s, player));
    Evaluate(pile, KoiKoiNum(s, player))
  }

  /** The points a player takes from the round, once it has a winner. */
  function RoundPoint(s: RoundState, player: nat): (r: Option<int>)
    ensures r.None? <==> s.winner.None?
  {
    if s.winner.None? then None
    else if s.exhausted then
      if (s.dealer == 0) == (player == 0) then Some(1) else Some(-1)
    else if s.winner == Some(0) then
      if player == 0 then Some(YakuPoint(s, 0)) else Some(-YakuPoint(s, 0))
    else
      if player == 1 then Some(YakuPoint(s, 1)) else Some(-YakuPoint(s, 1))
  }

  /** Whatever ended the round, what player 0 gains player 1 loses. */
  lemma RoundPointZeroSum(s: RoundState)
    requires s.winner.Some?
    ensures RoundPoint(s, 0).value + RoundPoint(s, 1).value == 0
  {
  }

  /** An exhausted round pays 1 to the dealer's side and costs the other side 1. */
  lemma ExhaustedPaysDealer(s: RoundState)
    requires s.winner.Some? && s.exhausted && s.dealer < 2
    ensures RoundPoint(s, s.dealer) == Some(1)
    ensures RoundPoint(s, 1 - s.dealer) == Some(-1)
  {
  }

  /** A won round pays the winner their score, and any winner other than 0 is scored as player 1. */
  lemma WinnerTakesScore(s: RoundState)
    requires s.winner.Some? && !s.exhausted
    ensures var w := if s.winner.value == 0 then 0 else 1;
      RoundPoint(s, w) == Some(YakuPoint(s, w)) && RoundPoint(s, 1 - w) == Some(-YakuPoint(s, w))
  {
  }
}
