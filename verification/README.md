# Koi-Koi round engine

A Dafny model of the round engine of a Koi-Koi (Hanafuda) game and of the
helpers that encode cards for its neural network. The engine is written in
Rust, in `src/game.rs` and `src/game_tensor.rs`.

A round is a `RoundState`. It holds:
- the two hands, the two capture piles and the stock;
- the field, as a vector of slots where `(0, 0)` marks an empty slot;
- the shown card and the last capture;
- the half-turn counter `turn_16` and the dealer;
- a koi-koi record of eight entries per player;
- the outcome and the phase.

The model covers:
- the card taxonomy and the combination (*yaku*) evaluator;
- the read-only queries: turn player, idle player, full-turn number, sorted field, unseen cards and the field cards matching the shown card;
- the scoring functions `koikoi_num`, `yaku_point` and `round_point`;
- the matching of a shown card against the field (`_collect_card`);
- the transitions `discard`, `discard_pick`, `draw`, `draw_pick` and `claim_koikoi`, and one pass of the deal;
- the encoder helpers `card_to_multi_hot`, `card_suit_array` and `inter_len`.

Modules, one per file:
- `Wrappers`: `Option` and `Result`.
- `Cards`: the card type, the deck and the taxonomy tables.
- `CardSort`: the sort the engine applies to hands and the field.
- `Seqs`: the `Vec` operations the engine uses.
- `Yaku`: the combination evaluator.
- `Round`: the state, the queries and the scoring.
- `Matching`: `_collect_card`.
- `Machine`: the deal and the transitions.
- `Tensor`: the encoder helpers.

The engine panics in several places, and each panic is a precondition here:
- `turn_player` answers 1 or 2, and the engine uses it directly as an index into two-element arrays, so any transition that indexes with it needs it to be 1.
- Reading the shown card panics when nothing is shown.
- `turn_8 - 1` must index the eight-entry koi-koi row.
- `card_to_multi_hot` needs byte subtractions that do not underflow and a slot inside the row.

The one check the engine performs on its caller, that the discarded card is in the mover's hand, is the `Err(CardNotInHand)` result of `Machine.Discard`.

Three consequences of the code as written are proved:
- After a continued turn the mover is player 2, which no transition can index.
- `yaku_point` reads only the koi-koi record, so koi-koi is never offered after a capture.
- The unshuffled deck always gives the first hand all four cards of suits 1 and 2.

## Model

| member | source | states |
|---|---|---|
| Cards.Deck | src/game.rs:207-212 | the dealer's nested loops build 48 cards: exactly the cards of suits 1..12 and variants 1..4, ascending and without repeats |
| Cards.DeckIndex | src/game.rs:207-212 | position k of the dealt deck holds variant k % 4 + 1 of suit k / 4 + 1 |
| Cards.CountIn | src/game.rs:367 | counting a group's cards that lie in the pile never exceeds the group size and reaches it exactly when the whole group is held |
| Cards.CountInIsHitCount | src/game_tensor.rs:22-24 | the filtered count equals the number of positions of the list whose card is in the set |
| Cards.TaxonomyCoversDeck | src/game.rs:27-31 | the light, seed, ribbon and dross tables together list every one of the 48 cards and nothing else |
| Cards.TaxonomySizes | src/game.rs:27-31 | the tables have 5, 9, 10 and 25 entries, 49 entries for 48 cards |
| Cards.SeedDrossOverlap | src/game.rs:28-31 | the sake cup (9,1) is the only card listed both as a seed and as dross |
| Cards.LightDisjoint | src/game.rs:27-31 | no light is also a seed, ribbon or dross card |
| Cards.RibbonDisjoint | src/game.rs:28-31 | no ribbon is also a seed or dross card |
| Cards.GroupsWithinCategories | src/game.rs:20-38 | the named groups lie inside the categories they score for; red and blue ribbons together form the six-ribbon group; the five single lights form the light table |
| Cards.LightShape | src/game.rs:27 | every light is the first variant of suit 1, 3, 8, 11 or 12 |
| Cards.SeedShape | src/game.rs:28 | every seed is a first variant, or (8,2), or (11,2) |
| Cards.RibbonShape | src/game.rs:29 | every ribbon is a second variant of suits 1-10 other than 8, or (11,3) |
| Cards.DrossShape | src/game.rs:30-31 | every dross card is a third or fourth variant, (12,2) or (9,1) |
| CardSort.Insert | src/game.rs:142 | inserting into a sorted list keeps it sorted and adds exactly that card |
| CardSort.Sort | src/game.rs:142 | `sort_unstable` on tuples yields a lexicographically sorted permutation of its input |
| Seqs.Position | src/game.rs:250 | the search finds nothing exactly when the value is absent, and otherwise its first position |
| Seqs.ReplaceFirst | src/game.rs:267-268 | overwriting the first occurrence of a value changes that slot only, and changes nothing when the value is absent |
| Seqs.RemoveFirst | src/game.rs:281-283 | removing the first occurrence of a present value drops exactly one copy of it, at its first position |
| Seqs.Filter | src/game.rs:137-141 | filtering keeps each element that satisfies the predicate with its multiplicity and drops the rest |
| Yaku.Flatten | src/game.rs:362-427 | the pushed entries are exactly the sections that produced one |
| Yaku.FlattenIncreasing | src/game.rs:362-427 | if the sections produce ascending ids, the pushed list has strictly ascending ids |
| Yaku.LightYaku | src/game.rs:367-377 | the lights section emits ids 1-4 or nothing |
| Yaku.SakeYaku | src/game.rs:383-396 | a viewing-sake section emits its plain id or the next one, or nothing |
| Yaku.RibbonYaku | src/game.rs:404-412 | the ribbon-triad section emits ids 11-13 or nothing |
| Yaku.BandsIncrease | src/game.rs:362-427 | sections in ascending disjoint id bands give an evaluator list with strictly increasing ids within 1..16 |
| Yaku.BandLookup | src/game.rs:362-427 | an id of section k's band is in the list exactly when section k pushed that entry |
| Yaku.BandExclusive | src/game.rs:362-427 | at most one entry of any section's band appears |
| Yaku.Sections | src/game.rs:367-424 | each of the nine sections emits only ids of its own band |
| Yaku.Evaluate | src/game.rs:362-427 | `yaku` returns each combination at most once, in ascending id order, ids within 1..16 |
| Yaku.EvaluateLights | src/game.rs:367-377 | Five Lights exactly when all five lights are held; Four Lights for four lights without the rain man, Rainy Four Lights for four with him, Three Lights for three without him |
| Yaku.EvaluateLightsExclusive | src/game.rs:369-377 | at most one lights tier is pushed |
| Yaku.EvaluateSeedCounts | src/game.rs:379-399 | Boar-Deer-Butterfly exactly when all three are held; Tane exactly from five seeds, worth the seeds beyond four |
| Yaku.EvaluateViewingSake | src/game.rs:383-396 | each viewing-sake pair scores 1 under its plain id before any koi-koi and 3 under the next id after one |
| Yaku.EvaluateRibbons | src/game.rs:401-415 | red and blue together score 10 and suppress the single triads, either triad alone scores 5; Tan from five ribbons, worth those beyond four |
| Yaku.EvaluateRibbonsExclusive | src/game.rs:404-412 | at most one ribbon-triad combination is pushed |
| Yaku.EvaluateCountBonuses | src/game.rs:417-424 | Kasu exactly from ten dross, worth those beyond nine; the Koi-Koi entry exactly when the count is positive, carrying the count |
| Round.NewRound | src/game.rs:78-118 | a new round starts in `Init` at half-turn 1 with no outcome and no pending action, empty hands, piles, field, stock, show and collect, all-zero koi-koi rows and a zero snapshot; the dealer defaults to 1 |
| Round.EvenIsMod | src/game.rs:124-126 | the step-by-step parity agrees with the remainder modulo 2 |
| Round.TurnPlayer | src/game.rs:124-126 | the turn player is always 1 or 2 |
| Round.IdlePlayer | src/game.rs:128-130 | the idle player is 1 or 2 and never the turn player |
| Round.TurnAlternates | src/game.rs:124-130 | advancing the half-turn counter makes the idle player the turn player |
| Round.TurnPlayerInRange | src/game.rs:124-126 | the turn player is a usable index exactly when half-turn plus dealer is even, and is then 1 |
| Round.NewRoundFirstPlayer | src/game.rs:88-91 | a new round with the default dealer or dealer 1 opens with player 1; with dealer 0 it opens with player 2 |
| Round.Turn8 | src/game.rs:132-134 | half-turns 2t-1 and 2t belong to full turn t |
| Round.Field | src/game.rs:136-144 | the field is sorted, holds exactly the live cards of the slots with multiplicity, and no empty marker |
| Round.UnseenCards | src/game.rs:146-154 | the unseen cards are the stock followed by the other player's hand; for any player other than 0 the other hand is hand 0 |
| Round.PairingMatchesSuit | src/game.rs:156-158 | the matching cards are exactly the field cards of the shown card's suit, each as often as it lies on the field |
| Round.OfSuitCounts | src/game.rs:156-158 | keeping the cards of one suit keeps each card of that suit as often as it occurs and drops every other card |
| Round.Pairing | src/game.rs:156-158 | the field cards of the shown card's suit; `Round.PairingMatchesSuit` states exactly which cards and how often |
| Round.KoiKoiNum | src/game.rs:180-182 | for a record of 0/1 entries, the count is the number of turns marked 1, between 0 and 8 |
| Round.RowSumCountsCalls | src/game.rs:180-182 | summing a record of 0/1 entries counts its entries equal to 1 |
| Round.RowSum | src/game.rs:180-182 | a record of 0/1 entries sums to between 0 and its length |
| Round.RowSumUpdate | src/game.rs:180-182 | overwriting one record entry shifts the sum by the difference |
| Round.YakuPoint | src/game.rs:185-203 | as written the score is the koi-koi count when that is at most 3, and 0 otherwise |
| Round.YakuPointOnlyKoiKoi | src/game.rs:185-203 | the score depends on the koi-koi record alone |
| Round.YakuPointBounds | src/game.rs:185-203 | a record of 0/1 entries scores between 0 and 3 |
| Round.YakuOf | src/game.rs:362-427 | a player's combinations come in increasing id order and include Koi-Koi exactly when that player has called koi-koi |
| Round.RoundPoint | src/game.rs:168-178 | there is a round score exactly when the round has a winner |
| Round.RoundPointZeroSum | src/game.rs:168-178 | what player 0 gains player 1 loses |
| Round.ExhaustedPaysDealer | src/game.rs:168-178 | an exhausted round pays the dealer's side 1 and charges the other side 1 |
| Round.WinnerTakesScore | src/game.rs:168-178 | a won round pays the winner their score and charges the other side as much; a winner other than 0 is scored as player 1 |
| Matching.ClearOne | src/game.rs:267-268 | emptying the first slot holding a live card removes exactly that card from the field |
| Matching.FillOne | src/game.rs:250-251 | filling the first empty slot adds exactly the shown card to the field |
| Matching.ClearAll | src/game.rs:257-261 | clearing the slots of cards that lie on the field removes exactly those cards |
| Matching.Collect | src/game.rs:245-272 | with no match nothing is captured and the piles stay; with one or three matches the capture is the shown card and all matches; otherwise it is the shown card and the pick; any capture is appended to the turn player's pile; nothing else changes |
| Matching.CollectNoMatch | src/game.rs:247-252 | with no match the shown card is written into the first empty slot, so the live field gains exactly that card; the field is unchanged when no slot is empty |
| Matching.PairingOnField | src/game.rs:156-158 | the matches lie on the field, counted with multiplicity |
| Matching.CollectTakesAll | src/game.rs:254-262 | one or three matches leave the field together |
| Matching.CollectClearsSuit | src/game.rs:254-262 | after taking one or three matches no card of the shown suit is left on the field |
| Matching.CollectTakesPick | src/game.rs:264-270 | with two matches the picked card leaves the field |
| Matching.CollectPiles | src/game.rs:254-271 | a capture goes to pile 1, the only pile the turn player can name; pile 0 is unchanged |
| Matching.CollectConserves | src/game.rs:245-272 | the field and the two piles together gain exactly the shown card, when it is one live card, a slot is free if nothing matches, and any pick is a match |
| Machine.DealFrom | src/game.rs:214-225 | one deal pass gives the sorted cards 0..8 to hand 0, 8..16 to hand 1 and 16..24 to the field followed by ten empty slots, the last 24 to the stock in order, losing and adding nothing; the phase becomes Discard with an action pending, and the piles, show, collect, clock, records, outcome and snapshot are unchanged |
| Machine.Deal | src/game.rs:207-241 | dealing the loop-built deck puts 8 cards in each hand, 8 on the field and 24 in the stock, together exactly the 48 cards once each |
| Machine.DealGivesFourOfASuit | src/game.rs:213-234 | without a shuffle, hand 0 is always all four cards of suits 1 and 2, which the disabled redeal rule would reject |
| Machine.Discard | src/game.rs:274-296 | discarding fails exactly when the card is not in the mover's hand; otherwise the card becomes the shown card, its first copy leaves that hand, the score is snapshotted and the other hand and the clock are unchanged |
| Machine.DiscardMovesCard | src/game.rs:280-283 | a discard moves one copy of the card from the hand to the shown cards, taken from its first position |
| Machine.DiscardWaitsOnTwoMatches | src/game.rs:285-286 | after a discard, an action is pending exactly when two field cards match |
| Machine.DiscardPick | src/game.rs:298-314 | a given pick runs the matching, no pick leaves the field and the piles; the phase becomes Draw with nothing pending and the rest unchanged |
| Machine.Draw | src/game.rs:316-325 | with a stock, its last card becomes the single shown card and leaves the stock; with an empty stock the stock and the shown card stay; the phase becomes DrawPick and the rest is unchanged |
| Machine.DrawWaitsOnTwoMatches | src/game.rs:323-324 | after a draw, an action is pending exactly when two field cards match |
| Machine.DrawPick | src/game.rs:327-335 | the matching runs on the drawn card; koi-koi is offered exactly when the mover's score exceeds the snapshot before the last full turn |
| Machine.Mark | src/game.rs:341-344 | the recorded entry is 1 exactly for an unforced request to continue |
| Machine.ClaimKoiKoi | src/game.rs:337-360 | the decision is recorded at this full turn; stopping, by choice or forced on the last turn, ends the round with the mover as winner; otherwise half-turn 16 ends it exhausted with the dealer as winner; otherwise the clock advances to the next discard and the outcome and exhausted flag are unchanged |
| Machine.ClaimKoiKoiCounts | src/game.rs:341-344 | the mover's koi-koi count moves by the recorded entry minus the entry it overwrites, and the other player's count is unchanged |
| Machine.ClaimKoiKoiClockInRange | src/game.rs:346-359 | the half-turn counter stays within 1..16: a claim either ends the round or advances the counter by exactly one |
| Machine.ContinueHandsOverToPlayerTwo | src/game.rs:355-358 | a round that continues passes the move to player 2 |
| Machine.DiscardSnapshots | src/game.rs:280 | right after a discard the snapshot equals the mover's score |
| Machine.DiscardPickKeepsSnapshot | src/game.rs:298-314 | taking the discard's matches keeps the snapshot current |
| Machine.DrawKeepsSnapshot | src/game.rs:316-325 | drawing keeps the snapshot current |
| Machine.KoiKoiNeverOffered | src/game.rs:327-342 | with the snapshot current, the draw's capture never offers koi-koi and never forces a stop, because the score reads only the koi-koi record |
| Tensor.CardAt | src/game_tensor.rs:9 | every slot of the 48-wide row belongs to one real card |
| Tensor.CardIndexBijective | src/game_tensor.rs:9 | every real card can be encoded; distinct real cards take distinct slots; the deck lists the cards slot by slot |
| Tensor.CardToMultiHot | src/game_tensor.rs:6-12 | the row has 48 entries, each 0 or 1, and is 1 exactly at the slots of the listed cards |
| Tensor.MultiHotRoundTrip | src/game_tensor.rs:6-12 | decoding the multi-hot row of real cards gives back the set of those cards |
| Tensor.MultiHotCountsDistinct | src/game_tensor.rs:6-12 | the multi-hot row of real cards holds as many ones as the list has distinct cards |
| Tensor.CardSuitArray | src/game_tensor.rs:69-75 | the mask is 12 by 48, row i is 1 exactly on slots 4i..4i+3 and 0 elsewhere |
| Tensor.SuitRowIsSuitMultiHot | src/game_tensor.rs:69-75 | row i of the mask is the multi-hot row of the four cards of suit i+1 and marks a real card exactly when it has that suit |
| Tensor.SuitMaskColumns | src/game_tensor.rs:69-75 | every column k of the mask has its single 1 in row k/4, so each real card is marked in the row of its own suit |
| Tensor.InterLen | src/game_tensor.rs:22-24 | the count equals the number of positions of the list whose card lies in the set |

## Left out

- `_deal_card` loop: the retry loop is modelled as one pass. As written, the redeal test is commented out and the exit flag is set to false on every pass, so the loop never exits. The shuffle is also commented out, so the deck is always in loop order.
- `new_round`: its body is empty.
- `call`: it prints the state.
- `DEFAULT_ROUND_TOTAL` and `DEFAULT_INIT_POINT`: the round engine never reads them.
- `CARD_LIST`: only the left-out encoder `yaku_status_array` reads it.
- `field_collect`: nothing calls it.
- `yaku_status_array`, `card_init_position_array`, `card_list_to_set` and `reserve_array`: they shape `ndarray` tensors of `f32` out of the modelled helpers. Floating point and array reshaping are not modelled.
- Phase checks: the engine's checks that a transition runs in the right phase, and that a pick is one of the matches, are commented out. No transition here checks them either.
- Integer widths: card halves are `u8`, counters `usize` and points `i32`. The model uses unbounded integers. No reachable value comes near a bound, except the byte subtraction in `card_to_multi_hot`, which is a precondition. That precondition follows a debug build, where the underflow panics; a release build wraps the `u8` arithmetic instead, so for example `(0, 5)` would land in slot 0 without a panic.
- Encoder rows: rows of `f32` holding 0.0 and 1.0 are rows of the integers 0 and 1.
- Panics: a panicking index or an unwrap of nothing is a precondition, not a modelled failure.
- Round.YakuOf: states only the id order and the Koi-Koi entry. What each other combination requires is stated on `Yaku.Evaluate` by the `Yaku.Evaluate*` lemmas.
- Matching.Collect: states the field slots by their live cards in the lemmas that follow it, not slot by slot.
- A whole-round card count: `discard_pick(None)` leaves the discarded card in `show`, and the next `draw` overwrites it, so the 48 cards are not conserved over a round. Conservation is stated per capture, by `Matching.CollectConserves`.
- `main.rs`, `model.rs` and the Python scripts: they train and drive the network and are not part of the round engine.
