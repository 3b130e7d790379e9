# Blackjack rules engine of the Game scene

The `Game` scene of this Phaser blackjack game holds all of its decision
logic: a 52-code deck built rank by rank, draws without replacement, hand
valuation with aces, betting with chips, the deal, hit, stand and the
dealer's single extra draw, and settlement of the bankroll. This project
models that engine in Dafny and proves properties of it.

- `wrappers.dfy` — `Option`.
- `cards.dfy` (module `Cards`) covers card codes such as `"10d"`, and how
  `getCardData`/`getCardSuit` decode them. It also holds the shoe: the deck
  as a sequence of slots, where a slot holds a code or is overwritten with
  `false` (`Taken`). Draws are described with a set of taken slots.
- `valuation.dfy` (module `Valuation`) covers `getHandValue`: a loop method,
  the two-pass functions that specify it, and the closed form.
- `settlement.dfy` (module `Settlement`) covers outcomes, the settlement
  chain of `checkCards`, payouts, the starting balance and chip values.
- `game.dfy` (module `Blackjack`) holds class `Game`, the scene's state:
  `deck`, both hands and totals, `balance`, `bet`, `chips`, `finalDraw`,
  `outcome` and `resetShown`.
  - `outcome` stands for the most recently shown of winText, loseText and
    drawText. `resetShown` stands for resetText.
  - A ghost set `taken` records the overwritten slots. The invariant `Valid`
    (through `Shoe`) ties the deck to it: before the first deck is built,
    `deck == []` and `taken == {}`; afterwards `deck == DeckWithout(taken)`.
    It also says that every dealt card came from a taken slot. It follows
    that no card is dealt twice between two deck rebuilds.

`Math.random` becomes a caller-supplied stream of probe indices in 0..49,
one stream per draw. `getRandomCard` retries on consumed slots. Its
recursion becomes a loop over the stream, and the requirement `Hits` says
that some probe of the stream finds a card. Calls that the source schedules
on timers are made one after another, in the order they are scheduled.

## Model

| member | source | states |
|---|---|---|
| Cards.ParseDigits | src/scenes/game.js:236 | `parseInt` of a digit string; ParseDigitsInvertsRankText proves it reads back every rank text |
| Cards.ParseDigitsInvertsRankText | src/scenes/game.js:236 | `parseInt` of the rank text of any rank below 100 gives back that rank |
| Cards.CardCodeShape | src/scenes/game.js:112-121 | the code at index k is the rank text of k/4+1 followed by suit letter k%4, and it is a well-formed code |
| Cards.GetCardSuit | src/scenes/game.js:254-265 | each of c, d, h, s names the suit whose suffix it is, and any other character gives Spades; SuitSuffixDecodes proves the mapping from suit positions |
| Cards.SuitSuffixDecodes | src/scenes/game.js:254-265 | `getCardSuit` maps c, d, h, s to Clubs, Diamonds, Hearts, Spades, and the suit index inverts it |
| Cards.DecodeCard | src/scenes/game.js:226-251 | the record keeps the code as its frame and the suit of its last character; the primary value is at most 10, an ace is 1 with secondary 11 and not royal, a royal card is 10 with its rank (at least 10) and not an ace; DecodeCardAt proves it gives the independently defined card for every code setDeck builds |
| Cards.DecodeCardAt | src/scenes/game.js:222-252 | decoding the code at index k gives the card of rank k/4+1 and suit k%4: ace with 1/11, royal with primary value 10 and isRoyal = rank, otherwise primary value = rank; slot and rank can be read back from the card |
| Cards.CardAtInjective | src/scenes/game.js:112-121 | different indices hold different codes and decode to different cards |
| Cards.FreshDeck | src/scenes/game.js:112-121 | the built deck has 52 slots |
| Cards.FreshDeckLayout | src/scenes/game.js:112-121 | rank r in suit s sits at index 4·(r−1)+s |
| Cards.FreshDeckDistinct | src/scenes/game.js:112-121 | the 52 codes are pairwise distinct |
| Cards.DeckWithout | src/scenes/game.js:222-224 | the deck after some draws still has 52 slots |
| Cards.NothingTaken | src/scenes/game.js:112-121 | a deck with no slot overwritten is the freshly built deck |
| Cards.Live | src/scenes/game.js:199 | the test that the probed slot still holds a card; LiveIffNotTaken proves it holds exactly for slots not yet drawn |
| Cards.LiveIffNotTaken | src/scenes/game.js:195-201 | a probe finds a card exactly when its slot has not been drawn |
| Cards.FirstLive | src/scenes/game.js:195-201 | the retry stops at the first probe whose slot is still live, and every earlier probe hit a consumed slot |
| Cards.AfterDraw | src/scenes/game.js:222-224 | the drawn slot was not taken before, and it is added to the taken slots |
| Cards.TakeSlot | src/scenes/game.js:222-224 | overwriting a live slot with `false` gives the deck without that slot. Hands drawn earlier stay drawn, and the new card is not in them |
| Cards.KingsNeverDealt | src/scenes/game.js:196 | indices 50 and 51 hold "13h" and "13s", and neither card is ever in a dealt hand |
| Cards.AppendDrawn | src/scenes/game.js:123-156 | appending a newly drawn card keeps a hand drawn-from-the-shoe and repeat-free, and keeps it disjoint from the other hand |
| Cards.NoRepeatsAcross | src/scenes/game.js:52-103 | two repeat-free, disjoint hands together hold no card twice |
| Valuation.GetHandValue | src/scenes/game.js:286-305 | the loop computes the two-pass value, which equals S + A + 10 when A > 0 and S ≤ 10, and S + A otherwise (S = non-ace total, A = ace count) |
| Valuation.AddAcesAfterSoft | src/scenes/game.js:298-302 | once the running total is at least 11, every further ace adds 1 |
| Valuation.HandValue | src/scenes/game.js:286-305 | the two passes of getHandValue (non-ace sum, then AddAces adding each ace by AceStep); its closed form is proved in HandValueClosedForm |
| Valuation.HandValueClosedForm | src/scenes/game.js:286-305 | the hand value is S + A + (10 if A > 0 and S ≤ 10 else 0) |
| Valuation.AtMostOneAceCountsEleven | src/scenes/game.js:286-305 | at most one ace ever counts 11 |
| Valuation.NonAceTotalWithoutAces | src/scenes/game.js:290-296 | with no aces, the first pass sums every card's primary value |
| Valuation.NoAcesIsPrimaryTotal | src/scenes/game.js:286-305 | with no aces, the hand value is exactly the sum of primary values |
| Valuation.NonBustValueIsBest | src/scenes/game.js:286-305 | when the value is 21 or less, no other choice of aces at 11 that stays at 21 or less scores higher |
| Valuation.GreedyBustsSoftHand | src/scenes/game.js:298-302 | the greedy value busts although all-aces-as-1 would not, exactly when there are at least two aces, S ≤ 10 and 12 ≤ S + A ≤ 21 |
| Valuation.TenAceAceIsTwentyTwo | src/scenes/game.js:286-305 | ten, ace, ace scores 22, not 12 |
| Valuation.AceAndTenIsTwentyOne | src/scenes/game.js:286-305 | ace and ten score 21 in either order |
| Valuation.TwoAcesAndNineIsTwentyOne | src/scenes/game.js:286-305 | ace, ace, nine scores 21 |
| Settlement.PlayerTotalOutcome | src/scenes/game.js:271-278 | the 21 / bust check of getPlayerCardValues decides nothing exactly when the total is below 21; the individual cases are proved in PlayerTotalOutcomeCases |
| Settlement.PlayerTotalOutcomeCases | src/scenes/game.js:267-279 | a player total of exactly 21 wins "21", above 21 loses "BUST", below 21 decides nothing |
| Settlement.Settle | src/scenes/game.js:173-191 | the branch chain, in source order, decides every pair of totals; its individual cases are proved in SettleCases |
| Settlement.SettleCases | src/scenes/game.js:173-191 | the chain decides every pair of totals: equal totals draw, a higher player total wins "BEAT DEALER", a dealer above 21 wins "DEALER BUST", otherwise the dealer wins |
| Settlement.UnsetPlayerTotalLoses | src/scenes/game.js:174-190 | against a dealer total of at least 2, a player total of 0 (standing for the unset `""`) never draws and never beats the dealer: it is a dealer bust above 21 and a dealer win otherwise |
| Settlement.Payout | src/scenes/game.js:307-331 | what a handler adds to the balance lies between nothing and twice the bet; its net effect against the stake is proved in PayoutNetOfStake |
| Settlement.PayoutNetOfStake | src/scenes/game.js:307-331 | counted from the balance before the stake, a win gains the stake, a draw is even and a loss forfeits the stake |
| Settlement.StartingBalance | src/scenes/game.js:22-25 | the starting balance is at least 10: the stored balance if it is at least 10, else 10 |
| Settlement.ChipValue | src/scenes/game.js:553-615 | every chip button adds a positive amount |
| Blackjack.DealCardsDistinct | src/scenes/game.js:52-103 | the four cards of a deal are four different cards |
| Blackjack.Game.constructor | src/scenes/game.js:19-39 | starting balance, nothing bet, empty hands and deck, no outcome, and the invariant holds |
| Blackjack.Game.AddChip | src/scenes/game.js:553-615 | the chips grow by the chip's value, and the invariant is kept |
| Blackjack.Game.ClearBet | src/scenes/game.js:528-530 | the chips go back to 0 |
| Blackjack.Game.PlaceBet | src/scenes/game.js:41-50 | accepted exactly when chips ≤ balance; then chips move from balance to bet; otherwise nothing changes; balance + bet is preserved, the chips stay, and the balance never goes negative |
| Blackjack.Game.SetDeck | src/scenes/game.js:112-121 | the nested loops build exactly the fresh 52-code deck |
| Blackjack.Game.ResetHands | src/scenes/game.js:105-110 | both hands empty, final draw cleared, a fresh deck with nothing taken |
| Blackjack.Game.GetCardData | src/scenes/game.js:222-252 | the slot is overwritten and its code decoded to the card at that index; the card is in neither hand |
| Blackjack.Game.GetRandomCard | src/scenes/game.js:195-220 | the card at the first live probe is drawn, only its slot is overwritten, and the card is in neither hand |
| Blackjack.Game.GetPlayerCardValues | src/scenes/game.js:267-279 | the player's total is the hand value; 21 settles as a win "21", above 21 as a loss "BUST", otherwise nothing else changes |
| Blackjack.Game.GetDealerCardValues | src/scenes/game.js:281-284 | the dealer's total is the dealer's hand value |
| Blackjack.Game.GetPlayerCard | src/scenes/game.js:123-140 | does nothing once an outcome shows; otherwise the drawn card joins the player's hand, and from the third card on the total is checked |
| Blackjack.Game.GetDealerCard | src/scenes/game.js:142-156 | the drawn card joins the dealer's hand; during the final draw the round is then settled from the dealer's new total |
| Blackjack.Game.CheckCards | src/scenes/game.js:158-193 | does nothing once reset shows; below 21 before the final draw the dealer draws exactly one card, and in every case the round ends settled by the chain with the dealer's final total |
| Blackjack.Game.DealCards | src/scenes/game.js:52-103 | the reset prompt hides; with no bet nothing else changes; otherwise a fresh deck is dealt player, dealer, player, dealer (the player's draws skipped if an outcome already shows) and the player's total is checked |
| Blackjack.Game.DealHands | src/scenes/game.js:57-101 | hands reset, a fresh deck, and the four scheduled draws dealt in order |
| Blackjack.Game.DealPair | src/scenes/game.js:77-101 | one player draw (skipped once an outcome shows) then one dealer draw, with nothing settled |
| Blackjack.Game.HandlePlayerWin | src/scenes/game.js:307-314 | win shown, the balance gains twice the bet, bet and chips cleared |
| Blackjack.Game.HandlePlayerLoss | src/scenes/game.js:316-322 | loss shown, the balance is unchanged, bet and chips cleared |
| Blackjack.Game.HandleDraw | src/scenes/game.js:324-331 | draw shown, the bet returns to the balance, bet and chips cleared |
| Blackjack.Game.Update | src/scenes/game.js:626-643 | once an outcome shows, the reset prompt shows and the hands are reset; the bankroll is untouched |

## Left out

- Rendering is not modelled: the sprite atlas, text objects, hover colours and the insufficient-balance text, which only drives display. The card render closure in src/helpers/card.js and the game configuration in src/index.js are not part of this model either.
- Button visibility is not modelled. In the source, the deal, place-bet, hit, stand, clear-bet, chip and reset texts are clickable buttons, so hiding them also decides which commands the player can use. Hiding the deal, place-bet, clear-bet and chip buttons at the deal means a scene deals once and takes bets only before the deal. Hiding hit and stand once an outcome shows ends the player's commands for the round, and the reset button then appears where the deal button was. The model does not restrict the order of calls: each method runs in any state its requires allow, including a second `DealCards`, `PlaceBet` during a round, or `CheckCards` after an outcome.
- Timer scheduling is not modelled. The delays of `time.addEvent` are dropped, and the scheduled calls run in order with no interleaving. `DealHands` and `DealPair` group the deal's scheduled callbacks and have no counterpart of their own in the source.
- `Math.random` is not modelled. Each draw takes a caller-supplied stream of indices, and nothing is claimed about their distribution. The source's endless retry when every reachable slot is consumed becomes the requirement that some probe of the stream finds a card.
- `localStorage` is not modelled. The stored balance becomes an `Option<int>` parameter and the writes are dropped. JavaScript's string coercion of the stored value is also not modelled.
- The card object cache (`cards` keyed on primary value, suit and royal flag) is not modelled, and cards are immutable values. The `frame` swaps between `cardBack` and the code that conceal and reveal the dealer's second card are not modelled either, nor is `console.log`.
- The per-frame `update()` is one call. Repeating it while an outcome shows only rebuilds the same empty hands and fresh deck.
- The reset button's `scene.restart` is not modelled, and neither is the unused socket.io import.
- The totals start as `""` in the source and as 0 here. The stand button can be pressed after the dealer's second card and before the scheduled `getPlayerCardValues`, so `checkCards` may compare a player total that was never set. By then the dealer holds at least two cards, so the dealer total is at least 2, and on that range `""` and 0 take the same branch of the chain (`UnsetPlayerTotalLoses`). The dealer total is always set by `checkCards` before it is compared.
- `checkCards` reads the dealer's second card. The model therefore requires two dealer cards unless the reset prompt shows, since the source would fail on a shorter hand.
- The dealer draws at most one card after standing: `checkCards` sets `finalDraw` before its one extra draw (`CheckCards`).
- For integer totals the settlement chain decides every pair of totals (`SettleCases`), so no total leaves the round unsettled.
- `outcome` holds only the most recent of the outcome texts. In the source two of winText, loseText and drawText can be visible at once, for instance when the stand button settles a round after a bust and before the next frame's update. The model then keeps only the later outcome. The guard behaviour ("some outcome shows") is the same.
- The greedy ace valuation is modelled as written. This includes hands like ten, ace, ace that score 22 (`GreedyBustsSoftHand`, `TenAceAceIsTwentyTwo`). It is not corrected to the best total.
