/**
 * Outcomes, payouts and the bankroll rules of the Game scene
 * (src/scenes/game.js: getPlayerCardValues, the else-branch of checkCards,
 * handlePlayerWin / handlePlayerLoss / handleDraw, the starting balance and
 * the chip buttons).
 */
module Settlement {
  import opened Wrappers

  /** Which of winText / loseText / drawText is shown, with its reason. */
  datatype Outcome = Win(reason: string) | Lose(reason: string) | Draw

  /** The outcome getPlayerCardValues decides from the player's total, if any. */
  function PlayerTotalOutcome(total: int): (r: Option<Outcome>)
    ensures r.None? <==> total < 21
  {
    if total == 21 then Some(Win("21"))
    else if total > 21 then Some(Lose("BUST"))
    else None
  }

  /** The player's total decides the round exactly at 21 (a win) and above 21 (a bust). */
  lemma PlayerTotalOutcomeCases(total: int)
    ensures PlayerTotalOutcome(total) == Some(Win("21")) <==> total == 21
    ensures PlayerTotalOutcome(total) == Some(Lose("BUST")) <==> total > 21
    ensures PlayerTotalOutcome(total) == None <==> total < 21
  {
  }

  /** The branch chain of checkCards once the dealer has stopped drawing; it decides every pair of totals. */
  function Settle(player: int, dealer: int): (r: Option<Outcome>)
    ensures r.Some?
  {
    if player == dealer then Some(Draw)
    else if player >= dealer || dealer > 21 then
      Some(Win(if player >= dealer then "BEAT DEALER" else "DEALER BUST"))
    else if dealer == 21 || dealer > player then Some(Lose("DEALER WIN"))
    else None
  }

  /**
   * The chain decides every pair of totals, and it decides them as follows:
   * equal totals draw, a higher player total wins, otherwise a dealer above
   * 21 busts and a dealer at or below 21 wins.
   */
  lemma SettleCases(player: int, dealer: int)
    ensures Settle(player, dealer).Some?
    ensures Settle(player, dealer) == Some(Draw) <==> player == dealer
    ensures Settle(player, dealer) == Some(Win("BEAT DEALER")) <==> player > dealer
    ensures Settle(player, dealer) == Some(Win("DEALER BUST")) <==> player < dealer && dealer > 21
    ensures Settle(player, dealer) == Some(Lose("DEALER WIN")) <==> player < dealer <= 21
  {
    assert "BEAT DEALER" != "DEALER BUST" by {
      assert "BEAT DEALER"[0] != "DEALER BUST"[0];
    }
  }

  /**
   * A player total that was never set settles as 0 does. Against any dealer
   * total of at least 2, the chain then never draws and never lets the player
   * beat the dealer: a dealer above 21 busts, and otherwise the dealer wins.
   */
  lemma UnsetPlayerTotalLoses(dealer: int)
    requires dealer >= 2
    ensures Settle(0, dealer) == if dealer > 21 then Some(Win("DEALER BUST")) else Some(Lose("DEALER WIN"))
  {
  }

  /** What an outcome adds to the balance: stake and winnings, the stake back, or nothing. */
  function Payout(o: Outcome, bet: int): (r: int)
    ensures 0 <= bet ==> 0 <= r <= 2 * bet
  {
    match o
    case Win(_) => bet * 2
    case Lose(_) => 0
    case Draw => bet
  }

  /**
   * Measured from the balance before the stake was committed, a win gains
   * the stake, a draw is even and a loss forfeits the stake.
   */
  lemma PayoutNetOfStake(o: Outcome, before: int, stake: int)
    ensures (before - stake) + Payout(o, stake) == before + (match o case Win(_) => stake case Draw => 0 case Lose(_) => -stake)
  {
  }

  /** The starting balance: the stored one if it is at least 10, else 10. */
  function StartingBalance(stored: Option<int>): (b: int)
    ensures b >= 10
    ensures stored.Some? && stored.value >= 10 ==> b == stored.value
    ensures stored.None? || stored.value < 10 ==> b == 10
  {
    if stored.Some? && stored.value >= 10 then stored.value else 10
  }

  /** The six chip buttons. */
  datatype Chip = One | Five | TwentyFive | Hundred | FiveHundred | Thousand

  /** What a chip button adds to the pending chips: always a positive amount. */
  function ChipValue(c: Chip): (v: int)
    ensures v > 0
  {
    match c
    case One => 1
    case Five => 5
    case TwentyFive => 25
    case Hundred => 100
    case FiveHundred => 500
    case Thousand => 1000
  }
}
