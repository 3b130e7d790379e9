/**
 * The rules engine of the Game scene (src/scenes/game.js) as one object.
 *
 * Its fields are the scene's `deck`, the player's and dealer's hands and
 * totals, the player's `balance`, `bet` and `chips`, the dealer's
 * `finalDraw`, and two fields that stand for visibility flags the logic
 * branches on: `outcome` for the most recently shown of winText / loseText /
 * drawText, and `resetShown` for resetText.
 *
 * Calls the source schedules on timers are made here one after another, in
 * the order they are scheduled. Every draw takes the stream of indices
 * `Math.random` would produce for it.
 */
module Blackjack {
  import opened Wrappers
  import opened Cards
  import opened Valuation
  import opened Settlement

  /**
   * Every stream of a deal finds a card: the player's draws `p1`, `p3` (when
   * they take place) and the dealer's draws `p2`, `p4`, in that order, from
   * a fresh deck.
   */
  ghost predicate DealSucceeds(playerDraws: bool, p1: seq<Probe>, p2: seq<Probe>, p3: seq<Probe>, p4: seq<Probe>) {
    if playerDraws then
      && Hits({}, p1)
      && var t1 := AfterDraw({}, p1);
      && Hits(t1, p2)
      && var t2 := AfterDraw(t1, p2);
      && Hits(t2, p3)
      && Hits(AfterDraw(t2, p3), p4)
    else
      && Hits({}, p2)
      && Hits(AfterDraw({}, p2), p4)
  }

  /**
   * The four cards of a deal are four different cards.
   */
  lemma DealCardsDistinct(p1: seq<Probe>, p2: seq<Probe>, p3: seq<Probe>, p4: seq<Probe>)
    requires DealSucceeds(true, p1, p2, p3, p4)
    ensures
      var t1 := AfterDraw({}, p1);
      var t2 := AfterDraw(t1, p2);
      var t3 := AfterDraw(t2, p3);
      var cards := [CardAt(DrawnSlot({}, p1)), CardAt(DrawnSlot(t1, p2)), CardAt(DrawnSlot(t2, p3)), CardAt(DrawnSlot(t3, p4))];
      NoRepeats(cards)
  {
    var t1 := AfterDraw({}, p1);
    var t2 := AfterDraw(t1, p2);
    var t3 := AfterDraw(t2, p3);
    var s1, s2, s3, s4 := DrawnSlot({}, p1), DrawnSlot(t1, p2), DrawnSlot(t2, p3), DrawnSlot(t3, p4);
    // Each slot is drawn from outside the set the earlier draws built up.
    assert s1 != s2 && s1 != s3 && s1 != s4 && s2 != s3 && s2 != s4 && s3 != s4;
    CardAtInjective(s1, s2);
    CardAtInjective(s1, s3);
    CardAtInjective(s1, s4);
    CardAtInjective(s2, s3);
    CardAtInjective(s2, s4);
    CardAtInjective(s3, s4);
  }

  /**
   * Before the first deck is built nothing is taken; afterwards the deck is
   * the fresh deck with the taken slots overwritten. Every dealt card came
   * from a taken slot, and no card is in the hands twice.
   */
  ghost predicate Shoe(deck: seq<Slot>, taken: set<Probe>, playerHand: seq<CardData>, dealerHand: seq<CardData>) {
    && (if deck == [] then taken == {} else deck == DeckWithout(taken))
    && DrawnFrom(taken, playerHand) && DrawnFrom(taken, dealerHand)
    && NoRepeats(playerHand) && NoRepeats(dealerHand) && Disjoint(playerHand, dealerHand)
  }

  class Game {
    var deck: seq<Slot>
    var playerHand: seq<CardData>
    var dealerHand: seq<CardData>
    var playerTotal: int
    var dealerTotal: int
    var balance: int
    var bet: int
    var chips: int
    var finalDraw: bool
    var outcome: Option<Outcome>
    var resetShown: bool
    /** The deck slots overwritten with `false` since the deck was built. */
    ghost var taken: set<Probe>

    /**
     * The shoe is consistent, the money amounts never go negative, the dealer
     * only makes the final draw holding two cards, and the reset prompt only
     * shows after an outcome.
     */
    ghost predicate Valid()
      reads this`deck, this`taken, this`playerHand, this`dealerHand
      reads this`balance, this`bet, this`chips, this`finalDraw, this`outcome, this`resetShown
    {
      && Shoe(deck, taken, playerHand, dealerHand)
      && balance >= 0 && bet >= 0 && chips >= 0
      && (finalDraw ==> |dealerHand| >= 2)
      && (resetShown ==> outcome.Some?)
    }

    /** The round has ended with `o`: the bankroll is paid out from `balance0` and `bet0`, bet and chips cleared. */
    ghost predicate SettledAs(o: Outcome, balance0: int, bet0: int)
      reads this
    {
      outcome == Some(o) && balance == balance0 + Payout(o, bet0) && bet == 0 && chips == 0
    }

    /** getPlayerCardValues has run, starting from the given bankroll and outcome. */
    ghost predicate PlayerChecked(balance0: int, bet0: int, chips0: int, outcome0: Option<Outcome>)
      reads this
    {
      && playerTotal == HandValue(playerHand)
      && match PlayerTotalOutcome(playerTotal)
         case Some(o) => SettledAs(o, balance0, bet0)
         case None => outcome == outcome0 && balance == balance0 && bet == bet0 && chips == chips0
    }

    /**
     * The hands and the taken slots after the deal's scheduled draws from a
     * fresh deck: player, dealer, player, dealer, or only the dealer's two
     * when the player's draws do not take place.
     */
    ghost predicate DealtFrom(playerDraws: bool, p1: seq<Probe>, p2: seq<Probe>, p3: seq<Probe>, p4: seq<Probe>)
      requires DealSucceeds(playerDraws, p1, p2, p3, p4)
      reads this`playerHand, this`dealerHand, this`taken
    {
      if playerDraws then
        var t1 := AfterDraw({}, p1);
        var t2 := AfterDraw(t1, p2);
        var t3 := AfterDraw(t2, p3);
        && playerHand == [CardAt(DrawnSlot({}, p1)), CardAt(DrawnSlot(t2, p3))]
        && dealerHand == [CardAt(DrawnSlot(t1, p2)), CardAt(DrawnSlot(t3, p4))]
        && taken == AfterDraw(t3, p4)
      else
        var t1 := AfterDraw({}, p2);
        && playerHand == []
        && dealerHand == [CardAt(DrawnSlot({}, p2)), CardAt(DrawnSlot(t1, p4))]
        && taken == AfterDraw(t1, p4)
    }

    /** A new scene: the starting balance, nothing bet, no deck built yet. */
    constructor (stored: Option<int>)
      ensures Valid()
      ensures balance == StartingBalance(stored) && bet == 0 && chips == 0
      ensures deck == [] && playerHand == [] && dealerHand == []
      ensures playerTotal == 0 && dealerTotal == 0
      ensures !finalDraw && outcome == None && !resetShown
    {
      deck := [];
      taken := {};
      playerHand := [];
      dealerHand := [];
      playerTotal := 0;
      dealerTotal := 0;
      balance := StartingBalance(stored);
      bet := 0;
      chips := 0;
      finalDraw := false;
      outcome := None;
      resetShown := false;
    }

    // -------------------------------------------------------------------------
    // Betting
    // -------------------------------------------------------------------------

    /** A chip button: the pending chips grow by the chip's value. */
    method AddChip(chip: Chip)
      requires Valid()
      modifies this`chips
      ensures Valid()
      ensures chips == old(chips) + ChipValue(chip)
    {
      chips := chips + ChipValue(chip);
    }

    /** The clear-bet button: the pending chips go back to 0. */
    method ClearBet()
      requires Valid()
      modifies this`chips
      ensures Valid()
      ensures chips == 0
    {
      chips := 0;
    }

    /**
     * placeBet: when the chips do not exceed the balance they move from the
     * balance to the bet, otherwise nothing changes (the insufficient-balance
     * text shows). The chips stay as they are either way.
     */
    method PlaceBet() returns (accepted: bool)
      requires Valid()
      modifies this`balance, this`bet
      ensures Valid()
      ensures accepted <==> old(chips) <= old(balance)
      ensures accepted ==> bet == old(bet) + chips && balance == old(balance) - chips
      ensures !accepted ==> bet == old(bet) && balance == old(balance)
      ensures balance + bet == old(balance) + old(bet)
    {
      var balanceDifference := balance - chips;
      accepted := balanceDifference >= 0;
      if accepted {
        bet := bet + chips;
        balance := balance - chips;
      }
    }

    // -------------------------------------------------------------------------
    // The deck
    // -------------------------------------------------------------------------

    /** setDeck: ranks 1 to 13, each in the suits c, d, h, s. */
    method SetDeck()
      modifies this`deck
      ensures deck == FreshDeck()
    {
      deck := [];
      for rank := 1 to 14
        invariant deck == FreshDeck()[..4 * (rank - 1)]
      {
        for s := 0 to 4
          invariant deck == FreshDeck()[..4 * (rank - 1) + s]
        {
          FreshDeckLayout(rank, s);
          deck := deck + [Code(RankText(rank) + [SuitSuffixes[s]])];
        }
      }
      assert FreshDeck()[..DeckSize] == FreshDeck();
    }

    /** resetHands: both hands emptied, the final draw cleared, a new deck. */
    method ResetHands()
      requires Valid()
      modifies this`playerHand, this`dealerHand, this`finalDraw, this`deck, this`taken
      ensures Valid()
      ensures playerHand == [] && dealerHand == [] && !finalDraw && deck == FreshDeck() && taken == {}
    {
      playerHand := [];
      dealerHand := [];
      finalDraw := false;
      SetDeck();
      taken := {};
      NothingTaken();
    }

    /** getCardData: the slot is overwritten with `false` and its code decoded. */
    method GetCardData(idx: Probe) returns (card: CardData)
      requires Valid() && Live(deck, idx)
      modifies this`deck, this`taken
      ensures Valid()
      ensures deck == old(deck)[idx := Taken] && taken == old(taken) + {idx}
      ensures card == CardAt(idx) && SlotOf(card) in taken
      ensures card !in playerHand && card !in dealerHand
    {
      LiveIffNotTaken(taken, idx);
      TakeSlot(taken, playerHand, idx);
      TakeSlot(taken, dealerHand, idx);
      var code := deck[idx].code;
      DecodeCardAt(idx);
      deck := deck[idx := Taken];
      taken := taken + {idx};
      card := DecodeCard(code);
    }

    /**
     * getRandomCard: probes the stream until an index finds a card still in
     * the deck (a consumed slot makes it try again), then takes that card.
     */
    method GetRandomCard(probes: seq<Probe>) returns (card: CardData)
      requires Valid() && deck != [] && Hits(taken, probes)
      modifies this`deck, this`taken
      ensures Valid()
      ensures deck == old(deck)[DrawnSlot(old(taken), probes) := Taken]
      ensures taken == AfterDraw(old(taken), probes)
      ensures card == CardAt(DrawnSlot(old(taken), probes)) && SlotOf(card) in taken
      ensures card !in playerHand && card !in dealerHand
    {
      var i := 0;
      while !Live(deck, probes[i])
        invariant Valid() && deck == old(deck) && taken == old(taken)
        invariant i <= FirstLive(taken, probes)
        decreases FirstLive(taken, probes) - i
      {
        LiveIffNotTaken(taken, probes[i]);
        i := i + 1;
      }
      LiveIffNotTaken(taken, probes[i]);
      card := GetCardData(probes[i]);
    }

    // -------------------------------------------------------------------------
    // Dealing, hitting and standing
    // -------------------------------------------------------------------------

    /** getPlayerCardValues: the player's total, a win at 21 and a loss above it. */
    method GetPlayerCardValues()
      requires Valid()
      modifies this`playerTotal, this`outcome, this`balance, this`bet, this`chips
      ensures Valid()
      ensures PlayerChecked(old(balance), old(bet), old(chips), old(outcome))
    {
      playerTotal := GetHandValue(playerHand);
      if playerTotal == 21 {
        HandlePlayerWin("21");
      } else if playerTotal > 21 {
        HandlePlayerLoss("BUST");
      }
    }

    /** getDealerCardValues: the dealer's total. */
    method GetDealerCardValues()
      modifies this`dealerTotal
      ensures dealerTotal == HandValue(dealerHand)
    {
      dealerTotal := GetHandValue(dealerHand);
    }

    /**
     * getPlayerCard (the hit button, and the player's part of the deal): does
     * nothing once an outcome shows; otherwise one card joins the player's
     * hand and, from the third card on, the player's total is checked.
     */
    method GetPlayerCard(probes: seq<Probe>)
      requires Valid()
      requires outcome.None? ==> deck != [] && Hits(taken, probes)
      modifies this`deck, this`taken, this`playerHand, this`playerTotal
      modifies this`outcome, this`balance, this`bet, this`chips
      ensures Valid()
      ensures old(outcome).Some? ==> unchanged(this)
      ensures old(outcome).None? ==>
        && taken == AfterDraw(old(taken), probes)
        && deck == DeckWithout(taken)
        && playerHand == old(playerHand) + [CardAt(DrawnSlot(old(taken), probes))]
      ensures old(outcome).None? && |playerHand| > 2 ==>
        PlayerChecked(old(balance), old(bet), old(chips), old(outcome))
      ensures old(outcome).None? && |playerHand| <= 2 ==>
        && playerTotal == old(playerTotal) && outcome == old(outcome)
        && balance == old(balance) && bet == old(bet) && chips == old(chips)
    {
      if outcome.Some? {
        return;
      }
      var card := GetRandomCard(probes);
      AppendDrawn(taken, playerHand, dealerHand, card);
      playerHand := playerHand + [card];
      if |playerHand| > 2 {
        GetPlayerCardValues();
      }
    }

    /**
     * getDealerCard: one card joins the dealer's hand (the second one face
     * down); during the final draw the dealer's cards are then checked again.
     */
    method GetDealerCard(probes: seq<Probe>)
      requires Valid() && deck != [] && Hits(taken, probes)
      modifies this`deck, this`taken, this`dealerHand, this`dealerTotal, this`finalDraw
      modifies this`outcome, this`balance, this`bet, this`chips
      decreases if finalDraw then 1 else 3
      ensures Valid()
      ensures taken == AfterDraw(old(taken), probes) && deck == DeckWithout(taken)
      ensures dealerHand == old(dealerHand) + [CardAt(DrawnSlot(old(taken), probes))]
      ensures finalDraw == old(finalDraw)
      ensures !old(finalDraw) || old(resetShown) ==>
        && dealerTotal == old(dealerTotal) && outcome == old(outcome)
        && balance == old(balance) && bet == old(bet) && chips == old(chips)
      ensures old(finalDraw) && !old(resetShown) ==>
        && dealerTotal == HandValue(dealerHand)
        && Settle(playerTotal, dealerTotal).Some?
        && SettledAs(Settle(playerTotal, dealerTotal).value, old(balance), old(bet))
    {
      var card := GetRandomCard(probes);
      AppendDrawn(taken, dealerHand, playerHand, card);
      dealerHand := dealerHand + [card];
      if finalDraw {
        CheckCards(probes);
      }
    }

    /**
     * checkCards (the stand button, and the end of the final draw): does
     * nothing once the reset prompt shows. Otherwise the dealer's total is
     * taken; below 21 and before the final draw the dealer draws exactly one
     * more card and is checked again, else the round is settled.
     */
    method CheckCards(probes: seq<Probe>)
      requires Valid()
      requires !resetShown ==> |dealerHand| >= 2
      requires !resetShown && !finalDraw && HandValue(dealerHand) < 21 ==> deck != [] && Hits(taken, probes)
      modifies this`deck, this`taken, this`dealerHand, this`dealerTotal, this`finalDraw
      modifies this`outcome, this`balance, this`bet, this`chips
      decreases if finalDraw then 0 else 2
      ensures Valid()
      ensures old(resetShown) ==> unchanged(this)
      ensures !old(resetShown) ==>
        var draws := !old(finalDraw) && HandValue(old(dealerHand)) < 21;
        && finalDraw == (old(finalDraw) || draws)
        && taken == (if draws then AfterDraw(old(taken), probes) else old(taken))
        && deck == (if draws then DeckWithout(taken) else old(deck))
        && dealerHand == old(dealerHand) + (if draws then [CardAt(DrawnSlot(old(taken), probes))] else [])
        && !resetShown
        && dealerTotal == HandValue(dealerHand)
        && Settle(playerTotal, dealerTotal).Some?
        && SettledAs(Settle(playerTotal, dealerTotal).value, old(balance), old(bet))
    {
      if resetShown {
        return;
      }
      // Turning the concealed card face up only changes its sprite frame.
      GetDealerCardValues();
      if dealerTotal < 21 && !finalDraw {
        finalDraw := true;
        GetDealerCard(probes);
      } else {
        if playerTotal == dealerTotal {
          HandleDraw();
        } else if playerTotal >= dealerTotal || dealerTotal > 21 {
          var reason := if playerTotal >= dealerTotal then "BEAT DEALER" else "DEALER BUST";
          HandlePlayerWin(reason);
        } else if dealerTotal == 21 || dealerTotal > playerTotal {
          HandlePlayerLoss("DEALER WIN");
        }
      }
    }

    /**
     * dealCards: the reset prompt hides either way. With no bet nothing else
     * changes (the insufficient-balance text shows). Otherwise the hands are
     * reset and a new deck built, cards are dealt to the player, the dealer,
     * the player and the dealer, and the player's total is checked. The
     * player's draws are skipped if an outcome is already showing.
     */
    method DealCards(p1: seq<Probe>, p2: seq<Probe>, p3: seq<Probe>, p4: seq<Probe>) returns (dealt: bool)
      requires Valid()
      requires bet != 0 ==> DealSucceeds(outcome.None?, p1, p2, p3, p4)
      modifies this
      ensures Valid() && !resetShown
      ensures dealt == (old(bet) != 0)
      ensures !dealt ==> unchanged(
        this`deck, this`taken, this`playerHand, this`dealerHand, this`playerTotal, this`dealerTotal,
        this`balance, this`bet, this`chips, this`finalDraw, this`outcome)
      ensures dealt ==> DealtFrom(old(outcome).None?, p1, p2, p3, p4) && deck == DeckWithout(taken)
      ensures dealt ==> !finalDraw
      ensures dealt ==> dealerTotal == old(dealerTotal)
      ensures dealt && old(outcome).None? ==> PlayerChecked(old(balance), old(bet), old(chips), old(outcome))
      ensures dealt && old(outcome).Some? ==>
        && playerTotal == 0 && outcome == old(outcome)
        && balance == old(balance) && bet == old(bet) && chips == old(chips)
    {
      if bet == 0 {
        resetShown := false;
        dealt := false;
        return;
      }
      dealt := true;
      // The prompts change before the scheduled draws run; the reset prompt hides here too.
      resetShown := false;
      DealHands(p1, p2, p3, p4);
      GetPlayerCardValues();
    }

    /**
     * The hands are reset, a new deck built, and the deal's four scheduled
     * draws made: player, dealer, player, dealer.
     */
    method DealHands(p1: seq<Probe>, p2: seq<Probe>, p3: seq<Probe>, p4: seq<Probe>)
      requires Valid() && DealSucceeds(outcome.None?, p1, p2, p3, p4)
      modifies this`deck, this`taken, this`playerHand, this`dealerHand, this`playerTotal, this`dealerTotal
      modifies this`finalDraw, this`outcome, this`balance, this`bet, this`chips
      ensures Valid() && deck == DeckWithout(taken)
      ensures !finalDraw && dealerTotal == old(dealerTotal) && playerTotal == old(playerTotal)
      ensures outcome == old(outcome) && balance == old(balance) && bet == old(bet) && chips == old(chips)
      ensures DealtFrom(old(outcome).None?, p1, p2, p3, p4)
    {
      ResetHands();
      DealPair(p1, p2);
      DealPair(p3, p4);
    }

    /**
     * Two of the deal's scheduled callbacks: getPlayerCard and then
     * getDealerCard, while the player holds at most one card and the dealer
     * has not stood.
     */
    method DealPair(pp: seq<Probe>, pd: seq<Probe>)
      requires Valid() && deck != [] && |playerHand| <= 1 && !finalDraw
      requires outcome.None? ==> Hits(taken, pp) && Hits(AfterDraw(taken, pp), pd)
      requires outcome.Some? ==> Hits(taken, pd)
      modifies this`deck, this`taken, this`playerHand, this`dealerHand, this`playerTotal, this`dealerTotal
      modifies this`finalDraw, this`outcome, this`balance, this`bet, this`chips
      ensures Valid() && deck == DeckWithout(taken)
      ensures !finalDraw && dealerTotal == old(dealerTotal) && playerTotal == old(playerTotal)
      ensures outcome == old(outcome) && balance == old(balance) && bet == old(bet) && chips == old(chips)
      ensures old(outcome).None? ==>
        var t1 := AfterDraw(old(taken), pp);
        && playerHand == old(playerHand) + [CardAt(DrawnSlot(old(taken), pp))]
        && dealerHand == old(dealerHand) + [CardAt(DrawnSlot(t1, pd))]
        && taken == AfterDraw(t1, pd)
      ensures old(outcome).Some? ==>
        && playerHand == old(playerHand)
        && dealerHand == old(dealerHand) + [CardAt(DrawnSlot(old(taken), pd))]
        && taken == AfterDraw(old(taken), pd)
    {
      GetPlayerCard(pp);
      GetDealerCard(pd);
    }

    // -------------------------------------------------------------------------
    // Settlement
    // -------------------------------------------------------------------------

    /** handlePlayerWin: stake and winnings back to the balance. */
    method HandlePlayerWin(reason: string)
      requires Valid()
      modifies this`outcome, this`balance, this`bet, this`chips
      ensures Valid()
      ensures SettledAs(Win(reason), old(balance), old(bet))
    {
      outcome := Some(Win(reason));
      balance := balance + bet * 2;
      bet := 0;
      chips := 0;
    }

    /** handlePlayerLoss: the stake is forfeited. */
    method HandlePlayerLoss(reason: string)
      requires Valid()
      modifies this`outcome, this`balance, this`bet, this`chips
      ensures Valid()
      ensures SettledAs(Lose(reason), old(balance), old(bet))
    {
      outcome := Some(Lose(reason));
      bet := 0;
      chips := 0;
    }

    /** handleDraw: the stake goes back to the balance. */
    method HandleDraw()
      requires Valid()
      modifies this`outcome, this`balance, this`bet, this`chips
      ensures Valid()
      ensures SettledAs(Draw, old(balance), old(bet))
    {
      outcome := Some(Draw);
      balance := balance + bet;
      bet := 0;
      chips := 0;
    }

    /**
     * The per-frame update once an outcome shows: the reset prompt appears
     * and the hands are reset (repeating this every frame changes nothing
     * more, so one call stands for all of them).
     */
    method Update()
      requires Valid()
      modifies this
      ensures Valid()
      ensures old(outcome).None? ==> unchanged(this)
      ensures old(outcome).Some? ==>
        && resetShown && playerHand == [] && dealerHand == [] && !finalDraw && deck == FreshDeck()
        && outcome == old(outcome) && balance == old(balance) && bet == old(bet) && chips == old(chips)
        && playerTotal == old(playerTotal) && dealerTotal == old(dealerTotal)
    {
      if outcome.Some? {
        resetShown := true;
        ResetHands();
      }
    }
  }
}
