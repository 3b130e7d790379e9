/**
 * Hand valuation of the Game scene (src/scenes/game.js: getHandValue).
 *
 * The source first sums the primary values of the non-ace cards, then adds
 * the aces one at a time: 11 unless that would take the running total past
 * 21, else 1. The functions below follow those two passes; GetHandValue is
 * the loop itself.
 */
module Valuation {
  import opened Cards

  /** The first pass's `total`: the primary values of the non-ace cards. */
  function NonAceTotal(hand: seq<CardData>): nat {
    if hand == [] then 0
    else
      var last := hand[|hand| - 1];
      NonAceTotal(hand[..|hand| - 1]) + (if last.isAce then 0 else last.primaryValue)
  }

  /** The first pass's `aces`: how many aces the hand holds. */
  function AceCount(hand: seq<CardData>): nat {
    if hand == [] then 0
    else AceCount(hand[..|hand| - 1]) + (if hand[|hand| - 1].isAce then 1 else 0)
  }

  /** The sum of every card's primary value (an ace counting 1). */
  function PrimaryTotal(hand: seq<CardData>): nat {
    if hand == [] then 0
    else PrimaryTotal(hand[..|hand| - 1]) + hand[|hand| - 1].primaryValue
  }

  /** What one ace adds to the running total. */
  function AceStep(total: int): int {
    if total + 11 > 21 then 1 else 11
  }

  /** The second pass: the aces added one at a time. */
  function AddAces(total: int, aces: nat): int
    decreases aces
  {
    if aces == 0 then total else AddAces(total + AceStep(total), aces - 1)
  }

  /** The value getHandValue returns. */
  function HandValue(hand: seq<CardData>): int {
    AddAces(NonAceTotal(hand), AceCount(hand))
  }

  /** The total when `elevens` of the aces count 11 and the others 1. */
  function AceTotal(hand: seq<CardData>, elevens: nat): int {
    NonAceTotal(hand) + AceCount(hand) + 10 * elevens
  }

  /** getHandValue, with its forEach over the hand and its loop over the aces. */
  method GetHandValue(hand: seq<CardData>) returns (total: int)
    ensures total == HandValue(hand)
    ensures total == AceTotal(hand, if AceCount(hand) > 0 && NonAceTotal(hand) <= 10 then 1 else 0)
  {
    total := 0;
    var aces := 0;
    for i := 0 to |hand|
      invariant total == NonAceTotal(hand[..i]) && aces == AceCount(hand[..i])
    {
      assert hand[..i + 1][..i] == hand[..i];
      if hand[i].isAce {
        aces := aces + 1;
      } else {
        total := total + hand[i].primaryValue;
      }
    }
    assert hand[..|hand|] == hand;
    if aces > 0 {
      for i := 0 to aces
        invariant AddAces(total, aces - i) == HandValue(hand)
      {
        var valueAce := total + 11;
        total := total + (if valueAce > 21 then 1 else 11);
      }
    }
    HandValueClosedForm(hand);
  }

  /** Once the running total has reached 11, every further ace counts 1. */
  lemma {:induction false} AddAcesAfterSoft(total: int, aces: nat)
    requires total >= 11
    ensures AddAces(total, aces) == total + aces
    decreases aces
  {
    if aces > 0 {
      AddAcesAfterSoft(total + 1, aces - 1);
    }
  }

  /**
   * Closed form: with S the non-ace total and A the ace count, the value is
   * S + A, plus 10 exactly when there is an ace and S <= 10.
   */
  lemma HandValueClosedForm(hand: seq<CardData>)
    ensures HandValue(hand) == AceTotal(hand, if AceCount(hand) > 0 && NonAceTotal(hand) <= 10 then 1 else 0)
  {
    var s, a := NonAceTotal(hand), AceCount(hand);
    if a > 0 {
      if s <= 10 {
        AddAcesAfterSoft(s + 11, a - 1);
      } else {
        AddAcesAfterSoft(s, a);
      }
    }
  }

  /** At most one ace is ever counted as 11. */
  lemma AtMostOneAceCountsEleven(hand: seq<CardData>)
    ensures HandValue(hand) == AceTotal(hand, 0) || (AceCount(hand) >= 1 && HandValue(hand) == AceTotal(hand, 1))
  {
    HandValueClosedForm(hand);
  }

  /** With no aces the non-ace total is the sum of all primary values. */
  lemma {:induction false} NonAceTotalWithoutAces(hand: seq<CardData>)
    requires AceCount(hand) == 0
    ensures NonAceTotal(hand) == PrimaryTotal(hand)
  {
    if hand != [] {
      NonAceTotalWithoutAces(hand[..|hand| - 1]);
    }
  }

  /** A hand without aces is worth exactly the sum of its primary values. */
  lemma NoAcesIsPrimaryTotal(hand: seq<CardData>)
    requires AceCount(hand) == 0
    ensures HandValue(hand) == PrimaryTotal(hand)
  {
    NonAceTotalWithoutAces(hand);
  }

  /**
   * When the value does not bust, no other choice of aces as 1 or 11 gives a
   * higher total that does not bust either.
   */
  lemma NonBustValueIsBest(hand: seq<CardData>, elevens: nat)
    requires HandValue(hand) <= 21
    requires elevens <= AceCount(hand) && AceTotal(hand, elevens) <= 21
    ensures AceTotal(hand, elevens) <= HandValue(hand)
  {
    HandValueClosedForm(hand);
  }

  /**
   * The greedy choice busts a hand that could stay at or below 21 exactly
   * when it holds at least two aces, its non-ace total is at most 10 and
   * that total plus the ace count lies between 12 and 21 (e.g. 10, ace, ace).
   */
  lemma GreedyBustsSoftHand(hand: seq<CardData>)
    ensures (HandValue(hand) > 21 && AceTotal(hand, 0) <= 21)
        <==> (AceCount(hand) >= 2 && NonAceTotal(hand) <= 10 && 12 <= NonAceTotal(hand) + AceCount(hand) <= 21)
  {
    HandValueClosedForm(hand);
  }

  /** Ten, ace, ace scores 22, not 12. */
  lemma TenAceAceIsTwentyTwo(ten: CardData, ace1: CardData, ace2: CardData)
    requires !ten.isAce && ten.primaryValue == 10 && ace1.isAce && ace2.isAce
    ensures HandValue([ten, ace1, ace2]) == 22
  {
    var h := [ten, ace1, ace2];
    assert h[..2] == [ten, ace1] && h[..2][..1] == [ten] && h[..2][..1][..0] == [];
    assert NonAceTotal([ten]) == 10 && AceCount([ten]) == 0;
    assert NonAceTotal([ten, ace1]) == 10 && AceCount([ten, ace1]) == 1;
    assert NonAceTotal(h) == 10 && AceCount(h) == 2;
    HandValueClosedForm(h);
  }

  /** An ace and a ten-valued card score 21, in either order. */
  lemma AceAndTenIsTwentyOne(ace: CardData, ten: CardData)
    requires ace.isAce && !ten.isAce && ten.primaryValue == 10
    ensures HandValue([ace, ten]) == 21 && HandValue([ten, ace]) == 21
  {
    assert [ace, ten][..1] == [ace] && [ten, ace][..1] == [ten];
    assert [ace][..0] == [] && [ten][..0] == [];
    assert NonAceTotal([ace]) == 0 && AceCount([ace]) == 1;
    assert NonAceTotal([ten]) == 10 && AceCount([ten]) == 0;
    assert NonAceTotal([ace, ten]) == 10 && AceCount([ace, ten]) == 1;
    assert NonAceTotal([ten, ace]) == 10 && AceCount([ten, ace]) == 1;
    HandValueClosedForm([ace, ten]);
    HandValueClosedForm([ten, ace]);
  }

  /** Two aces and a nine score 21 (11 + 1 + 9). */
  lemma TwoAcesAndNineIsTwentyOne(ace1: CardData, ace2: CardData, nine: CardData)
    requires ace1.isAce && ace2.isAce && !nine.isAce && nine.primaryValue == 9
    ensures HandValue([ace1, ace2, nine]) == 21
  {
    var h := [ace1, ace2, nine];
    assert h[..2] == [ace1, ace2] && h[..2][..1] == [ace1] && h[..2][..1][..0] == [];
    assert NonAceTotal([ace1]) == 0 && AceCount([ace1]) == 1;
    assert NonAceTotal([ace1, ace2]) == 0 && AceCount([ace1, ace2]) == 2;
    assert NonAceTotal(h) == 9 && AceCount(h) == 2;
    HandValueClosedForm(h);
  }
}
