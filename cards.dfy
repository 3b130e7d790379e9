/**
 * Card codes, card decoding and the shoe of the Game scene
 * (src/scenes/game.js: setDeck, getRandomCard, getCardData, getCardSuit).
 *
 * A deck slot holds the code "<rank><suit>" of a card, e.g. "1c" or "13s",
 * or `Taken` once the card has been dealt (the source overwrites the slot
 * with `false`).
 */
module Cards {
  import opened Wrappers

  datatype Suit = Clubs | Diamonds | Hearts | Spades

  /** Suit suffixes in the order the deck builder appends them. */
  const SuitSuffixes: seq<char> := ['c', 'd', 'h', 's']

  /** Thirteen ranks times four suits. */
  const DeckSize: nat := 52

  /** `Math.floor(Math.random() * (51 - 1))` only ever yields 0..49. */
  const DrawRange: nat := 50

  /** One value of the random index the shoe probes. */
  type Probe = i: int | 0 <= i < DrawRange

  /** The `customData` record that getCardData builds; `isRoyal` is `false` (None) or the rank. */
  datatype CardData = CardData(
    frame: string,
    suit: Suit,
    primaryValue: nat,
    secondaryValue: nat,
    isAce: bool,
    isRoyal: Option<nat>)

  /** A deck slot: a card code, or `false` once the card has been drawn. */
  datatype Slot = Code(code: string) | Taken

  /** The suit named by a code's last character; anything unknown is Spades. */
  function GetCardSuit(suffix: char): (s: Suit)
    ensures suffix in SuitSuffixes ==> SuitSuffixes[SuitIndex(s)] == suffix
    ensures suffix !in SuitSuffixes[..3] ==> s == Spades
  {
    if suffix == 'c' then Clubs
    else if suffix == 'd' then Diamonds
    else if suffix == 'h' then Hearts
    else Spades
  }

  /** Position of a suit in SuitSuffixes. */
  function SuitIndex(s: Suit): nat {
    match s
    case Clubs => 0
    case Diamonds => 1
    case Hearts => 2
    case Spades => 3
  }

  // ---------------------------------------------------------------------------
  // Decimal text of a rank: JavaScript's `i + suit` and `parseInt`
  // ---------------------------------------------------------------------------

  predicate IsDigit(c: char) {
    '0' <= c <= '9'
  }

  predicate AllDigits(s: string) {
    forall i | 0 <= i < |s| :: IsDigit(s[i])
  }

  function DigitChar(d: nat): char
    requires d < 10
  {
    ('0' as int + d) as char
  }

  /** The decimal text of a number below 100, as `i + "c"` writes it. */
  function RankText(n: nat): string
    requires n < 100
  {
    if n < 10 then [DigitChar(n)] else [DigitChar(n / 10), DigitChar(n % 10)]
  }

  /** `parseInt` of a string made of decimal digits only. */
  function ParseDigits(s: string): nat
    requires AllDigits(s)
  {
    if s == [] then 0
    else 10 * ParseDigits(s[..|s| - 1]) + (s[|s| - 1] as int - '0' as int)
  }

  /** Reading back the decimal text of a number gives the number. */
  lemma ParseDigitsInvertsRankText(n: nat)
    requires n < 100
    ensures ParseDigits(RankText(n)) == n
  {
    var s := RankText(n);
    if n < 10 {
      assert s == [DigitChar(n)] && s[..0] == [];
    } else {
      var hi := [DigitChar(n / 10)];
      assert s == hi + [DigitChar(n % 10)] && s[..1] == hi && hi[..0] == [];
      assert ParseDigits(hi) == n / 10;
    }
  }

  // ---------------------------------------------------------------------------
  // Card codes and their decoding (setDeck, getCardData)
  // ---------------------------------------------------------------------------

  /** A code getCardData can decode: a digit string followed by one suit character. */
  predicate IsCode(code: string) {
    |code| >= 2 && AllDigits(code[..|code| - 1])
  }

  /** The code setDeck pushes at index k: rank k / 4 + 1, suit k % 4. */
  function CardCode(k: int): string
    requires 0 <= k < DeckSize
  {
    RankText(k / 4 + 1) + [SuitSuffixes[k % 4]]
  }

  /** Every code setDeck builds is a rank in decimal followed by the suit's suffix. */
  lemma CardCodeShape(k: int)
    requires 0 <= k < DeckSize
    ensures IsCode(CardCode(k))
    ensures CardCode(k)[..|CardCode(k)| - 1] == RankText(k / 4 + 1)
    ensures CardCode(k)[|CardCode(k)| - 1] == SuitSuffixes[k % 4]
  {
    var code := CardCode(k);
    assert code[..|code| - 1] == RankText(k / 4 + 1);
  }

  /**
   * The record getCardData builds from a code: no card is worth more than 10
   * as its primary value, an ace is worth 1 or 11, and a royal card 10.
   */
  function DecodeCard(code: string): (c: CardData)
    requires IsCode(code)
    ensures c.frame == code && c.suit == GetCardSuit(code[|code| - 1]) && c.primaryValue <= 10
    ensures c.isAce ==> c.primaryValue == 1 && c.secondaryValue == 11 && c.isRoyal.None?
    ensures c.isRoyal.Some? ==> c.primaryValue == 10 && c.isRoyal.value >= 10 && !c.isAce
  {
    var suit := GetCardSuit(code[|code| - 1]);
    var value := ParseDigits(code[..|code| - 1]);
    if value == 1 then CardData(code, suit, 1, 11, true, None)
    else if value >= 10 then CardData(code, suit, 10, 0, false, Some(value))
    else CardData(code, suit, value, 0, false, None)
  }

  /** The suit with the given position in SuitSuffixes. */
  function SuitAt(s: nat): Suit
    requires s < 4
  {
    if s == 0 then Clubs else if s == 1 then Diamonds else if s == 2 then Hearts else Spades
  }

  /**
   * The card of rank k / 4 + 1 and suit k % 4, as the rules describe it: an
   * ace has primary value 1 and secondary value 11, ranks 10 to 13 are worth
   * 10 and are royal, any other rank is worth itself.
   */
  function CardAt(k: int): CardData
    requires 0 <= k < DeckSize
  {
    var rank := k / 4 + 1;
    CardData(
      CardCode(k),
      SuitAt(k % 4),
      if rank == 1 then 1 else if rank >= 10 then 10 else rank,
      if rank == 1 then 11 else 0,
      rank == 1,
      if rank >= 10 then Some(rank) else None)
  }

  /** The rank a decoded card stands for. */
  function RankOf(c: CardData): int {
    if c.isAce then 1
    else if c.isRoyal.Some? then c.isRoyal.value
    else c.primaryValue
  }

  /** The index of a card in a fresh deck. */
  function SlotOf(c: CardData): int {
    4 * (RankOf(c) - 1) + SuitIndex(c.suit)
  }

  /** Every suffix setDeck uses decodes to its own suit. */
  lemma SuitSuffixDecodes(s: nat)
    requires s < 4
    ensures GetCardSuit(SuitSuffixes[s]) == SuitAt(s)
    ensures SuitIndex(SuitAt(s)) == s
  {
  }

  /**
   * getCardData decodes the code at index k into the card of rank k / 4 + 1
   * and suit k % 4, and that card is found at index k again.
   */
  lemma {:induction false} DecodeCardAt(k: int)
    requires 0 <= k < DeckSize
    ensures IsCode(CardCode(k)) && DecodeCard(CardCode(k)) == CardAt(k)
    ensures RankOf(CardAt(k)) == k / 4 + 1 && SlotOf(CardAt(k)) == k
  {
    CardCodeShape(k);
    ParseDigitsInvertsRankText(k / 4 + 1);
    SuitSuffixDecodes(k % 4);
  }

  /** Different deck indices hold different cards. */
  lemma CardAtInjective(i: int, j: int)
    requires 0 <= i < DeckSize && 0 <= j < DeckSize && i != j
    ensures CardAt(i) != CardAt(j)
    ensures CardCode(i) != CardCode(j)
  {
    DecodeCardAt(i);
    DecodeCardAt(j);
  }

  // ---------------------------------------------------------------------------
  // The deck (setDeck) and drawing from it (getRandomCard)
  // ---------------------------------------------------------------------------

  /** The deck setDeck builds. */
  function FreshDeck(): (deck: seq<Slot>)
    ensures |deck| == DeckSize
  {
    seq(DeckSize, k requires 0 <= k < DeckSize => Code(CardCode(k)))
  }

  /** The fresh deck with the slots in `taken` overwritten with `false`. */
  function DeckWithout(taken: set<Probe>): (deck: seq<Slot>)
    ensures |deck| == DeckSize
  {
    seq(DeckSize, k requires 0 <= k < DeckSize => if k in taken then Taken else FreshDeck()[k])
  }

  /** With nothing taken, the deck is the one setDeck builds. */
  lemma NothingTaken()
    ensures DeckWithout({}) == FreshDeck()
  {
  }

  /** Rank `rank` of suit number `s` sits at index 4 * (rank - 1) + s. */
  lemma FreshDeckLayout(rank: int, s: int)
    requires 1 <= rank <= 13 && 0 <= s < 4
    ensures FreshDeck()[4 * (rank - 1) + s] == Code(RankText(rank) + [SuitSuffixes[s]])
  {
    var k := 4 * (rank - 1) + s;
    assert k / 4 == rank - 1 && k % 4 == s;
  }

  /** A fresh deck holds 52 distinct codes. */
  lemma FreshDeckDistinct()
    ensures forall i, j | 0 <= i < j < DeckSize :: FreshDeck()[i] != FreshDeck()[j]
  {
    var deck := FreshDeck();
    forall i, j | 0 <= i < j < DeckSize
      ensures deck[i] != deck[j]
    {
      CardAtInjective(i, j);
      assert deck[i] == Code(CardCode(i)) && deck[j] == Code(CardCode(j));
    }
  }

  /** The slot at a probe still holds a card (`!self.deck[randomIdx]` is false). */
  predicate Live(deck: seq<Slot>, p: Probe) {
    p < |deck| && deck[p].Code?
  }

  /** A built deck still holds the card at a probe exactly when its slot has not been taken. */
  lemma LiveIffNotTaken(taken: set<Probe>, p: Probe)
    ensures Live(DeckWithout(taken), p) <==> p !in taken
  {
  }

  /** Some probe of the stream finds a slot not yet taken, so the retrying draw returns. */
  predicate Hits(taken: set<Probe>, probes: seq<Probe>) {
    exists i | 0 <= i < |probes| :: probes[i] !in taken
  }

  /** The position of the first probe that finds a card: getRandomCard retries until then. */
  function FirstLive(taken: set<Probe>, probes: seq<Probe>): (r: nat)
    requires Hits(taken, probes)
    ensures r < |probes| && probes[r] !in taken
    ensures forall i | 0 <= i < r :: probes[i] in taken
  {
    if probes[0] !in taken then 0
    else
      var i :| 0 <= i < |probes| && probes[i] !in taken;
      assert probes[1..][i - 1] !in taken;
      1 + FirstLive(taken, probes[1..])
  }

  /** The deck index a draw consumes. */
  function DrawnSlot(taken: set<Probe>, probes: seq<Probe>): Probe
    requires Hits(taken, probes)
  {
    probes[FirstLive(taken, probes)]
  }

  /** The taken slots after a draw: the consumed slot joins them. */
  function AfterDraw(taken: set<Probe>, probes: seq<Probe>): (after: set<Probe>)
    requires Hits(taken, probes)
    ensures DrawnSlot(taken, probes) !in taken && after == taken + {DrawnSlot(taken, probes)}
  {
    taken + {DrawnSlot(taken, probes)}
  }

  /** Every card of `cards` belongs to a slot that has been taken. */
  ghost predicate DrawnFrom(taken: set<Probe>, cards: seq<CardData>) {
    forall i | 0 <= i < |cards| :: SlotOf(cards[i]) in taken
  }

  /** No card occurs twice. */
  ghost predicate NoRepeats(cards: seq<CardData>) {
    forall i, j | 0 <= i < j < |cards| :: cards[i] != cards[j]
  }

  /** No card occurs in both sequences. */
  ghost predicate Disjoint(a: seq<CardData>, b: seq<CardData>) {
    forall i, j | 0 <= i < |a| && 0 <= j < |b| :: a[i] != b[j]
  }

  /**
   * Taking a live slot overwrites it in the deck and adds it to the taken
   * slots; the card it yields has not been dealt before.
   */
  lemma TakeSlot(taken: set<Probe>, cards: seq<CardData>, k: Probe)
    requires DrawnFrom(taken, cards) && k !in taken
    ensures DeckWithout(taken)[k] == Code(CardCode(k))
    ensures DeckWithout(taken)[k := Taken] == DeckWithout(taken + {k})
    ensures DrawnFrom(taken + {k}, cards) && DrawnFrom(taken + {k}, [CardAt(k)])
    ensures CardAt(k) !in cards
  {
    DecodeCardAt(k);
    forall i | 0 <= i < |cards|
      ensures SlotOf(cards[i]) != k
    {
    }
    var t := taken + {k};
    forall i | 0 <= i < DeckSize
      ensures DeckWithout(taken)[k := Taken][i] == DeckWithout(t)[i]
    {
    }
    forall i | 0 <= i < |cards|
      ensures SlotOf(cards[i]) in t
    {
    }
  }

  /** The two kings at indices 50 and 51 ("13h", "13s") are never dealt. */
  lemma KingsNeverDealt(taken: set<Probe>, cards: seq<CardData>)
    requires DrawnFrom(taken, cards)
    ensures CardCode(50) == "13h" && CardCode(51) == "13s"
    ensures CardAt(50) !in cards && CardAt(51) !in cards
  {
    DecodeCardAt(50);
    DecodeCardAt(51);
    forall i | 0 <= i < |cards|
      ensures SlotOf(cards[i]) < DrawRange
    {
    }
  }

  /**
   * Appending a freshly drawn card to one hand keeps that hand accounted for
   * and free of repeats, and keeps it apart from the other hand.
   */
  lemma AppendDrawn(taken: set<Probe>, hand: seq<CardData>, other: seq<CardData>, c: CardData)
    requires DrawnFrom(taken, hand) && SlotOf(c) in taken && NoRepeats(hand)
    requires c !in hand && c !in other
    ensures DrawnFrom(taken, hand + [c]) && NoRepeats(hand + [c])
    ensures Disjoint(hand, other) ==> Disjoint(hand + [c], other)
    ensures Disjoint(other, hand) ==> Disjoint(other, hand + [c])
  {
    var h := hand + [c];
    forall i | 0 <= i < |h|
      ensures h[i] == if i < |hand| then hand[i] else c
    {
    }
    forall i | 0 <= i < |h|
      ensures SlotOf(h[i]) in taken
    {
    }
    forall i, j | 0 <= i < j < |h|
      ensures h[i] != h[j]
    {
    }
    if Disjoint(hand, other) {
      forall i, j | 0 <= i < |h| && 0 <= j < |other|
        ensures h[i] != other[j]
      {
      }
    }
    if Disjoint(other, hand) {
      forall i, j | 0 <= i < |other| && 0 <= j < |h|
        ensures other[i] != h[j]
      {
      }
    }
  }

  /** With no card dealt twice within each hand and none in both, no card is dealt twice overall. */
  lemma NoRepeatsAcross(a: seq<CardData>, b: seq<CardData>)
    requires NoRepeats(a) && NoRepeats(b) && Disjoint(a, b)
    ensures NoRepeats(a + b)
  {
    var ab := a + b;
    forall i, j | 0 <= i < j < |ab|
      ensures ab[i] != ab[j]
    {
      if j < |a| {
      } else if i < |a| {
        assert ab[j] == b[j - |a|];
      } else {
        assert ab[i] == b[i - |a|] && ab[j] == b[j - |a|];
      }
    }
  }
}
