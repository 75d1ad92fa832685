/** The tables of the game, entry by entry, and what the tests that read them mean. */
module RuleTables {
  import opened Tarot
  import opened Decks
  import opened Context
  import opened Engines
  import opened Json
  import opened CardTexts
  import Tables
  import opened Bots

  // ---------------------------------------------------------------- cards

  /** The halves of points of an ace to a king, and of the trumps from the fool to the highest. */
  const SUIT_HALVES: seq<nat> := [1, 1, 1, 1, 1, 1, 1, 1, 1, 1, 3, 5, 7, 9]
  const TRUMP_HALVES: seq<nat> := [9, 9, 1, 1, 1, 1, 1, 1, 1, 1, 1, 1, 1, 1, 1, 1, 1, 1, 1, 1, 1, 9]

  lemma CardsAreWorth(c: Card)
    requires c.IsValid()
    ensures c.HalfPoints() == if c.suit == TRUMPS then TRUMP_HALVES[c.value] else SUIT_HALVES[c.value - 1]
    ensures c.IsOudler() <==> c in {Card(0, TRUMPS), Card(1, TRUMPS), Card(21, TRUMPS)}
    ensures OUDLERS(c) == (if c.IsOudler() then 1 else 0) && HALF_POINTS(c) == c.HalfPoints()
    ensures Discardable(c) <==> c.suit != TRUMPS && c.value < 14
  {
  }

  /** The sizes of the hands and of the dog with three, four and five players. */
  lemma HandsAndDog(n: nat)
    requires PlayerCount(n)
    ensures HandSize(n) == [24, 18, 15][n - 3] && DogSize(n) == [6, 6, 3][n - 3] && n * HandSize(n) + DogSize(n) == 78
  {
  }

  /** How cards, places and contracts are written. */
  lemma NamesAreKnown()
    ensures CardText(Card(1, SPADES)) == "01-S" && CardText(Card(12, HEARTS)) == "12-H"
    ensures CardText(Card(13, DIAMONDS)) == "13-D" && CardText(Card(14, CLUBS)) == "14-C" && CardText(FOOL) == "00-T"
    ensures CardText(Card(21, TRUMPS)) == "21-T"
    ensures seq(5, i requires 0 <= i < 5 => PlaceText(i)) == ["South", "East", "North", "West", "Fifth"]
    ensures ContractText(NO_ANY) == "" && ContractText(PASS) == "Pass" && ContractText(TAKE) == "Take"
    ensures ContractText(GUARD) == "Guard" && ContractText(GUARD_WITHOUT) == "Guard without"
    ensures ContractText(GUARD_AGAINST) == "Guard against"
  {
  }

  /** How names of cards are read: two digits, any character, and the letter of the suit. */
  lemma CardNamesAreRead(tens: nat, ones: nat, any: char, suit: nat)
    requires tens < 10 && ones < 10 && suit < 5
    ensures CardOfText([Digit(tens), Digit(ones), any, "SHDCT"[suit]]) == Card(10 * tens + ones, suit)
  {
  }

  /** A name of any other length is no card; the number may also be short, signed, or no number at all. */
  lemma OddCardNames(s: string)
    ensures |s| != 4 ==> CardOfText(s) == NO_CARD
    ensures CardOfText("7?-H") == CardOfText("+7-H") == CardOfText(" 7-H") == Card(7, HEARTS)
    ensures CardOfText("-7-H") == Card(249, HEARTS) && CardOfText("x7-H") == Card(0, HEARTS)
    ensures CardOfText("07-X") == Card(7, INVALID)
  {
  }

  /** The steps that players acknowledge, by the names that their messages carry. */
  lemma StepsAreKnown()
    ensures Tables.PhaseOfStep("Ready") == WaitForReady && Tables.PhaseOfStep("NewDeal") == WaitForCards
    ensures Tables.PhaseOfStep("ShowBid") == WaitForShowBid && Tables.PhaseOfStep("AllPassed") == WaitForAllPassed
    ensures Tables.PhaseOfStep("ShowKingCall") == WaitForShowKingCall && Tables.PhaseOfStep("ShowDog") == WaitForShowDog
    ensures Tables.PhaseOfStep("StartDeal") == WaitForStartDeal && Tables.PhaseOfStep("ShowHandle") == WaitForShowHandle
    ensures Tables.PhaseOfStep("Card") == WaitForShowCard && Tables.PhaseOfStep("EndOfTrick") == WaitForEndOfTrick
    ensures Tables.PhaseOfStep("EndOfDeal") == WaitForEndOfDeal && Tables.PhaseOfStep("AckJoinTable") == WaitForPlayers
  {
  }

  // ---------------------------------------------------------------- handles

  function TrumpsIn(d: Cards): nat {
    if d == [] then 0 else TrumpsIn(d[..|d| - 1]) + if d[|d| - 1].suit == TRUMPS then 1 else 0
  }

  lemma {:induction false} TrumpsCounted(s: Stats, d: Cards)
    requires s.trumps < 256
    ensures AnalyzeTrumps(s, d).trumps == Byte(s.trumps + TrumpsIn(d))
    ensures TrumpsIn(d) <= |d| && (TrumpsIn(d) == |d| <==> forall c :: c in d ==> c.suit == TRUMPS)
  {
    if d != [] {
      var front, c := d[..|d| - 1], d[|d| - 1];
      TrumpsCounted(s, front);
      assert d == front + [c];
      ByteMore(s.trumps + TrumpsIn(front));
    }
  }

  lemma ByteMore(x: nat)
    ensures Byte(Byte(x) + 1) == Byte(x + 1)
  {
  }

  /** A handle: 10, 13 or 15 trumps of the hand, with the fool only if there are no more. */
  lemma HandleIs(hand: Cards, handle: Cards)
    requires |hand| < 256 && |handle| < 256
    ensures TestHandle(hand, handle) <==>
      |handle| in {10, 13, 15} && (forall c :: c in handle ==> c.suit == TRUMPS && c in hand) &&
      (FOOL in handle ==> TrumpsIn(hand) <= |handle|)
  {
    TrumpsCounted(NO_STATS, hand);
    TrumpsCounted(NO_STATS, handle);
  }

  /** A declared handle is kept for the side of its player. */
  lemma HandleIsKept(c: Ctx, handle: Cards, p: Place)
    ensures var c' := StoreHandle(c, handle, p);
      if p == c.bid.taker || p == c.bid.partner then c' == c.(attackHandle := handle) else c' == c.(defenseHandle := handle)
  {
  }

  // ---------------------------------------------------------------- calling a king

  predicate HasAll(hand: Cards, value: nat) {
    forall suit :: 0 <= suit < 4 ==> Card(value, suit) in hand
  }

  function InSuit(hand: Cards, value: nat, suits: nat): nat {
    if suits == 0 then 0 else InSuit(hand, value, suits - 1) + if Card(value, suits - 1) in hand then 1 else 0
  }

  lemma {:induction false} InSuitMore(hand: Cards, value: nat, c: Card, suits: nat)
    requires c !in hand
    ensures InSuit(hand + [c], value, suits) == InSuit(hand, value, suits) + if c.value == value && c.suit < suits then 1 else 0
  {
    if suits > 0 {
      InSuitMore(hand, value, c, suits - 1);
    }
  }

  lemma {:induction false} InSuitBound(hand: Cards, value: nat, suits: nat)
    ensures InSuit(hand, value, suits) <= suits
    ensures InSuit(hand, value, suits) == suits <==> forall s :: 0 <= s < suits ==> Card(value, s) in hand
    ensures hand == [] ==> InSuit(hand, value, suits) == 0
  {
    if suits > 0 {
      InSuitBound(hand, value, suits - 1);
    }
  }

  lemma {:induction false} ValuesCounted(hand: Cards, value: nat)
    requires forall c :: multiset(hand)[c] <= 1
    ensures CountValue(hand, value) == InSuit(hand, value, 4)
    ensures CountValue(hand, value) == 4 <==> HasAll(hand, value)
  {
    InSuitBound(hand, value, 4);
    if hand != [] {
      var front, c := hand[..|hand| - 1], hand[|hand| - 1];
      assert hand == front + [c];
      forall x ensures multiset(front)[x] <= 1 {
        assert multiset(hand)[x] == multiset(front)[x] + multiset([c])[x];
      }
      assert c !in front by { assert multiset(hand)[c] == multiset(front)[c] + 1; }
      ValuesCounted(front, value);
      InSuitMore(front, value, c, 4);
    }
  }

  /** A card may be called exactly by a taker who holds all the jacks, knights, queens and kings above it. */
  lemma CallsAllowed(value: nat, hand: Cards)
    requires 1 <= value <= 14 && forall c :: multiset(hand)[c] <= 1
    ensures CheckKingCall(value, hand) <==>
      forall higher :: value < higher && 11 <= higher <= 14 ==> HasAll(hand, higher)
  {
    hide HasAll, CountValue;
    ValuesCounted(hand, 14);
    ValuesCounted(hand, 13);
    ValuesCounted(hand, 12);
    ValuesCounted(hand, 11);
  }

  // ---------------------------------------------------------------- the bids of a bot

  /** The strength from which on a bot takes, guards, guards without and guards against. */
  const STRENGTHS: seq<int> := [36, 51, 66, 76]

  lemma StrengthDecides(total: int, i: nat)
    requires i < 4
    ensures CalculatedBid(total) >= TAKE + i <==> total >= STRENGTHS[i]
    ensures PASS <= CalculatedBid(total) <= GUARD_AGAINST
  {
  }

  /** The contract a bot wants: its script's, if that is one, else the one of its hand. */
  function Wanted(a: Answer): Contract {
    if PASS <= a.contract <= GUARD_AGAINST then a.contract else CalculatedBid(a.handStrength)
  }

  /** It bids that contract if it is above the highest bid it knows, and passes otherwise. */
  lemma BotBids(b: BotState, a: Answer)
    ensures var sent := RequestBid(b, a).1;
      |sent| == 1 && sent[0].ReqBid? &&
      (Wanted(a) > b.highestBid ==> sent[0].contract == Wanted(a)) &&
      (Wanted(a) <= b.highestBid ==> sent[0].contract == PASS) &&
      (a.contract in {PASS, TAKE, GUARD, GUARD_WITHOUT, GUARD_AGAINST} && a.slam.SlamAnswer? ==> sent[0].slam == a.slam.slam)
  {
  }

  /** Without a contract and an answer of its script it sticks to what it last said about a slam, until the next deal. */
  lemma BotSticksToSlam(b: BotState, a: Answer)
    ensures var (b', sent) := RequestBid(b, a);
      |sent| == 1 && sent[0].ReqBid? && b'.slam == sent[0].slam &&
      (a.contract !in {PASS, TAKE, GUARD, GUARD_WITHOUT, GUARD_AGAINST} || a.slam == NoSlamAnswer ==> sent[0].slam == b.slam)
    ensures forall cards, script :: !HandleMessage(b, Tables.MsgNewDeal(cards), script).0.slam
  {
  }

  /** What a bot remembers of the messages that it only acknowledges. */
  lemma BotRemembers(b: BotState, script: Script, p: Place, c: Contract, slam: bool, bid: Bid, cards: Cards, card: Card)
    ensures HandleMessage(b, Tables.MsgShowBid(p, c, slam, bid), script).0 == b.(highestBid := bid.contract)
    ensures HandleMessage(b, Tables.MsgShowDog(cards), script).0 == b.(dog := cards)
    ensures HandleMessage(b, Tables.MsgStartDeal(p, bid), script).0 == b.(highestBid := bid.contract, trick := [])
    ensures HandleMessage(b, Tables.MsgShowCard(p, card), script).0 == b.(currentPlayer := p, trick := b.trick + [card])
    ensures HandleMessage(b, Tables.MsgEndOfTrick(p), script).0 == b.(currentPlayer := p, trick := [])
  {
  }

  /** A discard of the script of the right size that follows the rules is sent, else the automatic one; it leaves the hand. */
  lemma BotDiscards(b: BotState, a: Answer)
    ensures var (b', sent) := BuildDiscard(b, a);
      var own := a.discardCount == 6 && TestDiscard(b.deck, a.discard, b.dog, 4);
      |sent| == 2 && sent[0].ReqDiscard? &&
      (own ==> sent[0].discard == a.discard) && (!own ==> sent[0].discard == AutoDiscard(b.deck + b.dog, 4)) &&
      b'.deck == WithoutAll(b.deck + b.dog, sent[0].discard)
  {
    hide TestDiscard, AutoDiscard, WithoutAll;
  }
}
