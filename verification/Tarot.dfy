/** Cards, teams and places, and the rule tables that depend only on the number of players. */
module Tarot {
  import opened Division

  const SPADES: nat := 0
  const HEARTS: nat := 1
  const DIAMONDS: nat := 2
  const CLUBS: nat := 3
  const TRUMPS: nat := 4
  const INVALID: nat := 255
  const KING: nat := 14

  /** A card as stored: two bytes, not necessarily those of a card that exists. */
  datatype Card = Card(value: nat, suit: nat) {
    predicate IsValid() {
      if suit == TRUMPS then value <= 21 else suit < TRUMPS && 0 < value <= 14
    }

    predicate IsTrump() {
      suit == TRUMPS
    }

    predicate IsFool() {
      suit == TRUMPS && value == 0
    }

    /** The fool, the little trump and the big trump. */
    predicate IsOudler() {
      suit == TRUMPS && (value == 0 || value == 1 || value == 21)
    }

    /** Card points counted in halves: the source's floats are all multiples of 0.5. */
    function HalfPoints(): nat {
      if suit == TRUMPS then
        if IsOudler() then 9 else 1
      else
        if value > 10 then 1 + 2 * (value - 10) else 1
    }
  }

  const NO_CARD := Card(INVALID, INVALID)
  const FOOL := Card(0, TRUMPS)

  datatype Team = Attack | Defense | NoTeam

  type Place = nat
  const NOWHERE: Place := 5

  function Next(p: Place, n: nat): Place {
    if p + 1 >= n || p + 1 >= NOWHERE then 0 else p + 1
  }

  function Previous(p: Place, n: nat): Place
    requires n > 0
  {
    if p == 0 then n - 1 else p - 1
  }

  /** The seat k places after p. */
  function SeatAfter(p: Place, k: nat, n: nat): Place {
    if k == 0 then p else Next(SeatAfter(p, k - 1, n), n)
  }

  /** The seat k places after p, for at most one turn around the table. */
  function Seat(p: Place, k: nat, n: nat): int {
    if p + k < n then p + k else p + k - n
  }

  lemma {:induction false} SeatAfterIsSeat(p: Place, k: nat, n: nat)
    requires 0 < n <= 5 && p < n && k <= n
    ensures SeatAfter(p, k, n) == Seat(p, k, n) < n
  {
    if k > 0 {
      SeatAfterIsSeat(p, k - 1, n);
    }
  }

  predicate PlayerCount(n: nat) {
    3 <= n <= 5
  }

  function HandSize(n: nat): nat {
    if n == 3 then 24 else if n == 5 then 15 else 18
  }

  function DogSize(n: nat): int {
    78 - HandSize(n) * n
  }

  predicate IsDealFinished(trickCounter: nat, n: nat) {
    trickCounter >= HandSize(n)
  }

  function PointsToDo(oudlers: nat): int {
    if oudlers == 0 then 56 else if oudlers == 1 then 51 else if oudlers == 2 then 41 else 36
  }

  datatype HandleType = NoHandle | SimpleHandle | DoubleHandle | TripleHandle

  function HandleTypeOf(size: nat): HandleType {
    if size == 10 then SimpleHandle
    else if size == 13 then DoubleHandle
    else if size == 15 then TripleHandle
    else NoHandle
  }

  function HandlePoints(n: nat, handle: HandleType): nat {
    match handle
    case NoHandle => 0
    case SimpleHandle => if n == 4 then 20 else if n == 3 then 13 else if n == 5 then 8 else 0
    case DoubleHandle => if n == 4 then 30 else if n == 3 then 15 else if n == 5 then 10 else 0
    case TripleHandle => if n == 4 then 40 else if n == 3 then 18 else if n == 5 then 13 else 0
  }

  // Contracts, in bidding order.
  type Contract = nat
  const NO_ANY: Contract := 0
  const PASS: Contract := 1
  const TAKE: Contract := 2
  const GUARD: Contract := 3
  const GUARD_WITHOUT: Contract := 4
  const GUARD_AGAINST: Contract := 5

  function Multiplier(c: Contract): nat {
    if c == TAKE then 1 else if c == GUARD then 2 else if c == GUARD_WITHOUT then 4
    else if c == GUARD_AGAINST then 6 else 0
  }

  datatype Bid = Bid(taker: Place, partner: Place, contract: Contract, slam: bool) {
    predicate HasPartner() {
      taker < NOWHERE && partner < NOWHERE && partner != taker
    }

    /** The test the scoring code uses to decide that a seat plays for the attack. */
    predicate InAttack(p: Place) {
      p == taker || p == partner
    }
  }

  const NO_BID := Bid(NOWHERE, NOWHERE, NO_ANY, false)

  // ---------------------------------------------------------------- the 78 cards

  const DECK_SIZE: nat := 78

  /** The i-th card of a new deck: the four suits from ace to king, then the trumps. */
  function CardAt(i: nat): Card {
    if i < 56 then Card(i % 14 + 1, i / 14) else Card(i - 56, TRUMPS)
  }

  function IndexOfCard(c: Card): nat
    requires c.IsValid()
  {
    if c.suit == TRUMPS then 56 + c.value else 14 * c.suit + c.value - 1
  }

  lemma CardAtIndex(c: Card)
    requires c.IsValid()
    ensures IndexOfCard(c) < DECK_SIZE && CardAt(IndexOfCard(c)) == c
  {
    if c.suit != TRUMPS {
      assert 14 * c.suit + c.value - 1 < 56;
      QuotientIs(14, c.suit, c.value - 1);
    }
  }

  lemma IndexOfCardAt(i: nat)
    requires i < DECK_SIZE
    ensures CardAt(i).IsValid() && IndexOfCard(CardAt(i)) == i
  {
  }

  function FullDeck(): seq<Card> {
    seq(DECK_SIZE, (i: nat) => CardAt(i))
  }
}
