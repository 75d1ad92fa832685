/** A computer player as an object: its mirror of the deal changes with every message. */
module BotObjects {
  import opened Tarot
  import opened Decks
  import opened Engines
  import opened Tables
  import opened Bots
  import opened DeckObjects

  class Bot {
    const place: Place
    const deck: Deck
    const dog: Deck
    const trick: Deck
    var currentPlayer: Place
    var highestBid: Contract
    var slam: bool
    var calls: nat

    ghost predicate Valid() {
      deck != dog && deck != trick && dog != trick
    }

    ghost function State(): (b: BotState)
      reads this, deck, dog, trick
    {
      BotState(place, deck.cards, dog.cards, trick.cards, currentPlayer, highestBid, slam, calls)
    }

    constructor (p: Place)
      ensures Valid() && place == p && fresh(deck) && fresh(dog) && fresh(trick) && State().deck == []
    {
      place := p;
      deck := new Deck();
      dog := new Deck();
      trick := new Deck();
      currentPlayer := NOWHERE;
      highestBid := NO_ANY;
      slam := false;
      calls := 0;
    }

    /** The first card of the hand that may be played, an invalid card if there is none. */
    method ChooseRandomCard() returns (card: Card)
      requires Valid()
      ensures card == FirstPlayable(deck.cards, deck.cards, trick.cards)
    {
      hide Decks.CanPlayCard;
      card := NO_CARD;
      var i := 0;
      assert deck.cards[0..] == deck.cards;
      while i < |deck.cards|
        invariant i <= |deck.cards| && card == NO_CARD
        invariant FirstPlayable(deck.cards, deck.cards, trick.cards) ==
          FirstPlayable(deck.cards, deck.cards[i..], trick.cards)
      {
        assert deck.cards[i..][1..] == deck.cards[i + 1..];
        var valid := deck.CanPlayCard(deck.cards[i], trick);
        if valid {
          card := deck.cards[i];
          break;
        }
        i := i + 1;
      }
    }

    /** Announces what the script says if it is a bid, else what the hand is worth; a bid that is too low is a pass. */
    method RequestBid(a: Answer) returns (out: seq<Request>)
      modifies this`slam, this`calls
      ensures (State(), out) == Bots.RequestBid(old(State()), a)
    {
      calls := calls + 1;
      var contract := a.contract;
      if PASS <= contract <= GUARD_AGAINST {
        if a.slam.SlamAnswer? {
          slam := a.slam.slam;
        }
      } else {
        contract := CalculatedBid(a.handStrength);
      }
      if contract <= highestBid {
        contract := PASS;
      }
      out := [ReqBid(contract, slam)];
    }

    /** Lays aside what the script says if that is a valid discard, else the first cards that may be. */
    method BuildDiscard(a: Answer) returns (out: seq<Request>)
      requires Valid()
      modifies this`calls, deck
      ensures (State(), out) == Bots.BuildDiscard(old(State()), a)
    {
      hide Decks.TestDiscard, Decks.AutoDiscard, WithoutAll;
      calls := calls + 1;
      var valid := false;
      var discard := new Deck.FromCards(a.discard);
      if a.discardCount == DogSize(BOT_PLAYERS) {
        valid := deck.TestDiscard(discard, dog, BOT_PLAYERS);
      }
      if valid {
        deck.AppendDeck(dog);
      } else {
        discard := deck.AutoDiscard(dog, BOT_PLAYERS);
      }
      var _ := deck.RemoveDuplicates(discard);
      out := [ReqDiscard(discard.cards)] + Ack(WaitForDiscard);
    }

    /** Plays a card: it is taken out of the hand, and once more when it is sent. */
    method PlayCard() returns (out: seq<Request>)
      requires Valid()
      modifies deck
      ensures (State(), out) == Bots.PlayCard(old(State()))
    {
      hide Without, FirstPlayable;
      var c := ChooseRandomCard();
      var _ := deck.Remove(c);
      RemovedAlready(old(deck.cards), c);
      var _ := deck.Remove(c);
      out := [ReqCard(c)];
    }

    /** `HandleRequest`: the object follows the specification of a bot. */
    method HandleRequest(m: Msg, script: Script) returns (out: seq<Request>)
      requires Valid()
      modifies this, deck, dog, trick
      ensures (State(), out) == HandleMessage(old(State()), m, script)
    {
      hide Bots.RequestBid, Bots.BuildDiscard, Bots.PlayCard, StepOfPhase;
      match m
      case MsgNewGame => out := Ack(WaitForReady);
      case MsgNewDeal(cards) =>
        deck.cards := cards;
        slam := false;
        calls := calls + 1;
        out := Ack(WaitForCards);
      case MsgRequestBid(p, _) =>
        currentPlayer := p;
        out := [];
        if currentPlayer == place { out := RequestBid(script(calls)); }
      case MsgShowBid(_, _, _, taker) =>
        highestBid := taker.contract;
        out := Ack(WaitForShowBid);
      case MsgAllPassed => out := Ack(WaitForAllPassed);
      case MsgRequestKingCall => out := Ack(WaitForKingCall);
      case MsgShowKingCall(_) => out := Ack(WaitForShowKingCall);
      case MsgShowDog(cards) =>
        dog.cards := cards;
        out := Ack(WaitForShowDog);
      case MsgBuildDiscard => out := BuildDiscard(script(calls));
      case MsgStartDeal(_, bid) =>
        highestBid := bid.contract;
        trick.Clear();
        out := Ack(WaitForStartDeal);
      case MsgAskForHandle => out := [ReqHandle([])];
      case MsgShowHandle(_, _) => out := Ack(WaitForShowHandle);
      case MsgPlayCard(p) =>
        currentPlayer := p;
        out := [];
        if currentPlayer == place { out := PlayCard(); }
      case MsgShowCard(p, card) =>
        currentPlayer := p;
        trick.Append(card);
        out := Ack(WaitForShowCard);
      case MsgEndOfTrick(p) =>
        currentPlayer := p;
        trick.Clear();
        out := Ack(WaitForEndOfTrick);
      case MsgEndOfDeal => out := Ack(WaitForEndOfDeal);
      case MsgEndOfGame => out := Ack(WaitForReady);
    }
  }

  lemma RemovedAlready(d: Cards, c: Card)
    ensures Without(Without(d, c), c) == Without(d, c)
  {
    WithoutCounts(d, c);
    assert multiset(Without(d, c))[c] == 0;
    WithoutAbsent(Without(d, c), c);
  }
}
