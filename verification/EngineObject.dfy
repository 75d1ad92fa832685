/** The generator of deals and the engine as the objects the table updates. */
module EngineObjects {
  import opened Tarot
  import opened Decks
  import opened Context
  import opened Engines
  import opened DeckObjects
  import opened ContextObjects

  class DealGenerator {
    const players: array<Cards>
    var dog: Cards
    var nbPlayers: nat

    ghost predicate Valid() {
      players.Length == MAX_SEATS
    }

    constructor ()
      ensures Valid() && fresh(players)
    {
      players := new Cards[MAX_SEATS](_ => []);
      dog := [];
      nbPlayers := 4;
    }

    method Clear()
      requires Valid()
      modifies this`dog, players
      ensures dog == [] && forall i :: 0 <= i < MAX_SEATS ==> players[i] == []
    {
      dog := [];
      for i := 0 to MAX_SEATS
        invariant dog == [] && forall k :: 0 <= k < i ==> players[k] == []
      {
        players[i] := [];
      }
    }

    /** The sizes of the hands and of the dog are right. */
    method IsValid(n: nat) returns (valid: bool)
      requires Valid() && n <= MAX_SEATS
      ensures valid <==> RightSizes(players[..], dog, n)
    {
      valid := true;
      for i := 0 to n
        invariant valid <==> forall k :: 0 <= k < i ==> |players[k]| == HandSize(n)
      {
        if |players[i]| != HandSize(n) {
          valid := false;
        }
      }
      if |dog| != DogSize(n) {
        valid := false;
      }
    }

    /** Cuts a shuffled deck into hands and a dog; the deal is not valid when a hand holds only the smallest trump. */
    method CreateRandomDeal(n: nat, shuffled: Deck) returns (valid: bool)
      requires Valid() && n <= MAX_SEATS && n * HandSize(n) <= |shuffled.cards|
      modifies this, players
      ensures nbPlayers == n && dog == RandomDog(shuffled.cards, n)
      ensures forall i :: 0 <= i < MAX_SEATS ==> players[i] == if i < n then RandomHand(shuffled.cards, i, n) else []
      ensures valid <==> forall i :: 0 <= i < n ==> !HasOnlyOneOfTrump(players[i])
    {
      hide Decks.HasOnlyOneOfTrump;
      valid := true;
      nbPlayers := n;
      Clear();
      var size := HandSize(n);
      ghost var deck := shuffled.cards;
      for i := 0 to n
        invariant shuffled.cards == deck && nbPlayers == n && dog == []
        invariant forall k :: 0 <= k < MAX_SEATS ==> players[k] == if k < i then RandomHand(deck, k, n) else []
        invariant valid <==> forall k :: 0 <= k < i ==> !HasOnlyOneOfTrump(players[k])
      {
        var hand := shuffled.Mid(i * size, size);
        players[i] := players[i] + hand.cards;
        var alone := hand.HasOnlyOneOfTrump();
        if alone {
          valid := false;
        }
      }
      var rest := shuffled.Mid(n * size, |shuffled.cards| - n * size);
      dog := rest.cards;
    }
  }

  class Engine {
    const ctx: TarotContext
    const players: array<Cards>
    const handleAsked: array<bool>
    var currentTrick: Cards
    var points: Points
    var phase: Phase
    var position: nat
    var dealer: Place
    var trickCounter: nat
    var currentPlayer: Place

    ghost predicate Valid() {
      ctx.Valid() && players.Length == MAX_SEATS && handleAsked.Length == MAX_SEATS
    }

    ghost function State(): (e: EngineState)
      requires Valid()
      reads this, players, handleAsked, ctx, ctx.tricks, ctx.winner
      ensures e.ctx.Sized() && |e.players| == MAX_SEATS && |e.handleAsked| == MAX_SEATS
    {
      EngineState(players[..], currentTrick, points, phase, position, dealer, trickCounter, currentPlayer, handleAsked[..],
                  ctx.State())
    }

    constructor ()
      ensures Valid() && fresh(ctx) && fresh(ctx.tricks) && fresh(ctx.winner) && fresh(players) && fresh(handleAsked)
      ensures phase == Stopped
    {
      ctx := new TarotContext();
      players := new Cards[MAX_SEATS](_ => []);
      handleAsked := new bool[MAX_SEATS](_ => false);
      currentTrick := [];
      points := NO_POINTS;
      phase := Stopped;
      position := 0;
      dealer := NOWHERE;
      trickCounter := 0;
      currentPlayer := NOWHERE;
    }

    method NewGame()
      requires Valid()
      modifies this`phase
      ensures State() == Engines.NewGame(old(State()))
    {
      phase := WaitForReady;
    }

    /** A generator filled from a file when that is usable, else from a shuffled deck. */
    method FillGenerator(s: Source, n: nat) returns (editor: DealGenerator, random: bool)
      requires PlayerCount(n) && |s.deck| == DECK_SIZE && (s.FromFile? ==> |s.hands| == MAX_SEATS)
      ensures fresh(editor) && editor.Valid() && fresh(editor.players) && random == !UsesFile(s, n)
      ensures forall i :: 0 <= i < n ==> editor.players[i] == if random then RandomHand(s.deck, i, n) else s.hands[i]
      ensures editor.dog == if random then RandomDog(s.deck, n) else s.fileDog
    {
      hide RandomHand, RandomDog;
      editor := new DealGenerator();
      random := true;
      if s.FromFile? {
        editor.dog := s.fileDog;
        forall i | 0 <= i < MAX_SEATS {
          editor.players[i] := s.hands[i];
        }
        assert editor.players[..] == s.hands;
        var valid := editor.IsValid(n);
        random := !valid;
      }
      if random {
        var shuffled := new Deck.FromCards(s.deck);
        var _ := editor.CreateRandomDeal(n, shuffled);
      }
    }

    /** Cards from a file when it is usable, else from a shuffled deck. */
    method CreateDeal(s: Source)
      requires Valid() && PlayerCount(ctx.nbPlayers) && |s.deck| == DECK_SIZE && (s.FromFile? ==> |s.hands| == MAX_SEATS)
      modifies this`currentPlayer, this`dealer, players, ctx`dog
      ensures State() == Engines.CreateDeal(old(State()), s)
    {
      hide RandomHand, RandomDog;
      var n := ctx.nbPlayers;
      var editor, random := FillGenerator(s, n);
      if !random {
        currentPlayer := s.first;
        dealer := Previous(currentPlayer, n);
      }
      CopyHands(editor, n);
      ctx.dog := editor.dog;
      assert players[..] == Engines.CreateDeal(old(State()), s).players;
    }

    method CopyHands(editor: DealGenerator, n: nat)
      requires Valid() && editor.Valid() && n <= MAX_SEATS && editor.players != players
      modifies players
      ensures forall i :: 0 <= i < MAX_SEATS ==> players[i] == if i < n then editor.players[i] else old(players[i])
    {
      for i := 0 to n
        invariant forall k :: 0 <= k < MAX_SEATS ==> players[k] == if k < i then editor.players[k] else old(players[k])
      {
        players[i] := editor.players[i];
      }
    }

    method NewDeal(s: Source)
      requires Valid() && PlayerCount(ctx.nbPlayers) && |s.deck| == DECK_SIZE && (s.FromFile? ==> |s.hands| == MAX_SEATS)
      modifies this, players, ctx, ctx.tricks
      ensures State() == Engines.NewDeal(old(State()), s)
    {
      hide Context.Initialize, Engines.CreateDeal;
      ctx.Initialize();
      InitializeKeepsSize(old(ctx.State()));
      position := 0;
      currentTrick := [];
      dealer := Next(dealer, ctx.nbPlayers);
      currentPlayer := Next(dealer, ctx.nbPlayers);
      CreateDeal(s);
      phase := WaitForCards;
    }

    method StartDeal() returns (first: Place)
      requires Valid()
      modifies this`trickCounter, this`position, this`currentPlayer, handleAsked, ctx`firstPlayer
      ensures State() == Engines.StartDeal(old(State())) && first == State().currentPlayer
    {
      trickCounter := 0;
      position := 0;
      for i := 0 to MAX_SEATS
        invariant forall k :: 0 <= k < i ==> !handleAsked[k]
        invariant trickCounter == 0 && position == 0 && currentPlayer == old(currentPlayer)
        invariant ctx.firstPlayer == old(ctx.firstPlayer)
      {
        handleAsked[i] := false;
      }
      if ctx.bid.slam {
        currentPlayer := ctx.bid.taker;
      } else {
        currentPlayer := Next(dealer, ctx.nbPlayers);
      }
      ctx.firstPlayer := currentPlayer;
      first := currentPlayer;
      assert handleAsked[..] == seq(MAX_SEATS, _ => false);
    }

    method SetDiscard(cards: Cards) returns (valid: bool)
      requires Valid() && ctx.bid.taker < MAX_SEATS
      modifies this`phase, players, ctx`discard
      ensures (State(), valid) == Engines.SetDiscard(old(State()), cards)
    {
      hide Decks.TestDiscard, WithoutAll;
      var taker := ctx.bid.taker;
      var hand;
      valid, hand := TryDiscard(cards);
      if valid {
        players[taker] := hand;
        ctx.discard := Pile(cards, Attack);
        phase := WaitForStartDeal;
        assert players[..] == old(players[..])[taker := hand];
      }
    }

    /** Whether the taker may discard these cards, and its hand without them. */
    method TryDiscard(cards: Cards) returns (valid: bool, hand: Cards)
      requires Valid() && ctx.bid.taker < MAX_SEATS
      ensures valid == Decks.TestDiscard(players[ctx.bid.taker], cards, ctx.dog, ctx.nbPlayers)
      ensures hand == WithoutAll(players[ctx.bid.taker] + ctx.dog, cards)
    {
      hide Decks.TestDiscard, WithoutAll, Hits;
      var deck := new Deck.FromCards(players[ctx.bid.taker]);
      var discard := new Deck.FromCards(cards);
      var dog := new Deck.FromCards(ctx.dog);
      valid := deck.TestDiscard(discard, dog, ctx.nbPlayers);
      deck.AppendDeck(dog);
      var _ := deck.RemoveDuplicates(discard);
      hand := deck.cards;
    }

    method SetHandle(cards: Cards, p: Place) returns (valid: bool)
      requires Valid() && p < MAX_SEATS
      modifies this`phase, ctx`attackHandle, ctx`defenseHandle
      ensures (State(), valid) == Engines.SetHandle(old(State()), cards, p)
    {
      hide Decks.TestHandle;
      var hand := new Deck.FromCards(players[p]);
      var handle := new Deck.FromCards(cards);
      valid := hand.TestHandle(handle);
      if valid {
        ctx.SetHandle(cards, p);
        phase := WaitForShowHandle;
      }
    }

    /** Tries a card: the trick and the hand after it, if it may be played. */
    method TryCard(c: Card, p: Place) returns (accepted: bool, trick: Cards, hand: Cards)
      requires Valid() && p < MAX_SEATS
      ensures accepted == Decks.CanPlayCard(players[p], c, currentTrick)
      ensures accepted ==> trick == currentTrick + [c] && hand == Without(players[p], c)
    {
      hide Decks.CanPlayCard, Without;
      var handDeck := new Deck.FromCards(players[p]);
      var trickDeck := new Deck.FromCards(currentTrick);
      accepted := handDeck.CanPlayCard(c, trickDeck);
      if accepted {
        trickDeck.Append(c);
        var _ := handDeck.Remove(c);
      }
      trick, hand := trickDeck.cards, handDeck.cards;
    }

    method SetCard(c: Card, p: Place) returns (accepted: bool)
      requires Valid() && p < MAX_SEATS
      modifies this`currentTrick, this`position, this`currentPlayer, this`phase, players
      ensures (State(), accepted) == Engines.SetCard(old(State()), c, p)
    {
      hide Decks.CanPlayCard, Without;
      var trick, hand;
      accepted, trick, hand := TryCard(c, p);
      if accepted {
        currentTrick := trick;
        players[p] := hand;
        position := position + 1;
        currentPlayer := Next(currentPlayer, ctx.nbPlayers);
        phase := WaitForShowCard;
        assert players[..] == old(players[..])[p := hand];
      }
    }

    method SetBid(c: Contract, slam: bool, p: Place) returns (answer: Contract)
      requires Valid()
      modifies this`position, this`currentPlayer, this`phase, ctx`bid
      ensures (State(), answer) == Engines.SetBid(old(State()), c, slam, p)
    {
      answer := ctx.SetBid(c, slam, p);
      position := position + 1;
      currentPlayer := Next(currentPlayer, ctx.nbPlayers);
      phase := WaitForShowBid;
    }

    method IsEndOfTrick() returns (end: bool)
      requires Valid()
      modifies this`position, this`trickCounter
      ensures State() == CloseRound(old(State())) && end == Engines.IsEndOfTrick(old(State()))
    {
      end := false;
      if position >= ctx.nbPlayers {
        position := 0;
        trickCounter := Byte(trickCounter + 1);
        end := true;
      }
    }

    method ManageAfterBidSequence()
      requires Valid()
      modifies this`phase, ctx`discard
      ensures State() == Engines.ManageAfterBidSequence(old(State()))
    {
      var showDog := ctx.ManageDogAfterBid();
      if showDog {
        phase := WaitForShowDog;
      } else {
        phase := WaitForStartDeal;
      }
    }

    method BidSequence()
      requires Valid()
      modifies this`position, this`trickCounter, this`phase, ctx`discard, ctx`bid
      ensures State() == Engines.BidSequence(old(State()))
    {
      var end := IsEndOfTrick();
      if end || ctx.bid.slam {
        if ctx.bid.contract == PASS {
          phase := WaitForAllPassed;
        } else if ctx.nbPlayers == 5 && phase == WaitForShowBid {
          ctx.bid := ctx.bid.(partner := ctx.bid.taker);
          phase := WaitForKingCall;
        } else {
          ManageAfterBidSequence();
        }
      } else {
        phase := WaitForBid;
      }
    }

    method DiscardSequence()
      requires Valid()
      modifies this`phase
      ensures State() == Engines.DiscardSequence(old(State()))
    {
      phase := WaitForDiscard;
    }

    /** The kings, queens, knights and jacks of a hand. */
    method CountHonours(hand: Cards) returns (kings: nat, queens: nat, knights: nat, jacks: nat)
      ensures kings == CountValue(hand, 14) && queens == CountValue(hand, 13)
      ensures knights == CountValue(hand, 12) && jacks == CountValue(hand, 11)
    {
      kings, queens, knights, jacks := 0, 0, 0, 0;
      for i := 0 to |hand|
        invariant kings == CountValue(hand[..i], 14) && queens == CountValue(hand[..i], 13)
        invariant knights == CountValue(hand[..i], 12) && jacks == CountValue(hand[..i], 11)
      {
        assert hand[..i + 1][..i] == hand[..i];
        if hand[i].suit < TRUMPS {
          if hand[i].value == 11 { jacks := jacks + 1; }
          if hand[i].value == 12 { knights := knights + 1; }
          if hand[i].value == 13 { queens := queens + 1; }
          if hand[i].value == 14 { kings := kings + 1; }
        }
      }
      assert hand[..|hand|] == hand;
    }

    method SetKingCalled(c: Card) returns (success: bool)
      requires Valid() && ctx.bid.taker < MAX_SEATS
      modifies this`phase, ctx`bid, ctx`kingCalled
      ensures (State(), success) == Engines.SetKingCalled(old(State()), c)
    {
      hide CountValue;
      success := false;
      var taker := ctx.bid.taker;
      var kings, queens, knights, jacks := CountHonours(players[taker]);
      var allowed := c.value == 14 || (kings == 4 && (c.value == 13 || (queens == 4 && (c.value == 12 || (knights == 4 &&
                     (c.value == 11 || jacks == 4))))));
      if allowed {
        if c in ctx.dog || c in players[taker] {
          ctx.bid := ctx.bid.(partner := taker);
          success := true;
        } else {
          var partner := FindPartner(c, Next(taker, 5));
          if partner != NOWHERE {
            ctx.bid := ctx.bid.(partner := partner);
            success := true;
          }
        }
        ctx.kingCalled := c;
        phase := WaitForShowKingCall;
      }
    }

    /** Looks for a card in four hands, starting at a seat. */
    method FindPartner(c: Card, start: Place) returns (holder: Place)
      requires Valid() && start < MAX_SEATS
      ensures holder == FindHolder(State(), c, start, 4)
    {
      holder := NOWHERE;
      var partner: nat := start;
      var i: nat := 0;
      while i < 4
        invariant i <= 4 && partner < MAX_SEATS && holder == NOWHERE
        invariant FindHolder(State(), c, start, 4) == FindHolder(State(), c, partner, 4 - i)
      {
        if c in players[partner] {
          holder := partner;
          break;
        }
        partner := Next(partner, 5);
        i := i + 1;
      }
    }

    /** One step of the play; the index of the trick and of the seat must be in range. */
    method GameSequence()
      requires Valid() && currentPlayer < MAX_SEATS
      requires Engines.IsEndOfTrick(State()) ==> 1 <= Byte(trickCounter + 1) <= MAX_TRICKS + 1
      modifies this, handleAsked, ctx`tricksWon, ctx`stats, ctx.tricks, ctx.winner
      ensures State() == Engines.GameSequence(old(State()))
    {
      hide Context.SetTrick;
      var end := IsEndOfTrick();
      if end {
        currentPlayer := ctx.SetTrick(currentTrick, trickCounter);
        currentTrick := [];
        phase := WaitForEndOfTrick;
      } else if trickCounter == 0 && !handleAsked[currentPlayer] {
        handleAsked[currentPlayer] := true;
        phase := WaitForHandle;
        assert handleAsked[..] == old(handleAsked[..])[currentPlayer := true];
      } else {
        phase := WaitForPlayedCard;
      }
    }

    method EndOfDeal()
      requires Valid() && PlayerCount(ctx.nbPlayers)
      modifies this`points, this`phase, ctx`stats
      ensures State() == Engines.EndOfDeal(old(State()))
    {
      hide Context.AnalyzeGame;
      points := ctx.AnalyzeGame(NO_POINTS);
      phase := WaitForEndOfDeal;
    }

    /** The step of the play and, after the last trick, the scoring. */
    method PlaySequence()
      requires Valid() && currentPlayer < MAX_SEATS && PlayerCount(ctx.nbPlayers)
      requires Engines.IsEndOfTrick(State()) ==> 1 <= Byte(trickCounter + 1) <= MAX_TRICKS + 1
      modifies this, handleAsked, ctx`tricksWon, ctx`stats, ctx.tricks, ctx.winner
      ensures State() == Engines.PlaySequence(old(State()))
    {
      hide Engines.GameSequence, Engines.EndOfDeal;
      GameSequence();
      if IsDealFinished(trickCounter, ctx.nbPlayers) {
        EndOfDeal();
      }
    }
  }

  lemma InitializeKeepsSize(c: Ctx)
    ensures Context.Initialize(c).nbPlayers == c.nbPlayers && |Context.Initialize(c).tricks| == |c.tricks|
    ensures Context.Initialize(c).winner == c.winner
  {
  }
}
