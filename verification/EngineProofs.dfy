/** Every operation of the engine keeps the invariant of the deal. */
module EngineProofs {
  import opened Tarot
  import opened Decks
  import opened Context
  import opened Engines

  // ---------------------------------------------------------------- dealing

  /** A deck that holds every card once, or a file whose hands and dog do. */
  predicate FairSource(s: Source, n: nat) {
    Complete(s.deck) &&
    (UsesFile(s, n) ==> s.first < n && Complete(Flatten(s.hands[..n]) + s.fileDog))
  }

  lemma CompleteSize(d: Cards)
    requires Complete(d)
    ensures |d| == DECK_SIZE
  {
    assert |multiset(d)| == |d| && |multiset(FullDeck())| == |FullDeck()|;
  }

  /** Where hand k starts in the shuffled deck. */
  function Cut(k: nat, size: nat): nat {
    if k == 0 then 0 else Cut(k - 1, size) + size
  }

  lemma {:induction false} CutIsProduct(k: nat, size: nat)
    ensures Cut(k, size) == k * size
  {
    if k > 0 {
      CutIsProduct(k - 1, size);
    }
  }

  /** Consecutive slices of a deck, put together again. */
  lemma {:induction false} SlicesFlatten(deck: Cards, size: nat, ds: seq<Cards>)
    requires Cut(|ds|, size) <= |deck|
    requires forall i :: 0 <= i < |ds| ==> Cut(i, size) + size <= |deck| && ds[i] == deck[Cut(i, size)..][..size]
    ensures Flatten(ds) == deck[..Cut(|ds|, size)]
  {
    if ds != [] {
      var k := |ds| - 1;
      var a := Cut(k, size);
      assert Cut(|ds|, size) == a + size;
      SlicesFlatten(deck, size, ds[..k]);
      SlicesJoin(deck, a, size);
    }
  }

  lemma SlicesJoin(deck: Cards, a: nat, size: nat)
    requires a + size <= |deck|
    ensures deck[..a] + deck[a..][..size] == deck[..a + size]
  {
  }

  lemma RandomHandSlice(deck: Cards, i: nat, n: nat)
    requires |deck| == DECK_SIZE && PlayerCount(n) && i < n
    ensures var size := HandSize(n);
      Cut(i, size) + size <= |deck| && RandomHand(deck, i, n) == deck[Cut(i, size)..][..size]
  {
    CutIsProduct(i, HandSize(n));
    if n == 3 {
      assert i * 24 + 24 <= DECK_SIZE;
    } else if n == 4 {
      assert i * 18 + 18 <= DECK_SIZE;
    } else {
      assert i * 15 + 15 <= DECK_SIZE;
    }
  }

  /** Cutting a complete deck into hands and a dog loses no card. */
  lemma RandomDealPartitions(deck: Cards, n: nat, hands: seq<Cards>)
    requires Complete(deck) && PlayerCount(n) && |hands| == n
    requires forall i :: 0 <= i < n ==> hands[i] == RandomHand(deck, i, n)
    ensures forall i :: 0 <= i < n ==> |hands[i]| == HandSize(n)
    ensures |RandomDog(deck, n)| == DogSize(n)
    ensures Complete(Flatten(hands) + RandomDog(deck, n))
  {
    hide FullDeck, Flatten, RandomHand, Cut;
    CompleteSize(deck);
    var size := HandSize(n);
    forall i | 0 <= i < n
      ensures Cut(i, size) + size <= |deck| && hands[i] == deck[Cut(i, size)..][..size]
    {
      RandomHandSlice(deck, i, n);
    }
    CutIsProduct(n, size);
    SlicesFlatten(deck, size, hands);
    assert RandomDog(deck, n) == deck[n * size..];
    assert deck[..n * size] + deck[n * size..] == deck;
  }

  lemma NewDealKeeps(e: EngineState, s: Source)
    requires Sound(e) && FairSource(s, e.N())
    ensures Inv(NewDeal(e, s))
  {
    hide FullDeck, Flatten, RandomHand, RandomDog, PlayInv, ContractInv;
    var e' := NewDeal(e, s);
    var n := e.N();
    if UsesFile(s, n) {
      assert e'.Hands() == s.hands[..n];
    } else {
      RandomDealPartitions(s.deck, n, e'.Hands());
      assert forall i :: 0 <= i < n ==> e'.players[i] == e'.Hands()[i];
    }
  }

  /**
   * Who gets which cards, and who speaks first: each seat its own hand of the file, and the first player the file
   * names; or the slices of the deck in the order of the seats, and the seat after the one that spoke first before.
   */
  lemma DealIsAsGiven(e: EngineState, s: Source, i: nat)
    requires Sound(e) && FairSource(s, e.N()) && i < e.N()
    ensures var e', h := NewDeal(e, s), HandSize(e.N());
      if UsesFile(s, e.N()) then e'.players[i] == s.hands[i] && e'.ctx.dog == s.fileDog && e'.currentPlayer == s.first
      else
        (i + 1) * h <= e.N() * h <= |s.deck| && e'.players[i] == s.deck[i * h..(i + 1) * h] && e'.ctx.dog == s.deck[e.N() * h..] &&
        e'.currentPlayer == Next(Next(e.dealer, e.N()), e.N())
    ensures Next(NewDeal(e, s).dealer, e.N()) == NewDeal(e, s).currentPlayer
  {
    hide FullDeck, Complete;
    CompleteSize(s.deck);
    RandomHandSlice(s.deck, i, e.N());
    CutIsProduct(i, HandSize(e.N()));
    CutIsProduct(e.N(), HandSize(e.N()));
    assert (i + 1) * HandSize(e.N()) == i * HandSize(e.N()) + HandSize(e.N());
    SlicesFit(i, e.N());
  }

  lemma SlicesFit(i: nat, n: nat)
    requires PlayerCount(n) && i < n
    ensures (i + 1) * HandSize(n) <= n * HandSize(n) <= DECK_SIZE
  {
    assert (n - i - 1) * HandSize(n) >= 0;
  }

  /** A file that partitions the deck but names a first player who has no seat breaks the deal, and only such a one. */
  lemma FirstPlayerMustSit(e: EngineState, s: Source)
    requires Sound(e) && UsesFile(s, e.N()) && Complete(s.deck) && Complete(Flatten(s.hands[..e.N()]) + s.fileDog)
    ensures Inv(NewDeal(e, s)) <==> s.first < e.N()
  {
    hide FullDeck, Flatten, PlayInv, ContractInv;
    if s.first < e.N() {
      NewDealKeeps(e, s);
    }
  }

  // ---------------------------------------------------------------- from the auction to the first trick

  /** A bid keeps the invariant, unless it is the empty bid of the last seat of an auction without any other. */
  lemma SetBidKeeps(e: EngineState, contract: Contract, slam: bool)
    requires Inv(e) && e.phase == WaitForBid && contract <= GUARD_AGAINST
    ensures var e' := SetBid(e, contract, slam, e.currentPlayer).0;
      Inv(e') <==> contract >= PASS || e.ctx.bid.contract >= PASS || e.position + 1 < e.N()
  {
  }

  /** What is left of the invariant by then is kept by the end of the auction exactly when somebody made a bid. */
  lemma AuctionEndKeeps(e: EngineState)
    requires Sound(e) && e.phase == WaitForShowBid && AuctionShape(e) && e.position == e.N()
    ensures var e' := BidSequence(e);
      (if e'.phase == WaitForStartDeal then Inv(StartDeal(e')) else Inv(e')) <==> e.ctx.bid.contract >= PASS
    ensures e.ctx.bid.contract < PASS ==>
      var e' := BidSequence(e);
      e'.ctx.bid.taker == NOWHERE && e'.phase == if e.N() == 5 then WaitForKingCall else WaitForShowDog
  {
    hide Complete, NothingPlayed, PlayInv;
    if e.ctx.bid.contract >= PASS {
      BidSequenceKeeps(e);
    }
  }

  lemma BidSequenceKeeps(e: EngineState)
    requires Inv(e) && (e.phase == WaitForCards || e.phase == WaitForShowBid)
    ensures var e' := BidSequence(e);
      if e'.phase == WaitForStartDeal then Inv(StartDeal(e')) else Inv(e')
    ensures BidSequence(e).phase in {WaitForBid, WaitForAllPassed, WaitForKingCall, WaitForShowDog, WaitForStartDeal}
  {
    hide Complete, NothingPlayed, PlayInv;
    var e1 := CloseRound(e);
    assert e1.Hands() == e.Hands() && BidSequence(e).Hands() == e.Hands();
    NothingPlayedKept(e.ctx, BidSequence(e).ctx);
    if (IsEndOfTrick(e) || e.ctx.bid.slam) && e.ctx.bid.contract != PASS && e.N() != 5 {
      AfterBidKeeps(e1);
    }
  }

  /** From a known contract either the dog is shown, or it is set aside and the deal starts. */
  lemma AfterBidKeeps(e: EngineState)
    requires Sound(e) && BeforePlay(e) && ContractKnown(e)
    ensures var e' := ManageAfterBidSequence(e);
      (e'.phase == WaitForShowDog && Inv(e')) || (e'.phase == WaitForStartDeal && Inv(StartDeal(e')))
    ensures var e', contract := ManageAfterBidSequence(e), e.ctx.bid.contract;
      (e'.phase == WaitForShowDog <==> contract in {TAKE, GUARD}) &&
      (contract == GUARD_WITHOUT ==> e'.ctx.discard == Pile(e.ctx.dog, Attack)) &&
      (contract == GUARD_AGAINST ==> e'.ctx.discard == Pile(e.ctx.dog, Defense))
  {
    hide Complete, NothingPlayed, PlayInv;
    var e' := ManageAfterBidSequence(e);
    assert e'.Hands() == e.Hands();
    if e'.phase == WaitForStartDeal {
      NothingPlayedKept(e.ctx, e'.ctx);
      DogExists(e);
      StartDealKeeps(e');
    } else {
      NothingPlayedKept(e.ctx, e'.ctx);
    }
  }

  lemma DogExists(e: EngineState)
    requires Sound(e) && BeforePlay(e)
    ensures ValidCards(e.ctx.dog)
  {
    hide FullDeck, NothingPlayed;
    CompleteAtMostOnce(Flatten(e.Hands()) + e.ctx.dog, e.ctx.dog);
  }

  lemma NothingPlayedKept(c: Ctx, c': Ctx)
    requires NothingPlayed(c) && c'.tricks == c.tricks && c'.winner == c.winner
    requires c'.tricksWon == c.tricksWon && c'.stats == c.stats
    requires c'.attackHandle == c.attackHandle && c'.defenseHandle == c.defenseHandle
    ensures NothingPlayed(c')
  {
  }

  /** The cards are where a deal starts: full hands and a discard. */
  predicate ReadyToPlay(e: EngineState)
    requires Sound(e)
  {
    ContractKnown(e) && e.currentTrick == [] && NothingPlayed(e.ctx) && e.phase == WaitForStartDeal &&
    ValidCards(e.ctx.dog) &&
    (forall p :: 0 <= p < e.N() ==> |e.players[p]| == HandSize(e.N())) &&
    |e.ctx.discard.cards| == DogSize(e.N()) && e.ctx.discard.owner == DiscardOwner(e.ctx.bid) &&
    Complete(Flatten(e.Hands()) + e.ctx.discard.cards)
  }

  lemma StartDealKeeps(e: EngineState)
    requires Sound(e) && ReadyToPlay(e)
    ensures Inv(StartDeal(e)) && StartDeal(e).phase == WaitForStartDeal
    ensures CurrentLeader(StartDeal(e)) == if e.ctx.bid.slam then e.ctx.bid.taker else Next(e.dealer, e.N())
  {
    hide FullDeck, Complete, DogSize, HandSize, NothingPlayed, SizesInv, ScoreInv;
    var e' := StartDeal(e);
    assert e'.Hands() == e.Hands();
    assert TableCards(e') == Flatten(e.Hands()) + e.ctx.discard.cards;
    NothingPlayedKept(e.ctx, e'.ctx);
    FreshDeal(e');
  }

  lemma FreshDeal(e: EngineState)
    requires Sound(e) && NothingPlayed(e.ctx) && e.currentTrick == [] && e.phase == WaitForStartDeal
    requires e.trickCounter == 0 && e.position == 0 && CurrentLeader(e) < e.N()
    requires |e.ctx.discard.cards| == DogSize(e.N())
    requires forall p :: 0 <= p < e.N() ==> |e.players[p]| == HandSize(e.N())
    ensures SizesInv(e) && ScoreInv(e)
  {
  }

  /** Calling a king moves no card; the partner is who holds it, or the taker who has it in hand or dog. */
  lemma SetKingCalledKeeps(e: EngineState, c: Card)
    requires Inv(e) && e.phase == WaitForKingCall
    ensures var (e', found) := SetKingCalled(e, c);
      Inv(e') && e'.players == e.players && e'.ctx.dog == e.ctx.dog &&
      e'.ctx.bid == e.ctx.bid.(partner := e'.ctx.bid.partner) &&
      (found ==>
         if c in e.ctx.dog then e'.ctx.bid.partner == e.ctx.bid.taker
         else e'.ctx.bid.partner < 5 && c in e.players[e'.ctx.bid.partner])
  {
    var taker := e.ctx.bid.taker;
    FindHolderInRange(e, c, Next(taker, 5), 4);
    assert SetKingCalled(e, c).0.Hands() == e.Hands();
  }

  /** A call the rules allow finds a partner exactly when the card called exists. */
  lemma ExistingKingIsFound(e: EngineState, c: Card)
    requires Inv(e) && e.phase == WaitForKingCall && CheckKingCall(c.value, e.Hand(e.ctx.bid.taker))
    ensures SetKingCalled(e, c).1 <==> c.IsValid()
  {
    hide FullDeck, CheckKingCall, NothingPlayed, Flatten, FindHolder;
    var taker, hands := e.ctx.bid.taker, e.Hands();
    var cards := Flatten(hands) + e.ctx.dog;
    CompleteDeckCounts(cards);
    assert c.IsValid() <==> c in cards by { assert multiset(cards)[c] > 0 <==> c in cards; }
    FindHolderInRange(e, c, Next(taker, 5), 4);
    if c in cards && c !in e.ctx.dog {
      var p := FromFlatten(hands, c);
      if p != taker { HolderIsFound(e, c, Next(taker, 5), 4, p); }
    }
    forall p | 0 <= p < 5 && c in e.Hand(p) ensures c in cards {
      InFlatten(hands, p);
      assert multiset(hands[p])[c] > 0;
    }
  }

  lemma {:induction false} FindHolderInRange(e: EngineState, c: Card, p: Place, k: nat)
    requires p < 5
    ensures var h := FindHolder(e, c, p, k); h == NOWHERE || (h < 5 && c in e.Hand(h))
    decreases k
  {
    if k > 0 && c !in e.Hand(p) {
      FindHolderInRange(e, c, Next(p, 5), k - 1);
    }
  }

  lemma {:induction false} HolderIsFound(e: EngineState, c: Card, p: Place, k: nat, q: Place)
    requires p < 5 && q < 5 && c in e.Hand(q) && Offset(p, q, 5) < k
    ensures FindHolder(e, c, p, k) != NOWHERE
    decreases k
  {
    if c !in e.Hand(p) {
      HolderIsFound(e, c, Next(p, 5), k - 1, q);
    }
  }

  lemma CompleteAtMostOnce(whole: Cards, part: Cards)
    requires Complete(whole) && multiset(part) <= multiset(whole)
    ensures forall c :: multiset(part)[c] <= 1
    ensures ValidCards(part)
  {
    CompleteDeckCounts(whole);
    forall c | c in part ensures c.IsValid() {
      assert multiset(part)[c] > 0;
    }
  }

  /** An accepted discard is part of what the taker holds with the dog, and leaves a full hand. */
  lemma DiscardLeavesFullHand(hand: Cards, dog: Cards, discard: Cards, n: nat)
    requires forall c :: multiset(hand + dog)[c] <= 1
    requires TestDiscard(hand, discard, dog, n) && |dog| == DogSize(n)
    ensures |WithoutAll(hand + dog, discard)| == |hand|
    ensures multiset(WithoutAll(hand + dog, discard)) + multiset(discard) == multiset(hand) + multiset(dog)
  {
    forall c ensures multiset(discard)[c] <= multiset(hand + dog)[c] {
      if c in discard {
        assert multiset(hand + dog)[c] > 0;
      }
    }
    WithoutAllPartition(hand + dog, discard);
  }

  /** The taker takes the dog and lays aside as many cards: the hand is full again, and no card is lost. */
  lemma SetDiscardKeeps(e: EngineState, discard: Cards)
    requires Inv(e) && e.phase == WaitForDiscard
    requires SetDiscard(e, discard).1
    ensures Inv(StartDeal(SetDiscard(e, discard).0))
  {
    hide PlayInv, FullDeck, Flatten, WithoutAll;
    var e' := SetDiscard(e, discard).0;
    SetDiscardCards(e, discard);
    DogExists(e);
    NothingPlayedKept(e.ctx, e'.ctx);
    StartDealKeeps(e');
  }

  lemma SetDiscardCards(e: EngineState, discard: Cards)
    requires Inv(e) && e.phase == WaitForDiscard && SetDiscard(e, discard).1
    ensures var e' := SetDiscard(e, discard).0;
      (forall p :: 0 <= p < e.N() ==> |e'.players[p]| == HandSize(e.N())) &&
      Complete(Flatten(e'.Hands()) + discard)
  {
    hide NothingPlayed, PlayInv, FullDeck, TestDiscard, WithoutAll, Flatten, DogSize, HandSize;
    var e' := SetDiscard(e, discard).0;
    var hands, taker, dog := e.Hands(), e.ctx.bid.taker, e.ctx.dog;
    var hand := hands[taker];
    InFlatten(hands, taker);
    CompleteAtMostOnce(Flatten(hands) + dog, hand + dog);
    DiscardLeavesFullHand(hand, dog, discard, e.N());
    var rest := WithoutAll(hand + dog, discard);
    FlattenUpdate(hands, taker, rest);
    assert e'.Hands() == hands[taker := rest];
    DiscardKeepsCards(multiset(Flatten(hands)), multiset(Flatten(e'.Hands())),
                      multiset(hand), multiset(dog), multiset(rest), multiset(discard));
  }

  lemma DiscardKeepsCards(hands: multiset<Card>, hands': multiset<Card>, hand: multiset<Card>, dog: multiset<Card>,
                          rest: multiset<Card>, discard: multiset<Card>)
    requires hands' + hand == hands + rest
    requires rest + discard == hand + dog
    ensures hands' + discard == hands + dog
  {
    forall c ensures (hands' + discard)[c] == (hands + dog)[c] {
      assert (hands' + hand)[c] == (hands + rest)[c];
      assert (rest + discard)[c] == (hand + dog)[c];
    }
  }

  // ---------------------------------------------------------------- play

  /** An operation that moves no card and tells nothing new about the tricks. */
  lemma SameTable(e: EngineState, e': EngineState)
    requires Sound(e) && Sound(e') && e.N() == e'.N() && e.players == e'.players
    requires e.currentTrick == e'.currentTrick && e.trickCounter == e'.trickCounter <= HandSize(e.N())
    requires e.ctx.discard == e'.ctx.discard && e.position == e'.position
    requires SizesInv(e) && Complete(TableCards(e)) && ScoreInv(e)
    requires SamePrefix(e.ctx, e'.ctx, e.trickCounter) && e.ctx.tricks == e'.ctx.tricks && e.ctx.winner == e'.ctx.winner
    requires e'.ctx.tricksWon == e.ctx.tricksWon && e'.ctx.stats == e.ctx.stats
    requires e.phase != WaitForEndOfDeal && e'.phase != WaitForEndOfDeal
    ensures SizesInv(e') && Complete(TableCards(e')) && ScoreInv(e')
  {
    hide FullDeck, JudgedTricks, StatsMatch;
    assert e'.Hands() == e.Hands();
    SameStory(e.ctx, e'.ctx, e.trickCounter);
  }

  lemma SetHandleKeeps(e: EngineState, handle: Cards)
    requires Inv(e) && e.phase == WaitForHandle
    ensures var e' := SetHandle(e, handle, e.currentPlayer).0; Inv(e') && e'.players == e.players
  {
    hide SizesInv, Complete, TableCards, ScoreInv, TestHandle;
    var e' := SetHandle(e, handle, e.currentPlayer).0;
    if e' != e {
      TableCardsDistinct(e, e.currentPlayer);
      HandleHeld(e.players[e.currentPlayer], handle);
      SameTable(e, e');
    }
  }

  lemma HandleHeld(hand: Cards, handle: Cards)
    requires TestHandle(hand, handle) && ValidCards(hand)
    ensures ValidCards(handle)
  {
  }

  /** Fields that the story of the tricks does not read. */
  lemma SameStory(c: Ctx, c': Ctx, k: nat)
    requires SamePrefix(c, c', k) && JudgedTricks(c, k) && StatsMatch(c, k)
    requires c'.tricksWon == c.tricksWon && c'.stats == c.stats
    ensures JudgedTricks(c', k) && StatsMatch(c', k) && TrickCards(c', k) == TrickCards(c, k)
  {
    forall t | 0 <= t < k ensures JudgedAt(c', t) {
      JudgedAtKept(c, c', k, t);
    }
    PrefixDetermines(c, c', k, k);
    PrefixDeterminesSide(HALVES, c, c', Attack, k, k);
    PrefixDeterminesSide(OUDLER_COUNT, c, c', Attack, k, k);
  }

  /** The cards of the table, one seat at a time, are all different and exist. */
  lemma TableCardsDistinct(e: EngineState, p: Place)
    requires Inv(e) && e.phase in {WaitForHandle, WaitForPlayedCard, WaitForShowCard} && p < e.N()
    ensures forall c :: multiset(e.players[p])[c] <= 1
    ensures ValidCards(e.players[p]) && ValidCards(e.currentTrick) && Distinct(e.currentTrick)
  {
    InFlatten(e.Hands(), p);
    CompleteAtMostOnce(TableCards(e), e.players[p]);
    CompleteAtMostOnce(TableCards(e), e.currentTrick);
    DistinctFromCounts(e.currentTrick);
  }

  /** Moving a card from a hand to the trick. */
  lemma PlayMovesCard(e: EngineState, c: Card, p: Place)
    requires Inv(e) && e.phase == WaitForPlayedCard && p < e.N() && c in e.players[p]
    ensures var rest := Without(e.players[p], c);
      |rest| == |e.players[p]| - 1 &&
      multiset(Flatten(e.Hands()[p := rest])) + multiset{c} == multiset(Flatten(e.Hands()))
  {
    hide PlayInv, Without, Flatten;
    TableCardsDistinct(e, p);
    assert e.Hands()[p] == e.players[p];
    OneCardLess(e.Hands(), p, c);
  }

  lemma OneCardLess(hands: seq<Cards>, p: nat, c: Card)
    requires p < |hands| && c in hands[p] && forall x :: multiset(hands[p])[x] <= 1
    ensures var rest := Without(hands[p], c);
      |rest| == |hands[p]| - 1 && multiset(Flatten(hands[p := rest])) + multiset{c} == multiset(Flatten(hands))
  {
    hide Without, Flatten;
    var hand := hands[p];
    var rest := Without(hand, c);
    WithoutCounts(hand, c);
    assert multiset(hand)[c] == 1;
    assert multiset(rest) + multiset{c} == multiset(hand);
    assert |multiset(rest) + multiset{c}| == |rest| + 1;
    FlattenUpdate(hands, p, rest);
    var m, m' := multiset(Flatten(hands)), multiset(Flatten(hands[p := rest]));
    forall x ensures (m' + multiset{c})[x] == m[x] {
      assert (m' + multiset(hand))[x] == (m + multiset(rest))[x];
    }
  }

  lemma SetCardCards(e: EngineState, c: Card)
    requires Inv(e) && e.phase == WaitForPlayedCard && SetCard(e, c, e.currentPlayer).1
    ensures Complete(TableCards(SetCard(e, c, e.currentPlayer).0))
  {
    hide FullDeck, SizesInv, ScoreInv, CanPlayCard, Without, TrickCards, Flatten, ContractKnown;
    var p := e.currentPlayer;
    var e' := SetCard(e, c, p).0;
    assert c in e.players[p] by { CanPlayHolds(e.players[p], c, e.currentTrick); }
    PlayMovesCard(e, c, p);
    assert e'.Hands() == e.Hands()[p := Without(e.players[p], c)];
    var rest := TrickCards(e.ctx, e.trickCounter) + e.ctx.discard.cards;
    assert TableCards(e) == Flatten(e.Hands()) + e.currentTrick + rest;
    assert TableCards(e') == Flatten(e'.Hands()) + (e.currentTrick + [c]) + rest;
  }

  lemma CanPlayHolds(hand: Cards, c: Card, trick: Cards)
    requires CanPlayCard(hand, c, trick)
    ensures c in hand
  {
  }

  lemma SetCardTurn(e: EngineState, c: Card)
    requires Inv(e) && e.phase == WaitForPlayedCard && SetCard(e, c, e.currentPlayer).1
    ensures TurnInv(SetCard(e, c, e.currentPlayer).0)
  {
    hide Complete, ScoreInv, SizesInv, Without, CanPlayCard, ContractKnown, DiscardOwner, TableCards;
    OnlyCurrentMoves(e.currentPlayer, CurrentLeader(e), e.position, e.N());
  }

  lemma SetCardSizes(e: EngineState, c: Card)
    requires Inv(e) && e.phase == WaitForPlayedCard && SetCard(e, c, e.currentPlayer).1
    ensures SizesInv(SetCard(e, c, e.currentPlayer).0)
  {
    hide FullDeck, Complete, ScoreInv, Without, CanPlayCard, ContractKnown, DiscardOwner, TableCards, ShownCardsExist;
    CanPlayHolds(e.players[e.currentPlayer], c, e.currentTrick);
    PlayMovesCard(e, c, e.currentPlayer);
    OnlyCurrentMoves(e.currentPlayer, CurrentLeader(e), e.position, e.N());
    assert CurrentLeader(SetCard(e, c, e.currentPlayer).0) == CurrentLeader(e);
  }

  /** In the course of a trick, playing counts one more seat as having played: the current one. */
  lemma OnlyCurrentMoves(p: Place, leader: Place, position: nat, n: nat)
    requires leader < n <= NOWHERE && position < n && p == Seat(leader, position, n)
    ensures p < n && Offset(leader, p, n) == position && Next(p, n) == Seat(leader, position + 1, n)
    ensures forall q :: 0 <= q < n && q != p ==>
      (Offset(leader, q, n) < position <==> Offset(leader, q, n) < position + 1)
  {
  }

  lemma SetCardKeeps(e: EngineState, c: Card)
    requires Inv(e) && e.phase == WaitForPlayedCard && SetCard(e, c, e.currentPlayer).1
    ensures Inv(SetCard(e, c, e.currentPlayer).0)
  {
    hide TableCards, Complete, TurnInv, SizesInv, CanPlayCard;
    SetCardCards(e, c);
    SetCardTurn(e, c);
    SetCardSizes(e, c);
  }

  /** The trick on the table when everyone has played. */
  lemma FullTrickFacts(e: EngineState)
    requires Inv(e) && e.phase == WaitForShowCard && e.position == e.N()
    ensures |e.currentTrick| == e.N() && ValidCards(e.currentTrick) && Distinct(e.currentTrick)
    ensures var v := Judge(e.ctx.bid, CurrentLeader(e), e.ctx.tricksWon, e.currentTrick, e.trickCounter + 1);
      v.winner < e.N() && (v.foolSwap ==> FOOL in e.currentTrick)
  {
    TableCardsDistinct(e, 0);
    JudgeInRange(e.ctx.bid, CurrentLeader(e), e.ctx.tricksWon, e.currentTrick, e.trickCounter + 1);
  }

  lemma GameSequenceKeeps(e: EngineState)
    requires Inv(e)
    requires e.phase in {WaitForStartDeal, WaitForHandle, WaitForShowHandle, WaitForShowCard, WaitForEndOfTrick}
    ensures Inv(PlaySequence(e))
  {
    hide SizesInv, Complete, TableCards, ScoreInv, SetTrick, AnalyzeGame;
    if e.position == e.N() {
      EndOfTrickKeeps(e);
    } else {
      NextPlayerTurn(e);
      SameTable(e, PlaySequence(e));
    }
  }

  /** In the middle of a trick, the next player is asked for a handle once, then for a card. */
  lemma NextPlayerTurn(e: EngineState)
    requires Inv(e) && e.position < e.N()
    requires e.phase in {WaitForStartDeal, WaitForHandle, WaitForShowHandle, WaitForShowCard, WaitForEndOfTrick}
    ensures var e' := PlaySequence(e);
      TurnInv(e') && Sound(e') && e'.phase in {WaitForHandle, WaitForPlayedCard} &&
      e' == e.(phase := e'.phase, handleAsked := e'.handleAsked)
  {
    hide SizesInv, Complete, TableCards, ScoreInv, SetTrick, AnalyzeGame;
  }

  lemma EndOfTrickKeeps(e: EngineState)
    requires Inv(e) && e.phase == WaitForShowCard && e.position == e.N()
    ensures Inv(PlaySequence(e))
  {
    hide SizesInv, Complete, TableCards, ScoreInv, SetTrick, AnalyzeGame, JudgedTricks, StatsMatch;
    var e1 := GameSequence(e);
    assert e.trickCounter < HandSize(e.N());
    EndOfTrickStores(e);
    if IsLastTrick(e1) {
      EndOfDealKeepsTable(e1);
    } else {
      assert ScoreInv(e1) by { ScoreInvIsJudged(e1); }
    }
  }

  lemma ScoreInvIsJudged(e: EngineState)
    requires Sound(e) && e.trickCounter <= HandSize(e.N()) && e.phase != WaitForEndOfDeal
    requires Judged(e.ctx, e.trickCounter)
    ensures ScoreInv(e)
  {
  }

  lemma CompletePermuted(hands: Cards, trick: Cards, stored: Cards, discard: Cards)
    requires Complete(hands + trick + stored + discard)
    ensures Complete(hands + [] + (stored + trick) + discard)
  {
    hide FullDeck;
    assert multiset(hands + trick + stored + discard) == multiset(hands + [] + (stored + trick) + discard);
  }

  /** The trick on the table becomes the next completed trick. */
  lemma EndOfTrickStores(e: EngineState)
    requires Inv(e) && e.phase == WaitForShowCard && e.position == e.N()
    ensures var e1 := GameSequence(e);
      Sound(e1) && e1 == e.(phase := WaitForEndOfTrick, trickCounter := e.trickCounter + 1, position := 0,
                            currentTrick := [], currentPlayer := e1.currentPlayer, ctx := e1.ctx) &&
      e1.N() == e.N() && e1.ctx.bid == e.ctx.bid && e1.ctx.discard == e.ctx.discard &&
      e1.ctx.firstPlayer == e.ctx.firstPlayer && ShownCardsExist(e1.ctx) &&
      e1.currentPlayer == CurrentLeader(e1) < e1.N() &&
      Judged(e1.ctx, e1.trickCounter) && SizesInv(e1) && Complete(TableCards(e1))
  {
    hide Judge, JudgedAt, Credit, StatsMatch, JudgedTricks, Complete, FullDeck, ScoreInv, SizesInv, Flatten, SetTrick;
    FullTrickFacts(e);
    TrickStored(e.ctx, e.currentTrick, e.trickCounter);
    var e1 := GameSequence(e);
    assert e1.ctx == SetTrick(e.ctx, e.currentTrick, e.trickCounter + 1).0;
    assert e1.Hands() == e.Hands();
    CompletePermuted(Flatten(e.Hands()), e.currentTrick, TrickCards(e.ctx, e.trickCounter), e.ctx.discard.cards);
    JudgedFromScore(e);
    SetTrickJudged(e.ctx, e.currentTrick, e.trickCounter);
    NextTrickSizes(e, e1);
  }

  lemma NextTrickSizes(e: EngineState, e1: EngineState)
    requires Inv(e) && e.phase == WaitForShowCard && e.position == e.N()
    requires Sound(e1) && e1.players == e.players && e1.N() == e.N() && e1.ctx.discard == e.ctx.discard
    requires e1.position == 0 && e1.currentTrick == [] && e1.trickCounter == e.trickCounter + 1
    requires CurrentLeader(e1) < e.N()
    requires forall t :: 0 <= t < e.trickCounter ==> e1.ctx.winner[t] == e.ctx.winner[t]
    requires e1.ctx.tricks == e.ctx.tricks[e.trickCounter := e1.ctx.tricks[e.trickCounter]]
    requires e1.ctx.tricks[e.trickCounter].cards == e.currentTrick
    ensures SizesInv(e1)
  {
    hide Complete, TableCards, ScoreInv;
  }

  lemma JudgedFromScore(e: EngineState)
    requires Sound(e) && e.trickCounter <= HandSize(e.N()) && ScoreInv(e) && e.phase != WaitForEndOfDeal
    ensures Judged(e.ctx, e.trickCounter)
  {
  }

  /** What storing a trick leaves as it was. */
  lemma TrickStored(c: Ctx, trick: Cards, k: nat)
    requires c.Sized() && k < MAX_TRICKS
    ensures var (c', w) := SetTrick(c, trick, k + 1);
      c'.Sized() && c'.nbPlayers == c.nbPlayers && c'.bid == c.bid && c'.discard == c.discard &&
      c'.firstPlayer == c.firstPlayer && c'.dog == c.dog && c'.attackHandle == c.attackHandle &&
      c'.defenseHandle == c.defenseHandle && LeaderAt(c', k + 1) == w &&
      w == Judge(c.bid, LeaderAt(c, k), c.tricksWon, trick, k + 1).winner &&
      (forall t :: 0 <= t < k ==> c'.winner[t] == c.winner[t]) &&
      c'.tricks == c.tricks[k := c'.tricks[k]] && c'.tricks[k].cards == trick &&
      TrickCards(c', k + 1) == TrickCards(c, k) + trick
  {
    hide Judge, Credit;
    SetTrickKeepsPrefix(c, trick, k);
    PrefixDetermines(c, SetTrick(c, trick, k + 1).0, k, k);
  }

  /** After the last trick the deal is scored, and everything else stays as it is. */
  lemma EndOfDealKeepsTable(e: EngineState)
    requires Sound(e) && e.trickCounter == HandSize(e.N()) && Judged(e.ctx, e.trickCounter)
    requires SizesInv(e) && Complete(TableCards(e)) && e.phase != WaitForEndOfDeal
    ensures var e' := EndOfDeal(e);
      e' == e.(phase := WaitForEndOfDeal, points := e'.points, ctx := e.ctx.(stats := e'.ctx.stats)) &&
      SizesInv(e') && Complete(TableCards(e')) && ScoreInv(e')
  {
    hide JudgedTricks, StatsMatch, FullDeck, ScoreInv, Flatten;
    LastTrickScored(e);
    assert EndOfDeal(e).Hands() == e.Hands();
  }

  /** Scoring reads the statistics the tricks determine, and keeps everything but the statistics. */
  lemma LastTrickScored(e: EngineState)
    requires Sound(e) && e.trickCounter <= HandSize(e.N()) && Judged(e.ctx, e.trickCounter)
    ensures var e' := EndOfDeal(e);
      ScoreInv(e') && TrickCards(e'.ctx, e.trickCounter) == TrickCards(e.ctx, e.trickCounter)
  {
    var k := e.trickCounter;
    var e' := EndOfDeal(e);
    assert SamePrefix(e.ctx, e'.ctx, k);
    forall t | 0 <= t < k ensures JudgedAt(e'.ctx, t) {
      JudgedAtKept(e.ctx, e'.ctx, k, t);
    }
    PrefixDetermines(e.ctx, e'.ctx, k, k);
    PrefixDeterminesSide(HALVES, e.ctx, e'.ctx, Attack, k, k);
    PrefixDeterminesSide(OUDLER_COUNT, e.ctx, e'.ctx, Attack, k, k);
    PointsIgnoreTrumps(e.ctx, Tallied(e'.ctx, k));
  }

  /** The points of a deal depend on the tricks, the discard, the handles and the two sums only. */
  lemma PointsIgnoreTrumps(c: Ctx, c': Ctx)
    requires c.Sized() && c'.Sized() && PlayerCount(c.nbPlayers) && c'.nbPlayers == c.nbPlayers
    requires forall t :: 0 <= t < HandSize(c.nbPlayers) ==> c'.tricks[t] == c.tricks[t]
    requires c'.tricksWon == c.tricksWon
    requires c'.discard.owner == c.discard.owner && multiset(c'.discard.cards) == multiset(c.discard.cards)
    requires |c'.attackHandle| == |c.attackHandle| && |c'.defenseHandle| == |c.defenseHandle|
    requires c'.stats.halfPoints == c.stats.halfPoints && c'.stats.oudlers == c.stats.oudlers < 256
    ensures AnalyzeGame(c', NO_POINTS).1 == AnalyzeGame(c, NO_POINTS).1
  {
    AnalyzeTotals(c.stats, c.discard.cards);
    AnalyzeTotals(c'.stats, c'.discard.cards);
    TotalPermuted(HALF_POINTS, c.discard.cards, c'.discard.cards);
    TotalPermuted(OUDLERS, c.discard.cards, c'.discard.cards);
  }
}
