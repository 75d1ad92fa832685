/** Play from the first card to the last: progress, termination, and who played what. */
module Play {
  import opened Tarot
  import opened Decks
  import opened Context
  import opened Engines
  import opened EngineProofs
  import opened Scores
  import opened Tables
  import opened TableProofs
  import opened Deals

  // ---------------------------------------------------------------- how many cards are left

  function CardsToPlay(e: EngineState): int {
    e.N() * (HandSize(e.N()) - e.trickCounter) - e.position
  }

  lemma {:induction false} TrickCardsSize(c: Ctx, k: nat, n: nat)
    requires c.Sized() && k <= MAX_TRICKS && forall t :: 0 <= t < k ==> |c.tricks[t].cards| == n
    ensures |TrickCards(c, k)| == n * k
  {
    if k > 0 {
      TrickCardsSize(c, k - 1, n);
    }
  }

  /** The cards still in the hands are those the remaining tricks need. */
  lemma CardsLeft(e: EngineState)
    requires Engines.Inv(e) && Playing(e.phase)
    ensures |Flatten(e.Hands())| == CardsToPlay(e) && CardsToPlay(e) >= 0
  {
    hide FullDeck, Complete, ScoreInv, HandSize, TurnInv;
    StoredFit(e);
    InvCompletes(e);
    CompleteSize(TableCards(e));
    TrickCardsSize(e.ctx, e.trickCounter, e.N());
    HandsAndRest(|Flatten(e.Hands())|, e.position, e.N(), HandSize(e.N()), e.trickCounter);
  }

  lemma HandsAndRest(inHands: nat, position: nat, n: nat, h: nat, k: nat)
    requires inHands + position + n * k + (DECK_SIZE - h * n) == DECK_SIZE
    ensures inHands == n * (h - k) - position
  {
    assert n * (h - k) == n * h - n * k;
  }

  /** The last trick is over exactly when nobody holds a card and none is on the table. */
  lemma LastTrickMeansEmpty(e: EngineState)
    requires Engines.Inv(e) && Playing(e.phase)
    ensures IsLastTrick(e) <==> e.currentTrick == [] && forall p :: 0 <= p < e.N() ==> e.players[p] == []
    ensures IsLastTrick(e) ==> forall t :: 0 <= t < HandSize(e.N()) ==> |e.ctx.tricks[t].cards| == e.N()
  {
    hide Complete, ScoreInv, TableCards;
    assert e.currentTrick == [] ==> Offset(CurrentLeader(e), 0, e.N()) >= e.position;
  }

  // ---------------------------------------------------------------- the play comes to an end

  function HandlesToAsk(asked: seq<bool>): nat {
    if asked == [] then 0 else HandlesToAsk(asked[..|asked| - 1]) + if asked[|asked| - 1] then 0 else 1
  }

  lemma {:induction false} AskingOne(asked: seq<bool>, p: nat)
    requires p < |asked| && !asked[p]
    ensures HandlesToAsk(asked[p := true]) == HandlesToAsk(asked) - 1
  {
    var last := |asked| - 1;
    if p < last {
      AskingOne(asked[..last], p);
      assert asked[p := true][..last] == asked[..last][p := true];
    } else {
      assert asked[p := true][..last] == asked[..last];
    }
  }

  function Rank(p: Phase): nat {
    match p
    case WaitForStartDeal => 7
    case WaitForHandle => 6
    case WaitForShowHandle => 5
    case WaitForShowCard => 5
    case WaitForEndOfTrick => 4
    case WaitForPlayedCard => 3
    case _ => 0
  }

  /** Cards to play, then handles to ask for, then the way to the next card. */
  function Remaining(e: EngineState): int {
    64 * CardsToPlay(e) + 8 * HandlesToAsk(e.handleAsked) + Rank(e.phase)
  }

  lemma PlaySequenceDecreases(e: EngineState)
    requires Engines.Inv(e)
    requires e.phase in {WaitForStartDeal, WaitForHandle, WaitForShowHandle, WaitForShowCard, WaitForEndOfTrick}
    ensures Remaining(PlaySequence(e)) < Remaining(e)
  {
    hide SizesInv, Complete, TableCards, ScoreInv, SetTrick, AnalyzeGame, PlaySequence, CardsToPlay;
    if e.position == e.N() {
      EndOfTrickDecreases(e);
    } else {
      NextPlayerTurn(e);
      var e' := PlaySequence(e);
      assert CardsToPlay(e') == CardsToPlay(e) by { SameCardsToPlay(e, e'); }
      NextPlayerAsked(e);
    }
  }

  lemma SameCardsToPlay(e: EngineState, e': EngineState)
    requires e'.N() == e.N() && e'.trickCounter == e.trickCounter && e'.position == e.position
    ensures CardsToPlay(e') == CardsToPlay(e)
  {
  }

  lemma NextPlayerAsked(e: EngineState)
    requires Engines.Inv(e) && e.position < e.N()
    requires e.phase in {WaitForStartDeal, WaitForHandle, WaitForShowHandle, WaitForShowCard, WaitForEndOfTrick}
    ensures var e' := PlaySequence(e);
      if e'.phase == WaitForHandle then HandlesToAsk(e'.handleAsked) == HandlesToAsk(e.handleAsked) - 1
      else e'.handleAsked == e.handleAsked
  {
    hide SizesInv, Complete, TableCards, ScoreInv, SetTrick, AnalyzeGame, HandlesToAsk;
    if PlaySequence(e).phase == WaitForHandle {
      AskingOne(e.handleAsked, e.currentPlayer);
    }
  }

  lemma EndOfTrickDecreases(e: EngineState)
    requires Engines.Inv(e) && e.phase == WaitForShowCard && e.position == e.N()
    ensures Remaining(PlaySequence(e)) < Remaining(e) && CardsToPlay(PlaySequence(e)) == CardsToPlay(e)
  {
    hide SizesInv, Complete, TableCards, ScoreInv, SetTrick, AnalyzeGame, GameSequence, EndOfDeal, TurnInv, HandlesToAsk;
    EndOfTrickStores(e);
    var e1 := GameSequence(e);
    if IsLastTrick(e1) {
      assert e.trickCounter < HandSize(e.N()) by { NotLastYet(e); }
      EndOfDealKeepsTable(e1);
    }
    NextRoundCards(e.N(), HandSize(e.N()), e.trickCounter);
  }

  lemma NotLastYet(e: EngineState)
    requires Engines.Inv(e) && e.phase == WaitForShowCard
    ensures e.trickCounter < HandSize(e.N())
  {
  }

  lemma NextRoundCards(n: nat, h: nat, k: nat)
    ensures n * (h - (k + 1)) == n * (h - k) - n
  {
  }

  predicate SameDeal(e: EngineState, e': EngineState) {
    Playing(e.phase) && Playing(e'.phase)
  }

  /** Every accepted step of the play uses up part of a finite measure. */
  lemma PlayStepDecreases(t: TableState, ev: Event)
    requires TableInv(t) && Allowed(t, ev) && SameDeal(t.engine, Step(t, ev).engine)
    requires Step(t, ev).engine != t.engine
    ensures 0 <= Remaining(Step(t, ev).engine) < Remaining(t.engine)
  {
    hide SizesInv, Complete, TableCards, ScoreInv, TurnInv, Remaining, Engines.SetHandle, SetCard, PlaySequence;
    PlayStepCases(t, ev);
    var e, e' := t.engine, Step(t, ev).engine;
    if e.phase == WaitForPlayedCard {
      CardDecreases(e, ev.req.card);
    } else if e'.phase == WaitForShowHandle {
      PlayPhases(e);
      HandleDecreases(e, ev.req.handle);
    } else {
      PlaySequenceDecreases(e);
    }
    StepKeeps(t, ev);
    CardsLeft(e');
    RemainingNonNegative(e');
  }

  lemma RemainingNonNegative(e: EngineState)
    requires CardsToPlay(e) >= 0
    ensures Remaining(e) >= 0
  {
  }

  lemma HandleDecreases(e: EngineState, handle: Cards)
    requires e.phase == WaitForHandle && Engines.SetHandle(e, handle, e.currentPlayer).1
    ensures Remaining(Engines.SetHandle(e, handle, e.currentPlayer).0) < Remaining(e)
    ensures CardsToPlay(Engines.SetHandle(e, handle, e.currentPlayer).0) == CardsToPlay(e)
  {
    hide TestHandle;
  }

  lemma CardDecreases(e: EngineState, card: Card)
    requires e.phase == WaitForPlayedCard && SetCard(e, card, e.currentPlayer).1
    ensures Remaining(SetCard(e, card, e.currentPlayer).0) < Remaining(e)
    ensures CardsToPlay(SetCard(e, card, e.currentPlayer).0) == CardsToPlay(e) - 1
  {
    hide CanPlayCard, Without;
  }

  /** In the course of a deal the engine moves in three ways only. */
  lemma PlayStepCases(t: TableState, ev: Event)
    requires TableInv(t) && Allowed(t, ev) && SameDeal(t.engine, Step(t, ev).engine)
    requires Step(t, ev).engine != t.engine
    ensures ev.Received?
    ensures var e, e' := t.engine, Step(t, ev).engine;
      || (e' == PlaySequence(e) &&
          e.phase in {WaitForStartDeal, WaitForHandle, WaitForShowHandle, WaitForShowCard, WaitForEndOfTrick})
      || (ev.req.ReqHandle? && e.phase == WaitForHandle && Engines.SetHandle(e, ev.req.handle, e.currentPlayer) == (e', true) &&
          e'.phase == WaitForShowHandle)
      || (ev.req.ReqCard? && e.phase == WaitForPlayedCard && SetCard(e, ev.req.card, e.currentPlayer) == (e', true) &&
          e'.phase == WaitForShowCard)
  {
    hide Engines.Inv, Seated, PlaceOf, AddPlayer, RemovePlayer, PlaySequence, HandleGameSequence, HandleNewDeal, HandleNewGame,
         HandleEndOfDeal, NextBidSequence, ResetAck, MarkAck, TestHandle, CanPlayCard, PhaseOfStep, Sync, Barrier;
    match ev
    case Joined(uuid) => SeatsOnly(t, WaitForReady, uuid);
    case Left(uuid) => SeatsOnly(t, WaitForReady, uuid);
    case Received(src, req, s) =>
      match req
      case ReqAck(step) => AckCases(t, src, step, s);
      case ReqNewGame(deals) => NewGamePhase(t.(deals := deals));
      case ReqHandle(handle) => GameSequenceRuns(t);
      case _ =>
  }

  lemma NewGamePhase(t: TableState)
    requires Ready(t)
    ensures HandleNewGame(t).0.engine.phase == WaitForReady
  {
  }

  lemma GameSequenceRuns(t: TableState)
    requires Ready(t)
    ensures HandleGameSequence(t).0.engine == PlaySequence(t.engine)
  {
  }

  lemma AckCases(t: TableState, src: nat, step: string, s: Source)
    requires TableInv(t) && src != INVALID_UID && Playing(t.engine.phase)
    ensures var e' := ExecuteRequest(t, src, ReqAck(step), s).0.engine;
      e' == t.engine || (t.engine.phase == WaitForEndOfDeal && e'.phase in {WaitForCards, WaitForReady}) ||
      (e' == PlaySequence(t.engine) && t.engine.phase in {WaitForStartDeal, WaitForShowHandle, WaitForShowCard, WaitForEndOfTrick})
  {
    hide Engines.Inv, ZeroSum, HandleGameSequence, HandleEndOfDeal, PhaseOfStep, Sync;
    var phase := PhaseOfStep(step);
    SeatsOnly(t, phase, src);
    SyncOpens(t, phase, src);
    var (t1, passed) := Sync(t, phase, src);
    if passed {
      GameSequenceRuns(t1);
      if phase == WaitForEndOfDeal {
        EndOfDealPhase(t1, s);
      }
    }
  }

  lemma EndOfDealPhase(t: TableState, s: Source)
    requires Ready(t)
    ensures HandleEndOfDeal(t, s).0.engine.phase in {WaitForCards, WaitForReady}
  {
    hide CreateDeal, AddPoints;
  }

  /** The end of a deal is reported exactly when the finished deal is left, other than by starting a new game. */
  lemma EndOfDealIsReported(t: TableState, src: nat, req: Request, s: Source)
    requires TableInv(t) && src != INVALID_UID && !req.ReqNewGame?
    ensures EndsDeal(t, src, req) <==>
      t.engine.phase == WaitForEndOfDeal && ExecuteRequest(t, src, req, s).0.engine != t.engine
  {
    hide Engines.Inv, ZeroSum, PhaseOfStep, PlaceOf, Barrier, Sync, HandleGameSequence;
    if req.ReqAck? {
      var phase := PhaseOfStep(req.step);
      SyncOpens(t, phase, src);
      SyncOpens(t, WaitForEndOfDeal, src);
      SeatsOnly(t, phase, src);
      StepNamesRoundTrip(phase, req.step);
      var (t1, passed) := Sync(t, phase, src);
      if passed && phase != BadStep { BarrierMoves(t1, s); }
    }
  }

  /** The requests of a run that changed the state of the deal, and those that played a card. */
  function Moves(t: TableState, events: seq<Event>): nat
    requires WithinDeal(t, events)
    decreases |events|
  {
    if events == [] then 0
    else
      var t' := Step(t, events[0]);
      (if t'.engine != t.engine then 1 else 0) + Moves(t', events[1..])
  }

  function CardsPlayed(t: TableState, events: seq<Event>): nat
    requires WithinDeal(t, events)
    decreases |events|
  {
    if events == [] then 0
    else
      var t' := Step(t, events[0]);
      (if t.engine.phase == WaitForPlayedCard && t'.engine != t.engine then 1 else 0) + CardsPlayed(t', events[1..])
  }

  lemma StepPlaysCard(t: TableState, ev: Event)
    requires TableInv(t) && Allowed(t, ev) && SameDeal(t.engine, Step(t, ev).engine)
    ensures var e, e' := t.engine, Step(t, ev).engine;
      CardsToPlay(e') == CardsToPlay(e) - if e.phase == WaitForPlayedCard && e' != e then 1 else 0
  {
    hide Engines.Inv, CardsToPlay, Engines.SetHandle, SetCard, PlaySequence;
    var e, e' := t.engine, Step(t, ev).engine;
    if e' != e {
      PlayStepCases(t, ev);
      if e.phase == WaitForPlayedCard {
        CardDecreases(e, ev.req.card);
      } else if e'.phase == WaitForShowHandle {
        PlayPhases(e);
        HandleDecreases(e, ev.req.handle);
      } else {
        SequencePlaysNoCard(e);
      }
    }
  }

  lemma SequencePlaysNoCard(e: EngineState)
    requires Engines.Inv(e)
    requires e.phase in {WaitForStartDeal, WaitForHandle, WaitForShowHandle, WaitForShowCard, WaitForEndOfTrick}
    ensures CardsToPlay(PlaySequence(e)) == CardsToPlay(e)
  {
    hide SizesInv, Complete, TableCards, ScoreInv, SetTrick, AnalyzeGame, GameSequence, EndOfDeal, PlaySequence, TurnInv;
    if e.phase == WaitForShowCard && e.position == e.N() {
      EndOfTrickDecreases(e);
    } else {
      StoredInRange(e);
      NextPlayerTurn(e);
      SameCardsToPlay(e, PlaySequence(e));
    }
  }

  lemma StoredInRange(e: EngineState)
    requires Engines.Inv(e) && Playing(e.phase)
    ensures e.position <= e.N() && (e.phase != WaitForShowCard ==> e.position < e.N())
  {
  }

  /**
   * The play ends: a deal accepts only as many moves as the measure allows, and every card
   * accepted is one card less to play. From the first card to the last that makes n full hands.
   */
  lemma {:induction false} DealIsFinite(t: TableState, events: seq<Event>)
    requires TableInv(t) && WithinDeal(t, events) && AllAllowed(t, events)
    ensures var t' := Run(t, events);
      Remaining(t'.engine) >= 0 && Moves(t, events) <= Remaining(t.engine) - Remaining(t'.engine) &&
      CardsPlayed(t, events) == CardsToPlay(t.engine) - CardsToPlay(t'.engine) &&
      (t.engine.phase == WaitForStartDeal && t'.engine.phase == WaitForEndOfDeal ==>
         CardsPlayed(t, events) == t.N() * HandSize(t.N()))
    decreases |events|
  {
    hide Engines.Inv, Remaining, CardsToPlay, Step;
    if events == [] {
      CardsLeft(t.engine);
      RemainingNonNegative(t.engine);
    } else {
      var t1 := Step(t, events[0]);
      StepKeeps(t, events[0]);
      StepSameSize(t, events[0]);
      assert WithinDeal(t1, events[1..]);
      StepPlaysCard(t, events[0]);
      if t1.engine != t.engine { PlayStepDecreases(t, events[0]); }
      DealIsFinite(t1, events[1..]);
    }
    RunKeeps(t, events);
    EndsOfDeal(t.engine);
    EndsOfDeal(Run(t, events).engine);
  }

  lemma EndsOfDeal(e: EngineState)
    requires Engines.Inv(e)
    ensures e.phase == WaitForStartDeal ==> CardsToPlay(e) == e.N() * HandSize(e.N())
    ensures e.phase == WaitForEndOfDeal ==> CardsToPlay(e) == 0
  {
    hide SizesInv, Complete, TableCards, ScoreInv;
  }

  // ---------------------------------------------------------------- nobody is ever stuck

  /** A discard can be made exactly when the taker can lay aside enough plain cards that are no kings. */
  lemma DiscardPossible(e: EngineState)
    requires Engines.Inv(e) && e.phase == WaitForDiscard
    ensures var pool := e.Hand(e.ctx.bid.taker) + e.ctx.dog;
      (exists d :: SetDiscard(e, d).1) <==> |Discardables(pool)| >= DogSize(e.N())
  {
    hide FullDeck, WithoutAll, Discardables, NothingPlayed;
    var taker := e.ctx.bid.taker;
    var pool := e.players[taker] + e.ctx.dog;
    InFlatten(e.Hands(), taker);
    CompleteAtMostOnce(Flatten(e.Hands()) + e.ctx.dog, pool);
    AutoDiscardAccepted(e.players[taker], e.ctx.dog, e.N());
    if |Discardables(pool)| >= DogSize(e.N()) {
      assert SetDiscard(e, AutoDiscard(pool, e.N())).1;
    }
    forall d | SetDiscard(e, d).1 ensures |Discardables(pool)| >= DogSize(e.N()) {
      DiscardablesHold(e.players[taker], e.ctx.dog, d, e.N());
    }
  }

  lemma DiscardablesHold(hand: Cards, dog: Cards, d: Cards, n: nat)
    requires TestDiscard(hand, d, dog, n)
    ensures |Discardables(hand + dog)| >= |d|
  {
    DiscardablesCounts(hand + dog);
    var all := Discardables(hand + dog);
    forall c ensures multiset(d)[c] <= multiset(all)[c] {
      if c in d {
        assert multiset(hand + dog)[c] > 0;
      }
    }
    assert multiset(d) <= multiset(all);
    SubMultisetSize(multiset(d), multiset(all));
    assert |multiset(d)| == |d| && |multiset(all)| == |all|;
  }

  lemma SubMultisetSize(a: multiset<Card>, b: multiset<Card>)
    requires a <= b
    ensures |a| <= |b|
  {
    assert b == a + (b - a);
  }

  /** The player whose turn it is holds a card the engine accepts. */
  lemma CardPossible(e: EngineState)
    requires Engines.Inv(e) && e.phase == WaitForPlayedCard
    ensures exists c: Card :: c.IsValid() && SetCard(e, c, e.currentPlayer).1
  {
    hide FullDeck, ScoreInv, CanPlayCard, TableCards;
    var p := e.currentPlayer;
    TableCardsDistinct(e, p);
    OnlyCurrentMoves(p, CurrentLeader(e), e.position, e.N());
    SomeCardPlayable(e.players[p], e.currentTrick);
    var c :| c in e.players[p] && CanPlayCard(e.players[p], c, e.currentTrick);
    assert SetCard(e, c, p).1;
  }

  predicate AllSeated(t: TableState)
    requires t.Sized()
  {
    forall i :: 0 <= i < t.N() ==> t.seats[i].uuid != INVALID_UID
  }

  lemma {:induction false} SeatOfPlayer(t: TableState, p: Place)
    requires SeatsInv(t) && p < t.N() && t.seats[p].uuid != INVALID_UID
    ensures GetPlayerPlace(t, t.seats[p].uuid) == p
  {
    PlaceOfFinds(t.seats, t.seats[p].uuid, t.N());
  }

  lemma NextBidPhase(t: TableState)
    requires Ready(t)
    ensures NextBidSequence(t).0.engine.phase == t.engine.phase
  {
  }

  lemma NewDealEntersCards(t: TableState, s: Source)
    requires Ready(t)
    ensures HandleNewDeal(t, s).0.engine.phase == WaitForCards
  {
    hide CreateDeal;
  }

  /** Every phase handler moves the engine on; only an administrator's table waits to be started. */
  lemma BarrierMoves(t: TableState, s: Source)
    requires Ready(t) && Engines.Inv(t.engine) && AckPhase(t.engine.phase)
    ensures Barrier(t, t.engine.phase, s).0.engine == t.engine <==> t.engine.phase == WaitForPlayers && t.adminMode
  {
    hide AuctionInv, AuctionShape, ContractInv, PlayInv, BidSequence, ManageAfterBidSequence, PlaySequence, HandleNewGame, HandleNewDeal,
         HandleEndOfDeal, NextBidSequence, HandleGameSequence;
    var e := t.engine;
    match e.phase
    case WaitForPlayers => NewGamePhase(t);
    case WaitForReady => NewDealEntersCards(t, s);
    case WaitForAllPassed => NewDealEntersCards(t, s);
    case WaitForCards =>
      BidSequenceKeeps(e);
      SameRoomAfterBid(e);
      NextBidPhase(t.(engine := BidSequence(e)));
    case WaitForShowBid =>
      BidSequenceKeeps(e);
      SameRoomAfterBid(e);
      NextBidPhase(t.(engine := BidSequence(e)));
    case WaitForShowKingCall =>
      AfterKingCall(e);
      SameRoomAfterBid(e);
      NextBidPhase(t.(engine := ManageAfterBidSequence(e)));
    case WaitForShowDog =>
    case WaitForEndOfDeal => EndOfDealPhase(t, s);
    case _ =>
      GameSequenceRuns(t);
      PlaySequenceDecreases(e);
  }

  lemma AfterKingCall(e: EngineState)
    ensures ManageAfterBidSequence(e).phase in {WaitForShowDog, WaitForStartDeal}
  {
  }

  /** The taker can lay aside enough cards. */
  predicate CanDiscard(e: EngineState) {
    |Discardables(e.Hand(e.ctx.bid.taker) + e.ctx.dog)| >= DogSize(e.N())
  }

  /** The taker has been asked for a discard that hand and dog do not allow. */
  predicate Refused(e: EngineState) {
    e.phase == WaitForDiscard && !CanDiscard(e)
  }

  /** A request of a player within the game: any but the administrator's request to start again. */
  predicate PlayerRequest(t: TableState, ev: Event) {
    Allowed(t, ev) && ev.Received? && !ev.req.ReqNewGame?
  }

  /** A flag that was down is up. */
  predicate FlagRaised(t: TableState, t': TableState) {
    t.Sized() && t'.Sized() && exists i :: 0 <= i < t.N() && !t.seats[i].ack && t'.seats[i].ack
  }

  predicate Progress(t: TableState, ev: Event) {
    Ready(t) && PlayerRequest(t, ev) && (Step(t, ev).engine != t.engine || FlagRaised(t, Step(t, ev)))
  }

  /** Nothing is being played, an administrator has still to start, or a discard cannot be made. */
  predicate Halted(t: TableState) {
    t.engine.phase in {BadStep, Stopped} || (t.engine.phase == WaitForPlayers && t.adminMode) || Refused(t.engine)
  }

  predicate OthersAcked(t: TableState, i: nat) {
    t.Sized() && i < t.N() && forall j: nat :: j < t.N() && j != i ==> t.seats[j].ack
  }

  /** A single acknowledgement is missing. */
  predicate OneMissing(t: TableState) {
    exists i: nat :: i < MAX_SEATS && OthersAcked(t, i)
  }

  /** Halted, and no acknowledgement is awaited that would be recorded. */
  predicate Stuck(t: TableState) {
    Halted(t) && (t.engine.phase == WaitForPlayers ==> OneMissing(t))
  }

  lemma MissingAckMoves(t: TableState, i: nat, s: Source) returns (ev: Event)
    requires TableInv(t) && AllSeated(t) && AckPhase(t.engine.phase) && FairSource(s, t.N())
    requires i < t.N() && !t.seats[i].ack && !Stuck(t)
    ensures Progress(t, ev)
  {
    hide Engines.Inv, ZeroSum, Barrier, PlaceOf, PhaseOfStep, FairSource;
    var phase := t.engine.phase;
    var uuid := t.seats[i].uuid;
    var step := StepOfPhase(phase);
    ev := Received(uuid, ReqAck(step), s);
    SeatOfPlayer(t, i);
    StepNamesRoundTrip(phase, step);
    SyncOpens(t, phase, uuid);
    SeatsOnly(t, phase, uuid);
    var (t1, passed) := Sync(t, phase, uuid);
    if passed {
      assert OthersAcked(t, i);
      BarrierMoves(t1, s);
    } else {
      assert t1.seats[i].ack;
    }
  }

  /** The player whose answer is awaited has one that moves the engine. */
  lemma AnswerMoves(t: TableState, s: Source) returns (ev: Event)
    requires TableInv(t) && AllSeated(t) && FairSource(s, t.N())
    requires !AckPhase(t.engine.phase) && !Halted(t)
    ensures Progress(t, ev)
  {
    hide AuctionInv, AuctionShape, ContractInv, PlayInv, ZeroSum, Barrier, PlaceOf, PhaseOfStep, HandleStartDeal,
         HandleGameSequence, PlaySequence, FairSource, Discardables, FlagRaised;
    var e := t.engine;
    var actor := if e.phase == WaitForKingCall || e.phase == WaitForDiscard then e.ctx.bid.taker else e.currentPlayer;
    ActorSeated(e);
    var uuid := t.seats[actor].uuid;
    SeatOfPlayer(t, actor);
    if e.phase == WaitForBid {
      ev := Received(uuid, ReqBid(PASS, false), s);
    } else if e.phase == WaitForKingCall {
      ev := KingRequestMoves(t, s);
    } else if e.phase == WaitForDiscard {
      ev := DiscardRequestMoves(t, s);
    } else if e.phase == WaitForHandle {
      ev := Received(uuid, ReqHandle([]), s);
      GameSequenceRuns(t);
      PlaySequenceMoves(e);
    } else {
      ev := CardRequestMoves(t, s);
    }
  }

  /** In a stuck state no request of a player changes the engine or raises a flag. */
  lemma StuckStays(t: TableState, ev: Event)
    requires TableInv(t) && Halted(t) && PlayerRequest(t, ev)
    ensures Step(t, ev).engine == t.engine
    ensures FlagRaised(t, Step(t, ev)) ==> !Stuck(t)
  {
    hide Engines.Inv, ZeroSum, PlaceOf, PhaseOfStep, FairSource, CanDiscard, NobodyBids, SameSeating, OnBid, OnDiscard,
         OnKingCall, OnHandle, OnCard;
    var e, p := t.engine, GetPlayerPlace(t, ev.src);
    match ev.req
    case ReqAck(step) =>
      var phase := PhaseOfStep(step);
      StepNamesRoundTrip(phase, step);
      SyncOpens(t, phase, ev.src);
      SeatsOnly(t, phase, ev.src);
      if e.phase == WaitForPlayers && OneMissing(t) { MarkedOnce(t, ev.src); }
    case ReqBid(contract, slam) => OnBidDoes(t, p, contract, slam);
    case ReqDiscard(discard) =>
      OnDiscardDoes(t, p, discard);
      if Refused(e) { assert !SetDiscard(e, discard).1 by { NoDiscard(e, discard); } }
    case ReqKingCall(king) => OnKingCallDoes(t, p, king);
    case ReqHandle(handle) => OnHandleDoes(t, p, handle);
    case ReqCard(card) => OnCardDoes(t, p, card);
    case _ =>
  }

  lemma NoDiscard(e: EngineState, discard: Cards)
    requires Engines.Inv(e) && Refused(e)
    ensures !SetDiscard(e, discard).1
  {
    hide Engines.Inv, SetDiscard;
    DiscardPossible(e);
  }

  /** When one seat is missing, its acknowledgement is the last one. */
  lemma MarkedOnce(t: TableState, uuid: nat)
    requires SeatsInv(t) && OneMissing(t)
    ensures var (t1, passed) := Sync(t, t.engine.phase, uuid); !FlagRaised(t, t1)
  {
    SyncOpens(t, t.engine.phase, uuid);
  }

  /**
   * Nobody is ever stuck: in every reachable state of a full table some player can make a request that
   * moves the engine or is recorded, except where the game is not running or a discard cannot be made.
   */
  lemma SomeoneCanMove(t: TableState, s: Source)
    requires TableInv(t) && AllSeated(t) && FairSource(s, t.N())
    ensures (exists ev :: Progress(t, ev)) <==> !Stuck(t)
  {
    hide Engines.Inv, TournamentInv, FairSource, Progress, Stuck, Halted;
    if !Stuck(t) {
      if AckPhase(t.engine.phase) {
        var i :| 0 <= i < t.N() && !t.seats[i].ack;
        var ev := MissingAckMoves(t, i, s);
      } else {
        assert !Halted(t) by { NotHalted(t); }
        var ev := AnswerMoves(t, s);
      }
    } else {
      forall ev ensures !Progress(t, ev) {
        NoProgress(t, ev);
      }
    }
  }

  lemma NotHalted(t: TableState)
    requires !Stuck(t) && !AckPhase(t.engine.phase)
    ensures !Halted(t)
  {
  }

  lemma NoProgress(t: TableState, ev: Event)
    requires TableInv(t) && Stuck(t)
    ensures !Progress(t, ev)
  {
    hide Engines.Inv, ZeroSum, PlaceOf, FairSource, FlagRaised, Refused, Step, OneMissing;
    if PlayerRequest(t, ev) {
      StuckStays(t, ev);
    }
  }

  function Missing(seats: seq<SeatState>, n: nat): nat
    requires n <= |seats|
  {
    if n == 0 then 0 else Missing(seats, n - 1) + if seats[n - 1].ack then 0 else 1
  }

  /** Requests of players only. */
  predicate PlayerRequests(t: TableState, events: seq<Event>)
    decreases |events|
  {
    events == [] || (Ready(t) && PlayerRequest(t, events[0]) && PlayerRequests(Step(t, events[0]), events[1..]))
  }

  predicate MovesEngine(t: TableState, events: seq<Event>) {
    Ready(t) && PlayerRequests(t, events) && Run(t, events).engine != t.engine
  }

  lemma {:induction false} FewerMissing(seats: seq<SeatState>, seats': seq<SeatState>, n: nat)
    requires n <= |seats| == |seats'| && forall i :: 0 <= i < n && seats[i].ack ==> seats'[i].ack
    ensures Missing(seats', n) <= Missing(seats, n)
    ensures (exists i :: 0 <= i < n && !seats[i].ack && seats'[i].ack) ==> Missing(seats', n) < Missing(seats, n)
  {
    if n > 0 {
      FewerMissing(seats, seats', n - 1);
    }
  }

  /** An answer that changes the table changes the engine, in a phase without acknowledgement. */
  lemma AnswerPhases(t: TableState, src: nat, req: Request, s: Source)
    requires TableInv(t) && !req.ReqAck? && !req.ReqNewGame?
    requires ExecuteRequest(t, src, req, s).0 != t
    ensures !AckPhase(t.engine.phase) && ExecuteRequest(t, src, req, s).0.engine != t.engine
    ensures req.ReqKingCall? || ExecuteRequest(t, src, req, s).0.seats == t.seats
  {
    hide Engines.Inv, ZeroSum, PlaceOf, SeatsInv, PlaySequence, SameSeating, OnBid, OnDiscard, OnKingCall, OnHandle, OnCard;
    var p := GetPlayerPlace(t, src);
    match req
    case ReqBid(contract, slam) => OnBidDoes(t, p, contract, slam);
    case ReqDiscard(discard) => OnDiscardDoes(t, p, discard);
    case ReqKingCall(king) => OnKingCallDoes(t, p, king);
    case ReqHandle(handle) =>
      OnHandleDoes(t, p, handle);
      if t.engine.phase == WaitForHandle { PlaySequenceMoves(t.engine); }
    case ReqCard(card) => OnCardDoes(t, p, card);
  }

  /** A request that leaves the engine alone takes no player and no flag away. */
  lemma EngineLeftAlone(t: TableState, ev: Event)
    requires TableInv(t) && PlayerRequest(t, ev) && Step(t, ev).engine == t.engine && !Halted(t)
    ensures var t' := Step(t, ev);
      t'.Sized() && t'.adminMode == t.adminMode && (AllSeated(t) ==> AllSeated(t')) &&
      forall i :: 0 <= i < t.N() && t.seats[i].ack ==> t'.seats[i].ack
  {
    hide Engines.Inv, ZeroSum, PlaceOf, PhaseOfStep, Barrier, Refused, NobodyBids, Meant, OnBid, OnDiscard, OnKingCall,
         OnHandle, OnCard;
    if ev.req.ReqAck? {
      var phase := PhaseOfStep(ev.req.step);
      StepNamesRoundTrip(phase, ev.req.step);
      SyncOpens(t, phase, ev.src);
      SeatsOnly(t, phase, ev.src);
      var (t1, passed) := Sync(t, phase, ev.src);
      if passed { BarrierMoves(t1, ev.source); }
    } else if Step(t, ev) != t {
      AnswerPhases(t, ev.src, ev.req, ev.source);
    }
  }

  /** From every state that is not halted the players can bring the engine to its next step. */
  lemma {:induction false} PlayersGoOn(t: TableState, s: Source) returns (events: seq<Event>)
    requires TableInv(t) && AllSeated(t) && FairSource(s, t.N()) && !Halted(t)
    ensures MovesEngine(t, events)
    decreases Missing(t.seats, t.N())
  {
    hide Engines.Inv, TournamentInv, FairSource, Halted, Missing, Step, SeatsInv;
    assert Ready(t) by { TableReady(t); }
    SomeoneCanMove(t, s);
    assert !Stuck(t);
    var ev :| Progress(t, ev);
    var t1 := Step(t, ev);
    if t1.engine != t.engine {
      events := [ev];
      assert events[1..] == [] && Run(t1, []) == t1 && Run(t, events) == Run(t1, []);
      assert PlayerRequests(t1, events[1..]);
    } else {
      StepKeeps(t, ev);
      EngineLeftAlone(t, ev);
      FewerMissing(t.seats, t1.seats, t.N());
      assert !Halted(t1) by { HaltedReads(t, t1); }
      var more := PlayersGoOn(t1, s);
      events := [ev] + more;
      assert events[1..] == more && Run(t, events) == Run(t1, more);
      assert PlayerRequests(t, events);
    }
  }

  lemma HaltedReads(t: TableState, t1: TableState)
    requires t1.engine == t.engine && t1.adminMode == t.adminMode
    ensures Halted(t1) <==> Halted(t)
  {
  }

  lemma {:induction false} HaltedStays(t: TableState, events: seq<Event>)
    requires TableInv(t) && Halted(t) && PlayerRequests(t, events)
    ensures Ready(t) && Run(t, events).engine == t.engine
    decreases |events|
  {
    hide Engines.Inv, TournamentInv, SeatsInv, FairSource, Halted, Step;
    assert Ready(t) by { TableReady(t); }
    if events != [] {
      assert PlayerRequest(t, events[0]);
      StuckStays(t, events[0]);
      StepKeeps(t, events[0]);
      assert Halted(Step(t, events[0])) by { ModeKept(t, events[0]); HaltedReads(t, Step(t, events[0])); }
      HaltedStays(Step(t, events[0]), events[1..]);
    }
  }

  lemma ModeKept(t: TableState, ev: Event)
    requires Ready(t)
    ensures Step(t, ev).adminMode == t.adminMode
  {
    hide OnAck, OnBid, OnDiscard, OnKingCall, OnHandle, OnCard, PlaceOf, Seated;
    match ev
    case Joined(_) =>
    case Left(_) =>
    case Received(src, req, s) =>
      var p := GetPlayerPlace(t, src);
      match req
      case ReqAck(step) => AckKeepsMode(t, src, step, s);
      case ReqBid(contract, slam) => OnBidDoes(t, p, contract, slam);
      case ReqDiscard(discard) => OnDiscardDoes(t, p, discard);
      case ReqKingCall(king) => OnKingCallDoes(t, p, king);
      case ReqHandle(handle) => OnHandleDoes(t, p, handle);
      case ReqCard(card) => OnCardDoes(t, p, card);
      case _ =>
  }

  lemma AckKeepsMode(t: TableState, src: nat, step: string, s: Source)
    requires Ready(t)
    ensures OnAck(t, src, step, s).0.adminMode == t.adminMode
  {
    hide Engines.NewDeal, StartDeal, PlaySequence, AddPoints, PlaceOf, PhaseOfStep, ToAll, BidSequence, ManageAfterBidSequence;
    SeatsOnly(t, PhaseOfStep(step), src);
    SameRoomAfterBid(t.engine);
  }

  /**
   * The same over runs: the requests of the players alone can bring a full table's engine to its next
   * step exactly when the game is running and no discard has become impossible.
   */
  lemma GameGoesOn(t: TableState, s: Source)
    requires TableInv(t) && AllSeated(t) && FairSource(s, t.N())
    ensures (exists events :: MovesEngine(t, events)) <==> !Halted(t)
  {
    hide Engines.Inv, TournamentInv, SeatsInv, FairSource, Halted, MovesEngine;
    if Halted(t) {
      forall events ensures !MovesEngine(t, events) {
        HaltedMovesNothing(t, events);
      }
    } else {
      var events := PlayersGoOn(t, s);
    }
  }

  lemma HaltedMovesNothing(t: TableState, events: seq<Event>)
    requires TableInv(t) && Halted(t)
    ensures !MovesEngine(t, events)
  {
    hide Engines.Inv, TournamentInv, SeatsInv, FairSource, Halted, Run;
    if PlayerRequests(t, events) {
      HaltedStays(t, events);
    }
  }

  /** Until the deal is over, the players' requests stay within it. */
  lemma DealStays(t: TableState, ev: Event)
    requires TableInv(t) && PlayerRequest(t, ev) && Playing(t.engine.phase) && t.engine.phase != WaitForEndOfDeal
    ensures Playing(Step(t, ev).engine.phase)
  {
    hide Engines.Inv, ZeroSum, SeatsInv, PlaceOf, PlaySequence, Seated, TestHandle, CanPlayCard, Without, Barrier, Sync,
         PhaseOfStep;
    GameSequenceRuns(t);
    if t.engine.phase in {WaitForStartDeal, WaitForHandle, WaitForShowHandle, WaitForShowCard, WaitForEndOfTrick} {
      PlayPhases(t.engine);
    }
    if ev.req.ReqAck? {
      AckCases(t, ev.src, ev.req.step, ev.source);
    }
  }

  lemma PlayersStay(t: TableState, ev: Event)
    requires TableInv(t) && PlayerRequest(t, ev) && AllSeated(t) && Playing(t.engine.phase) && t.engine.phase != WaitForEndOfDeal
    ensures Step(t, ev).Sized() && AllSeated(Step(t, ev))
  {
    hide Engines.Inv, ZeroSum, PlaceOf, FairSource, NobodyBids, OnAck, OnBid, OnDiscard, OnKingCall, OnHandle, OnCard;
    var p := GetPlayerPlace(t, ev.src);
    match ev.req
    case ReqAck(step) => AckKeepsPlayers(t, ev.src, step, ev.source);
    case ReqBid(contract, slam) => OnBidDoes(t, p, contract, slam);
    case ReqDiscard(discard) => OnDiscardDoes(t, p, discard);
    case ReqKingCall(king) => OnKingCallDoes(t, p, king);
    case ReqHandle(handle) => OnHandleDoes(t, p, handle);
    case ReqCard(card) => OnCardDoes(t, p, card);
    case _ =>
  }

  lemma AckKeepsPlayers(t: TableState, src: nat, step: string, s: Source)
    requires Ready(t) && SeatsInv(t) && Playing(t.engine.phase) && t.engine.phase != WaitForEndOfDeal
    ensures SameSeating(t, OnAck(t, src, step, s).0)
  {
    hide PlaySequence, PlaceOf, PhaseOfStep, StepMessages;
    SyncOpens(t, PhaseOfStep(step), src);
    PlayKeepsBid(t.engine);
  }

  /**
   * Once a deal is being played it can be played to its end: some requests of the players, and none of
   * anybody else, bring any full table there.
   */
  lemma {:induction false} PlayersFinish(t: TableState, s: Source) returns (events: seq<Event>)
    requires TableInv(t) && AllSeated(t) && FairSource(s, t.N()) && Playing(t.engine.phase)
    ensures PlayerRequests(t, events) && Run(t, events).engine.phase == WaitForEndOfDeal
    decreases Remaining(t.engine), Missing(t.seats, t.N())
  {
    hide Engines.Inv, TournamentInv, FairSource, Missing, Step, SeatsInv, Remaining, Stuck, Refused, PlayerRequest;
    if t.engine.phase == WaitForEndOfDeal {
      events := [];
    } else {
      assert Ready(t) by { TableReady(t); }
      PlayRuns(t);
      SomeoneCanMove(t, s);
      var ev :| Progress(t, ev);
      var t1 := Step(t, ev);
      assert TableInv(t1) by { RequestKeeps(t, ev); }
      DealStays(t, ev);
      PlayersStay(t, ev);
      StepSameSize(t, ev);
      CardsLeft(t.engine);
      RemainingNonNegative(t.engine);
      if t1.engine != t.engine {
        assert Allowed(t, ev) by { RequestAllowed(t, ev); }
        PlayStepDecreases(t, ev);
      } else {
        EngineLeftAlone(t, ev);
        FewerMissing(t.seats, t1.seats, t.N());
      }
      var more := PlayersFinish(t1, s);
      events := [ev] + more;
      assert events[1..] == more && Run(t, events) == Run(t1, more);
    }
  }

  lemma PlayRuns(t: TableState)
    requires Playing(t.engine.phase)
    ensures !Stuck(t) && !Halted(t)
  {
  }

  lemma RequestAllowed(t: TableState, ev: Event)
    requires PlayerRequest(t, ev)
    ensures Allowed(t, ev)
  {
  }

  lemma RequestKeeps(t: TableState, ev: Event)
    requires TableInv(t) && PlayerRequest(t, ev)
    ensures TableInv(Step(t, ev))
  {
    hide TableInv, NobodyBids, Meant;
    StepKeeps(t, ev);
  }

  lemma KingRequestMoves(t: TableState, s: Source) returns (ev: Event)
    requires TableInv(t) && AllSeated(t) && FairSource(s, t.N()) && t.engine.phase == WaitForKingCall
    ensures Progress(t, ev)
  {
    hide Engines.Inv, PlaceOf, FairSource, OnKingCall, ZeroSum, FlagRaised;
    ActorSeated(t.engine);
    var p, king := t.engine.ctx.bid.taker, Card(14, SPADES);
    SeatOfPlayer(t, p);
    ev := Received(t.seats[p].uuid, ReqKingCall(king), s);
    KingCallMoves(t, p, king);
  }

  lemma TableReady(t: TableState)
    requires TableInv(t)
    ensures Ready(t)
  {
  }

  lemma DiscardRequestMoves(t: TableState, s: Source) returns (ev: Event)
    requires TableInv(t) && AllSeated(t) && FairSource(s, t.N()) && t.engine.phase == WaitForDiscard
    requires !Refused(t.engine)
    ensures Progress(t, ev)
  {
    hide BeforePlay, PlaceOf, SetDiscard, FairSource, HandleStartDeal, Discardables, FlagRaised;
    var e := t.engine;
    SeatOfPlayer(t, e.ctx.bid.taker);
    DiscardPossible(e);
    var d :| SetDiscard(e, d).1;
    ev := Received(t.seats[e.ctx.bid.taker].uuid, ReqDiscard(d), s);
    DiscardMoves(t, d);
  }

  lemma CardRequestMoves(t: TableState, s: Source) returns (ev: Event)
    requires TableInv(t) && AllSeated(t) && FairSource(s, t.N()) && t.engine.phase == WaitForPlayedCard
    ensures Progress(t, ev)
  {
    hide PlayInv, PlaceOf, SetCard, FairSource, FlagRaised;
    var e := t.engine;
    ActorSeated(e);
    SeatOfPlayer(t, e.currentPlayer);
    CardPossible(e);
    var c: Card :| c.IsValid() && SetCard(e, c, e.currentPlayer).1;
    ev := Received(t.seats[e.currentPlayer].uuid, ReqCard(c), s);
    CardMoves(e, c);
  }

  lemma ActorSeated(e: EngineState)
    requires Engines.Inv(e) && !AckPhase(e.phase) && e.phase !in {BadStep, Stopped}
    ensures e.phase in {WaitForBid, WaitForKingCall, WaitForDiscard, WaitForHandle, WaitForPlayedCard}
    ensures e.phase in {WaitForKingCall, WaitForDiscard} ==> e.ctx.bid.taker < e.N()
    ensures e.phase in {WaitForBid, WaitForHandle, WaitForPlayedCard} ==> e.currentPlayer < e.N()
  {
    hide NothingPlayed, SizesInv, ScoreInv, TableCards, Complete;
  }

  lemma KingCallMoves(t: TableState, p: Place, king: Card)
    requires Ready(t) && t.engine.phase == WaitForKingCall && t.engine.ctx.bid.taker == p && king.value == 14
    ensures OnKingCall(t, p, king).0.engine.phase == WaitForShowKingCall
  {
    hide FindHolder, ToAll;
  }

  lemma DiscardMoves(t: TableState, d: Cards)
    requires Ready(t) && SetDiscard(t.engine, d).1
    ensures Ready(t.(engine := SetDiscard(t.engine, d).0))
    ensures HandleStartDeal(t.(engine := SetDiscard(t.engine, d).0)).0.engine.phase == WaitForStartDeal
  {
    hide TestDiscard, WithoutAll;
  }

  lemma PlaySequenceMoves(e: EngineState)
    requires Engines.Inv(e) && e.phase == WaitForHandle
    ensures PlaySequence(e) != e
  {
    PlaySequenceDecreases(e);
  }

  lemma CardMoves(e: EngineState, c: Card)
    requires e.phase == WaitForPlayedCard && SetCard(e, c, e.currentPlayer).1
    ensures SetCard(e, c, e.currentPlayer).0.phase == WaitForShowCard
  {
  }

  // ---------------------------------------------------------------- who played which card

  /** Every card not in the hand it was dealt to is where the seat arithmetic says that hand played it. */
  predicate Attributed(hands0: seq<Cards>, e: EngineState)
    requires Sound(e) && e.trickCounter <= MAX_TRICKS
  {
    var k, n := e.trickCounter, e.N();
    |hands0| == MAX_SEATS &&
    (forall p, c :: 0 <= p < n && c in e.players[p] ==> c in hands0[p]) &&
    (forall i :: 0 <= i < |e.currentTrick| && i < n ==> PlayedBy(hands0, CurrentLeader(e), e.currentTrick, i, n)) &&
    (forall t, i :: 0 <= t < k && 0 <= i < |e.ctx.tricks[t].cards| && i < n ==>
       PlayedBy(hands0, LeaderAt(e.ctx, t), e.ctx.tricks[t].cards, i, n))
  }

  predicate PlayedBy(hands0: seq<Cards>, leader: Place, trick: Cards, i: nat, n: nat)
    requires i < |trick|
  {
    0 <= Seat(leader, i, n) < |hands0| && trick[i] in hands0[Seat(leader, i, n)]
  }

  lemma {:induction false} WithoutKeeps(d: Cards, c: Card)
    ensures forall x :: x in Without(d, c) ==> x in d
  {
    WithoutCounts(d, c);
    forall x | x in Without(d, c) ensures x in d {
      assert multiset(Without(d, c))[x] > 0;
    }
  }

  lemma SetCardAttributes(hands0: seq<Cards>, e: EngineState, c: Card)
    requires Engines.Inv(e) && e.phase == WaitForPlayedCard && SetCard(e, c, e.currentPlayer).1 && Attributed(hands0, e)
    ensures var e' := SetCard(e, c, e.currentPlayer).0;
      Sound(e') && e'.trickCounter <= MAX_TRICKS && Attributed(hands0, e')
  {
    hide SizesInv, ScoreInv, TableCards, Complete, Without, CanPlayCard;
    var p := e.currentPlayer;
    var e' := SetCard(e, c, p).0;
    CanPlayHolds(e.players[p], c, e.currentTrick);
    WithoutKeeps(e.players[p], c);
    assert |e.currentTrick| == e.position by { TrickIsPosition(e); }
    forall i | 0 <= i < |e'.currentTrick| && i < e.N()
      ensures PlayedBy(hands0, CurrentLeader(e'), e'.currentTrick, i, e.N())
    {
      if i < e.position {
        assert PlayedBy(hands0, CurrentLeader(e), e.currentTrick, i, e.N());
      }
    }
    forall t, i | 0 <= t < e.trickCounter && 0 <= i < |e.ctx.tricks[t].cards| && i < e.N()
      ensures PlayedBy(hands0, LeaderAt(e'.ctx, t), e'.ctx.tricks[t].cards, i, e.N())
    {
      assert PlayedBy(hands0, LeaderAt(e.ctx, t), e.ctx.tricks[t].cards, i, e.N());
    }
  }

  lemma TrickIsPosition(e: EngineState)
    requires Engines.Inv(e) && Playing(e.phase)
    ensures |e.currentTrick| == e.position <= e.N()
  {
  }

  /** Steps of the play that move no card from a hand. */
  lemma SequenceAttributes(hands0: seq<Cards>, e: EngineState)
    requires Engines.Inv(e) && Sound(e) && e.trickCounter <= MAX_TRICKS && Attributed(hands0, e)
    requires e.phase in {WaitForStartDeal, WaitForHandle, WaitForShowHandle, WaitForShowCard, WaitForEndOfTrick}
    ensures var e' := PlaySequence(e);
      Sound(e') && e'.trickCounter <= MAX_TRICKS && Attributed(hands0, e')
  {
    hide PlayInv, PlaySequence, Attributed;
    StoredInRange(e);
    if e.position == e.N() {
      EndOfTrickAttributes(hands0, e);
    } else {
      NextPlayerTurn(e);
      AttributedKept(hands0, e, PlaySequence(e));
    }
  }

  lemma EndOfTrickAttributes(hands0: seq<Cards>, e: EngineState)
    requires Engines.Inv(e) && e.phase == WaitForShowCard && e.position == e.N()
    requires e.trickCounter <= MAX_TRICKS && Attributed(hands0, e)
    ensures var e' := PlaySequence(e);
      Sound(e') && e'.trickCounter <= MAX_TRICKS && Attributed(hands0, e')
  {
    hide PlayInv, Attributed, SetTrick, AnalyzeGame, SizesInv, Complete, TableCards, Judged;
    NotLastYet(e);
    StoredFit(e);
    EndOfTrickStores(e);
    var e1 := GameSequence(e);
    TrickStored(e.ctx, e.currentTrick, e.trickCounter);
    StoredTrickAttributes(hands0, e, e1);
    if IsLastTrick(e1) {
      EndOfDealKeepsTable(e1);
      AttributedKept(hands0, e1, EndOfDeal(e1));
    }
  }

  lemma StoredTrickAttributes(hands0: seq<Cards>, e: EngineState, e1: EngineState)
    requires Sound(e) && Sound(e1) && e.trickCounter < MAX_TRICKS && Attributed(hands0, e)
    requires e1.N() == e.N() && e1.players == e.players && e1.currentTrick == [] && e1.trickCounter == e.trickCounter + 1
    requires e1.ctx.firstPlayer == e.ctx.firstPlayer
    requires forall t :: 0 <= t < e.trickCounter ==> e1.ctx.winner[t] == e.ctx.winner[t]
    requires e1.ctx.tricks == e.ctx.tricks[e.trickCounter := e1.ctx.tricks[e.trickCounter]]
    requires e1.ctx.tricks[e.trickCounter].cards == e.currentTrick
    ensures Attributed(hands0, e1)
  {
    hide PlayedBy;
    var k, n := e.trickCounter, e.N();
    forall t, i | 0 <= t < k + 1 && 0 <= i < |e1.ctx.tricks[t].cards| && i < n
      ensures PlayedBy(hands0, LeaderAt(e1.ctx, t), e1.ctx.tricks[t].cards, i, n)
    {
      if t < k {
        assert PlayedBy(hands0, LeaderAt(e.ctx, t), e.ctx.tricks[t].cards, i, n);
      } else {
        assert PlayedBy(hands0, CurrentLeader(e), e.currentTrick, i, n);
      }
    }
  }

  /** Attribution reads the hands and the tricks only. */
  lemma AttributedKept(hands0: seq<Cards>, e: EngineState, e': EngineState)
    requires Sound(e) && Sound(e') && e.trickCounter <= MAX_TRICKS && Attributed(hands0, e)
    requires e'.N() == e.N() && e'.players == e.players && e'.currentTrick == e.currentTrick
    requires e'.trickCounter == e.trickCounter && e'.ctx.firstPlayer == e.ctx.firstPlayer
    requires e'.ctx.tricks == e.ctx.tricks && e'.ctx.winner == e.ctx.winner
    ensures Attributed(hands0, e')
  {
    hide PlayedBy;
    forall i | 0 <= i < |e.currentTrick| && i < e.N()
      ensures PlayedBy(hands0, CurrentLeader(e'), e'.currentTrick, i, e.N())
    {
      assert PlayedBy(hands0, CurrentLeader(e), e.currentTrick, i, e.N());
    }
    forall t, i | 0 <= t < e.trickCounter && 0 <= i < |e.ctx.tricks[t].cards| && i < e.N()
      ensures PlayedBy(hands0, LeaderAt(e'.ctx, t), e'.ctx.tricks[t].cards, i, e.N())
    {
      assert PlayedBy(hands0, LeaderAt(e.ctx, t), e.ctx.tricks[t].cards, i, e.N());
    }
  }

  lemma StepAttributes(hands0: seq<Cards>, t: TableState, ev: Event)
    requires TableInv(t) && Allowed(t, ev) && SameDeal(t.engine, Step(t, ev).engine)
    requires t.engine.trickCounter <= MAX_TRICKS && Attributed(hands0, t.engine)
    ensures var e' := Step(t, ev).engine;
      Sound(e') && e'.trickCounter <= MAX_TRICKS && Attributed(hands0, e')
  {
    hide PlayInv, Attributed, Engines.SetHandle, SetCard, PlaySequence;
    var e, e' := t.engine, Step(t, ev).engine;
    if e' != e {
      PlayStepCases(t, ev);
      if e.phase == WaitForPlayedCard {
        SetCardAttributes(hands0, e, ev.req.card);
      } else if e'.phase == WaitForShowHandle {
        PlayPhases(e);
        HandleAttributes(hands0, e, ev.req.handle);
      } else {
        SequenceAttributes(hands0, e);
      }
    }
  }

  lemma HandleAttributes(hands0: seq<Cards>, e: EngineState, handle: Cards)
    requires Sound(e) && e.trickCounter <= MAX_TRICKS && Attributed(hands0, e)
    ensures var e' := Engines.SetHandle(e, handle, e.currentPlayer).0;
      Sound(e') && e'.trickCounter <= MAX_TRICKS && Attributed(hands0, e')
  {
    hide TestHandle, PlayedBy, Attributed;
    AttributedKept(hands0, e, Engines.SetHandle(e, handle, e.currentPlayer).0);
  }

  /** A stretch of the run that stays within one deal. */
  predicate WithinDeal(t: TableState, events: seq<Event>)
    decreases |events|
  {
    Playing(t.engine.phase) && Ready(t) && (events == [] || WithinDeal(Step(t, events[0]), events[1..]))
  }

  lemma {:induction false} RunAttributes(hands0: seq<Cards>, t: TableState, events: seq<Event>)
    requires TableInv(t) && WithinDeal(t, events) && AllAllowed(t, events)
    requires t.engine.trickCounter <= MAX_TRICKS && Attributed(hands0, t.engine)
    ensures TableInv(Run(t, events)) && Playing(Run(t, events).engine.phase)
    ensures var e := Run(t, events).engine; e.trickCounter <= MAX_TRICKS && Attributed(hands0, e)
    decreases |events|
  {
    hide Engines.Inv, Attributed, SeatsInv, TournamentInv;
    if events != [] {
      StepKeeps(t, events[0]);
      StepSameSize(t, events[0]);
      assert WithinDeal(Step(t, events[0]), events[1..]);
      StepAttributes(hands0, t, events[0]);
      RunAttributes(hands0, Step(t, events[0]), events[1..]);
    }
  }

  /** The cards of a stored trick exist and are all different. */
  lemma StoredTrickDistinct(e: EngineState, t: nat)
    requires Engines.Inv(e) && Playing(e.phase) && t < e.trickCounter
    ensures ValidCards(e.ctx.tricks[t].cards) && Distinct(e.ctx.tricks[t].cards)
  {
    hide FullDeck, ScoreInv, SizesInv;
    StoredTrickCounts(e.ctx, e.trickCounter, t);
    CompleteAtMostOnce(TableCards(e), e.ctx.tricks[t].cards);
    DistinctFromCounts(e.ctx.tricks[t].cards);
  }

  lemma {:induction false} StoredTrickCounts(c: Ctx, k: nat, t: nat)
    requires c.Sized() && t < k <= MAX_TRICKS
    ensures multiset(c.tricks[t].cards) <= multiset(TrickCards(c, k))
  {
    if t < k - 1 {
      StoredTrickCounts(c, k - 1, t);
    }
  }

  /**
   * From the first card of a deal to any later moment of it: the seat recomputed for a card of a
   * completed trick is the seat that card was dealt to, and the winner of each trick leads the next.
   */
  lemma TricksAreAttributed(t0: TableState, events: seq<Event>, t: nat, i: nat)
    requires TableInv(t0) && t0.engine.phase == WaitForStartDeal
    requires WithinDeal(t0, events) && AllAllowed(t0, events)
    requires var e := Run(t0, events).engine; e.ctx.Sized() && t < e.trickCounter <= MAX_TRICKS && i < e.N()
    ensures var e := Run(t0, events).engine;
      var trick := e.ctx.tricks[t].cards;
      |trick| == e.N() &&
      var seat := GetOwner(LeaderAt(e.ctx, t), trick[i], trick);
      seat < |t0.engine.players| && trick[i] in t0.engine.players[seat]
    ensures var e := Run(t0, events).engine;
      LeaderAt(e.ctx, t + 1) == e.ctx.winner[t] &&
      (e.phase == WaitForEndOfTrick ==> e.currentPlayer == e.ctx.winner[e.trickCounter - 1])
  {
    hide ScoreInv, TableCards, Complete, Run, AllAllowed, Step, GetOwner, WithinDeal, SeatsInv, ZeroSum;
    DealStartsAttributed(t0.engine);
    RunAttributes(t0.engine.players, t0, events);
    var e := Run(t0, events).engine;
    StoredTrickDistinct(e, t);
    var trick := e.ctx.tricks[t].cards;
    LeaderInRange(e, t);
    assert PlayedBy(t0.engine.players, LeaderAt(e.ctx, t), trick, i, e.N());
    OwnerOfPosition(LeaderAt(e.ctx, t), trick, i);
  }

  lemma LeaderInRange(e: EngineState, t: nat)
    requires Engines.Inv(e) && Playing(e.phase) && t < e.trickCounter
    ensures e.trickCounter <= MAX_TRICKS && LeaderAt(e.ctx, t) < e.N() && |e.ctx.tricks[t].cards| == e.N()
  {
    hide ScoreInv, TableCards, Complete;
  }

  lemma DealStartsAttributed(e: EngineState)
    requires Engines.Inv(e) && e.phase == WaitForStartDeal
    ensures e.trickCounter <= MAX_TRICKS && Attributed(e.players, e)
  {
  }
}
