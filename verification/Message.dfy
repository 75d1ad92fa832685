/** What the table tells its players: every message describes the state that the request has led to. */
module Messages {
  import opened Tarot
  import opened Decks
  import opened Context
  import opened Engines
  import opened EngineProofs
  import opened Scores
  import opened Tables
  import opened TableProofs
  import opened Deals
  import opened Play

  predicate ToEverybody(t: TableState, r: Reply)
    requires t.Sized()
  {
    r.dest == Seated(t.seats, t.N())
  }

  /** A message for the player of one seat. */
  predicate ToThe(t: TableState, p: Place, r: Reply) {
    r.dest == [UuidAt(t, p)]
  }

  /** What a message says about the engine, and who is told. */
  predicate IsTrue(t: TableState, r: Reply)
    requires t.Sized()
  {
    var e := t.engine;
    match r.msg
    case MsgNewGame => e.phase == WaitForReady && ToEverybody(t, r)
    case MsgNewDeal(cards) =>
      e.phase == WaitForCards && exists i :: 0 <= i < t.N() && ToThe(t, i, r) && cards == e.Hand(i)
    case MsgRequestBid(place, contract) =>
      e.phase == WaitForBid && place == e.currentPlayer && contract == e.ctx.bid.contract && ToEverybody(t, r)
    case MsgShowBid(place, contract, slam, taker) =>
      e.phase == WaitForShowBid && Next(place, t.N()) == e.currentPlayer && taker == e.ctx.bid && ToEverybody(t, r) &&
      (contract > PASS ==> taker == Bid(place, taker.partner, contract, slam))
    case MsgAllPassed => e.phase == WaitForAllPassed && ToEverybody(t, r)
    case MsgRequestKingCall => e.phase == WaitForKingCall && ToEverybody(t, r)
    case MsgShowKingCall(card) => e.phase == WaitForShowKingCall && card == e.ctx.kingCalled && ToEverybody(t, r)
    case MsgShowDog(dog) => e.phase == WaitForShowDog && dog == e.ctx.dog && ToEverybody(t, r)
    case MsgBuildDiscard => e.phase == WaitForDiscard && ToThe(t, e.ctx.bid.taker, r)
    case MsgStartDeal(first, bid) =>
      e.phase == WaitForStartDeal && first == e.currentPlayer == e.ctx.firstPlayer && bid == e.ctx.bid && ToEverybody(t, r)
    case MsgAskForHandle => e.phase == WaitForHandle && ToThe(t, e.currentPlayer, r)
    case MsgShowHandle(place, handle) =>
      e.phase == WaitForShowHandle && place == e.currentPlayer && ToEverybody(t, r) &&
      handle == if e.ctx.bid.InAttack(place) then e.ctx.attackHandle else e.ctx.defenseHandle
    case MsgPlayCard(place) => e.phase == WaitForPlayedCard && place == e.currentPlayer && ToEverybody(t, r)
    case MsgShowCard(place, card) =>
      e.phase == WaitForShowCard && Next(place, t.N()) == e.currentPlayer && ToEverybody(t, r) &&
      e.currentTrick != [] && e.currentTrick[|e.currentTrick| - 1] == card
    case MsgEndOfTrick(place) => e.phase == WaitForEndOfTrick && place == e.currentPlayer && ToEverybody(t, r)
    case MsgEndOfDeal => e.phase == WaitForEndOfDeal && ToEverybody(t, r)
    case MsgEndOfGame => e.phase == WaitForReady && ToEverybody(t, r)
  }

  predicate AllTrue(t: TableState, replies: seq<Reply>) {
    t.Sized() && forall r :: r in replies ==> IsTrue(t, r)
  }

  lemma {:induction false} HandsAreTold(t: TableState, k: nat)
    requires t.Sized() && t.engine.phase == WaitForCards && k <= t.N()
    ensures AllTrue(t, DealMessages(t, k))
    ensures |DealMessages(t, k)| == k && forall i :: 0 <= i < k ==>
      DealMessages(t, k)[i] == Reply([UuidAt(t, i)], MsgNewDeal(t.engine.Hand(i)))
  {
    if k > 0 {
      HandsAreTold(t, k - 1);
      var last := Reply([UuidAt(t, k - 1)], MsgNewDeal(t.engine.Hand(k - 1)));
      assert ToThe(t, k - 1, last);
    }
  }

  lemma NewDealIsTold(t: TableState, s: Source)
    requires Ready(t)
    ensures AllTrue(HandleNewDeal(t, s).0, HandleNewDeal(t, s).1)
  {
    hide CreateDeal, DealMessages, NewScore, IsTrue;
    HandlersSameSize(t, s);
    HandsAreTold(HandleNewDeal(t, s).0, t.N());
  }

  lemma EndOfDealIsTold(t: TableState, s: Source)
    requires Ready(t)
    ensures AllTrue(HandleEndOfDeal(t, s).0, HandleEndOfDeal(t, s).1)
  {
    hide HandleNewDeal, SeatScore, Seated;
    var score := if t.score.dealCounter < MAX_TURNS then AddPoints(t.score, t.engine.points, t.engine.ctx.bid, t.N()).0 else t.score;
    NewDealIsTold(t.(score := score), s);
  }

  lemma BidStepIsTold(t: TableState)
    requires Ready(t)
    ensures AllTrue(NextBidSequence(t).0, NextBidSequence(t).1)
  {
    hide Seated;
  }

  lemma PlayIsTold(t: TableState)
    requires Ready(t)
    ensures AllTrue(HandleGameSequence(t).0, HandleGameSequence(t).1)
  {
    hide Seated, PlaySequence;
    PlayKeepsBid(t.engine);
  }

  lemma BarrierIsTold(t: TableState, phase: Phase, s: Source)
    requires Ready(t)
    ensures AllTrue(Barrier(t, phase, s).0, Barrier(t, phase, s).1)
  {
    hide HandleNewDeal, HandleEndOfDeal, NextBidSequence, HandleGameSequence, BidSequence, ManageAfterBidSequence, Seated, NewScore;
    NewDealIsTold(t, s);
    EndOfDealIsTold(t, s);
    PlayIsTold(t);
    SameRoomAfterBid(t.engine);
    BidStepIsTold(t.(engine := BidSequence(t.engine)));
    BidStepIsTold(t.(engine := ManageAfterBidSequence(t.engine)));
  }

  lemma AckIsTold(t: TableState, src: nat, step: string, s: Source)
    requires Ready(t)
    ensures AllTrue(OnAck(t, src, step, s).0, OnAck(t, src, step, s).1)
  {
    hide Barrier, PlaceOf, PhaseOfStep, IsTrue;
    SeatsOnly(t, PhaseOfStep(step), src);
    var (t1, passed) := Sync(t, PhaseOfStep(step), src);
    BarrierIsTold(t1, PhaseOfStep(step), s);
  }

  lemma BidIsTold(t: TableState, p: Place, contract: Contract, slam: bool)
    requires Ready(t) && p == t.engine.currentPlayer
    ensures AllTrue(OnBid(t, p, contract, slam).0, OnBid(t, p, contract, slam).1)
  {
    hide Seated;
  }

  lemma CallIsTold(t: TableState, p: Place, king: Card)
    requires Ready(t)
    ensures AllTrue(OnKingCall(t, p, king).0, OnKingCall(t, p, king).1)
  {
    hide CheckKingCall, FindHolder;
    var t1 := t.(engine := SetKingCalled(t.engine, king).0);
    SamePlayers(t1.seats, ResetAck(t1).seats, t.N());
  }

  lemma {:induction false} SamePlayers(seats: seq<SeatState>, seats': seq<SeatState>, n: nat)
    requires n <= |seats| == |seats'| && forall i :: 0 <= i < n ==> seats'[i].uuid == seats[i].uuid
    ensures Seated(seats', n) == Seated(seats, n)
  {
    if n > 0 {
      SamePlayers(seats, seats', n - 1);
    }
  }

  lemma DiscardIsTold(t: TableState, p: Place, discard: Cards)
    requires Ready(t)
    ensures AllTrue(OnDiscard(t, p, discard).0, OnDiscard(t, p, discard).1)
  {
    hide Seated, TestDiscard, WithoutAll;
  }

  lemma HandleIsTold(t: TableState, p: Place, handle: Cards)
    requires Ready(t)
    ensures AllTrue(OnHandle(t, p, handle).0, OnHandle(t, p, handle).1)
  {
    hide Seated, TestHandle, HandleGameSequence;
    PlayIsTold(t);
  }

  lemma CardIsTold(t: TableState, p: Place, card: Card)
    requires Ready(t)
    ensures AllTrue(OnCard(t, p, card).0, OnCard(t, p, card).1)
  {
    hide Seated, CanPlayCard, Without;
  }

  /** Whatever is asked of a table, and by whom: what it sends is true of its state afterwards. */
  lemma EveryMessageIsTrue(t: TableState, src: nat, req: Request, s: Source)
    requires Ready(t)
    ensures var (t1, replies) := ExecuteRequest(t, src, req, s); AllTrue(t1, replies)
  {
    hide OnAck, OnNewGame, OnBid, OnDiscard, OnKingCall, OnHandle, OnCard, PlaceOf, IsTrue;
    var p := GetPlayerPlace(t, src);
    match req
    case ReqAck(step) => AckIsTold(t, src, step, s);
    case ReqNewGame(deals) => NewGameIsTold(t, src, deals);
    case ReqBid(contract, slam) =>
      if p == t.engine.currentPlayer { BidIsTold(t, p, contract, slam); } else { NotAsked(t, p, contract, slam); }
    case ReqDiscard(discard) => DiscardIsTold(t, p, discard);
    case ReqKingCall(king) => CallIsTold(t, p, king);
    case ReqHandle(handle) => HandleIsTold(t, p, handle);
    case ReqCard(card) => CardIsTold(t, p, card);
    case _ =>
  }

  lemma NewGameIsTold(t: TableState, src: nat, deals: nat)
    requires Ready(t)
    ensures AllTrue(OnNewGame(t, src, deals).0, OnNewGame(t, src, deals).1)
  {
    hide Seated, NewScore;
  }

  lemma NotAsked(t: TableState, p: Place, contract: Contract, slam: bool)
    requires Ready(t) && p != t.engine.currentPlayer
    ensures AllTrue(OnBid(t, p, contract, slam).0, OnBid(t, p, contract, slam).1)
  {
  }

  /** An accepted bid is shown as it was made if it goes above all earlier ones, and as a pass otherwise. */
  lemma BidIsShown(t: TableState, src: nat, contract: Contract, slam: bool, s: Source)
    requires Ready(t) && t.engine.phase == WaitForBid && GetPlayerPlace(t, src) == t.engine.currentPlayer < t.N()
    ensures var (t1, replies) := ExecuteRequest(t, src, ReqBid(contract, slam), s);
      |replies| == 1 && ToEverybody(t, replies[0]) &&
      replies[0].msg == MsgShowBid(t.engine.currentPlayer, if contract > t.engine.ctx.bid.contract then contract else PASS,
                                   slam, t1.engine.ctx.bid)
  {
    hide PlaceOf, Seated;
  }

  // ---------------------------------------------------------------- nobody is left without news

  lemma ReadyAfterNews(t: TableState)
    requires Ready(t)
    ensures t.engine.phase in {WaitForBid, WaitForAllPassed, WaitForKingCall, WaitForShowDog, WaitForStartDeal} ==>
      NextBidSequence(t).1 != []
    ensures t.engine.phase in {WaitForHandle, WaitForPlayedCard, WaitForEndOfTrick, WaitForEndOfDeal} ==> StepMessages(t) != []
  {
  }

  lemma DealIsHeard(t: TableState, s: Source)
    requires Ready(t)
    ensures HandleNewDeal(t, s).1 != [] && HandleEndOfDeal(t, s).1 != []
  {
    NewDealIsDealt(t, s, 0);
    hide Engines.NewDeal, AddPoints, HandleNewDeal;
  }

  lemma BarrierIsHeard(t: TableState, s: Source)
    requires Ready(t) && Engines.Inv(t.engine) && AckPhase(t.engine.phase)
    ensures Barrier(t, t.engine.phase, s).1 != [] <==> Barrier(t, t.engine.phase, s).0.engine != t.engine
  {
    hide AuctionInv, AuctionShape, ContractInv, PlayInv, BidSequence, ManageAfterBidSequence, PlaySequence, HandleNewDeal,
         HandleEndOfDeal, NextBidSequence, StepMessages, NewScore;
    var e := t.engine;
    BarrierMoves(t, s);
    SameRoomAfterBid(e);
    match e.phase
    case WaitForPlayers =>
    case WaitForReady => DealIsHeard(t, s);
    case WaitForAllPassed => DealIsHeard(t, s);
    case WaitForEndOfDeal => DealIsHeard(t, s);
    case WaitForCards => BidSequenceKeeps(e); ReadyAfterNews(t.(engine := BidSequence(e)));
    case WaitForShowBid => BidSequenceKeeps(e); ReadyAfterNews(t.(engine := BidSequence(e)));
    case WaitForShowKingCall => AfterKingCall(e); ReadyAfterNews(t.(engine := ManageAfterBidSequence(e)));
    case WaitForShowDog =>
    case _ => PlayIsHeard(t);
  }

  lemma PlayIsHeard(t: TableState)
    requires Ready(t) && Engines.Inv(t.engine)
    requires t.engine.phase in {WaitForStartDeal, WaitForHandle, WaitForShowHandle, WaitForShowCard, WaitForEndOfTrick}
    ensures HandleGameSequence(t).1 != [] && HandleGameSequence(t).0.engine != t.engine
  {
    hide PlayInv, PlaySequence, StepMessages;
    var e := t.engine;
    SameRoom(e);
    PlayPhases(e);
    GameSequenceKeeps(e);
    PlaySequenceDecreases(e);
    ReadyAfterNews(t.(engine := PlaySequence(e)));
  }

  lemma AckIsHeard(t: TableState, src: nat, step: string, s: Source)
    requires TableInv(t)
    ensures var (t1, replies) := OnAck(t, src, step, s);
      replies != [] <==> t1.engine != t.engine
  {
    hide Engines.Inv, ZeroSum, Barrier, PlaceOf;
    var phase := PhaseOfStep(step);
    StepNamesRoundTrip(phase, step);
    SyncOpens(t, phase, src);
    SeatsOnly(t, phase, src);
    hide PhaseOfStep;
    var (t1, passed) := Sync(t, phase, src);
    if passed && phase != BadStep {
      BarrierIsHeard(t1, s);
    }
  }

  /** A call the rules allow, of a card that does not exist. */
  predicate CallsNoCard(t: TableState, req: Request) {
    req.ReqKingCall? && !req.king.IsValid()
  }

  lemma CallIsHeard(t: TableState, p: Place, king: Card)
    requires TableInv(t) && king.IsValid()
    ensures var (t1, replies) := OnKingCall(t, p, king); replies != [] <==> t1.engine != t.engine
  {
    hide PlayInv, ContractInv, ZeroSum, SeatsInv, CheckKingCall, FindHolder;
    if t.engine.phase == WaitForKingCall && t.engine.ctx.bid.taker == p && CheckKingCall(king.value, t.engine.Hand(p)) {
      ExistingKingIsFound(t.engine, king);
    }
  }

  lemma HandleIsHeard(t: TableState, p: Place, handle: Cards)
    requires TableInv(t)
    ensures var (t1, replies) := OnHandle(t, p, handle); replies != [] <==> t1.engine != t.engine
  {
    hide PlayInv, ZeroSum, SeatsInv, TestHandle, HandleGameSequence;
    assert Ready(t) by { TableReady(t); }
    if t.engine.phase == WaitForHandle {
      PlayIsHeard(t);
    }
  }

  lemma AnswerIsHeard(t: TableState, p: Place, contract: Contract, slam: bool, cards: Cards, card: Card)
    requires Ready(t)
    ensures var (t1, replies) := OnBid(t, p, contract, slam); replies != [] <==> t1.engine != t.engine
    ensures var (t1, replies) := OnDiscard(t, p, cards); replies != [] <==> t1.engine != t.engine
    ensures var (t1, replies) := OnCard(t, p, card); replies != [] <==> t1.engine != t.engine
  {
    hide Seated, TestDiscard, WithoutAll, CanPlayCard, Without, RaiseBid;
  }

  /**
   * The players hear of everything the engine does, and of nothing else: something is sent exactly when the engine
   * has changed. Only the call of a card that does not exist can go unheard.
   */
  lemma NewsIsSent(t: TableState, src: nat, req: Request, s: Source)
    requires TableInv(t) && !req.ReqNewGame? && !CallsNoCard(t, req)
    ensures Ready(t)
    ensures var (t1, replies) := ExecuteRequest(t, src, req, s);
      replies != [] <==> t1.engine != t.engine
  {
    hide Engines.Inv, ZeroSum, SeatsInv, OnAck, OnBid, OnDiscard, OnKingCall, OnHandle, OnCard, PlaceOf;
    TableReady(t);
    var p := GetPlayerPlace(t, src);
    match req
    case ReqAck(step) => AckIsHeard(t, src, step, s);
    case ReqBid(contract, slam) => AnswerIsHeard(t, p, contract, slam, [], NO_CARD);
    case ReqDiscard(discard) => AnswerIsHeard(t, p, 0, false, discard, NO_CARD);
    case ReqKingCall(king) => CallIsHeard(t, p, king);
    case ReqHandle(handle) => HandleIsHeard(t, p, handle);
    case ReqCard(card) => AnswerIsHeard(t, p, 0, false, [], card);
    case _ =>
  }

  /** A new deal is dealt to every seat, each its own hand. */
  lemma EverybodyGetsCards(t: TableState, src: nat, req: Request, s: Source, i: nat)
    requires TableInv(t) && i < t.N()
    ensures Ready(t)
    ensures var (t1, replies) := ExecuteRequest(t, src, req, s);
      t1.engine.phase == WaitForCards && t1.engine != t.engine ==>
        i < |replies| && replies[i] == Reply([UuidAt(t1, i)], MsgNewDeal(t1.engine.Hand(i)))
  {
    hide Engines.Inv, ZeroSum, SeatsInv, OnAck, OnBid, OnDiscard, OnKingCall, OnHandle, OnCard, PlaceOf;
    TableReady(t);
    var p := GetPlayerPlace(t, src);
    match req
    case ReqAck(step) => AckDeals(t, src, step, s, i);
    case ReqNewGame(deals) => NewGamePhase(t.(deals := deals));
    case ReqBid(contract, slam) => OnBidDoes(t, p, contract, slam);
    case ReqDiscard(discard) => OnDiscardDoes(t, p, discard);
    case ReqKingCall(king) => OnKingCallDoes(t, p, king);
    case ReqHandle(handle) => HandleDealsNothing(t, p, handle);
    case ReqCard(card) => OnCardDoes(t, p, card);
    case _ =>
  }

  lemma HandleDealsNothing(t: TableState, p: Place, handle: Cards)
    requires TableInv(t)
    ensures Ready(t) && (OnHandle(t, p, handle).0 == t || OnHandle(t, p, handle).0.engine.phase != WaitForCards)
  {
    hide PlayInv, ZeroSum, SeatsInv, OnHandle, PlaySequence;
    TableReady(t);
    OnHandleDoes(t, p, handle);
    if t.engine.phase == WaitForHandle {
      PlayPhases(t.engine);
    }
  }

  lemma AckDeals(t: TableState, src: nat, step: string, s: Source, i: nat)
    requires TableInv(t) && i < t.N()
    ensures Ready(t)
    ensures var (t1, replies) := OnAck(t, src, step, s);
      t1.engine.phase == WaitForCards && t1.engine != t.engine ==>
        i < |replies| && replies[i] == Reply([UuidAt(t1, i)], MsgNewDeal(t1.engine.Hand(i)))
  {
    hide Engines.Inv, ZeroSum, Barrier, PlaceOf;
    var phase := PhaseOfStep(step);
    StepNamesRoundTrip(phase, step);
    SyncOpens(t, phase, src);
    SeatsOnly(t, phase, src);
    hide PhaseOfStep;
    var (t1, passed) := Sync(t, phase, src);
    if passed && phase != BadStep {
      BarrierDeals(t1, s, i);
    }
  }

  lemma BarrierDeals(t: TableState, s: Source, i: nat)
    requires Ready(t) && Engines.Inv(t.engine) && AckPhase(t.engine.phase) && i < t.N()
    ensures var (t1, replies) := Barrier(t, t.engine.phase, s);
      t1.engine.phase == WaitForCards && t1.engine != t.engine ==>
        i < |replies| && replies[i] == Reply([UuidAt(t1, i)], MsgNewDeal(t1.engine.Hand(i)))
  {
    hide AuctionInv, AuctionShape, ContractInv, PlayInv, BidSequence, ManageAfterBidSequence, PlaySequence, HandleNewDeal,
         HandleEndOfDeal, NextBidSequence, StepMessages, NewScore, DealMessages;
    var e := t.engine;
    SameRoomAfterBid(e);
    match e.phase
    case WaitForPlayers =>
    case WaitForReady => NewDealIsDealt(t, s, i);
    case WaitForAllPassed => NewDealIsDealt(t, s, i);
    case WaitForEndOfDeal => NewDealIsDealt(t, s, i);
    case WaitForCards => BidSequenceKeeps(e); NextBidPhase(t.(engine := BidSequence(e)));
    case WaitForShowBid => BidSequenceKeeps(e); NextBidPhase(t.(engine := BidSequence(e)));
    case WaitForShowKingCall => AfterKingCall(e); NextBidPhase(t.(engine := ManageAfterBidSequence(e)));
    case WaitForShowDog =>
    case _ => PlayPhases(e); GameSequenceRuns(t);
  }

  lemma NewDealIsDealt(t: TableState, s: Source, i: nat)
    requires Ready(t) && i < t.N()
    ensures var (t1, replies) := HandleNewDeal(t, s);
      i < |replies| && replies[i] == Reply([UuidAt(t1, i)], MsgNewDeal(t1.engine.Hand(i)))
    ensures var (t1, replies) := HandleEndOfDeal(t, s);
      t1.engine.phase == WaitForCards ==>
        i < |replies| && replies[i] == Reply([UuidAt(t1, i)], MsgNewDeal(t1.engine.Hand(i)))
  {
    hide Engines.NewDeal, SeatScore, NewScore, DealMessages, IsTrue;
    HandlersSameSize(t, s);
    NewDealEntersCards(t, s);
    HandsAreTold(HandleNewDeal(t, s).0, t.N());
    var score := if t.score.dealCounter < MAX_TURNS then AddPoints(t.score, t.engine.points, t.engine.ctx.bid, t.N()).0 else t.score;
    var t1 := t.(score := score);
    HandlersSameSize(t1, s);
    NewDealEntersCards(t1, s);
    HandsAreTold(HandleNewDeal(t1, s).0, t1.N());
  }
}
