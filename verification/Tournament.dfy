/** A tournament: how its deals are recorded, when it goes on, and when it is over. */
module Tournaments {
  import opened Tarot
  import opened Context
  import opened Engines
  import opened EngineProofs
  import opened Scores
  import opened Tables
  import opened TableProofs
  import opened Deals
  import opened Play
  import opened Barriers
  import opened Payments

  // ---------------------------------------------------------------- the end of one deal

  /** The last acknowledgement of a finished deal. */
  predicate FinishesDeal(t: TableState, ev: Event)
    requires Ready(t)
  {
    t.engine.phase == WaitForEndOfDeal && Opens(t, ev)
  }

  /** One more deal is recorded: each seat's entry by the rules, in its row; all other rows stay. */
  predicate RowRecorded(t: TableState, t1: TableState)
    requires t.score.Sized() && t.score.dealCounter < MAX_TURNS
    requires t.engine.points.oudlers < 4 && t.engine.ctx.bid.contract < 6
  {
    var d := t.score.dealCounter;
    t1.score.Sized() && t1.deals == t.deals && t1.score.dealCounter == d + 1 &&
    (forall seat :: 0 <= seat < t.N() && seat < SEATS ==>
       t1.score.rows[d][seat] == Paid(t.engine.points, t.engine.ctx.bid, t.N(), seat)) &&
    forall i :: 0 <= i < MAX_TURNS && i != d ==> t1.score.rows[i] == t.score.rows[i]
  }

  /**
   * When everybody has seen the end of a deal its row is recorded, and the earlier ones stay. The next deal is dealt
   * as long as fewer deals are recorded than the game has; otherwise everybody is told that the game is over.
   */
  lemma DealRecorded(t: TableState, ev: Event)
    requires TableInv(t) && Allowed(t, ev) && FinishesDeal(t, ev)
    ensures t.score.Sized() && t.score.dealCounter < t.deals <= MAX_TURNS
    ensures t.engine.points.oudlers < 4 && t.engine.ctx.bid.contract < 6
    ensures RowRecorded(t, Step(t, ev))
    ensures var (t1, replies) := ExecuteRequest(t, ev.src, ev.req, ev.source);
      t1 == Step(t, ev) && t1.Sized() &&
      if t.score.dealCounter + 1 < t.deals then t1.engine.phase == WaitForCards && replies == DealMessages(t1, t1.N())
      else t1.engine.phase == WaitForReady && replies == ToAll(t1, MsgEndOfGame)
  {
    hide Engines.Inv, ZeroSum, PlaceOf, PhaseOfStep, SeatScore, Paid, Engines.NewDeal, DealMessages, ToAll, SeatsInv;
    var phase := PhaseOfStep(ev.req.step);
    assert phase == WaitForEndOfDeal && Sync(t, phase, ev.src).0 == t.(seats := Sync(t, phase, ev.src).0.seats) by {
      SyncOpensEnd(t, phase, ev.src);
    }
    forall seat | 0 <= seat < t.N()
      ensures t.engine.points.oudlers < 4 && t.engine.ctx.bid.contract < 6
      ensures SeatScore(t.engine.points, t.engine.ctx.bid, t.N(), seat) == Paid(t.engine.points, t.engine.ctx.bid, t.N(), seat)
    {
      DealIsPaid(t.engine, seat);
    }
    DealIsPaid(t.engine, 0);
    NewDealPhase(t.engine, ev.source);
  }

  lemma SyncOpensEnd(t: TableState, phase: Phase, uuid: nat)
    requires SeatsInv(t) && Sync(t, phase, uuid).1
    ensures phase == t.engine.phase && Sync(t, phase, uuid).0 == t.(seats := Sync(t, phase, uuid).0.seats)
  {
    SyncOpens(t, phase, uuid);
  }

  // ---------------------------------------------------------------- a whole game

  /** The administrator starts again. */
  predicate StartsGame(t: TableState, ev: Event) {
    ev.Received? && ev.req.ReqNewGame? && ev.src == t.admin
  }

  /** Nothing but the end of a deal touches the score of a game. */
  lemma ScoreStays(t: TableState, ev: Event)
    requires TableInv(t) && Allowed(t, ev) && GameRunning(t.engine.phase) && t.score.dealCounter < t.deals
    requires !StartsGame(t, ev) && !FinishesDeal(t, ev)
    ensures Step(t, ev).score == t.score && Step(t, ev).deals == t.deals
  {
    hide Engines.Inv, ZeroSum, PlaceOf, AddPlayer, RemovePlayer, SameSeating, NobodyBids, Meant, OnAck, OnBid, OnDiscard,
         OnKingCall, OnHandle, OnCard, HandleNewGame, SeatsInv;
    match ev
    case Joined(uuid) => SeatsOnly(t, WaitForReady, uuid); JoinKeepsGame(t, uuid);
    case Left(uuid) => SeatsOnly(t, WaitForReady, uuid); LeaveKeepsGame(t, uuid);
    case Received(src, req, s) =>
      var p := GetPlayerPlace(t, src);
      match req
      case ReqAck(step) => AckKeepsScore(t, src, step, s);
      case ReqBid(contract, slam) => OnBidDoes(t, p, contract, slam);
      case ReqDiscard(discard) => OnDiscardDoes(t, p, discard);
      case ReqKingCall(king) => OnKingCallDoes(t, p, king);
      case ReqHandle(handle) => OnHandleDoes(t, p, handle);
      case ReqCard(card) => OnCardDoes(t, p, card);
      case _ =>
  }

  lemma JoinKeepsGame(t: TableState, uuid: nat)
    requires t.Sized()
    ensures AddPlayer(t, uuid).0.score == t.score && AddPlayer(t, uuid).0.deals == t.deals
  {
    hide PlaceOf;
  }

  lemma LeaveKeepsGame(t: TableState, uuid: nat)
    requires t.Sized()
    ensures RemovePlayer(t, uuid).score == t.score && RemovePlayer(t, uuid).deals == t.deals
  {
    hide PlaceOf;
  }

  lemma AckKeepsScore(t: TableState, src: nat, step: string, s: Source)
    requires TableInv(t) && GameRunning(t.engine.phase) && t.score.dealCounter < t.deals
    requires !FinishesDeal(t, Received(src, ReqAck(step), s))
    ensures OnAck(t, src, step, s).0.score == t.score && OnAck(t, src, step, s).0.deals == t.deals
  {
    hide Engines.Inv, ZeroSum, PlaceOf, PhaseOfStep, Engines.NewDeal, StartDeal, PlaySequence, BidSequence,
         ManageAfterBidSequence, ToAll, StepMessages, DealMessages;
    var phase := PhaseOfStep(step);
    SeatsOnly(t, phase, src);
    SyncOpens(t, phase, src);
    SameRoomAfterBid(t.engine);
  }

  function DealsFinished(t: TableState, events: seq<Event>): nat
    decreases |events|
  {
    if events == [] || !Ready(t) then 0
    else (if FinishesDeal(t, events[0]) then 1 else 0) + DealsFinished(Step(t, events[0]), events[1..])
  }

  /** The last deal of the game is finished in the course of the run. */
  predicate IsOver(t: TableState, events: seq<Event>)
    decreases |events|
  {
    events != [] && Ready(t) &&
    ((FinishesDeal(t, events[0]) && Step(t, events[0]).engine.phase == WaitForReady) ||
     IsOver(Step(t, events[0]), events[1..]))
  }

  /** A stretch of one game: the administrator does not start again, and nothing follows the end. */
  predicate OneGame(t: TableState, events: seq<Event>)
    decreases |events|
  {
    Ready(t) && GameRunning(t.engine.phase) &&
    (events == [] ||
     (!StartsGame(t, events[0]) && OneGame(Step(t, events[0]), events[1..]) &&
      (FinishesDeal(t, events[0]) && Step(t, events[0]).engine.phase == WaitForReady ==> events[1..] == [])))
  }

  /**
   * Over any run within one game, whatever is asked and whoever comes and goes: every finished deal is recorded
   * once, no row recorded earlier changes, and the game is over exactly when all its deals are recorded.
   */
  lemma {:induction false} GameIsRecorded(t: TableState, events: seq<Event>)
    requires TableInv(t) && AllAllowed(t, events) && OneGame(t, events) && t.score.dealCounter < t.deals
    ensures var t' := Run(t, events);
      t'.score.Sized() && t'.deals == t.deals &&
      t'.score.dealCounter == t.score.dealCounter + DealsFinished(t, events) <= t.deals &&
      (forall i :: 0 <= i < t.score.dealCounter && i < MAX_TURNS ==> t'.score.rows[i] == t.score.rows[i]) &&
      (IsOver(t, events) <==> t'.score.dealCounter == t.deals)
    decreases |events|
  {
    hide Engines.Inv, SeatsInv, ZeroSum, Step, FinishesDeal, StartsGame, ExecuteRequest, Paid, Allowed, ToAll;
    if events != [] {
      var ev := events[0];
      var t1 := Step(t, ev);
      assert TableInv(t1) by { AllowedKeeps(t, ev); }
      if FinishesDeal(t, ev) {
        DealRecorded(t, ev);
      } else {
        ScoreStays(t, ev);
      }
      if t1.score.dealCounter < t1.deals {
        GameIsRecorded(t1, events[1..]);
      }
    }
  }

  lemma AllowedKeeps(t: TableState, ev: Event)
    requires TableInv(t) && Allowed(t, ev)
    ensures TableInv(Step(t, ev))
  {
    hide TableInv, Step, NobodyBids;
    StepKeeps(t, ev);
  }

  /** So a game that starts with an empty record and reaches its end has recorded exactly its number of deals. */
  lemma WholeGame(t: TableState, events: seq<Event>)
    requires TableInv(t) && AllAllowed(t, events) && OneGame(t, events)
    requires t.engine.phase == WaitForReady && t.score == NewScore(t.deals)
    ensures IsOver(t, events) <==> DealsFinished(t, events) == t.deals
  {
    hide Engines.Inv, SeatsInv, ZeroSum, IsOver, DealsFinished, OneGame, AllAllowed, Run;
    GameIsRecorded(t, events);
  }

  /** An empty record. */
  predicate NothingRecorded(s: ScoreState) {
    s.Sized() && s.dealCounter == 0 && forall i, j :: 0 <= i < MAX_TURNS && 0 <= j < SEATS ==> s.rows[i][j] == 0
  }

  /** A game starts with an empty record, of as many deals as the administrator asked for. */
  lemma GameStarts(t: TableState, ev: Event)
    requires TableInv(t) && Allowed(t, ev) && StartsGame(t, ev)
    ensures var t1 := Step(t, ev);
      t1.engine.phase == WaitForReady && t1.deals == ev.req.deals && NothingRecorded(t1.score) && t1.score == NewScore(t1.deals)
  {
    hide Engines.Inv, ZeroSum, PlaceOf, SeatsInv, ToAll;
  }

  /** When everybody is ready again after the end of a game, another one of the same length starts with its first deal. */
  lemma GameStartsOver(t: TableState, ev: Event)
    requires TableInv(t) && Allowed(t, ev) && t.engine.phase == WaitForReady && Opens(t, ev)
    ensures var t1 := Step(t, ev);
      t1.engine.phase == WaitForCards && t1.deals == t.deals &&
      if t.score.dealCounter == t.deals then NothingRecorded(t1.score) else t1.score == t.score
  {
    hide Engines.Inv, ZeroSum, PlaceOf, PhaseOfStep, SeatsInv, Engines.NewDeal, DealMessages;
    SyncOpensEnd(t, PhaseOfStep(ev.req.step), ev.src);
    NewDealPhase(t.engine, ev.source);
  }
}
