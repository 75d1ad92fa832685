/** What every request keeps, and when a phase handler runs. */
module TableProofs {
  import opened Tarot
  import opened Decks
  import opened Context
  import opened Engines
  import opened EngineProofs
  import opened Scores
  import opened Tables

  // ---------------------------------------------------------------- the invariant of a table

  /** A flag belongs to a seated player and to a phase that is acknowledged; some seat is always missing. */
  predicate SeatsInv(t: TableState) {
    t.Sized() && PlayerCount(t.N()) &&
    (forall i :: 0 <= i < t.N() && t.seats[i].ack ==> t.seats[i].uuid != INVALID_UID && AckPhase(t.engine.phase)) &&
    (forall i, j :: 0 <= i < j < t.N() && t.seats[i].uuid == t.seats[j].uuid ==> t.seats[i].uuid == INVALID_UID) &&
    !AllAcked(t.seats, t.N())
  }

  predicate GameRunning(p: Phase) {
    p !in {BadStep, Stopped, WaitForPlayers}
  }

  /** The tournament is zero-sum so far, and the deal in progress has a row to be written to. */
  predicate TournamentInv(t: TableState) {
    Ready(t) && ZeroSum(t.score, t.N()) && 1 <= t.deals <= MAX_TURNS &&
    (GameRunning(t.engine.phase) ==> t.score.numberOfTurns == t.deals && t.score.dealCounter <= t.deals) &&
    (GameRunning(t.engine.phase) && t.engine.phase != WaitForReady ==> t.score.dealCounter < t.deals)
  }

  predicate TableInv(t: TableState) {
    SeatsInv(t) && Engines.Inv(t.engine) && TournamentInv(t)
  }

  /** The requests the table is meant for: uuids are not zero, contracts exist, deals are fair and 1 to 40. */
  predicate Meant(n: nat, ev: Event) {
    match ev
    case Joined(uuid) => uuid != INVALID_UID
    case Left(uuid) => uuid != INVALID_UID
    case Received(src, req, s) =>
      src != INVALID_UID && FairSource(s, n) &&
      (req.ReqBid? ==> req.contract <= GUARD_AGAINST) &&
      (req.ReqNewGame? ==> 1 <= req.deals <= MAX_TURNS)
  }

  /** The empty bid of the last seat to speak, when no other seat has made a bid. */
  predicate NobodyBids(t: TableState, ev: Event)
    requires t.Sized()
  {
    var e := t.engine;
    ev.Received? && ev.req.ReqBid? && ev.req.contract == NO_ANY && e.phase == WaitForBid &&
    GetPlayerPlace(t, ev.src) == e.currentPlayer && e.ctx.bid.contract == NO_ANY && e.position + 1 == e.N()
  }

  predicate Allowed(t: TableState, ev: Event) {
    t.Sized() && Meant(t.N(), ev) && !NobodyBids(t, ev)
  }

  // ---------------------------------------------------------------- seats

  lemma {:induction false} PlaceOfFinds(seats: seq<SeatState>, uuid: nat, k: nat)
    requires k <= |seats| <= MAX_SEATS
    ensures var p := PlaceOf(seats, uuid, k);
      if p < k then seats[p].uuid == uuid && forall i :: p < i < k ==> seats[i].uuid != uuid
      else p == NOWHERE && forall i :: 0 <= i < k ==> seats[i].uuid != uuid
  {
    if k > 0 && seats[k - 1].uuid != uuid {
      PlaceOfFinds(seats, uuid, k - 1);
    }
  }

  lemma {:induction false} FirstSeatFinds(seats: seq<SeatState>, test: SeatState -> bool, i: nat, n: nat)
    requires i <= n <= |seats| <= MAX_SEATS
    ensures var p := FirstSeat(seats, test, i, n);
      if p < n then i <= p && test(seats[p]) && forall j :: i <= j < p ==> !test(seats[j])
      else p == NOWHERE && forall j :: i <= j < n ==> !test(seats[j])
    decreases n - i
  {
    if i < n && !test(seats[i]) {
      FirstSeatFinds(seats, test, i + 1, n);
    }
  }

  lemma AddPlayerKeeps(t: TableState, uuid: nat)
    requires TableInv(t) && uuid != INVALID_UID
    ensures TableInv(AddPlayer(t, uuid).0)
  {
    hide Engines.Inv, SeatsInv, TournamentInv;
    assert t.Sized() by { SeatsSized(t); }
    AddKeepsSeats(t, uuid);
    OnlySeatsChange(t, AddPlayer(t, uuid).0);
  }

  lemma SeatsSized(t: TableState)
    requires SeatsInv(t)
    ensures t.Sized()
  {
  }

  lemma AddKeepsSeats(t: TableState, uuid: nat)
    requires SeatsInv(t) && uuid != INVALID_UID
    ensures SeatsInv(AddPlayer(t, uuid).0)
  {
    PlaceOfFinds(t.seats, uuid, t.N());
    FirstSeatFinds(t.seats, (s: SeatState) => s.uuid == INVALID_UID, 0, t.N());
    var missing :| 0 <= missing < t.N() && !t.seats[missing].ack;
    assert !AddPlayer(t, uuid).0.seats[missing].ack;
  }

  lemma OnlySeatsChange(t: TableState, t1: TableState)
    requires TournamentInv(t) && t1 == t.(seats := t1.seats, admin := t1.admin) && |t1.seats| == MAX_SEATS
    ensures TournamentInv(t1)
  {
    hide ZeroSum;
  }

  lemma RemovePlayerKeeps(t: TableState, uuid: nat)
    requires TableInv(t) && uuid != INVALID_UID
    ensures TableInv(RemovePlayer(t, uuid))
  {
    hide Engines.Inv, ZeroSum;
    var missing :| 0 <= missing < t.N() && !t.seats[missing].ack;
    assert !RemovePlayer(t, uuid).seats[missing].ack;
  }

  /** A barrier opens only for the phase the engine is in, and then every seat had acknowledged it. */
  lemma SyncOpens(t: TableState, phase: Phase, uuid: nat)
    requires SeatsInv(t)
    ensures Sync(t, phase, uuid).1 <==>
      phase == t.engine.phase && forall i :: 0 <= i < t.N() ==> t.seats[i].ack || t.seats[i].uuid == uuid
  {
    var marked := MarkAck(t, uuid).seats;
    assert forall i :: 0 <= i < t.N() ==> (marked[i].ack <==> t.seats[i].ack || t.seats[i].uuid == uuid);
  }

  lemma SyncKeepsSeats(t: TableState, phase: Phase, uuid: nat)
    requires SeatsInv(t) && uuid != INVALID_UID && AckPhase(phase)
    ensures var (t', passed) := Sync(t, phase, uuid);
      t' == t.(seats := t'.seats) && SeatsInv(t') &&
      (passed ==> forall i :: 0 <= i < t.N() ==> !t'.seats[i].ack)
  {
    hide MarkAck, ResetAck;
    SyncOpens(t, phase, uuid);
    if phase == t.engine.phase {
      MarkKeepsSeats(t, uuid);
      ResetKeepsSeats(MarkAck(t, uuid));
    }
  }

  /** A set flag belongs to a seated player; the last missing one would open the barrier. */
  lemma MarkKeepsSeats(t: TableState, uuid: nat)
    requires SeatsInv(t) && uuid != INVALID_UID && AckPhase(t.engine.phase)
    ensures var t' := MarkAck(t, uuid);
      t' == t.(seats := t'.seats) && t'.Sized() && (AllAcked(t'.seats, t.N()) || SeatsInv(t')) &&
      (forall i :: 0 <= i < t.N() ==> t'.seats[i].uuid == t.seats[i].uuid)
  {
  }

  lemma ResetKeepsSeats(t: TableState)
    requires t.Sized() && PlayerCount(t.N())
    requires forall i, j :: 0 <= i < j < t.N() && t.seats[i].uuid == t.seats[j].uuid ==> t.seats[i].uuid == INVALID_UID
    ensures var t' := ResetAck(t);
      t' == t.(seats := t'.seats) && SeatsInv(t') && forall i :: 0 <= i < t.N() ==> !t'.seats[i].ack
  {
    assert !ResetAck(t).seats[0].ack;
  }

  /** The name of every acknowledged phase is understood as that phase, and nothing else is understood. */
  lemma StepNamesRoundTrip(phase: Phase, step: string)
    ensures PhaseOfStep(StepOfPhase(phase)) == if AckPhase(phase) then phase else BadStep
    ensures PhaseOfStep(step) == BadStep || (AckPhase(PhaseOfStep(step)) && StepOfPhase(PhaseOfStep(step)) == step)
  {
    hide PhaseOfStep, StepOfPhase;
    StepNameUnderstood(phase);
    UnderstoodIsName(step);
  }

  lemma UnderstoodIsName(step: string)
    ensures PhaseOfStep(step) == BadStep || (AckPhase(PhaseOfStep(step)) && StepOfPhase(PhaseOfStep(step)) == step)
  {
  }

  lemma StepNameUnderstood(phase: Phase)
    ensures PhaseOfStep(StepOfPhase(phase)) == if AckPhase(phase) then phase else BadStep
  {
    var name := StepOfPhase(phase);
    assert name == "ShowDog" ==> name[0] != "NewDeal"[0] && name[4] != "ShowBid"[4];
    assert name == "ShowBid" ==> name[0] != "NewDeal"[0];
    assert name == "StartDeal" ==> name[0] != "AllPassed"[0];
    assert name == "EndOfDeal" ==> name[0] != "AllPassed"[0] && name[0] != "StartDeal"[0];
    assert name == "EndOfTrick" ==> name[0] != "ShowHandle"[0];
    assert name == "ShowKingCall" ==> name[0] != "AckJoinTable"[0];
  }

  // ---------------------------------------------------------------- handlers

  predicate NoFlags(t: TableState)
    requires t.Sized()
  {
    forall i :: 0 <= i < t.N() ==> !t.seats[i].ack
  }

  /** Seats and flags of a table on which a handler just ran. */
  predicate Quiet(t: TableState) {
    t.Sized() && SeatsInv(t) && NoFlags(t)
  }

  lemma QuietKept(t: TableState, t': TableState)
    requires Quiet(t) && t'.N() == t.N() && t'.seats == t.seats
    ensures Quiet(t')
  {
    assert !t'.seats[0].ack;
  }

  lemma ResetIsQuiet(t: TableState)
    requires SeatsInv(t)
    ensures Quiet(ResetAck(t))
  {
    assert !ResetAck(t).seats[0].ack;
  }

  lemma NewGameKeeps(t: TableState)
    requires Ready(t) && SeatsInv(t) && Engines.Inv(t.engine) && 1 <= t.deals <= MAX_TURNS
    ensures TableInv(HandleNewGame(t).0) && Quiet(HandleNewGame(t).0)
  {
    NewScoreZeroSum(t.deals, t.N());
    var t1 := t.(score := NewScore(t.deals), engine := Engines.NewGame(t.engine));
    var t' := HandleNewGame(t).0;
    assert !t'.seats[0].ack;
  }

  lemma NewDealRuns(t: TableState, s: Source)
    requires Ready(t) && Quiet(t) && Sound(t.engine) && FairSource(s, t.N())
    requires ZeroSum(t.score, t.N()) && 1 <= t.deals <= MAX_TURNS && t.score.numberOfTurns == t.deals
    ensures TableInv(HandleNewDeal(t, s).0) && Quiet(HandleNewDeal(t, s).0)
  {
    hide Engines.NewDeal, Engines.Inv, ZeroSum, SeatsInv;
    NewDealKeeps(t.engine, s);
    NewDealPhase(t.engine, s);
    NewScoreZeroSum(t.deals, t.N());
    QuietKept(t, HandleNewDeal(t, s).0);
  }

  lemma NewDealPhase(e: EngineState, s: Source)
    requires PlayerCount(e.N()) && e.ctx.Sized()
    ensures var e' := Engines.NewDeal(e, s); e'.phase == WaitForCards && e'.N() == e.N() && e'.ctx.Sized()
  {
  }

  lemma EndOfDealRuns(t: TableState, s: Source)
    requires Quiet(t) && Engines.Inv(t.engine) && TournamentInv(t) && FairSource(s, t.N())
    requires t.engine.phase == WaitForEndOfDeal
    ensures TableInv(HandleEndOfDeal(t, s).0) && Quiet(HandleEndOfDeal(t, s).0)
  {
    hide ZeroSum, AddPoints, Engines.NewDeal, TurnInv, SizesInv, ScoreInv, TableCards, Complete, SeatsInv;
    AddPointsZeroSum(t.score, t.engine.points, t.engine.ctx.bid, t.N());
    AddPointsCounts(t.score, t.engine.points, t.engine.ctx.bid, t.N());
    var (score, more) := AddPoints(t.score, t.engine.points, t.engine.ctx.bid, t.N());
    var t1 := t.(score := score);
    QuietKept(t, t1);
    if more {
      NewDealRuns(t1, s);
    } else {
      QuietKept(t, HandleEndOfDeal(t, s).0);
    }
  }

  lemma AddPointsCounts(s: ScoreState, p: Points, b: Bid, n: nat)
    requires s.Sized() && s.dealCounter < MAX_TURNS
    ensures var (s', more) := AddPoints(s, p, b, n);
      s'.dealCounter == s.dealCounter + 1 && s'.numberOfTurns == s.numberOfTurns &&
      (more <==> s'.dealCounter < s'.numberOfTurns)
  {
  }

  lemma NextBidKeeps(t: TableState)
    requires Quiet(t) && Sound(t.engine) && TournamentInv(t) && t.score.dealCounter < t.deals
    requires t.score.numberOfTurns == t.deals
    requires if t.engine.phase == WaitForStartDeal then Engines.Inv(StartDeal(t.engine)) else Engines.Inv(t.engine)
    ensures TableInv(NextBidSequence(t).0) && Quiet(NextBidSequence(t).0)
  {
    hide Engines.Inv, ZeroSum, SeatsInv;
    QuietKept(t, NextBidSequence(t).0);
  }

  lemma BarrierKeeps(t: TableState, phase: Phase, s: Source)
    requires Quiet(t) && Engines.Inv(t.engine) && TournamentInv(t) && FairSource(s, t.N())
    requires AckPhase(phase) && phase == t.engine.phase
    ensures TableInv(Barrier(t, phase, s).0) && Quiet(Barrier(t, phase, s).0)
  {
    hide AuctionInv, AuctionShape, ContractInv, PlayInv, ZeroSum, SeatsInv, BidSequence, ManageAfterBidSequence, PlaySequence,
         HandleNewGame, HandleNewDeal, HandleEndOfDeal, NextBidSequence, HandleGameSequence;
    match phase
    case WaitForPlayers =>
      assert Quiet(t);
      if !t.adminMode { NewGameKeeps(t); }
    case WaitForReady => NewDealRuns(t, s);
    case WaitForAllPassed => NewDealRuns(t, s);
    case WaitForCards => BidBarrier(t);
    case WaitForShowBid => BidBarrier(t);
    case WaitForShowKingCall => KingBarrier(t);
    case WaitForShowDog => DogBarrier(t);
    case WaitForEndOfDeal => EndOfDealRuns(t, s);
    case _ => GameBarrier(t);
  }

  lemma KingBarrier(t: TableState)
    requires Quiet(t) && Engines.Inv(t.engine) && TournamentInv(t) && t.engine.phase == WaitForShowKingCall
    ensures var t' := NextBidSequence(t.(engine := ManageAfterBidSequence(t.engine))).0; TableInv(t') && Quiet(t')
  {
    hide PlayInv, ZeroSum, SeatsInv, ManageAfterBidSequence, NextBidSequence;
    var t1 := t.(engine := ManageAfterBidSequence(t.engine));
    AfterBidKeeps(t.engine);
    SameRoom(t.engine);
    QuietKept(t, t1);
    NextBidKeeps(t1);
  }

  lemma DogBarrier(t: TableState)
    requires Quiet(t) && Engines.Inv(t.engine) && TournamentInv(t) && t.engine.phase == WaitForShowDog
    ensures var t' := t.(engine := DiscardSequence(t.engine)); TableInv(t') && Quiet(t')
  {
    hide ZeroSum, SeatsInv, NothingPlayed, Complete;
    QuietKept(t, t.(engine := DiscardSequence(t.engine)));
    assert DiscardSequence(t.engine).Hands() == t.engine.Hands();
  }

  lemma SameRoom(e: EngineState)
    requires Sound(e)
    ensures Sound(ManageAfterBidSequence(e)) && ManageAfterBidSequence(e).N() == e.N()
    ensures Sound(BidSequence(e)) && BidSequence(e).N() == e.N()
    ensures PlaySequence(e).N() == e.N()
  {
  }

  lemma BidBarrier(t: TableState)
    requires Quiet(t) && Engines.Inv(t.engine) && TournamentInv(t)
    requires t.engine.phase == WaitForCards || t.engine.phase == WaitForShowBid
    ensures var t' := NextBidSequence(t.(engine := BidSequence(t.engine))).0; TableInv(t') && Quiet(t')
  {
    hide AuctionInv, AuctionShape, ContractInv, PlayInv, ZeroSum, SeatsInv, BidSequence, ManageAfterBidSequence, NextBidSequence;
    var t1 := t.(engine := BidSequence(t.engine));
    BidSequenceKeeps(t.engine);
    SameRoom(t.engine);
    QuietKept(t, t1);
    NextBidKeeps(t1);
  }

  lemma GameBarrier(t: TableState)
    requires Quiet(t) && Engines.Inv(t.engine) && TournamentInv(t)
    requires t.engine.phase in {WaitForStartDeal, WaitForHandle, WaitForShowHandle, WaitForShowCard, WaitForEndOfTrick}
    ensures var t' := HandleGameSequence(t).0; TableInv(t') && Quiet(t') && t'.engine == PlaySequence(t.engine)
  {
    hide PlayInv, ZeroSum, SeatsInv, PlaySequence;
    GameSequenceKeeps(t.engine);
    SameRoom(t.engine);
    PlayPhases(t.engine);
    QuietKept(t, HandleGameSequence(t).0);
  }

  lemma PlayPhases(e: EngineState)
    requires Engines.Inv(e)
    requires e.phase in {WaitForStartDeal, WaitForHandle, WaitForShowHandle, WaitForShowCard, WaitForEndOfTrick}
    ensures PlaySequence(e).phase in {WaitForHandle, WaitForPlayedCard, WaitForEndOfTrick, WaitForEndOfDeal}
  {
    hide SetTrick, AnalyzeGame, SizesInv, ScoreInv, TableCards, Complete;
  }

  // ---------------------------------------------------------------- events

  lemma AckKeeps(t: TableState, src: nat, step: string, s: Source)
    requires TableInv(t) && src != INVALID_UID && FairSource(s, t.N())
    ensures TableInv(ExecuteRequest(t, src, ReqAck(step), s).0)
  {
    hide Engines.Inv, ZeroSum, Barrier;
    var phase := PhaseOfStep(step);
    StepNamesRoundTrip(phase, step);
    if phase != BadStep {
      SyncKeepsSeats(t, phase, src);
      SyncOpens(t, phase, src);
      var (t1, passed) := Sync(t, phase, src);
      if passed {
        BarrierKeeps(t1, phase, s);
      }
    }
  }

  /** In the phases that wait for one player's answer no flag is set. */
  lemma NoFlagWithoutAck(t: TableState)
    requires SeatsInv(t) && !AckPhase(t.engine.phase)
    ensures Quiet(t)
  {
  }

  lemma OnBidKeeps(t: TableState, p: Place, contract: Contract, slam: bool)
    requires TableInv(t) && contract <= GUARD_AGAINST
    requires contract >= PASS || t.engine.ctx.bid.contract >= PASS || t.engine.position + 1 != t.N() ||
      p != t.engine.currentPlayer
    ensures TableInv(OnBid(t, p, contract, slam).0)
  {
    hide AuctionInv, AuctionShape, ZeroSum, SeatsInv, ToAll, RaiseBid;
    var t' := OnBid(t, p, contract, slam).0;
    if t' != t {
      NoFlagWithoutAck(t);
      SpeakersLeft(t.engine);
      SetBidKeeps(t.engine, contract, slam);
      QuietKept(t, t');
    }
  }

  lemma OnDiscardKeeps(t: TableState, p: Place, discard: Cards)
    requires TableInv(t)
    ensures TableInv(OnDiscard(t, p, discard).0)
  {
    hide ContractInv, PlayInv, ZeroSum, SeatsInv, ToAll, TestDiscard, WithoutAll;
    var t' := OnDiscard(t, p, discard).0;
    if t' != t {
      NoFlagWithoutAck(t);
      SetDiscardKeeps(t.engine, discard);
      QuietKept(t, t');
    }
  }

  lemma OnKingCallKeeps(t: TableState, p: Place, king: Card)
    requires TableInv(t)
    ensures TableInv(OnKingCall(t, p, king).0)
  {
    hide ContractInv, PlayInv, ZeroSum, SeatsInv, ToAll, CheckKingCall, FindHolder;
    if OnKingCall(t, p, king).0 != t {
      NoFlagWithoutAck(t);
      SetKingCalledKeeps(t.engine, king);
      var t1 := t.(engine := SetKingCalled(t.engine, king).0);
      QuietKept(t, t1);
      ResetIsQuiet(t1);
    }
  }

  lemma OnHandleKeeps(t: TableState, p: Place, handle: Cards)
    requires TableInv(t)
    ensures TableInv(OnHandle(t, p, handle).0)
  {
    hide PlayInv, ZeroSum, SeatsInv, HandleGameSequence, ToAll, TestHandle;
    if OnHandle(t, p, handle).0 != t {
      NoFlagWithoutAck(t);
      SetHandleKeeps(t.engine, handle);
      if Engines.SetHandle(t.engine, handle, p).1 { QuietKept(t, OnHandle(t, p, handle).0); } else { GameBarrier(t); }
    }
  }

  lemma OnCardKeeps(t: TableState, p: Place, card: Card)
    requires TableInv(t)
    ensures TableInv(OnCard(t, p, card).0)
  {
    hide PlayInv, ZeroSum, SeatsInv, ToAll, CanPlayCard, Without;
    if OnCard(t, p, card).0 != t {
      NoFlagWithoutAck(t);
      SetCardKeeps(t.engine, card);
      QuietKept(t, OnCard(t, p, card).0);
    }
  }

  lemma AnswerKeeps(t: TableState, src: nat, req: Request, s: Source)
    requires TableInv(t) && Allowed(t, Received(src, req, s)) && !req.ReqAck? && !req.ReqNewGame?
    ensures TableInv(ExecuteRequest(t, src, req, s).0)
  {
    hide Engines.Inv, ZeroSum, SeatsInv, OnBid, OnDiscard, OnKingCall, OnHandle, OnCard, PlaceOf;
    var p := GetPlayerPlace(t, src);
    match req
    case ReqBid(contract, slam) =>
      if t.engine.phase == WaitForBid { OnBidKeeps(t, p, contract, slam); } else { NoBidNow(t, p, contract, slam); }
    case ReqDiscard(discard) => OnDiscardKeeps(t, p, discard);
    case ReqKingCall(king) => OnKingCallKeeps(t, p, king);
    case ReqHandle(handle) => OnHandleKeeps(t, p, handle);
    case ReqCard(card) => OnCardKeeps(t, p, card);
    case _ =>
  }

  lemma NoBidNow(t: TableState, p: Place, contract: Contract, slam: bool)
    requires Ready(t) && t.engine.phase != WaitForBid
    ensures OnBid(t, p, contract, slam).0 == t
  {
  }

  lemma SpeakersLeft(e: EngineState)
    requires Engines.Inv(e) && e.phase == WaitForBid
    ensures e.position < e.N()
  {
    hide Complete, NothingPlayed;
  }

  lemma NewGameRequestKeeps(t: TableState, deals: nat)
    requires TableInv(t) && 1 <= deals <= MAX_TURNS
    ensures TableInv(HandleNewGame(t.(deals := deals)).0)
  {
    hide Engines.Inv, ZeroSum;
    NewGameKeeps(t.(deals := deals));
  }

  /** Every event a table is meant for keeps its invariant, except the one that ends an auction without a bid. */
  lemma StepKeeps(t: TableState, ev: Event)
    requires TableInv(t) && Meant(t.N(), ev)
    ensures TableInv(Step(t, ev)) <==> !NobodyBids(t, ev)
  {
    hide Engines.Inv, ZeroSum, HandleNewGame, AddPlayer, RemovePlayer;
    match ev
    case Joined(uuid) => AddPlayerKeeps(t, uuid);
    case Left(uuid) => RemovePlayerKeeps(t, uuid);
    case Received(src, req, s) =>
      if req.ReqAck? {
        AckKeeps(t, src, req.step, s);
      } else if req.ReqNewGame? {
        if src == t.admin { NewGameRequestKeeps(t, req.deals); }
      } else if NobodyBids(t, ev) {
        SilenceBreaks(t, src, req.slam, s);
      } else {
        AnswerKeeps(t, src, req, s);
      }
  }

  lemma SilenceBreaks(t: TableState, src: nat, slam: bool, s: Source)
    requires TableInv(t) && NobodyBids(t, Received(src, ReqBid(NO_ANY, slam), s))
    ensures !TableInv(ExecuteRequest(t, src, ReqBid(NO_ANY, slam), s).0)
  {
    hide ZeroSum, SeatsInv, PlaceOf, Engines.Inv;
    BidderSits(t.engine);
    SetBidKeeps(t.engine, NO_ANY, slam);
  }

  lemma BidderSits(e: EngineState)
    requires Engines.Inv(e) && e.phase == WaitForBid
    ensures e.currentPlayer < e.N() <= MAX_SEATS
  {
    hide Complete, NothingPlayed;
  }
}
