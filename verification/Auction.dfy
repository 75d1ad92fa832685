/** The auction: whatever is asked of a table, the contract of a deal is the highest bid announced in turn. */
module Auctions {
  import opened Tarot
  import opened Decks
  import opened Context
  import opened Engines
  import opened EngineProofs
  import opened Scores
  import opened Tables
  import opened TableProofs
  import opened Deals
  import opened Play

  // ---------------------------------------------------------------- what was announced

  datatype Announcement = Announcement(bidder: Place, contract: Contract, slam: bool)

  function Offers(said: seq<Announcement>): seq<(Contract, bool)> {
    seq(|said|, i requires 0 <= i < |said| => (said[i].contract, said[i].slam))
  }

  /** The outcome of an auction that seat `first` opens. */
  function Outcome(said: seq<Announcement>, first: Place, n: nat): Bid {
    Auction(NO_BID, Offers(said), first, n)
  }

  /** The bid an event makes, if it is one the table accepts. */
  function Announced(t: TableState, ev: Event): seq<Announcement>
    requires Ready(t)
  {
    if ev.Received? && ev.req.ReqBid? && t.engine.phase == WaitForBid &&
       GetPlayerPlace(t, ev.src) == t.engine.currentPlayer != NOWHERE
    then [Announcement(GetPlayerPlace(t, ev.src), ev.req.contract, ev.req.slam)]
    else []
  }

  predicate InAuction(p: Phase) {
    p in {WaitForCards, WaitForBid, WaitForShowBid}
  }

  /** From the dealing of the cards to the end of the deal, without a new one. */
  predicate SameHand(p: Phase, p': Phase) {
    (Bidding(p') || Playing(p')) && (p' == WaitForCards ==> p == WaitForCards)
  }

  predicate WithinHand(t: TableState, events: seq<Event>)
    decreases |events|
  {
    Ready(t) && (Bidding(t.engine.phase) || Playing(t.engine.phase)) &&
    (events == [] ||
     (SameHand(t.engine.phase, Step(t, events[0]).engine.phase) && WithinHand(Step(t, events[0]), events[1..])))
  }

  /** All the bids accepted in the course of a run. */
  function Announcements(t: TableState, events: seq<Event>): seq<Announcement>
    requires WithinHand(t, events)
    decreases |events|
  {
    if events == [] then [] else Announced(t, events[0]) + Announcements(Step(t, events[0]), events[1..])
  }

  // ---------------------------------------------------------------- the invariant of an auction

  /**
   * The bid of the engine is the outcome of what was announced. Every seat spoke once, in turn; the
   * auction goes on exactly as long as a seat has not spoken and no slam is the highest bid. The seat that spoke
   * first sits after the dealer, and leads the first trick unless a slam gives the lead to the taker.
   */
  predicate AuctionSoFar(e: EngineState, first: Place, said: seq<Announcement>) {
    var n, bid := e.N(), Outcome(said, first, e.N());
    first < n && |said| <= n && e.ctx.bid.(partner := NOWHERE) == bid && Next(e.dealer, n) == first &&
    (Playing(e.phase) ==> e.ctx.firstPlayer == if bid.slam then bid.taker else first) &&
    (forall k :: 0 <= k < |said| ==> said[k].bidder == SeatAfter(first, k, n)) &&
    (forall k :: 0 <= k < |said| ==> !Outcome(said[..k], first, n).slam) &&
    match e.phase
    case WaitForCards => said == [] && e.position == 0 && e.currentPlayer == first
    case WaitForBid =>
      |said| < n && !bid.slam && e.position == |said| && e.currentPlayer == SeatAfter(first, |said|, n)
    case WaitForShowBid => said != [] && e.position == |said| && e.currentPlayer == SeatAfter(first, |said|, n)
    case _ => |said| == n || bid.slam
  }

  lemma OutcomeMore(said: seq<Announcement>, a: Announcement, first: Place, n: nat)
    ensures Outcome(said + [a], first, n) ==
      RaiseBid(Outcome(said, first, n), a.contract, a.slam, SeatAfter(first, |said|, n)).0
  {
    assert Offers(said + [a])[..|said|] == Offers(said);
  }

  lemma BidKeepsAuction(e: EngineState, first: Place, said: seq<Announcement>, contract: Contract, slam: bool)
    requires e.phase == WaitForBid && AuctionSoFar(e, first, said)
    ensures AuctionSoFar(Engines.SetBid(e, contract, slam, e.currentPlayer).0, first,
                         said + [Announcement(e.currentPlayer, contract, slam)])
  {
    hide Outcome;
    var a := Announcement(e.currentPlayer, contract, slam);
    OutcomeMore(said, a, first, e.N());
    forall k | 0 <= k < |said| + 1
      ensures (said + [a])[k].bidder == SeatAfter(first, k, e.N())
      ensures !Outcome((said + [a])[..k], first, e.N()).slam
    {
      assert (said + [a])[..k] == said[..k];
      assert said[..|said|] == said;
    }
  }

  /** After the cards or a shown bid: the next seat is asked, or the auction is over. */
  lemma SequenceKeepsAuction(e: EngineState, first: Place, said: seq<Announcement>)
    requires PlayerCount(e.N()) && (e.phase == WaitForCards || e.phase == WaitForShowBid) && AuctionSoFar(e, first, said)
    ensures var e' := BidSequence(e);
      e'.phase != WaitForCards && AuctionSoFar(if e'.phase == WaitForStartDeal then StartDeal(e') else e', first, said)
    ensures BidSequence(e).phase == WaitForBid <==> |said| < e.N() && !e.ctx.bid.slam
  {
    hide Outcome;
    if said == [] { assert !Outcome([], first, e.N()).slam by { NothingSaid(first, e.N()); } }
  }

  lemma NothingSaid(first: Place, n: nat)
    ensures Outcome([], first, n) == NO_BID
  {
  }

  /** When the auction is over, nothing touches its outcome. */
  lemma OutcomeKept(e: EngineState, e': EngineState, first: Place, said: seq<Announcement>)
    requires AuctionSoFar(e, first, said) && !InAuction(e.phase) && !InAuction(e'.phase)
    requires e'.N() == e.N() && e'.ctx.bid.(partner := NOWHERE) == e.ctx.bid.(partner := NOWHERE) && LeadKept(e, e')
    ensures AuctionSoFar(e', first, said)
  {
    hide Outcome, SeatAfter;
  }

  // ---------------------------------------------------------------- steps of a table

  /** Outside the auction a request keeps its outcome, or starts another deal. */
  lemma LaterStep(t: TableState, ev: Event)
    requires TableInv(t) && Allowed(t, ev) && SameHand(t.engine.phase, Step(t, ev).engine.phase)
    requires !InAuction(t.engine.phase) && (Bidding(t.engine.phase) || Playing(t.engine.phase))
    ensures var e' := Step(t, ev).engine;
      e'.N() == t.N() && !InAuction(e'.phase) && LeadKept(t.engine, e') &&
      e'.ctx.bid.(partner := NOWHERE) == t.engine.ctx.bid.(partner := NOWHERE)
  {
    hide Engines.Inv, ZeroSum, PlaceOf, AddPlayer, RemovePlayer, PlaySequence, HandleNewGame, Sync, ResetAck, OnAck, OnBid,
         OnDiscard, OnKingCall, OnHandle, OnCard, SameSeating, NobodyBids, Meant;
    StepSameSize(t, ev);
    match ev
    case Joined(uuid) => SeatsOnly(t, WaitForReady, uuid);
    case Left(uuid) => SeatsOnly(t, WaitForReady, uuid);
    case Received(src, req, s) =>
      var p := GetPlayerPlace(t, src);
      match req
      case ReqAck(step) => LaterAck(t, src, step, s);
      case ReqNewGame(deals) => NewGamePhase(t.(deals := deals));
      case ReqBid(contract, slam) => OnBidDoes(t, p, contract, slam);
      case ReqDiscard(discard) => OnDiscardDoes(t, p, discard);
      case ReqKingCall(king) => OnKingCallDoes(t, p, king);
      case ReqHandle(handle) =>
        OnHandleDoes(t, p, handle);
        if t.engine.phase == WaitForHandle { PlayPhases(t.engine); }
      case ReqCard(card) => OnCardDoes(t, p, card);
      case _ =>
  }

  lemma LaterAck(t: TableState, src: nat, step: string, s: Source)
    requires TableInv(t)
    requires !InAuction(t.engine.phase) && (Bidding(t.engine.phase) || Playing(t.engine.phase))
    ensures var e' := ExecuteRequest(t, src, ReqAck(step), s).0.engine;
      e'.phase in {WaitForCards, WaitForReady} ||
      (!InAuction(e'.phase) && LeadKept(t.engine, e') &&
       e'.ctx.bid.(partner := NOWHERE) == t.engine.ctx.bid.(partner := NOWHERE))
  {
    hide Engines.Inv, ZeroSum, Barrier, PhaseOfStep, Sync, PlaceOf;
    var phase := PhaseOfStep(step);
    StepNamesRoundTrip(phase, step);
    SeatsOnly(t, phase, src);
    SyncOpens(t, phase, src);
    var (t1, passed) := Sync(t, phase, src);
    if passed && phase != BadStep {
      LaterBarrier(t1, s);
    }
  }

  lemma LaterBarrier(t: TableState, s: Source)
    requires Ready(t) && Engines.Inv(t.engine) && AckPhase(t.engine.phase)
    requires !InAuction(t.engine.phase) && (Bidding(t.engine.phase) || Playing(t.engine.phase))
    ensures var e' := Barrier(t, t.engine.phase, s).0.engine;
      e'.phase in {WaitForCards, WaitForReady} ||
      (!InAuction(e'.phase) && LeadKept(t.engine, e') &&
       e'.ctx.bid.(partner := NOWHERE) == t.engine.ctx.bid.(partner := NOWHERE))
  {
    hide Engines.Inv, HandleGameSequence, HandleEndOfDeal, HandleNewDeal, PlaySequence, ManageAfterBidSequence, Seated,
         HandleStartDeal;
    var e := t.engine;
    if e.phase == WaitForEndOfDeal {
      EndOfDealPhase(t, s);
    } else if e.phase == WaitForAllPassed {
      NewDealEntersCards(t, s);
    } else if e.phase == WaitForShowKingCall {
      AfterKingCall(e);
      SameRoomAfterBid(e);
      BidAfterKingCall(e);
      StartKeepsBid(t.(engine := ManageAfterBidSequence(e)));
    } else if e.phase != WaitForShowDog {
      GameSequenceRuns(t);
      PlayKeepsBid(e);
      PlayPhases(e);
    }
  }

  lemma StartKeepsBid(t: TableState)
    requires Ready(t)
    ensures var e' := HandleStartDeal(t).0.engine;
      e'.phase == t.engine.phase && e'.ctx.bid == t.engine.ctx.bid && e'.dealer == t.engine.dealer && e'.N() == t.N() &&
      e'.ctx.firstPlayer == if e'.ctx.bid.slam then e'.ctx.bid.taker else Next(e'.dealer, t.N())
  {
  }

  lemma BidAfterKingCall(e: EngineState)
    ensures ManageAfterBidSequence(e).ctx.bid == e.ctx.bid && ManageAfterBidSequence(e).dealer == e.dealer
  {
  }

  /** Within the auction an accepted bid, or the step to the next one, is all that happens to the engine. */
  lemma AuctionStep(t: TableState, ev: Event) returns (contract: Contract, slam: bool)
    requires TableInv(t) && SameHand(t.engine.phase, Step(t, ev).engine.phase) && InAuction(t.engine.phase)
    ensures Ready(t)
    ensures var e, e' := t.engine, Step(t, ev).engine;
      || (e' == e && Announced(t, ev) == [])
      || (e.phase != WaitForBid && Announced(t, ev) == [] &&
          e' == if BidSequence(e).phase == WaitForStartDeal then StartDeal(BidSequence(e)) else BidSequence(e))
      || (e.phase == WaitForBid && Announced(t, ev) == [Announcement(e.currentPlayer, contract, slam)] &&
          e' == Engines.SetBid(e, contract, slam, e.currentPlayer).0)
  {
    hide Engines.Inv, ZeroSum, PlaceOf, AddPlayer, RemovePlayer, HandleNewGame, ResetAck, Sync, BidSequence, StartDeal,
         RaiseBid, OnAck, OnDiscard, OnKingCall, OnHandle, OnCard, ToAll, SeatsInv, SameSeating;
    contract, slam := NO_ANY, false;
    match ev
    case Joined(uuid) => SeatsOnly(t, WaitForReady, uuid);
    case Left(uuid) => SeatsOnly(t, WaitForReady, uuid);
    case Received(src, req, s) =>
      var p := GetPlayerPlace(t, src);
      match req
      case ReqAck(step) => AckInAuction(t, src, step, s);
      case ReqNewGame(deals) => NewGamePhase(t.(deals := deals));
      case ReqBid(c, sl) => contract, slam := c, sl;
      case ReqDiscard(discard) => OnDiscardDoes(t, p, discard);
      case ReqKingCall(king) => OnKingCallDoes(t, p, king);
      case ReqHandle(handle) => OnHandleDoes(t, p, handle);
      case ReqCard(card) => OnCardDoes(t, p, card);
      case _ =>
  }

  lemma AckInAuction(t: TableState, src: nat, step: string, s: Source)
    requires TableInv(t) && InAuction(t.engine.phase)
    ensures Ready(t)
    ensures var e, e' := t.engine, OnAck(t, src, step, s).0.engine;
      e' == e || (e.phase != WaitForBid &&
        e' == if BidSequence(e).phase == WaitForStartDeal then StartDeal(BidSequence(e)) else BidSequence(e))
  {
    hide Engines.Inv, ZeroSum, PlaceOf, PhaseOfStep, Sync, BidSequence, StartDeal, ToAll;
    var phase := PhaseOfStep(step);
    SeatsOnly(t, phase, src);
    SyncOpens(t, phase, src);
    SameRoomAfterBid(t.engine);
  }

  lemma StepKeepsAuction(t: TableState, ev: Event, first: Place, said: seq<Announcement>)
    requires TableInv(t) && Allowed(t, ev) && SameHand(t.engine.phase, Step(t, ev).engine.phase)
    requires (Bidding(t.engine.phase) || Playing(t.engine.phase)) && AuctionSoFar(t.engine, first, said)
    ensures Ready(t) && AuctionSoFar(Step(t, ev).engine, first, said + Announced(t, ev))
  {
    hide Engines.Inv, ZeroSum, SeatsInv, Step, AuctionSoFar, BidSequence, FairSource;
    assert said + [] == said;
    if InAuction(t.engine.phase) {
      var contract, slam := AuctionStep(t, ev);
      if t.engine.phase == WaitForBid {
        BidKeepsAuction(t.engine, first, said, contract, slam);
      } else {
        SequenceKeepsAuction(t.engine, first, said);
      }
    } else {
      LaterStep(t, ev);
      OutcomeKept(t.engine, Step(t, ev).engine, first, said);
    }
  }

  lemma {:induction false} RunKeepsAuction(t: TableState, events: seq<Event>, first: Place, said: seq<Announcement>)
    requires TableInv(t) && WithinHand(t, events) && AllAllowed(t, events)
    requires AuctionSoFar(t.engine, first, said)
    ensures AuctionSoFar(Run(t, events).engine, first, said + Announcements(t, events))
    decreases |events|
  {
    hide Engines.Inv, SeatsInv, TournamentInv, Step, AuctionSoFar, FairSource;
    if events == [] {
      assert said + [] == said;
    } else {
      var t1, heard := Step(t, events[0]), Announced(t, events[0]);
      StepKeeps(t, events[0]);
      StepSameSize(t, events[0]);
      StepKeepsAuction(t, events[0], first, said);
      assert WithinHand(t1, events[1..]);
      RunKeepsAuction(t1, events[1..], first, said + heard);
      assert said + (heard + Announcements(t1, events[1..])) == (said + heard) + Announcements(t1, events[1..]);
    }
  }

  /** When the player to speak has no seat, as a deal file can bring about, no bid is ever accepted. */
  lemma NobodyCanSpeak(t: TableState, src: nat, contract: Contract, slam: bool, s: Source)
    requires Ready(t) && t.engine.phase == WaitForBid && t.engine.currentPlayer >= t.N()
    ensures ExecuteRequest(t, src, ReqBid(contract, slam), s) == (t, [])
  {
    PlaceOfFinds(t.seats, src, t.N());
  }

  // ---------------------------------------------------------------- an auction in which nobody says anything

  /** The engine after the cards and k empty bids, each of them shown. */
  function Silence(e: EngineState, k: nat): EngineState {
    if k == 0 then BidSequence(e)
    else
      var before := Silence(e, k - 1);
      BidSequence(Engines.SetBid(before, NO_ANY, false, before.currentPlayer).0)
  }

  /**
   * When all the bids of an auction are empty, the engine goes on without a taker: it shows the dog, or with five
   * players asks nobody for a king. Until the last of them the invariant holds.
   */
  lemma {:induction false} NobodyTakes(e: EngineState, k: nat)
    requires Engines.Inv(e) && e.phase == WaitForCards && k <= e.N()
    ensures var e' := Silence(e, k);
      e'.N() == e.N() && e'.ctx.bid.contract == NO_ANY && e'.ctx.bid.taker == NOWHERE &&
      if k < e.N() then Engines.Inv(e') && e'.phase == WaitForBid && e'.position == k
      else !Engines.Inv(e') && e'.phase == if e.N() == 5 then WaitForKingCall else WaitForShowDog
  {
    hide BidSequence, Engines.SetBid, AuctionInv, ContractInv, PlayInv;
    if k == 0 {
      NoBidYet(e);
      BidSequenceKeeps(e);
    } else {
      NobodyTakes(e, k - 1);
      var before := Silence(e, k - 1);
      NextIsSilent(before, k - 1);
    }
  }

  lemma NoBidYet(e: EngineState)
    requires Engines.Inv(e) && e.phase == WaitForCards
    ensures var e' := BidSequence(e);
      e'.phase == WaitForBid && e'.position == 0 && e'.N() == e.N() && e'.ctx.bid == NO_BID
  {
    hide Complete, NothingPlayed;
  }

  lemma NextIsSilent(e: EngineState, k: nat)
    requires Engines.Inv(e) && e.phase == WaitForBid && e.position == k < e.N() && e.ctx.bid.contract == NO_ANY
    ensures var e1 := Engines.SetBid(e, NO_ANY, false, e.currentPlayer).0;
      var e' := BidSequence(e1);
      e'.N() == e.N() && e'.ctx.bid.contract == NO_ANY && e'.ctx.bid.taker == NOWHERE &&
      if k + 1 < e.N() then Engines.Inv(e') && e'.phase == WaitForBid && e'.position == k + 1
      else !Engines.Inv(e') && e'.phase == if e.N() == 5 then WaitForKingCall else WaitForShowDog
  {
    hide Complete, NothingPlayed, PlayInv, ContractKnown;
    var e1 := Engines.SetBid(e, NO_ANY, false, e.currentPlayer).0;
    SetBidKeeps(e, NO_ANY, false);
    assert Sound(e1) && AuctionShape(e1);
    if k + 1 < e.N() {
      BidSequenceKeeps(e1);
    } else {
      AuctionEndKeeps(e1);
    }
  }

  // ---------------------------------------------------------------- whole deals

  /**
   * From the dealing of the cards to any later moment of the same deal, whatever is asked of the table
   * and by whom: the bid of the engine is the outcome of the accepted bids, made once by each seat in turn
   * from the first player on, and the auction ends with the last seat or at once with a slam.
   */
  lemma DealFollowsAuction(t: TableState, events: seq<Event>)
    requires TableInv(t) && t.engine.phase == WaitForCards
    requires WithinHand(t, events) && AllAllowed(t, events)
    ensures AuctionSoFar(Run(t, events).engine, t.engine.currentPlayer, Announcements(t, events))
  {
    hide FairSource, SeatsInv, TournamentInv;
    assert AuctionSoFar(t.engine, t.engine.currentPlayer, []);
    RunKeepsAuction(t, events, t.engine.currentPlayer, []);
    assert [] + Announcements(t, events) == Announcements(t, events);
  }

  /** In particular the taker of a deal being played was the first to announce its contract, and nobody went higher. */
  lemma TakerBidHighest(t: TableState, events: seq<Event>) returns (k: nat)
    requires TableInv(t) && t.engine.phase == WaitForCards
    requires WithinHand(t, events) && AllAllowed(t, events)
    requires Playing(Run(t, events).engine.phase)
    ensures var bid, said := Run(t, events).engine.ctx.bid, Announcements(t, events);
      k < |said| && said[k] == Announcement(bid.taker, bid.contract, bid.slam) &&
      (forall j :: 0 <= j < |said| ==> said[j].contract <= bid.contract) &&
      (forall j :: 0 <= j < k ==> said[j].contract < bid.contract)
  {
    hide FairSource, SeatsInv, TournamentInv, Run, Announcements, WithinHand;
    DealFollowsAuction(t, events);
    RunKeeps(t, events);
    var said, n, first := Announcements(t, events), t.N(), t.engine.currentPlayer;
    k := AuctionOutcome(Offers(said), first, n);
    assert TAKE <= Run(t, events).engine.ctx.bid.contract by { ContractPlayed(Run(t, events)); }
    assert forall j :: 0 <= j < |said| ==> Offers(said)[j].0 == said[j].contract;
  }

  lemma ContractPlayed(t: TableState)
    requires TableInv(t) && Playing(t.engine.phase)
    ensures TAKE <= t.engine.ctx.bid.contract
  {
    hide ZeroSum, SeatsInv, TurnInv, SizesInv, ScoreInv, TableCards, Complete;
  }
}
