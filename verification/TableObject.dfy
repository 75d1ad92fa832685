/** The playing table as an object: flags, seats, score and engine change in place. */
module TableObjects {
  import opened Tarot
  import opened Decks
  import opened Context
  import opened Engines
  import opened EngineProofs
  import opened Scores
  import opened Tables
  import opened TableProofs
  import opened Deals
  import opened Play
  import opened EngineObjects
  import opened ScoreObjects

  class PlayingTable {
    const engine: Engine
    const seats: array<SeatState>
    var admin: nat
    var adminMode: bool
    const score: Score
    var deals: nat

    ghost function Repr(): set<object> {
      {this, seats, engine, engine.players, engine.handleAsked, engine.ctx, engine.ctx.tricks, engine.ctx.winner, score,
       score.scores}
    }

    ghost predicate Valid() {
      engine.Valid() && score.Valid() && seats.Length == MAX_SEATS
    }

    ghost function State(): (t: TableState)
      requires Valid()
      reads Repr()
      ensures t.engine.ctx.Sized() && t.score.Sized() && |t.seats| == MAX_SEATS
    {
      TableState(engine.State(), seats[..], admin, adminMode, score.State(), deals)
    }

    constructor ()
      ensures Valid() && fresh(Repr())
    {
      engine := new Engine();
      seats := new SeatState[MAX_SEATS](_ => FREE_SEAT);
      admin := INVALID_UID;
      adminMode := false;
      score := new Score(1);
      deals := 1;
    }

    // ---------------------------------------------------------------- flags and seats

    method ResetAck()
      requires Valid() && engine.ctx.nbPlayers <= MAX_SEATS
      modifies seats
      ensures State() == Tables.ResetAck(old(State()))
    {
      var n := engine.ctx.nbPlayers;
      for i := 0 to n
        invariant forall k :: 0 <= k < MAX_SEATS ==>
          seats[k] == if k < i then old(seats[k]).(ack := false) else old(seats[k])
      {
        seats[i] := seats[i].(ack := false);
      }
      assert seats[..] == Tables.ResetAck(old(State())).seats;
    }

    /** Counts the flags; when all are set they are all taken back. */
    method AckFromAllPlayers() returns (ack: bool)
      requires Valid() && engine.ctx.nbPlayers <= MAX_SEATS
      modifies seats
      ensures ack <==> AllAcked(old(seats[..]), engine.ctx.nbPlayers)
      ensures State() == if ack then Tables.ResetAck(old(State())) else old(State())
    {
      ack := false;
      var n := engine.ctx.nbPlayers;
      var counter := 0;
      for i := 0 to n
        invariant counter <= i && (counter == i <==> forall k :: 0 <= k < i ==> seats[k].ack)
      {
        if seats[i].ack {
          counter := counter + 1;
        }
      }
      if counter == n {
        ack := true;
        ResetAck();
      }
    }

    /** Sets the flag of a player if the phase is the present one. */
    method Mark(phase: Phase, uuid: nat)
      requires Valid() && engine.ctx.nbPlayers <= MAX_SEATS
      modifies seats
      ensures State() == if engine.phase == phase then MarkAck(old(State()), uuid) else old(State())
    {
      var n := engine.ctx.nbPlayers;
      for i := 0 to n
        invariant forall k :: 0 <= k < MAX_SEATS ==>
          (seats[k] == if k < i && old(seats[k]).uuid == uuid && engine.phase == phase
                       then old(seats[k]).(ack := true) else old(seats[k]))
      {
        if seats[i].uuid == uuid {
          if engine.phase == phase {
            seats[i] := seats[i].(ack := true);
          }
        }
      }
      assert seats[..] == (if engine.phase == phase then MarkAck(old(State()), uuid) else old(State())).seats;
    }

    method Sync(phase: Phase, uuid: nat) returns (passed: bool)
      requires Valid() && engine.ctx.nbPlayers <= MAX_SEATS
      modifies seats
      ensures (State(), passed) == Tables.Sync(old(State()), phase, uuid)
    {
      hide Tables.ResetAck, MarkAck;
      Mark(phase, uuid);
      passed := AckFromAllPlayers();
    }

    method GetPlayerPlace(uuid: nat) returns (p: Place)
      requires Valid() && engine.ctx.nbPlayers <= MAX_SEATS
      ensures p == Tables.GetPlayerPlace(State(), uuid)
    {
      p := NOWHERE;
      var n := engine.ctx.nbPlayers;
      for i := 0 to n
        invariant p == PlaceOf(seats[..], uuid, i)
      {
        if seats[i].uuid == uuid {
          p := i;
        }
      }
    }

    method SendToAllPlayers(m: Msg) returns (out: seq<Reply>)
      requires Valid() && engine.ctx.nbPlayers <= MAX_SEATS
      ensures out == ToAll(State(), m)
    {
      var list: seq<nat> := [];
      for i := 0 to engine.ctx.nbPlayers
        invariant list == Seated(seats[..], i)
      {
        if seats[i].uuid != INVALID_UID {
          list := list + [seats[i].uuid];
        }
      }
      out := [Reply(list, m)];
    }

    method AddPlayer(uuid: nat) returns (seat: Place)
      requires Valid() && engine.ctx.nbPlayers <= MAX_SEATS
      modifies this`admin, seats
      ensures (State(), seat) == Tables.AddPlayer(old(State()), uuid)
    {
      seat := NOWHERE;
      var place := GetPlayerPlace(uuid);
      if place == NOWHERE {
        var n := engine.ctx.nbPlayers;
        ghost var test := (s: SeatState) => s.uuid == INVALID_UID;
        var i := 0;
        while i < n
          invariant i <= n && seat == NOWHERE
          invariant FirstSeat(seats[..], test, 0, n) == FirstSeat(seats[..], test, i, n)
        {
          if seats[i].uuid == INVALID_UID {
            seat := i;
            break;
          }
          i := i + 1;
        }
        if seat < NOWHERE {
          seats[seat] := seats[seat].(uuid := uuid);
          if admin == INVALID_UID {
            admin := uuid;
          }
          assert seats[..] == old(seats[..])[seat := old(seats[seat]).(uuid := uuid)];
        }
      }
    }

    method RemovePlayer(kicked: nat)
      requires Valid() && engine.ctx.nbPlayers <= MAX_SEATS
      modifies this`admin, seats
      ensures State() == Tables.RemovePlayer(old(State()), kicked)
    {
      var place := GetPlayerPlace(kicked);
      if place != NOWHERE {
        if kicked == admin {
          admin := NewAdmin(kicked);
        }
        FreeSeats(kicked);
        assert seats[..] == Tables.RemovePlayer(old(State()), kicked).seats;
      }
    }

    method FreeSeats(kicked: nat)
      requires Valid() && engine.ctx.nbPlayers <= MAX_SEATS
      modifies seats
      ensures forall k :: 0 <= k < MAX_SEATS ==>
        seats[k] == if k < engine.ctx.nbPlayers && old(seats[k]).uuid == kicked then FREE_SEAT else old(seats[k])
    {
      for i := 0 to engine.ctx.nbPlayers
        invariant forall k :: 0 <= k < MAX_SEATS ==>
          seats[k] == if k < i && old(seats[k]).uuid == kicked then FREE_SEAT else old(seats[k])
      {
        if seats[i].uuid == kicked {
          seats[i] := FREE_SEAT;
        }
      }
    }

    /** The first other seat, taken or not, gives the next administrator. */
    method NewAdmin(kicked: nat) returns (uuid: nat)
      requires Valid() && engine.ctx.nbPlayers <= MAX_SEATS
      ensures uuid == UuidAt(State(), FirstSeat(seats[..], (s: SeatState) => s.uuid != kicked, 0, engine.ctx.nbPlayers))
    {
      uuid := INVALID_UID;
      var n := engine.ctx.nbPlayers;
      ghost var test := (s: SeatState) => s.uuid != kicked;
      var i := 0;
      while i < n
        invariant i <= n && uuid == INVALID_UID
        invariant FirstSeat(seats[..], test, 0, n) == FirstSeat(seats[..], test, i, n)
      {
        if seats[i].uuid != kicked {
          uuid := seats[i].uuid;
          break;
        }
        i := i + 1;
      }
    }

    // ---------------------------------------------------------------- phase handlers

    ghost predicate IsReady()
      requires Valid()
      reads Repr()
    {
      Ready(State())
    }

    predicate Usable(s: Source) {
      |s.deck| == DECK_SIZE && (s.FromFile? ==> |s.hands| == MAX_SEATS)
    }

    method NewGame() returns (out: seq<Reply>)
      requires Valid() && IsReady()
      modifies engine`phase, score, score.scores, seats
      ensures (State(), out) == HandleNewGame(old(State()))
    {
      score.NewGame(deals);
      engine.NewGame();
      ResetAck();
      out := SendToAllPlayers(MsgNewGame);
    }

    /** After the last deal of a tournament a new one begins. */
    method Rollover()
      requires Valid() && IsReady()
      modifies score, score.scores
      ensures var t := old(State());
        State() == t.(score := if t.score.dealCounter >= t.deals then NewScore(t.deals) else t.score) && IsReady()
    {
      if score.dealCounter >= deals {
        score.NewGame(deals);
      }
    }

    method NewDeal(s: Source) returns (out: seq<Reply>)
      requires Valid() && IsReady() && Usable(s)
      modifies score, score.scores, engine, engine.players, engine.ctx, engine.ctx.tricks
      ensures (State(), out) == HandleNewDeal(old(State()), s)
    {
      hide Engines.NewDeal, NewScore, State;
      ghost var t := State();
      Rollover();
      DealCards(s);
      assert State() == HandleNewDeal(t, s).0;
      EngineSameSize(old(State()).engine, s, 0, [], NO_CARD, 0, false);
      out := SendCards();
    }

    method DealCards(s: Source)
      requires Valid() && IsReady() && Usable(s)
      modifies engine, engine.players, engine.ctx, engine.ctx.tricks
      ensures State() == old(State()).(engine := Engines.NewDeal(old(State()).engine, s))
    {
      hide Engines.NewDeal, Score.State;
      engine.NewDeal(s);
    }

    /** Each player receives the cards of his own hand. */
    method SendCards() returns (out: seq<Reply>)
      requires Valid() && State().Sized()
      ensures out == DealMessages(State(), State().N()) && State() == old(State())
    {
      out := [];
      for i := 0 to engine.ctx.nbPlayers
        invariant out == DealMessages(State(), i)
      {
        out := out + [Reply([seats[i].uuid], MsgNewDeal(engine.players[i]))];
      }
    }

    method StartDeal() returns (out: seq<Reply>)
      requires Valid() && IsReady()
      modifies engine`trickCounter, engine`position, engine`currentPlayer, engine.handleAsked, engine.ctx`firstPlayer
      ensures (State(), out) == HandleStartDeal(old(State()))
    {
      var first := engine.StartDeal();
      out := SendToAllPlayers(MsgStartDeal(first, engine.ctx.bid));
    }

    method SendNextBidSequence() returns (out: seq<Reply>)
      requires Valid() && IsReady()
      modifies engine`trickCounter, engine`position, engine`currentPlayer, engine.handleAsked, engine.ctx`firstPlayer
      ensures (State(), out) == NextBidSequence(old(State()))
    {
      hide HandleStartDeal, ToAll;
      out := [];
      match engine.phase
      case WaitForBid => out := SendToAllPlayers(MsgRequestBid(engine.currentPlayer, engine.ctx.bid.contract));
      case WaitForKingCall => out := SendToAllPlayers(MsgRequestKingCall);
      case WaitForAllPassed => out := SendToAllPlayers(MsgAllPassed);
      case WaitForStartDeal => out := StartDeal();
      case WaitForShowDog => out := SendToAllPlayers(MsgShowDog(engine.ctx.dog));
      case _ =>
    }

    /** The next step of the play can be taken: seat and trick are in range. */
    ghost predicate CanStep()
      requires Valid()
      reads Repr()
    {
      IsReady() && engine.currentPlayer < MAX_SEATS &&
      (Engines.IsEndOfTrick(engine.State()) ==> 1 <= Byte(engine.trickCounter + 1) <= MAX_TRICKS + 1)
    }

    method GameSequence() returns (out: seq<Reply>)
      requires Valid() && CanStep() && PlaySequence(engine.State()).currentPlayer < MAX_SEATS
      modifies engine, engine.handleAsked, engine.ctx`tricksWon, engine.ctx`stats, engine.ctx.tricks, engine.ctx.winner
      ensures (State(), out) == HandleGameSequence(old(State()))
    {
      hide PlaySequence, StepMessages, Score.State, Score.Rows, Score.Row;
      PlayKeepsBid(engine.State());
      engine.PlaySequence();
      out := SendStep();
    }

    method SendStep() returns (out: seq<Reply>)
      requires Valid() && engine.ctx.nbPlayers <= MAX_SEATS && engine.currentPlayer < MAX_SEATS
      ensures out == StepMessages(State())
    {
      hide ToAll;
      out := [];
      var p := engine.currentPlayer;
      match engine.phase
      case WaitForEndOfDeal => out := SendToAllPlayers(MsgEndOfDeal);
      case WaitForEndOfTrick => out := SendToAllPlayers(MsgEndOfTrick(p));
      case WaitForPlayedCard => out := SendToAllPlayers(MsgPlayCard(p));
      case WaitForHandle => out := [Reply([seats[p].uuid], MsgAskForHandle)];
      case _ =>
    }

    method EndOfDeal(s: Source) returns (out: seq<Reply>)
      requires Valid() && IsReady() && Usable(s) && State().score.dealCounter < MAX_TURNS
      modifies score, score.scores, engine, engine.players, engine.ctx, engine.ctx.tricks
      ensures (State(), out) == HandleEndOfDeal(old(State()), s)
    {
      hide HandleNewDeal, ToAll, AddPoints;
      var more := score.AddPoints(engine.points, engine.ctx.bid, engine.ctx.nbPlayers);
      if more {
        out := NewDeal(s);
      } else {
        engine.NewGame();
        out := SendToAllPlayers(MsgEndOfGame);
      }
    }

    // ---------------------------------------------------------------- requests

    /** What runs when every seat has acknowledged the phase. */
    method RunBarrier(phase: Phase, s: Source) returns (out: seq<Reply>)
      requires Valid() && Usable(s) && Quiet(State()) && Engines.Inv(State().engine) && TournamentInv(State())
      requires AckPhase(phase) && phase == State().engine.phase
      modifies Repr()
      ensures (State(), out) == Barrier(old(State()), phase, s)
    {
      hide Engines.Inv, Quiet, TournamentInv, HandleNewGame, HandleNewDeal, NextBidSequence, HandleGameSequence,
           HandleEndOfDeal, BidSequence, ManageAfterBidSequence, Ready, State, CanStep;
      BarrierReady(State());
      if phase == WaitForPlayers {
        out := StartGame();
      } else if phase == WaitForReady || phase == WaitForAllPassed {
        out := NewDeal(s);
      } else if phase == WaitForEndOfDeal {
        out := EndOfDeal(s);
      } else if phase in {WaitForCards, WaitForShowBid, WaitForShowKingCall, WaitForShowDog} {
        out := RunBidBarrier(phase, s);
      } else {
        out := PlayOn();
      }
    }

    /** The barriers of the auction and of the dog. */
    method RunBidBarrier(phase: Phase, ghost s: Source) returns (out: seq<Reply>)
      requires Valid() && IsReady() && Engines.Inv(State().engine) && phase == State().engine.phase
      requires phase in {WaitForCards, WaitForShowBid, WaitForShowKingCall, WaitForShowDog}
      modifies Repr()
      ensures (State(), out) == Barrier(old(State()), phase, s)
    {
      hide Engines.Inv, NextBidSequence, BidSequence, ManageAfterBidSequence, Ready, State;
      if phase == WaitForShowKingCall {
        out := AfterKingCall();
      } else if phase == WaitForShowDog {
        out := AfterDog();
      } else {
        out := AfterBids();
      }
    }

    /** The game starts by itself unless the administrator is in charge. */
    method StartGame() returns (out: seq<Reply>)
      requires Valid() && IsReady()
      modifies engine`phase, score, score.scores, seats
      ensures (State(), out) == if old(State()).adminMode then (old(State()), []) else HandleNewGame(old(State()))
    {
      hide HandleNewGame, Engine.State, Score.State;
      out := [];
      if !adminMode {
        out := NewGame();
      }
    }

    method PlayOn() returns (out: seq<Reply>)
      requires Valid() && IsReady() && Engines.Inv(State().engine)
      requires State().engine.phase in {WaitForStartDeal, WaitForHandle, WaitForShowHandle, WaitForShowCard, WaitForEndOfTrick}
      modifies engine, engine.handleAsked, engine.ctx`tricksWon, engine.ctx`stats, engine.ctx.tricks, engine.ctx.winner
      ensures (State(), out) == HandleGameSequence(old(State()))
    {
      hide Engines.Inv, HandleGameSequence, Score.State, PlaySequence;
      StepInRange(State().engine);
      out := GameSequence();
    }

    method AfterBids() returns (out: seq<Reply>)
      requires Valid() && IsReady()
      modifies Repr()
      ensures Ready(old(State()).(engine := BidSequence(old(State()).engine)))
      ensures (State(), out) == NextBidSequence(old(State()).(engine := BidSequence(old(State()).engine)))
    {
      hide BidSequence, NextBidSequence, Score.State;
      SameRoomAfterBid(State().engine);
      engine.BidSequence();
      out := SendNextBidSequence();
    }

    method AfterKingCall() returns (out: seq<Reply>)
      requires Valid() && IsReady()
      modifies Repr()
      ensures Ready(old(State()).(engine := ManageAfterBidSequence(old(State()).engine)))
      ensures (State(), out) == NextBidSequence(old(State()).(engine := ManageAfterBidSequence(old(State()).engine)))
    {
      hide ManageAfterBidSequence, NextBidSequence, Score.State;
      SameRoomAfterBid(State().engine);
      engine.ManageAfterBidSequence();
      out := SendNextBidSequence();
    }

    method AfterDog() returns (out: seq<Reply>)
      requires Valid() && Engines.Inv(State().engine) && State().engine.phase == WaitForShowDog
      modifies engine`phase
      ensures (State(), out) == Barrier(old(State()), WaitForShowDog, Shuffled([]))
    {
      hide BeforePlay, Score.State;
      engine.DiscardSequence();
      out := [Reply([seats[engine.ctx.bid.taker].uuid], MsgBuildDiscard)];
    }

    method Acknowledge(src: nat, step: string, s: Source) returns (out: seq<Reply>, isEndOfDeal: bool)
      requires Valid() && Usable(s) && TableInv(State()) && src != INVALID_UID
      modifies Repr()
      ensures (State(), out) == Tables.ExecuteRequest(old(State()), src, ReqAck(step), s)
      ensures isEndOfDeal <==> EndsDeal(old(State()), src, ReqAck(step))
    {
      isEndOfDeal := false;
      hide Engines.Inv, SeatsInv, TournamentInv, Tables.Sync, Barrier, PhaseOfStep;
      out := [];
      TableRoom(State());
      var p := GetPlayerPlace(src);
      var phase := PhaseOfStep(step);
      if p != NOWHERE && phase != BadStep {
        StepNamesRoundTrip(phase, step);
        SyncKeepsSeats(State(), phase, src);
        SyncOpens(State(), phase, src);
        var passed := Sync(phase, src);
        if passed {
          StillRunning(old(State()), State());
          out := RunBarrier(phase, s);
          isEndOfDeal := phase == WaitForEndOfDeal;
        }
      }
    }

    method RequestNewGame(src: nat, newDeals: nat) returns (out: seq<Reply>)
      requires Valid() && IsReady()
      modifies this`deals, engine`phase, score, score.scores, seats
      ensures (State(), out) == Tables.ExecuteRequest(old(State()), src, ReqNewGame(newDeals), Shuffled([]))
    {
      hide HandleNewGame, PlaceOf, Engine.State, Score.State;
      out := [];
      if src == admin {
        deals := newDeals;
        out := NewGame();
      }
    }

    method ReplyBid(src: nat, contract: Contract, slam: bool) returns (out: seq<Reply>)
      requires Valid() && IsReady()
      modifies engine`position, engine`currentPlayer, engine`phase, engine.ctx`bid
      ensures (State(), out) == Tables.ExecuteRequest(old(State()), src, ReqBid(contract, slam), Shuffled([]))
    {
      hide PlaceOf, Seated, Score.State, RaiseBid;
      out := [];
      var p := GetPlayerPlace(src);
      if p != NOWHERE {
        if p == engine.currentPlayer {
          if engine.phase == WaitForBid {
            var answer := engine.SetBid(contract, slam, p);
            out := SendToAllPlayers(MsgShowBid(p, answer, slam, engine.ctx.bid));
          }
        }
      }
    }

    method Discard(src: nat, discard: Cards) returns (out: seq<Reply>)
      requires Valid() && IsReady() && (State().engine.phase == WaitForDiscard ==> State().engine.ctx.bid.taker < MAX_SEATS)
      modifies Repr()
      ensures (State(), out) == Tables.ExecuteRequest(old(State()), src, ReqDiscard(discard), Shuffled([]))
    {
      hide PlaceOf, Score.State, Engines.SetDiscard, HandleStartDeal;
      out := [];
      if engine.phase == WaitForDiscard {
        var p := GetPlayerPlace(src);
        if engine.ctx.bid.taker == p {
          DiscardRoom(State().engine, discard);
          var valid := engine.SetDiscard(discard);
          if valid {
            out := StartDeal();
          }
        }
      }
    }

    method ReplyKingCall(src: nat, king: Card) returns (out: seq<Reply>)
      requires Valid() && IsReady() && (State().engine.phase == WaitForKingCall ==> State().engine.ctx.bid.taker < MAX_SEATS)
      modifies Repr()
      ensures (State(), out) == Tables.ExecuteRequest(old(State()), src, ReqKingCall(king), Shuffled([]))
    {
      hide PlaceOf, Score.State, Engines.SetKingCalled, Seated, Tables.ResetAck;
      out := [];
      if engine.phase == WaitForKingCall {
        var p := GetPlayerPlace(src);
        if engine.ctx.bid.taker == p {
          KingRoom(State().engine, king);
          var found := engine.SetKingCalled(king);
          if found {
            out := ShowKingCall(king);
          }
        }
      }
    }

    method ShowKingCall(king: Card) returns (out: seq<Reply>)
      requires Valid() && IsReady()
      modifies seats
      ensures State() == Tables.ResetAck(old(State())) && out == ToAll(old(State()), MsgShowKingCall(king))
    {
      hide Score.State;
      ResetAck();
      out := SendToAllPlayers(MsgShowKingCall(king));
      SameSeated(old(seats[..]), seats[..], engine.ctx.nbPlayers);
    }

    method Handle(src: nat, handle: Cards) returns (out: seq<Reply>)
      requires Valid() && IsReady() && Engines.Inv(State().engine)
      modifies Repr()
      ensures (State(), out) == Tables.ExecuteRequest(old(State()), src, ReqHandle(handle), Shuffled([]))
    {
      hide PlaceOf, Score.State, Engines.SetHandle, Seated, HandleGameSequence, Engines.Inv;
      out := [];
      if engine.phase == WaitForHandle {
        var p := GetPlayerPlace(src);
        if engine.currentPlayer == p {
          out := DeclareHandle(p, handle);
        }
      }
    }

    /** A valid handle is shown to all; without one the player goes on to play. */
    method DeclareHandle(p: Place, handle: Cards) returns (out: seq<Reply>)
      requires Valid() && IsReady() && Engines.Inv(State().engine)
      requires State().engine.phase == WaitForHandle && State().engine.currentPlayer == p
      modifies Repr()
      ensures var (e1, valid) := Engines.SetHandle(old(State()).engine, handle, p);
        var t1 := old(State()).(engine := e1);
        t1.Sized() && (State(), out) ==
          if valid then (t1, ToAll(t1, MsgShowHandle(p, handle))) else HandleGameSequence(old(State()))
    {
      hide Score.State, Engines.SetHandle, Seated, HandleGameSequence, Engines.Inv;
      StepInRange(State().engine);
      HandleRoom(State().engine, handle, p);
      var valid := engine.SetHandle(handle, p);
      if valid {
        out := SendToAllPlayers(MsgShowHandle(p, handle));
      } else {
        out := PlayOn();
      }
    }

    method PlayedCard(src: nat, card: Card) returns (out: seq<Reply>)
      requires Valid() && IsReady() && (State().engine.phase == WaitForPlayedCard ==> State().engine.currentPlayer < MAX_SEATS)
      modifies Repr()
      ensures (State(), out) == Tables.ExecuteRequest(old(State()), src, ReqCard(card), Shuffled([]))
    {
      hide PlaceOf, Score.State, Engines.SetCard, Seated;
      out := [];
      if card.IsValid() {
        if engine.phase == WaitForPlayedCard {
          var p := GetPlayerPlace(src);
          if engine.currentPlayer == p {
            CardRoom(State().engine, card, p);
            var accepted := engine.SetCard(card, p);
            if accepted {
              out := SendToAllPlayers(MsgShowCard(p, card));
            }
          }
        }
      }
    }

    /** `ExecuteRequest`: the object does what the specification of the table says, and stays what it was. */
    method ExecuteRequest(src: nat, req: Request, s: Source) returns (out: seq<Reply>, isEndOfDeal: bool)
      requires Valid() && Usable(s) && TableInv(State()) && Allowed(State(), Received(src, req, s))
      modifies Repr()
      ensures (State(), out) == Tables.ExecuteRequest(old(State()), src, req, s)
      ensures isEndOfDeal <==> EndsDeal(old(State()), src, req)
      ensures TableInv(State())
    {
      isEndOfDeal := false;
      hide Engines.Inv, SeatsInv, TournamentInv, TableInv, Tables.ExecuteRequest, State, FairSource;
      TableRoom(State());
      ActorsInRange(State());
      StepKeeps(State(), Received(src, req, s));
      if !req.ReqAck? { SourceUnused(State(), src, req, s); }
      match req
      case ReqAck(step) => out, isEndOfDeal := Acknowledge(src, step, s);
      case ReqNewGame(newDeals) => out := RequestNewGame(src, newDeals);
      case ReqBid(contract, slam) => out := ReplyBid(src, contract, slam);
      case ReqDiscard(discard) => out := Discard(src, discard);
      case ReqKingCall(king) => out := ReplyKingCall(src, king);
      case ReqHandle(handle) => out := Handle(src, handle);
      case ReqCard(card) => out := PlayedCard(src, card);
      case ReqError => out := [];
      case ReqUnknown => out := [];
    }
  }

  /** Seat and trick are in range whenever the table takes a step of the play. */
  lemma StepInRange(e: EngineState)
    requires Engines.Inv(e)
    requires e.phase in {WaitForStartDeal, WaitForHandle, WaitForShowHandle, WaitForShowCard, WaitForEndOfTrick}
    ensures e.currentPlayer < MAX_SEATS && PlaySequence(e).currentPlayer < MAX_SEATS
    ensures Engines.IsEndOfTrick(e) ==> 1 <= Byte(e.trickCounter + 1) <= MAX_TRICKS + 1
  {
    hide SizesInv, ScoreInv, TableCards, Complete, PlaySequence, ContractKnown;
    GameSequenceKeeps(e);
    PlayPhases(e);
    if e.position == e.N() { NotLastYet(e); }
  }

  lemma BarrierReady(t: TableState)
    requires Quiet(t) && TournamentInv(t)
    ensures Ready(t) && (t.engine.phase == WaitForEndOfDeal ==> t.score.dealCounter < MAX_TURNS)
  {
    hide SeatsInv, ZeroSum;
  }

  lemma TableRoom(t: TableState)
    requires TableInv(t)
    ensures Ready(t) && t.N() <= MAX_SEATS
  {
    hide Engines.Inv;
  }

  lemma StillRunning(t: TableState, t1: TableState)
    requires TableInv(t) && t1 == t.(seats := t1.seats) && SeatsInv(t1) && NoFlags(t1)
    ensures Quiet(t1) && Engines.Inv(t1.engine) && TournamentInv(t1)
  {
    hide Engines.Inv;
  }

  /** The seats the engine indexes are those of players. */
  lemma ActorsInRange(t: TableState)
    requires TableInv(t)
    ensures Engines.Inv(t.engine) && Ready(t)
    ensures t.engine.phase in {WaitForDiscard, WaitForKingCall} ==> t.engine.ctx.bid.taker < MAX_SEATS
    ensures t.engine.phase == WaitForPlayedCard ==> t.engine.currentPlayer < MAX_SEATS
  {
    hide BeforePlay, SizesInv, ScoreInv, TableCards, Complete, SeatsInv, ZeroSum;
  }

  /** Only an acknowledgement looks at the cards of the next deal. */
  lemma SourceUnused(t: TableState, src: nat, req: Request, s: Source)
    requires Ready(t) && !req.ReqAck?
    ensures Tables.ExecuteRequest(t, src, req, s) == Tables.ExecuteRequest(t, src, req, Shuffled([]))
    ensures req.ReqError? || req.ReqUnknown? ==> Tables.ExecuteRequest(t, src, req, s) == (t, [])
  {
    hide HandleNewGame, HandleGameSequence, HandleStartDeal, Engines.SetBid, Engines.SetDiscard, Engines.SetKingCalled,
         Engines.SetHandle, Engines.SetCard, PlaceOf, Seated;
  }

  lemma SameSeated(seats: seq<SeatState>, seats': seq<SeatState>, n: nat)
    requires n <= |seats| == |seats'| && forall i :: 0 <= i < n ==> seats'[i].uuid == seats[i].uuid
    ensures Seated(seats', n) == Seated(seats, n)
  {
    if n > 0 {
      SameSeated(seats, seats', n - 1);
    }
  }

  lemma DiscardRoom(e: EngineState, discard: Cards)
    requires e.ctx.Sized() && PlayerCount(e.N())
    ensures var (e1, valid) := Engines.SetDiscard(e, discard);
      e1.N() == e.N() && e1.ctx.Sized() && (!valid ==> e1 == e)
  {
    hide TestDiscard, WithoutAll;
  }

  lemma KingRoom(e: EngineState, king: Card)
    requires e.ctx.Sized()
    ensures var e1 := Engines.SetKingCalled(e, king).0; e1.N() == e.N() && e1.ctx.Sized()
  {
    hide CheckKingCall, FindHolder;
  }

  lemma HandleRoom(e: EngineState, handle: Cards, p: Place)
    requires e.ctx.Sized()
    ensures var (e1, valid) := Engines.SetHandle(e, handle, p); e1.N() == e.N() && e1.ctx.Sized() && (!valid ==> e1 == e)
  {
    hide TestHandle;
  }

  lemma CardRoom(e: EngineState, c: Card, p: Place)
    ensures var (e1, accepted) := Engines.SetCard(e, c, p); e1.N() == e.N() && (!accepted ==> e1 == e)
  {
    hide CanPlayCard, Without;
  }
}
