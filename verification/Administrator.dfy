/** Who may start a game: the administrator of a table, over all that happens to it. */
module Administrators {
  import opened Tarot
  import opened Engines
  import opened EngineProofs
  import opened Scores
  import opened Tables
  import opened TableProofs
  import opened Deals
  import opened Play

  /** The seats in play that are taken. */
  predicate Sits(t: TableState, i: nat)
    requires t.Sized()
  {
    i < t.N() && t.seats[i].uuid != INVALID_UID
  }

  predicate Empty(t: TableState)
    requires t.Sized()
  {
    forall i :: 0 <= i < t.N() ==> !Sits(t, i)
  }

  /** Somebody who sits at the table administrates it, unless nobody does. */
  predicate HasAdministrator(t: TableState)
    requires t.Sized()
  {
    if Empty(t) then t.admin == INVALID_UID
    else exists i :: 0 <= i < t.N() && Sits(t, i) && t.seats[i].uuid == t.admin
  }

  /** The first seat that the given player does not hold. */
  predicate FirstOther(t: TableState, uuid: nat, i: nat)
    requires t.Sized()
  {
    i < t.N() && t.seats[i].uuid != uuid && forall j :: 0 <= j < i ==> t.seats[j].uuid == uuid
  }

  /** The administrator leaves, others stay, and the first seat that is not the administrator's is free. */
  predicate LosesAdministrator(t: TableState, ev: Event)
    requires t.Sized()
  {
    ev.Left? && ev.uuid == t.admin && (exists i :: 0 <= i < t.N() && Sits(t, i) && t.seats[i].uuid != ev.uuid) &&
    exists i :: 0 <= i < t.N() && FirstOther(t, ev.uuid, i) && !Sits(t, i)
  }

  /** A new player gets the first free seat and nobody else moves; one who sits already, or finds none, gets nothing. */
  lemma JoinTakesFirstFreeSeat(t: TableState, uuid: nat, i: nat)
    requires SeatsInv(t) && uuid != INVALID_UID && i < t.N()
    ensures var (t1, place) := AddPlayer(t, uuid);
      (place == i <==>
        !Sits(t, i) && (forall j :: 0 <= j < i ==> Sits(t, j)) && forall j :: 0 <= j < t.N() ==> t.seats[j].uuid != uuid) &&
      (place == i ==> t1.seats == t.seats[i := SeatState(uuid, t.seats[i].ack)])
  {
    PlaceOfFinds(t.seats, uuid, t.N());
    var test := (s: SeatState) => s.uuid == INVALID_UID;
    FirstSeatFinds(t.seats, test, 0, t.N());
    assert forall j :: 0 <= j < t.N() ==> (test(t.seats[j]) <==> !Sits(t, j));
    var place := AddPlayer(t, uuid).1;
    assert place < t.N() ==> test(t.seats[place]);
  }

  lemma JoinKeepsAdministrator(t: TableState, uuid: nat)
    requires SeatsInv(t) && HasAdministrator(t) && uuid != INVALID_UID
    ensures HasAdministrator(AddPlayer(t, uuid).0)
    ensures Empty(t) ==> AddPlayer(t, uuid).0.admin == uuid
  {
    var t1 := AddPlayer(t, uuid).0;
    PlaceOfFinds(t.seats, uuid, t.N());
    FirstSeatFinds(t.seats, (s: SeatState) => s.uuid == INVALID_UID, 0, t.N());
    if Empty(t) {
      assert !Sits(t, 0);
      assert GetPlayerPlace(t, uuid) < t.N() ==> Sits(t, GetPlayerPlace(t, uuid));
      assert ((s: SeatState) => s.uuid == INVALID_UID)(t.seats[0]);
    }
    if t1 != t {
      var free :| 0 <= free < t.N() && t1.seats == t.seats[free := t.seats[free].(uuid := uuid)];
      assert Sits(t1, free);
      if !Empty(t) {
        var i :| 0 <= i < t.N() && Sits(t, i) && t.seats[i].uuid == t.admin;
        assert Sits(t1, i);
      }
    }
  }

  /** The seat that inherits the administration. */
  function Heir(t: TableState, uuid: nat): Place
    requires t.Sized()
  {
    FirstSeat(t.seats, (s: SeatState) => s.uuid != uuid, 0, t.N())
  }

  lemma HeirIsFirstOther(t: TableState, uuid: nat)
    requires SeatsInv(t)
    ensures forall i: nat :: i < t.N() ==> (FirstOther(t, uuid, i) <==> i == Heir(t, uuid))
    ensures Heir(t, uuid) < t.N() || Heir(t, uuid) == NOWHERE
    ensures Heir(t, uuid) >= t.N() ==> forall i :: 0 <= i < t.N() ==> t.seats[i].uuid == uuid
  {
    var test := (s: SeatState) => s.uuid != uuid;
    FirstSeatFinds(t.seats, test, 0, t.N());
    forall i: nat | i < t.N() ensures FirstOther(t, uuid, i) <==> i == Heir(t, uuid) {
      assert test(t.seats[i]) <==> t.seats[i].uuid != uuid;
    }
  }

  lemma SitsAfterLeave(t: TableState, uuid: nat)
    requires SeatsInv(t) && uuid != INVALID_UID
    ensures var t1 := RemovePlayer(t, uuid);
      t1.Sized() && t1.N() == t.N() &&
      (forall i :: 0 <= i < t.N() ==> (Sits(t1, i) <==> Sits(t, i) && t.seats[i].uuid != uuid)) &&
      (forall i :: 0 <= i < t.N() && Sits(t1, i) ==> t1.seats[i].uuid == t.seats[i].uuid) &&
      t1.admin == if uuid == t.admin && (exists i :: 0 <= i < t.N() && t.seats[i].uuid == uuid) then UuidAt(t, Heir(t, uuid)) else t.admin
  {
    PlaceOfFinds(t.seats, uuid, t.N());
  }

  lemma LeaveKeepsAdministrator(t: TableState, uuid: nat)
    requires SeatsInv(t) && HasAdministrator(t) && uuid != INVALID_UID
    ensures RemovePlayer(t, uuid).Sized()
    ensures HasAdministrator(RemovePlayer(t, uuid)) <==> !LosesAdministrator(t, Left(uuid))
    ensures forall i: nat :: uuid == t.admin && FirstOther(t, uuid, i) && !Empty(t) ==>
      RemovePlayer(t, uuid).admin == t.seats[i].uuid
  {
    hide RemovePlayer, Heir, FirstOther;
    SitsAfterLeave(t, uuid);
    HeirIsFirstOther(t, uuid);
    FirstOtherSits(t, uuid);
    var t1, heir := RemovePlayer(t, uuid), Heir(t, uuid);
    if uuid == t.admin {
      if heir < t.N() && Sits(t, heir) {
        assert Sits(t1, heir);
      }
    } else if !Empty(t) {
      var i :| 0 <= i < t.N() && Sits(t, i) && t.seats[i].uuid == t.admin;
      assert Sits(t1, i);
    }
  }

  lemma FirstOtherSits(t: TableState, uuid: nat)
    requires t.Sized()
    ensures forall i: nat :: FirstOther(t, uuid, i) ==> i < t.N() && t.seats[i].uuid != uuid
  {
  }

  /** A request moves nobody and appoints nobody. */
  lemma RequestKeepsPlayers(t: TableState, src: nat, req: Request, s: Source)
    requires Ready(t)
    ensures var t1 := ExecuteRequest(t, src, req, s).0; SameSeating(t, t1) && t1.admin == t.admin
  {
    hide OnAck, OnNewGame, OnBid, OnDiscard, OnKingCall, OnHandle, OnCard, PlaceOf;
    var p := GetPlayerPlace(t, src);
    match req
    case ReqAck(step) => AckKeepsPlaces(t, src, step, s);
    case ReqNewGame(deals) => NewGameKeepsPlaces(t, src, deals);
    case ReqBid(contract, slam) => OnBidDoes(t, p, contract, slam);
    case ReqDiscard(discard) => OnDiscardDoes(t, p, discard);
    case ReqKingCall(king) => OnKingCallDoes(t, p, king);
    case ReqHandle(handle) => OnHandleDoes(t, p, handle);
    case ReqCard(card) => OnCardDoes(t, p, card);
    case _ =>
  }

  lemma NewGameKeepsPlaces(t: TableState, src: nat, deals: nat)
    requires Ready(t)
    ensures var t1 := OnNewGame(t, src, deals).0; SameSeating(t, t1) && t1.admin == t.admin
  {
    hide NewScore, ToAll;
  }

  lemma AckKeepsPlaces(t: TableState, src: nat, step: string, s: Source)
    requires Ready(t)
    ensures var t1 := OnAck(t, src, step, s).0; SameSeating(t, t1) && t1.admin == t.admin
  {
    hide Barrier, PlaceOf, PhaseOfStep;
    var t1 := Sync(t, PhaseOfStep(step), src).0;
    assert SameSeating(t, t1) && t1.admin == t.admin && Ready(t1);
    BarrierKeepsPlaces(t1, PhaseOfStep(step), s);
  }

  lemma BarrierKeepsPlaces(t: TableState, phase: Phase, s: Source)
    requires Ready(t)
    ensures var t1 := Barrier(t, phase, s).0; SameSeating(t, t1) && t1.admin == t.admin
  {
    hide Engines.NewDeal, StartDeal, PlaySequence, AddPoints, ToAll, StepMessages, DealMessages, BidSequence,
         ManageAfterBidSequence, NewScore;
    BarrierSameSize(t, phase, s);
    SameRoomAfterBid(t.engine);
  }

  /**
   * Whatever happens to a table, somebody who sits at it administrates it -- except when the administrator leaves
   * and the first other seat is free: then nobody does, although others sit there.
   */
  lemma StepKeepsAdministrator(t: TableState, ev: Event)
    requires TableInv(t) && Allowed(t, ev) && HasAdministrator(t)
    ensures Step(t, ev).Sized()
    ensures HasAdministrator(Step(t, ev)) <==> !LosesAdministrator(t, ev)
  {
    hide Engines.Inv, TournamentInv, AddPlayer, RemovePlayer, ExecuteRequest, NobodyBids, Meant;
    assert Ready(t) by { TableReady(t); }
    match ev
    case Joined(uuid) =>
      JoinKeepsAdministrator(t, uuid) by { MeantUuid(t.N(), ev); }
      SizedAfter(t, uuid);
    case Left(uuid) =>
      LeaveKeepsAdministrator(t, uuid) by { MeantUuid(t.N(), ev); }
      SizedAfter(t, uuid);
    case Received(src, req, s) =>
      RequestKeepsPlayers(t, src, req, s);
      var t1 := Step(t, ev);
      assert forall i :: 0 <= i < t.N() ==> (Sits(t1, i) <==> Sits(t, i));
      if !Empty(t) {
        var i :| 0 <= i < t.N() && Sits(t, i) && t.seats[i].uuid == t.admin;
        assert Sits(t1, i);
      }
  }

  /** A table just created is empty and nobody administrates it. */
  lemma NewTableHasNobody(t: TableState, n: nat, dealer: Place)
    requires PlayerCount(n)
    ensures var t1 := CreateTable(t, n, dealer); t1.Sized() && Empty(t1) && HasAdministrator(t1)
  {
  }

  /** No such leave happens in the course of the events. */
  predicate NoLoss(t: TableState, events: seq<Event>)
    decreases |events|
  {
    events == [] || (Ready(t) && !LosesAdministrator(t, events[0]) && NoLoss(Step(t, events[0]), events[1..]))
  }

  /** So from its creation on a table has an administrator as soon as somebody sits there, until such a leave. */
  lemma {:induction false} RunKeepsAdministrator(t: TableState, events: seq<Event>)
    requires TableInv(t) && AllAllowed(t, events) && HasAdministrator(t) && NoLoss(t, events)
    ensures Run(t, events).Sized() && HasAdministrator(Run(t, events))
    decreases |events|
  {
    hide TableInv, Meant, NobodyBids, LosesAdministrator, HasAdministrator, Step;
    if events != [] {
      StepKeepsAdministrator(t, events[0]);
      StepKeeps(t, events[0]);
      RunKeepsAdministrator(Step(t, events[0]), events[1..]);
    } else {
      SizedTable(t);
    }
  }

  lemma SizedTable(t: TableState)
    requires TableInv(t)
    ensures t.Sized()
  {
  }

  lemma MeantUuid(n: nat, ev: Event)
    requires Meant(n, ev) && !ev.Received?
    ensures ev.uuid != INVALID_UID
  {
  }

  lemma SizedAfter(t: TableState, uuid: nat)
    requires t.Sized()
    ensures AddPlayer(t, uuid).0.Sized() && RemovePlayer(t, uuid).Sized()
  {
    hide PlaceOf;
  }

  /** Such a table: the administrator in the first seat, the second free, another player in the third. */
  lemma AdministratorLost(t: TableState)
    requires SeatsInv(t) && t.N() == 4 && t.admin == 1
    requires t.seats[0].uuid == 1 && t.seats[1].uuid == INVALID_UID && t.seats[2].uuid == 2 && t.seats[3].uuid == INVALID_UID
    ensures HasAdministrator(t) && LosesAdministrator(t, Left(1))
    ensures RemovePlayer(t, 1).admin == INVALID_UID && RemovePlayer(t, 1).seats[2].uuid == 2
  {
    assert Sits(t, 0) && Sits(t, 2);
    assert FirstOther(t, 1, 1) && !Sits(t, 1);
    LeaveKeepsAdministrator(t, 1);
  }
}
