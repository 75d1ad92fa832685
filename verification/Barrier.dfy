/** When the table moves on: the acknowledgement barrier over whole runs. */
module Barriers {
  import opened Tarot
  import opened Decks
  import opened Engines
  import opened EngineProofs
  import opened Scores
  import opened Tables
  import opened TableProofs
  import opened Deals
  import opened Play

  /** The acknowledgement that lets a phase handler run. */
  predicate Opens(t: TableState, ev: Event)
    requires Ready(t)
  {
    ev.Received? && ev.req.ReqAck? && GetPlayerPlace(t, ev.src) != NOWHERE &&
    PhaseOfStep(ev.req.step) != BadStep && Sync(t, PhaseOfStep(ev.req.step), ev.src).1
  }

  /** The table enters a phase, possibly the one it was in. */
  predicate Enters(t: TableState, ev: Event)
    requires Ready(t)
  {
    || Opens(t, ev)
    || (ev.Received? && ev.req.ReqNewGame? && ev.src == t.admin)
    || Step(t, ev).engine != t.engine
  }

  /** What had an effect on the table since it entered its present phase. */
  function History(t: TableState, events: seq<Event>, log: seq<Event>): seq<Event>
    decreases |events|
  {
    if events == [] || !Ready(t) then log
    else
      var t' := Step(t, events[0]);
      History(t', events[1..], if Enters(t, events[0]) then [] else if t' != t then log + [events[0]] else log)
  }

  /** The last word of a player in the log is an acknowledgement of the phase. */
  predicate HasAcked(log: seq<Event>, uuid: nat, phase: Phase) {
    log != [] &&
    var last := log[|log| - 1];
    var earlier := HasAcked(log[..|log| - 1], uuid, phase);
    match last
    case Joined(u) => u != uuid && earlier
    case Left(u) => u != uuid && earlier
    case Received(src, req, _) => (src == uuid && req.ReqAck? && PhaseOfStep(req.step) == phase) || earlier
  }

  /** The flags say exactly who acknowledged the present phase since it was entered. */
  predicate FlagsMatch(t: TableState, log: seq<Event>)
    requires t.Sized()
  {
    forall i :: 0 <= i < t.N() ==>
      (t.seats[i].ack <==> t.seats[i].uuid != INVALID_UID && HasAcked(log, t.seats[i].uuid, t.engine.phase))
  }

  lemma QuietMatches(t: TableState)
    requires Quiet(t)
    ensures FlagsMatch(t, [])
  {
  }

  lemma LogStep(log: seq<Event>, ev: Event, uuid: nat, phase: Phase)
    ensures HasAcked(log + [ev], uuid, phase) ==
      match ev
      case Joined(u) => u != uuid && HasAcked(log, uuid, phase)
      case Left(u) => u != uuid && HasAcked(log, uuid, phase)
      case Received(src, req, _) =>
        (src == uuid && req.ReqAck? && PhaseOfStep(req.step) == phase) || HasAcked(log, uuid, phase)
  {
    assert (log + [ev])[..|log|] == log;
  }

  lemma EnteringIsQuiet(t: TableState, ev: Event)
    requires TableInv(t) && Allowed(t, ev) && Enters(t, ev)
    ensures Quiet(Step(t, ev))
  {
    hide Engines.Inv, ZeroSum, Barrier, PhaseOfStep, PlaceOf, HandleNewGame, AddPlayer, RemovePlayer;
    StepKeeps(t, ev);
    match ev
    case Joined(uuid) => SeatsOnly(t, WaitForReady, uuid);
    case Left(uuid) => SeatsOnly(t, WaitForReady, uuid);
    case Received(src, req, s) =>
      if req.ReqAck? {
        AckEnters(t, src, req.step, s);
      } else if req.ReqNewGame? {
        NewGameKeeps(t.(deals := req.deals));
      } else {
        AnswerIsQuiet(t, src, req, s);
      }
  }

  lemma AckEnters(t: TableState, src: nat, step: string, s: Source)
    requires TableInv(t) && src != INVALID_UID && FairSource(s, t.N())
    requires Enters(t, Received(src, ReqAck(step), s))
    ensures Quiet(ExecuteRequest(t, src, ReqAck(step), s).0)
  {
    hide Engines.Inv, ZeroSum, Barrier, PhaseOfStep, PlaceOf;
    var phase := PhaseOfStep(step);
    StepNamesRoundTrip(phase, step);
    SeatsOnly(t, phase, src);
    SyncOpens(t, phase, src);
    SyncKeepsSeats(t, phase, src);
    if Sync(t, phase, src).1 {
      BarrierKeeps(Sync(t, phase, src).0, phase, s);
    }
  }

  /** An answer that changes the engine comes in a phase without flags, and sets none. */
  lemma AnswerIsQuiet(t: TableState, src: nat, req: Request, s: Source)
    requires TableInv(t) && Allowed(t, Received(src, req, s)) && !req.ReqAck? && !req.ReqNewGame?
    requires ExecuteRequest(t, src, req, s).0 != t
    ensures Quiet(ExecuteRequest(t, src, req, s).0)
    ensures ExecuteRequest(t, src, req, s).0.engine != t.engine
  {
    hide Engines.Inv, ZeroSum, PlaceOf, SeatsInv, HandleGameSequence, SetDiscard, SetKingCalled, Engines.SetBid,
         Engines.SetHandle, SetCard;
    var t' := ExecuteRequest(t, src, req, s).0;
    AnswerPhases(t, src, req, s);
    NoFlagWithoutAck(t);
    StepSameSize(t, Received(src, req, s));
    if req.ReqKingCall? {
      var t1 := t.(engine := SetKingCalled(t.engine, req.king).0);
      SeatsOnly(t1, WaitForReady, 0);
      QuietKept(t, t1);
      ResetIsQuiet(t1);
    } else {
      QuietKept(t, t');
    }
  }

  /** Between two entries the flags follow the log. */
  lemma StayingMatches(t: TableState, ev: Event, log: seq<Event>)
    requires TableInv(t) && Allowed(t, ev) && !Enters(t, ev) && FlagsMatch(t, log)
    ensures var t' := Step(t, ev);
      t'.Sized() && FlagsMatch(t', if t' != t then log + [ev] else log)
  {
    hide Engines.Inv, ZeroSum, PhaseOfStep, HasAcked;
    match ev
    case Joined(uuid) => JoinMatches(t, uuid, log);
    case Left(uuid) => LeaveMatches(t, uuid, log);
    case Received(src, req, s) =>
      if req.ReqAck? {
        AckMatches(t, src, req.step, s, log);
      } else if !req.ReqNewGame? && Step(t, ev) != t {
        AnswerIsQuiet(t, src, req, s);
      }
  }

  lemma JoinMatches(t: TableState, uuid: nat, log: seq<Event>)
    requires TableInv(t) && uuid != INVALID_UID && FlagsMatch(t, log)
    ensures var t' := AddPlayer(t, uuid).0;
      t'.Sized() && FlagsMatch(t', if t' != t then log + [Joined(uuid)] else log)
  {
    hide Engines.Inv, ZeroSum, HasAcked;
    PlaceOfFinds(t.seats, uuid, t.N());
    FirstSeatFinds(t.seats, (s: SeatState) => s.uuid == INVALID_UID, 0, t.N());
    forall u { LogStep(log, Joined(uuid), u, t.engine.phase); }
  }

  lemma LeaveMatches(t: TableState, uuid: nat, log: seq<Event>)
    requires TableInv(t) && uuid != INVALID_UID && FlagsMatch(t, log)
    ensures var t' := RemovePlayer(t, uuid);
      t'.Sized() && FlagsMatch(t', if t' != t then log + [Left(uuid)] else log)
  {
    hide Engines.Inv, ZeroSum, HasAcked;
    forall u { LogStep(log, Left(uuid), u, t.engine.phase); }
  }

  lemma AckMatches(t: TableState, src: nat, step: string, s: Source, log: seq<Event>)
    requires TableInv(t) && src != INVALID_UID && FlagsMatch(t, log)
    requires !Opens(t, Received(src, ReqAck(step), s))
    ensures var t' := ExecuteRequest(t, src, ReqAck(step), s).0;
      t'.Sized() && FlagsMatch(t', if t' != t then log + [Received(src, ReqAck(step), s)] else log)
  {
    hide Engines.Inv, ZeroSum, PhaseOfStep, HasAcked, Barrier;
    PlaceOfFinds(t.seats, src, t.N());
    forall u { LogStep(log, Received(src, ReqAck(step), s), u, t.engine.phase); }
  }

  lemma {:induction false} HistoryMatches(t: TableState, events: seq<Event>, log: seq<Event>)
    requires TableInv(t) && FlagsMatch(t, log) && AllAllowed(t, events)
    ensures TableInv(Run(t, events)) && FlagsMatch(Run(t, events), History(t, events, log))
    decreases |events|
  {
    hide Engines.Inv, SeatsInv, FlagsMatch, Enters, Step, ZeroSum;
    if events != [] {
      var ev, t' := events[0], Step(t, events[0]);
      StepKeeps(t, ev);
      StepSameSize(t, ev);
      if Enters(t, ev) {
        EnteringIsQuiet(t, ev);
        QuietMatches(t');
        HistoryMatches(t', events[1..], []);
      } else {
        StayingMatches(t, ev, log);
        HistoryMatches(t', events[1..], if t' != t then log + [ev] else log);
      }
    }
  }

  /**
   * The barrier. After any run from a table without flags, an acknowledgement makes a handler run
   * exactly when it names the present phase and each seat is taken by a player who sent it, now or
   * earlier since the phase was entered and without leaving the table in between.
   */
  lemma BarrierIsSafe(t0: TableState, events: seq<Event>, src: nat, step: string, s: Source)
    requires TableInv(t0) && Quiet(t0) && src != INVALID_UID
    requires AllAllowed(t0, events)
    ensures var t := Run(t0, events);
      TableInv(t) &&
      var log := History(t0, events, []);
      Opens(t, Received(src, ReqAck(step), s)) <==>
        AckPhase(t.engine.phase) && PhaseOfStep(step) == t.engine.phase && GetPlayerPlace(t, src) != NOWHERE &&
        forall i :: 0 <= i < t.N() ==>
          t.seats[i].uuid != INVALID_UID && (t.seats[i].uuid == src || HasAcked(log, t.seats[i].uuid, t.engine.phase))
  {
    hide Engines.Inv, ZeroSum, HasAcked;
    QuietMatches(t0);
    HistoryMatches(t0, events, []);
    var t := Run(t0, events);
    SyncOpens(t, PhaseOfStep(step), src);
    StepNamesRoundTrip(WaitForReady, step);
  }
}
