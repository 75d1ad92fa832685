/** Who is asked for a handle, over the play of a deal. */
module Handles {
  import opened Tarot
  import opened Decks
  import opened Context
  import opened Engines
  import opened EngineProofs
  import opened Tables
  import opened TableProofs
  import opened Deals
  import opened Play

  /**
   * In the first trick the seats up to the one to play have been asked, that one as well once its handle or its card
   * is waited for; from the second trick on everybody has.
   */
  predicate AskedInTurn(e: EngineState) {
    Sound(e) &&
    var reached := e.position + if e.phase in {WaitForHandle, WaitForShowHandle, WaitForPlayedCard} then 1 else 0;
    forall p :: 0 <= p < e.N() ==>
      (e.handleAsked[p] <==> e.trickCounter > 0 || Offset(e.ctx.firstPlayer, p, e.N()) < reached)
  }

  lemma NextPlayerIsAsked(e: EngineState)
    requires Engines.Inv(e) && AskedInTurn(e) && e.position < e.N()
    requires e.phase in {WaitForStartDeal, WaitForHandle, WaitForShowHandle, WaitForShowCard, WaitForEndOfTrick}
    ensures var e' := PlaySequence(e);
      AskedInTurn(e') &&
      (e'.phase == WaitForHandle <==> e.trickCounter == 0 && e.phase in {WaitForStartDeal, WaitForShowCard}) &&
      e'.handleAsked == if e'.phase == WaitForHandle then e.handleAsked[e.currentPlayer := true] else e.handleAsked
  {
    hide SizesInv, ScoreInv, TableCards, Complete, SetTrick, AnalyzeGame;
    NextPlayerTurn(e);
    if e.trickCounter == 0 {
      OnlyCurrentMoves(e.currentPlayer, e.ctx.firstPlayer, e.position, e.N());
    }
  }

  lemma FullTrickAsksNobody(e: EngineState)
    requires Engines.Inv(e) && AskedInTurn(e) && e.position == e.N() && e.phase == WaitForShowCard
    ensures var e' := PlaySequence(e);
      AskedInTurn(e') && e'.phase != WaitForHandle && e'.handleAsked == e.handleAsked
  {
    hide SizesInv, ScoreInv, TableCards, Complete, SetTrick, AnalyzeGame;
    SetTrickKeeps(e.ctx, e.currentTrick, e.trickCounter + 1);
    GameSequenceKeeps(e);
  }

  /** A step of the play asks the seat to play if it has not been asked, and nobody else. */
  lemma SequenceAsks(e: EngineState)
    requires Engines.Inv(e) && AskedInTurn(e)
    requires e.phase in {WaitForStartDeal, WaitForHandle, WaitForShowHandle, WaitForShowCard, WaitForEndOfTrick}
    ensures var e' := PlaySequence(e);
      AskedInTurn(e') &&
      (e'.phase == WaitForHandle ==>
        e.currentPlayer < e.N() && !e.handleAsked[e.currentPlayer] &&
        e'.handleAsked == e.handleAsked[e.currentPlayer := true]) &&
      (e'.phase != WaitForHandle ==> e'.handleAsked == e.handleAsked)
  {
    hide SizesInv, ScoreInv, TableCards, Complete, PlaySequence;
    if e.position < e.N() {
      NextPlayerIsAsked(e);
      if e.trickCounter == 0 {
        OnlyCurrentMoves(e.currentPlayer, e.ctx.firstPlayer, e.position, e.N());
      }
    } else {
      FullTrickAsksNobody(e);
    }
  }

  lemma SetTrickKeeps(c: Ctx, trick: Cards, counter: nat)
    requires c.Sized() && 1 <= counter <= MAX_TRICKS + 1
    ensures SetTrick(c, trick, counter).0.Sized() && SetTrick(c, trick, counter).0.nbPlayers == c.nbPlayers
    ensures SetTrick(c, trick, counter).0.firstPlayer == c.firstPlayer
  {
    hide Judge, Credit;
  }

  lemma CardAsks(e: EngineState, c: Card)
    requires Engines.Inv(e) && e.phase == WaitForPlayedCard && AskedInTurn(e)
    ensures var e' := SetCard(e, c, e.currentPlayer).0;
      e'.handleAsked == e.handleAsked && AskedInTurn(e')
  {
    hide SizesInv, ScoreInv, TableCards, Complete, CanPlayCard, Without;
  }

  lemma HandleAsks(e: EngineState, handle: Cards)
    requires Engines.Inv(e) && e.phase == WaitForHandle && AskedInTurn(e)
    ensures var e' := Engines.SetHandle(e, handle, e.currentPlayer).0;
      e'.handleAsked == e.handleAsked && AskedInTurn(e')
  {
    hide PlayInv, TestHandle;
  }

  /** Whatever happens in the play of a deal, a seat that is asked had not been asked before, and nobody is forgotten. */
  lemma StepAsks(t: TableState, ev: Event)
    requires TableInv(t) && Allowed(t, ev) && SameDeal(t.engine, Step(t, ev).engine) && AskedInTurn(t.engine)
    ensures var e, e' := t.engine, Step(t, ev).engine;
      AskedInTurn(e') &&
      (e'.phase == WaitForHandle && e != e' ==>
        e.currentPlayer < e.N() && !e.handleAsked[e.currentPlayer] &&
        e'.handleAsked == e.handleAsked[e.currentPlayer := true]) &&
      (e'.phase != WaitForHandle ==> e'.handleAsked == e.handleAsked)
  {
    hide PlayInv, AskedInTurn, Engines.SetHandle, SetCard, PlaySequence;
    var e, e' := t.engine, Step(t, ev).engine;
    assert Sound(e);
    if e' != e {
      PlayStepCases(t, ev);
      if e.phase == WaitForPlayedCard {
        CardAsks(e, ev.req.card);
      } else if e'.phase == WaitForShowHandle {
        PlayPhases(e);
        HandleAsks(e, ev.req.handle);
      } else {
        SequenceAsks(e);
      }
    }
  }

  lemma NobodyAskedYet(e: EngineState)
    requires Engines.Inv(e) && e.phase == WaitForStartDeal
    ensures AskedInTurn(e) && e.trickCounter == 0 && e.position == 0
  {
    hide SizesInv, ScoreInv, TableCards, Complete;
  }

  /**
   * From the start of a deal to any later moment of it each player has been asked for a handle once, in turn, before
   * the first card he plays: `NobodyAskedYet` is the start, and `StepAsks` that nobody is asked twice.
   */
  lemma {:induction false} HandlesAreAsked(t: TableState, events: seq<Event>)
    requires TableInv(t) && WithinDeal(t, events) && AllAllowed(t, events)
    requires t.engine.phase == WaitForStartDeal || AskedInTurn(t.engine)
    ensures AskedInTurn(Run(t, events).engine)
    decreases |events|
  {
    hide Engines.Inv, AskedInTurn, SeatsInv, TournamentInv;
    if t.engine.phase == WaitForStartDeal {
      NobodyAskedYet(t.engine);
    }
    if events != [] {
      StepKeeps(t, events[0]);
      StepSameSize(t, events[0]);
      assert WithinDeal(Step(t, events[0]), events[1..]);
      StepAsks(t, events[0]);
      HandlesAreAsked(Step(t, events[0]), events[1..]);
    }
  }
}
