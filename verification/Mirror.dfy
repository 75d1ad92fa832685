/** Whenever the table waits for a card, every bot holds the hand and sees the trick the engine has. */
module Mirror {
  import opened Tarot
  import opened Decks
  import opened Context
  import opened Engines
  import opened EngineProofs
  import opened Scores
  import opened Tables
  import opened TableProofs
  import opened Deals
  import opened Play
  import opened Bots

  // ---------------------------------------------------------------- what a bot owes the table

  /** The acknowledgement of the discard, which the table does not understand. */
  const JUNK := ReqAck("BadSeq")

  /** The seat whose answer the engine waits for. */
  predicate Answering(e: EngineState, i: nat) {
    if e.phase == WaitForDiscard then i == e.ctx.bid.taker else i == e.currentPlayer
  }

  /** A pass, or a bid above the highest one. */
  predicate OneBid(u: seq<Request>, e: EngineState) {
    |u| == 1 && u[0].ReqBid? && PASS <= u[0].contract <= GUARD_AGAINST &&
    (u[0].contract == PASS || u[0].contract > e.ctx.bid.contract)
  }

  predicate OneCard(u: seq<Request>, e: EngineState, i: nat) {
    |u| == 1 && u[0].ReqCard? && u[0].card.IsValid() && SetCard(e, u[0].card, i).1
  }

  predicate OneDiscard(u: seq<Request>, e: EngineState) {
    |u| == 2 && u[0].ReqDiscard? && u[1] == JUNK && (SetDiscard(e, u[0].discard).1 <==> CanDiscard(e))
  }

  /** What a seat has still to say in the present phase, once it has read its messages. */
  predicate Owes(t: TableState, i: nat, u: seq<Request>)
    requires i < |t.seats|
  {
    var e := t.engine;
    var acks := if t.seats[i].ack then [] else [ReqAck(StepOfPhase(e.phase))];
    if AckPhase(e.phase) then u == acks || (e.phase == WaitForStartDeal && !t.seats[i].ack && u == [JUNK] + acks)
    else if !Answering(e, i) then u == []
    else match e.phase
      case WaitForBid => OneBid(u, e)
      case WaitForHandle => u == [ReqHandle([])]
      case WaitForPlayedCard => OneCard(u, e, i)
      case WaitForDiscard => OneDiscard(u, e) || (!CanDiscard(e) && (u == [JUNK] || u == []))
      case _ => false
  }

  // ---------------------------------------------------------------- what a bot knows

  predicate Dealt(p: Phase) {
    p !in {BadStep, Stopped, WaitForPlayers, WaitForReady}
  }

  /** The phases in which the current trick is on the table. */
  predicate TrickShown(p: Phase) {
    p in {WaitForStartDeal, WaitForHandle, WaitForShowHandle, WaitForPlayedCard, WaitForShowCard, WaitForEndOfTrick}
  }

  /** The hand of a bot once it has read its messages: that of its seat, less a card or a discard it has sent. */
  predicate HandMirrored(e: EngineState, i: nat, b: BotState, u: seq<Request>) {
    if e.phase == WaitForPlayedCard && Answering(e, i) then
      |u| == 1 && u[0].ReqCard? && b.deck == Without(e.Hand(i), u[0].card)
    else if e.phase == WaitForDiscard && Answering(e, i) then
      CanDiscard(e) ==> |u| == 2 && u[0].ReqDiscard? && b.deck == WithoutAll(e.Hand(i) + e.ctx.dog, u[0].discard)
    else Dealt(e.phase) ==> b.deck == e.Hand(i)
  }

  /** Once a seat has spoken, the highest bid a bot remembers is that of the engine. */
  predicate BidsHeard(e: EngineState, b: BotState) {
    e.phase == WaitForShowBid || (e.phase == WaitForBid && e.position > 0) ==> b.highestBid == e.ctx.bid.contract
  }

  predicate Knows(e: EngineState, i: nat, b: BotState, u: seq<Request>) {
    b.place == i && HandMirrored(e, i, b, u) && BidsHeard(e, b) &&
    (TrickShown(e.phase) ==> b.trick == e.currentTrick) &&
    (e.phase == WaitForShowDog ==> b.dog == e.ctx.dog)
  }

  predicate SeatInv(t: TableState, i: nat, b: BotState, u: seq<Request>)
    requires i < |t.seats|
  {
    Owes(t, i, u) && Knows(t.engine, i, b, u)
  }

  /** A table of four with every seat taken, running by itself. */
  predicate FullTable(t: TableState) {
    TableInv(t) && t.N() == BOT_PLAYERS && AllSeated(t) && !t.adminMode && t.engine.phase !in {BadStep, Stopped}
  }

  predicate AllSeats(t: TableState, bs: seq<BotState>, us: seq<seq<Request>>) {
    FullTable(t) && |bs| == BOT_PLAYERS && |us| == BOT_PLAYERS &&
    forall i :: 0 <= i < BOT_PLAYERS ==> SeatInv(t, i, bs[i], us[i])
  }

  /** The phase a bot acknowledges on reading a message. */
  function AckedBy(m: Msg): Phase {
    match m
    case MsgNewGame => WaitForReady
    case MsgNewDeal(_) => WaitForCards
    case MsgShowBid(_, _, _, _) => WaitForShowBid
    case MsgAllPassed => WaitForAllPassed
    case MsgShowKingCall(_) => WaitForShowKingCall
    case MsgShowDog(_) => WaitForShowDog
    case MsgStartDeal(_, _) => WaitForStartDeal
    case MsgShowHandle(_, _) => WaitForShowHandle
    case MsgShowCard(_, _) => WaitForShowCard
    case MsgEndOfTrick(_) => WaitForEndOfTrick
    case MsgEndOfDeal => WaitForEndOfDeal
    case MsgEndOfGame => WaitForReady
    case _ => BadStep
  }

  /** A message that belongs to the present phase, for the bot that has not read it yet. */
  predicate Fits(e: EngineState, i: nat, b: BotState, m: Msg) {
    if AckPhase(e.phase) then AckedBy(m) == e.phase
    else match e.phase
      case WaitForBid => m.MsgRequestBid?
      case WaitForHandle => m == MsgAskForHandle && Answering(e, i)
      case WaitForDiscard => m == MsgBuildDiscard && Answering(e, i)
      case WaitForPlayedCard =>
        m == MsgPlayCard(e.currentPlayer) && b.place == i && b.deck == e.Hand(i) && b.trick == e.currentTrick
      case _ => false
  }

  predicate Fresh(e: EngineState, i: nat, b: BotState, ms: seq<Msg>) {
    ms == [] || (|ms| == 1 && Fits(e, i, b, ms[0]))
  }

  /** What seat i knows and owes after reading the messages a request caused. */
  predicate After(t: TableState, i: nat, b: BotState, u: seq<Request>, ms: seq<Msg>, script: Script)
    requires i < |t.seats|
  {
    SeatInv(t, i, Receive(b, ms, script).0, u + Receive(b, ms, script).1) && Fresh(t.engine, i, b, ms)
  }

  /** The same, on entering a phase: a phase that is to be acknowledged is announced to everyone. */
  predicate Entered(t: TableState, i: nat, b: BotState, u: seq<Request>, ms: seq<Msg>, script: Script)
    requires i < |t.seats|
  {
    After(t, i, b, u, ms, script) && (AckPhase(t.engine.phase) ==> ms != [])
  }

  lemma Acknowledges(b: BotState, m: Msg, script: Script)
    requires AckPhase(AckedBy(m))
    ensures HandleMessage(b, m, script).1 == Ack(AckedBy(m))
  {
  }

  // ---------------------------------------------------------------- messages

  lemma ReceiveOne(b: BotState, m: Msg, script: Script)
    ensures Receive(b, [m], script) == HandleMessage(b, m, script)
  {
    hide HandleMessage;
    var (b1, sent) := HandleMessage(b, m, script);
    assert [m][1..] == [] && sent + [] == sent;
  }

  lemma {:induction false} ReceiveMore(b: BotState, ms: seq<Msg>, more: seq<Msg>, script: Script)
    ensures var (b1, sent) := Receive(b, ms, script);
      Receive(b, ms + more, script) == (Receive(b1, more, script).0, sent + Receive(b1, more, script).1)
    decreases |ms|
  {
    hide HandleMessage;
    if ms == [] {
      assert ms + more == more && [] + Receive(b, more, script).1 == Receive(b, more, script).1;
    } else {
      assert (ms + more)[1..] == ms[1..] + more;
      var (b1, sent) := HandleMessage(b, ms[0], script);
      ReceiveMore(b1, ms[1..], more, script);
      var (b2, later) := Receive(b1, ms[1..], script);
      assert sent + (later + Receive(b2, more, script).1) == (sent + later) + Receive(b2, more, script).1;
    }
  }

  lemma {:induction false} SeatedHas(seats: seq<SeatState>, n: nat, i: nat)
    requires n <= |seats|
    ensures i < n && seats[i].uuid != INVALID_UID ==> seats[i].uuid in Seated(seats, n)
  {
    if n > 0 && i < n - 1 {
      SeatedHas(seats, n - 1, i);
    }
  }

  lemma OneReply(uuid: nat, r: Reply)
    ensures MessagesFor(uuid, [r]) == if uuid in r.dest then [r.msg] else []
  {
    assert [r][..0] == [];
  }

  /** A broadcast reaches every seat, a private message only its own. */
  lemma ForSeat(t: TableState, i: nat, p: Place, m: Msg)
    requires SeatsInv(t) && AllSeated(t) && i < t.N()
    ensures MessagesFor(UuidAt(t, i), ToAll(t, m)) == [m]
    ensures p < t.N() ==> MessagesFor(UuidAt(t, i), ToSeat(t, p, m)) == if i == p then [m] else []
  {
    SeatedHas(t.seats, t.N(), i);
    OneReply(UuidAt(t, i), ToAll(t, m)[0]);
    OneReply(UuidAt(t, i), ToSeat(t, p, m)[0]);
  }

  lemma OneMoreReply(uuid: nat, replies: seq<Reply>, r: Reply)
    ensures MessagesFor(uuid, replies + [r]) == MessagesFor(uuid, replies) + if uuid in r.dest then [r.msg] else []
  {
    assert (replies + [r])[..|replies|] == replies;
  }

  lemma {:induction false} DealForSeat(t: TableState, i: nat, k: nat)
    requires SeatsInv(t) && AllSeated(t) && i < t.N() && k <= t.N()
    ensures MessagesFor(UuidAt(t, i), DealMessages(t, k)) ==
      if i < k then [MsgNewDeal(t.engine.Hand(i))] else []
  {
    hide MessagesFor;
    if k == 0 {
      NoMessages(UuidAt(t, i));
    } else {
      DealForSeat(t, i, k - 1);
      OneMoreReply(UuidAt(t, i), DealMessages(t, k - 1), Reply([UuidAt(t, k - 1)], MsgNewDeal(t.engine.Hand(k - 1))));
    }
  }

  // ---------------------------------------------------------------- entering a phase

  /** What a phase handler starts from: all flags forgotten, every seat taken. */
  predicate Opening(t: TableState) {
    Quiet(t) && Engines.Inv(t.engine) && TournamentInv(t) && t.N() == BOT_PLAYERS && AllSeated(t) && !t.adminMode
  }

  /** A phase that every bot acknowledges on reading m. */
  lemma AckEntered(t: TableState, i: nat, b: BotState, u: seq<Request>, m: Msg, script: Script)
    requires i < |t.seats| && AckPhase(t.engine.phase) && !t.seats[i].ack
    requires u == [] || (u == [JUNK] && t.engine.phase == WaitForStartDeal)
    requires AckedBy(m) == t.engine.phase
    requires Knows(t.engine, i, HandleMessage(b, m, script).0, [])
    ensures Entered(t, i, b, u, [m], script)
  {
    hide HandleMessage, Without, WithoutAll;
    ReceiveOne(b, m, script);
    Acknowledges(b, m, script);
  }

  /** A seat that is not asked for anything in the new phase. */
  lemma NothingAsked(t: TableState, i: nat, b: BotState, script: Script)
    requires i < |t.seats| && !AckPhase(t.engine.phase) && !Answering(t.engine, i)
    requires Knows(t.engine, i, b, [])
    ensures Entered(t, i, b, [], [], script)
  {
    hide Without, WithoutAll;
  }

  lemma NewGameEntered(t: TableState, i: nat, b: BotState, script: Script)
    requires Ready(t) && SeatsInv(t) && AllSeated(t) && i < t.N() && b.place == i
    ensures var (t1, replies) := HandleNewGame(t);
      i < |t1.seats| && Entered(t1, i, b, [], MessagesFor(UuidAt(t, i), replies), script)
  {
    hide MessagesFor;
    var t1 := HandleNewGame(t).0;
    assert SeatsInv(t1) && AllSeated(t1) by { ResetSeating(t); }
    ForSeat(t1, i, 0, MsgNewGame);
    AckEntered(t1, i, b, [], MsgNewGame, script);
  }

  lemma ResetSeating(t: TableState)
    requires SeatsInv(t) && AllSeated(t)
    ensures SeatsInv(ResetAck(t)) && AllSeated(ResetAck(t))
    ensures forall i :: 0 <= i < t.N() ==> UuidAt(ResetAck(t), i) == UuidAt(t, i)
  {
    assert !ResetAck(t).seats[0].ack;
  }

  lemma NewDealEntered(t: TableState, s: Source, i: nat, b: BotState, script: Script)
    requires Ready(t) && Quiet(t) && AllSeated(t) && i < t.N() && b.place == i
    ensures var (t1, replies) := HandleNewDeal(t, s);
      i < |t1.seats| && Entered(t1, i, b, [], MessagesFor(UuidAt(t, i), replies), script)
  {
    hide MessagesFor, Engines.NewDeal, Owes;
    var t1 := HandleNewDeal(t, s).0;
    NewDealPhase(t.engine, s);
    DealForSeat(t1, i, t1.N());
    AckEntered(t1, i, b, [], MsgNewDeal(t1.engine.Hand(i)), script);
  }

  /** The auction moves no card. */
  lemma BidSequenceMoves(e: EngineState)
    requires Engines.Inv(e) && (e.phase == WaitForCards || e.phase == WaitForShowBid) && e.N() == BOT_PLAYERS
    ensures var e1 := BidSequence(e);
      e1.phase in {WaitForBid, WaitForAllPassed, WaitForShowDog, WaitForStartDeal} &&
      e1.players == e.players && e1.currentTrick == e.currentTrick == [] && e1.ctx.dog == e.ctx.dog && e1.N() == e.N() &&
      e1.ctx.Sized() && e1.ctx.bid.contract == e.ctx.bid.contract &&
      (e1.phase == WaitForBid && e1.position == 0 ==> e1.ctx.bid.contract == NO_ANY) &&
      (e1.phase == WaitForBid && e1.position > 0 ==> e.phase == WaitForShowBid)
  {
    hide NothingPlayed, Complete;
  }

  lemma StartDealEntered(t: TableState, i: nat, b: BotState, u: seq<Request>, script: Script)
    requires Ready(t) && Quiet(t) && AllSeated(t) && i < t.N() && b.place == i && t.engine.phase == WaitForStartDeal
    requires b.deck == t.engine.Hand(i) && t.engine.currentTrick == [] && (u == [] || u == [JUNK])
    ensures var (t1, replies) := HandleStartDeal(t);
      i < |t1.seats| && Entered(t1, i, b, u, MessagesFor(UuidAt(t, i), replies), script)
  {
    hide MessagesFor, Owes, ToAll;
    var t1 := HandleStartDeal(t).0;
    var m := MsgStartDeal(t1.engine.currentPlayer, t1.engine.ctx.bid);
    ForSeat(t1, i, 0, m);
    AckEntered(t1, i, b, u, m, script);
  }

  lemma BidEntered(t: TableState, i: nat, b: BotState, script: Script)
    requires Opening(t) && (t.engine.phase == WaitForCards || t.engine.phase == WaitForShowBid)
    requires i < t.N() && Knows(t.engine, i, b, [])
    ensures var (t1, replies) := NextBidSequence(t.(engine := BidSequence(t.engine)));
      i < |t1.seats| && Entered(t1, i, b, [], MessagesFor(UuidAt(t, i), replies), script)
  {
    hide MessagesFor, Owes, ToAll, BidSequence, HandleStartDeal, Engines.Inv;
    BidSequenceMoves(t.engine);
    var t0 := t.(engine := BidSequence(t.engine));
    QuietKept(t, t0);
    if t0.engine.phase == WaitForStartDeal {
      StartDealEntered(t0, i, b, [], script);
    } else if t0.engine.phase == WaitForBid {
      var m := MsgRequestBid(t0.engine.currentPlayer, t0.engine.ctx.bid.contract);
      ForSeat(t0, i, 0, m);
      BidRequested(t0, i, b, m, script);
    } else {
      var m := if t0.engine.phase == WaitForShowDog then MsgShowDog(t0.engine.ctx.dog) else MsgAllPassed;
      ForSeat(t0, i, 0, m);
      AckEntered(t0, i, b, [], m, script);
    }
  }

  /** Only the bot whose turn it is answers, with a bid that is one. */
  lemma BidRequested(t: TableState, i: nat, b: BotState, m: Msg, script: Script)
    requires i < |t.seats| && t.engine.phase == WaitForBid && m.MsgRequestBid? && m.place == t.engine.currentPlayer
    requires b.place == i && b.deck == t.engine.Hand(i) && BidsHeard(t.engine, b)
    requires t.engine.position == 0 ==> t.engine.ctx.bid.contract == NO_ANY
    ensures Entered(t, i, b, [], [m], script)
  {
    hide SetCard, SetDiscard;
    ReceiveOne(b, m, script);
  }

  lemma DogEntered(t: TableState, i: nat, b: BotState, script: Script)
    requires Opening(t) && t.engine.phase == WaitForShowDog && i < t.N() && Knows(t.engine, i, b, [])
    ensures var t1 := t.(engine := DiscardSequence(t.engine));
      i < |t1.seats| &&
      Entered(t1, i, b, [], MessagesFor(UuidAt(t, i), ToSeat(t1, t1.engine.ctx.bid.taker, MsgBuildDiscard)), script)
  {
    hide MessagesFor, Owes, ToSeat;
    var t1 := t.(engine := DiscardSequence(t.engine));
    assert t1.engine.ctx.bid.taker < t1.N() by { ContractOf(t.engine); }
    QuietKept(t, t1);
    ForSeat(t1, i, t1.engine.ctx.bid.taker, MsgBuildDiscard);
    if i == t1.engine.ctx.bid.taker {
      DiscardRequested(t1, i, b, script);
    } else {
      NothingAsked(t1, i, b, script);
    }
  }

  lemma ContractOf(e: EngineState)
    requires Engines.Inv(e) && (e.phase == WaitForShowDog || e.phase == WaitForDiscard)
    ensures e.ctx.bid.taker < e.N() && BeforePlay(e)
  {
    hide BeforePlay;
  }

  /** The discard a bot chooses is accepted exactly when one is possible. */
  lemma DiscardRequested(t: TableState, i: nat, b: BotState, script: Script)
    requires i < |t.seats| && t.engine.phase == WaitForDiscard && t.N() == BOT_PLAYERS && Sound(t.engine)
    requires BeforePlay(t.engine) && i == t.engine.ctx.bid.taker < t.N()
    requires b.place == i && b.deck == t.engine.Hand(i) && b.dog == t.engine.ctx.dog
    ensures Entered(t, i, b, [], [MsgBuildDiscard], script)
  {
    hide BeforePlay, SetCard, TestDiscard, AutoDiscard, WithoutAll, Discardables;
    ReceiveOne(b, MsgBuildDiscard, script);
    ChosenIsAccepted(t.engine, b, script(b.calls));
  }

  lemma ChosenIsAccepted(e: EngineState, b: BotState, a: Answer)
    requires Sound(e) && BeforePlay(e) && e.N() == BOT_PLAYERS && e.ctx.bid.taker < e.N()
    requires b.deck == e.Hand(e.ctx.bid.taker) && b.dog == e.ctx.dog
    ensures TestDiscard(b.deck, ChosenDiscard(b, a), b.dog, BOT_PLAYERS) <==> CanDiscard(e)
  {
    hide FullDeck, NothingPlayed, WithoutAll, Discardables, AutoDiscard, TestDiscard;
    var taker := e.ctx.bid.taker;
    InFlatten(e.Hands(), taker);
    CompleteAtMostOnce(Flatten(e.Hands()) + e.ctx.dog, b.deck + b.dog);
    AutoDiscardAccepted(b.deck, b.dog, BOT_PLAYERS);
    if TestDiscard(b.deck, ChosenDiscard(b, a), b.dog, BOT_PLAYERS) {
      ValidDiscardSize(b.deck, ChosenDiscard(b, a), b.dog);
      DiscardablesHold(b.deck, b.dog, ChosenDiscard(b, a), BOT_PLAYERS);
    }
  }

  lemma ValidDiscardSize(hand: Cards, discard: Cards, dog: Cards)
    requires TestDiscard(hand, discard, dog, BOT_PLAYERS)
    ensures |discard| == DogSize(BOT_PLAYERS)
  {
  }

  /** A round of the play moves no card from a hand, and clears the trick only when it is stored. */
  lemma PlaySequenceShows(e: EngineState)
    requires Engines.Inv(e)
    requires e.phase in {WaitForStartDeal, WaitForHandle, WaitForShowHandle, WaitForShowCard, WaitForEndOfTrick}
    ensures var e1 := PlaySequence(e);
      e1.phase in {WaitForHandle, WaitForPlayedCard, WaitForEndOfTrick, WaitForEndOfDeal} &&
      e1.players == e.players && e1.N() == e.N() && e1.ctx.Sized() &&
      (e1.phase == WaitForEndOfTrick ==> e1.currentTrick == []) &&
      (e1.phase in {WaitForHandle, WaitForPlayedCard} ==>
        e1.currentTrick == e.currentTrick && e1.currentPlayer == e.currentPlayer < e1.N()) &&
      (e.phase == WaitForHandle ==> e1.phase == WaitForPlayedCard)
  {
    hide SizesInv, ScoreInv, TableCards, Complete, PlaySequence, TurnInv, ContractKnown;
    PlayPhases(e);
    PlayRoom(e);
    if e.phase == WaitForShowCard && e.position == e.N() {
      TrickStoredShows(e);
    } else {
      StoredInRange(e);
      NextPlayerTurn(e);
      CurrentSeated(PlaySequence(e));
      if e.phase == WaitForHandle { CardAfterHandle(e); }
    }
  }

  lemma PlayRoom(e: EngineState)
    requires Engines.Inv(e)
    requires e.phase in {WaitForStartDeal, WaitForHandle, WaitForShowHandle, WaitForShowCard, WaitForEndOfTrick}
    ensures Sound(PlaySequence(e)) && PlaySequence(e).N() == e.N()
  {
    hide PlayInv, PlaySequence;
    GameSequenceKeeps(e);
    EngineSameSize(e, Shuffled([]), 0, [], NO_CARD, 0, false);
  }

  lemma CurrentSeated(e: EngineState)
    requires Sound(e) && TurnInv(e) && e.position < e.N()
    ensures e.currentPlayer < e.N()
  {
  }

  lemma CardAfterHandle(e: EngineState)
    requires Engines.Inv(e) && e.phase == WaitForHandle
    ensures PlaySequence(e).phase == WaitForPlayedCard
  {
    hide SizesInv, ScoreInv, TableCards, Complete, SetTrick, AnalyzeGame, ContractKnown;
  }

  lemma TrickStoredShows(e: EngineState)
    requires Engines.Inv(e) && e.phase == WaitForShowCard && e.position == e.N()
    ensures var e1 := PlaySequence(e);
      e1.phase in {WaitForEndOfTrick, WaitForEndOfDeal} && e1.players == e.players && e1.currentTrick == []
  {
    hide SizesInv, ScoreInv, TableCards, Complete, SetTrick, AnalyzeGame, ContractKnown, TurnInv;
    NotLastYet(e);
    StoredFit(e);
  }

  /** The card a bot chooses is one the engine accepts. */
  lemma ChosenCardAccepted(e: EngineState, i: nat, b: BotState)
    requires Engines.Inv(e) && e.phase == WaitForPlayedCard && i == e.currentPlayer < e.N()
    requires b.deck == e.Hand(i) && b.trick == e.currentTrick
    ensures var c := FirstPlayable(b.deck, b.deck, b.trick); c.IsValid() && SetCard(e, c, i).1
  {
    hide FullDeck, ScoreInv, CanPlayCard, TableCards;
    TableCardsDistinct(e, i);
    OnlyCurrentMoves(i, CurrentLeader(e), e.position, e.N());
    SomeCardPlayable(b.deck, b.trick);
    FirstPlayableFound(b.deck, b.deck, b.trick);
  }

  lemma CardRequested(t: TableState, i: nat, b: BotState, m: Msg, script: Script)
    requires i < |t.seats| && i < t.N() && Engines.Inv(t.engine) && t.engine.phase == WaitForPlayedCard
    requires m == MsgPlayCard(t.engine.currentPlayer)
    requires b.place == i && b.deck == t.engine.Hand(i) && b.trick == t.engine.currentTrick
    ensures Entered(t, i, b, [], [m], script)
  {
    hide Engines.Inv, SetCard, SetDiscard, Without, WithoutAll;
    ReceiveOne(b, m, script);
    if i == t.engine.currentPlayer {
      ChosenCardAccepted(t.engine, i, b);
    }
  }

  lemma HandleRequested(t: TableState, i: nat, b: BotState, script: Script)
    requires i < |t.seats| && t.engine.phase == WaitForHandle && i == t.engine.currentPlayer
    requires b.place == i && b.deck == t.engine.Hand(i) && b.trick == t.engine.currentTrick
    ensures Entered(t, i, b, [], [MsgAskForHandle], script)
  {
    hide SetCard, SetDiscard, Without, WithoutAll;
    ReceiveOne(b, MsgAskForHandle, script);
  }

  lemma GameEntered(t: TableState, i: nat, b: BotState, script: Script)
    requires Opening(t) && i < t.N() && b.place == i && b.deck == t.engine.Hand(i) && b.trick == t.engine.currentTrick
    requires t.engine.phase in {WaitForStartDeal, WaitForHandle, WaitForShowHandle, WaitForShowCard, WaitForEndOfTrick}
    ensures var (t1, replies) := HandleGameSequence(t);
      i < |t1.seats| && Entered(t1, i, b, [], MessagesFor(UuidAt(t, i), replies), script)
  {
    hide MessagesFor, Entered, ToAll, ToSeat, PlaySequence, Engines.Inv, HandleMessage, SeatsInv, ZeroSum, Without, WithoutAll;
    PlaySequenceShows(t.engine);
    GameSequenceKeeps(t.engine);
    var t1 := HandleGameSequence(t).0;
    var p := t1.engine.currentPlayer;
    QuietKept(t, t1);
    if t1.engine.phase == WaitForPlayedCard {
      ForSeat(t1, i, 0, MsgPlayCard(p));
      CardRequested(t1, i, b, MsgPlayCard(p), script);
    } else if t1.engine.phase == WaitForHandle {
      ForSeat(t1, i, p, MsgAskForHandle);
      if i == p { HandleRequested(t1, i, b, script); } else { NothingAsked(t1, i, b, script); }
    } else {
      TrickOver(t1, i, b, script);
    }
  }

  lemma TrickOver(t: TableState, i: nat, b: BotState, script: Script)
    requires Quiet(t) && AllSeated(t) && i < t.N() && b.place == i && b.deck == t.engine.Hand(i)
    requires t.engine.phase == WaitForEndOfDeal || (t.engine.phase == WaitForEndOfTrick && t.engine.currentTrick == [])
    ensures var m := if t.engine.phase == WaitForEndOfDeal then MsgEndOfDeal else MsgEndOfTrick(t.engine.currentPlayer);
      Entered(t, i, b, [], MessagesFor(UuidAt(t, i), ToAll(t, m)), script)
  {
    hide MessagesFor, Entered, ToAll;
    var m := if t.engine.phase == WaitForEndOfDeal then MsgEndOfDeal else MsgEndOfTrick(t.engine.currentPlayer);
    ForSeat(t, i, 0, m);
    AckEntered(t, i, b, [], m, script);
  }

  lemma EndOfDealEntered(t: TableState, s: Source, i: nat, b: BotState, script: Script)
    requires Opening(t) && t.engine.phase == WaitForEndOfDeal && i < t.N() && b.place == i
    ensures var (t1, replies) := HandleEndOfDeal(t, s);
      i < |t1.seats| && Entered(t1, i, b, [], MessagesFor(UuidAt(t, i), replies), script)
  {
    hide MessagesFor, Owes, ToAll, HandleNewDeal, AddPoints, Engines.Inv;
    var (score, more) := AddPoints(t.score, t.engine.points, t.engine.ctx.bid, t.N());
    AddPointsCounts(t.score, t.engine.points, t.engine.ctx.bid, t.N());
    var t1 := t.(score := score);
    QuietKept(t, t1);
    if more {
      AddPointsSized(t.score, t.engine.points, t.engine.ctx.bid, t.N());
      NewDealEntered(t1, s, i, b, script);
    } else {
      var t2 := t1.(engine := Engines.NewGame(t1.engine));
      QuietKept(t, t2);
      ForSeat(t2, i, 0, MsgEndOfGame);
      AckEntered(t2, i, b, [], MsgEndOfGame, script);
    }
  }

  lemma AddPointsSized(s: ScoreState, p: Points, b: Bid, n: nat)
    requires s.Sized() && s.dealCounter < MAX_TURNS
    ensures AddPoints(s, p, b, n).0.Sized()
  {
  }

  /** After every barrier each bot knows and owes what the new phase asks. */
  lemma BarrierEntered(t: TableState, s: Source, i: nat, b: BotState, script: Script)
    requires Opening(t) && AckPhase(t.engine.phase) && i < t.N() && Knows(t.engine, i, b, [])
    ensures var (t1, replies) := Barrier(t, t.engine.phase, s);
      i < |t1.seats| && Entered(t1, i, b, [], MessagesFor(UuidAt(t, i), replies), script)
  {
    hide MessagesFor, Entered, HandleNewGame, HandleNewDeal, HandleGameSequence, HandleEndOfDeal, NextBidSequence, BidSequence,
         ManageAfterBidSequence, Engines.Inv, Quiet, ToSeat;
    if t.engine.phase == WaitForPlayers {
      assert SeatsInv(t) by { OpeningSeats(t); }
      NewGameEntered(t, i, b, script);
    } else if t.engine.phase in {WaitForReady, WaitForAllPassed} {
      NewDealEntered(t, s, i, b, script);
    } else if t.engine.phase in {WaitForCards, WaitForShowBid} {
      BidEntered(t, i, b, script);
    } else if t.engine.phase == WaitForShowDog {
      DogEntered(t, i, b, script);
    } else if t.engine.phase == WaitForEndOfDeal {
      EndOfDealEntered(t, s, i, b, script);
    } else {
      NoKingCall(t.engine);
      GameEntered(t, i, b, script);
    }
  }

  lemma OpeningSeats(t: TableState)
    requires Quiet(t)
    ensures SeatsInv(t)
  {
  }

  lemma NoKingCall(e: EngineState)
    requires Engines.Inv(e) && e.N() == BOT_PLAYERS
    ensures e.phase != WaitForKingCall && e.phase != WaitForShowKingCall
  {
    hide BeforePlay;
  }

  // ---------------------------------------------------------------- one request

  lemma HandlersKeepSeating(t: TableState, s: Source)
    requires Ready(t)
    ensures SameSeating(t, HandleNewGame(t).0) && SameSeating(t, HandleNewDeal(t, s).0)
    ensures SameSeating(t, HandleStartDeal(t).0) && SameSeating(t, NextBidSequence(t).0)
    ensures SameSeating(t, HandleGameSequence(t).0) && SameSeating(t, HandleEndOfDeal(t, s).0)
  {
    hide Engines.NewDeal, StartDeal, PlaySequence, AddPoints;
    HandlersSameSize(t, s);
  }

  lemma BarrierKeepsSeating(t: TableState, phase: Phase, s: Source)
    requires Ready(t)
    ensures SameSeating(t, Barrier(t, phase, s).0)
  {
    hide HandleNewGame, HandleNewDeal, NextBidSequence, HandleGameSequence, HandleEndOfDeal, BidSequence,
         ManageAfterBidSequence;
    BarrierSameSize(t, phase, s);
    HandlersKeepSeating(t, s);
    SameRoomAfterBid(t.engine);
    HandlersKeepSeating(t.(engine := BidSequence(t.engine)), s);
    HandlersKeepSeating(t.(engine := ManageAfterBidSequence(t.engine)), s);
  }

  lemma SyncKeepsSeating(t: TableState, phase: Phase, uuid: nat)
    requires t.Sized()
    ensures SameSeating(t, Sync(t, phase, uuid).0)
  {
  }

  lemma OpeningReady(t: TableState)
    requires Opening(t)
    ensures Ready(t) && t.N() == BOT_PLAYERS
  {
  }

  /** A phase that has begun is followed by one that has. */
  lemma PhasesStayValid(t: TableState, phase: Phase, s: Source)
    requires Opening(t) && AckPhase(phase) && phase == t.engine.phase && FairSource(s, t.N())
    ensures FullTable(Barrier(t, phase, s).0)
  {
    hide HandleNewGame, HandleNewDeal, NextBidSequence, HandleGameSequence, HandleEndOfDeal, BidSequence, TournamentInv,
         ManageAfterBidSequence, Engines.Inv, Quiet, FairSource, SeatsInv;
    BarrierKeeps(t, phase, s);
    OpeningReady(t);
    BarrierKeepsSeating(t, phase, s);
    if phase == WaitForPlayers {
      NewGamePhase(t);
    } else if phase in {WaitForReady, WaitForAllPassed} {
      NewDealEntersCards(t, s);
    } else if phase in {WaitForCards, WaitForShowBid} {
      BidSequenceMoves(t.engine);
      NextBidPhase(t.(engine := BidSequence(t.engine)));
    } else if phase == WaitForEndOfDeal {
      EndOfDealPhase(t, s);
    } else if phase != WaitForShowDog {
      NoKingCall(t.engine);
      GameSequenceRuns(t);
      PlaySequenceShows(t.engine);
    }
  }

  /** What the other seats, and the seat that spoke, still owe when nothing else changes. */
  lemma NothingHeard(t: TableState, i: nat, b: BotState, u: seq<Request>, script: Script)
    requires i < |t.seats| && SeatInv(t, i, b, u)
    ensures After(t, i, b, u, [], script)
  {
    hide SeatInv;
    assert u + [] == u;
  }

  /**
   * Either nothing happened and nothing is said, or the engine moved: to a phase that is announced to all, or
   * to one in which no message is under way.
   */
  predicate Moved(t: TableState, i: nat, us: seq<seq<Request>>, t1: TableState, replies: seq<Reply>)
    requires |us| == BOT_PLAYERS && i < BOT_PLAYERS && us[i] != []
  {
    || (t1.engine == t.engine && forall j :: 0 <= j < BOT_PLAYERS ==> MessagesFor(UuidAt(t, j), replies) == [])
    || (t1.engine != t.engine && AckPhase(t1.engine.phase) &&
        forall j :: 0 <= j < BOT_PLAYERS ==> MessagesFor(UuidAt(t, j), replies) != [])
    || (t1.engine != t.engine && !AckPhase(t1.engine.phase) && (AckPhase(t.engine.phase) || t.engine.phase == WaitForHandle) &&
        us[i][1..] == [] && forall j :: 0 <= j < BOT_PLAYERS && j != i ==> us[j] == [])
  }

  /** All that is left to say after a request of seat i, and all the messages it causes. */
  predicate StepDone(t: TableState, i: nat, bs: seq<BotState>, us: seq<seq<Request>>, t1: TableState,
                     replies: seq<Reply>, scripts: seq<Script>)
  {
    |bs| == BOT_PLAYERS && |us| == BOT_PLAYERS && |scripts| == BOT_PLAYERS && i < BOT_PLAYERS && us[i] != [] &&
    FullTable(t1) && SameSeating(t, t1) && Moved(t, i, us, t1, replies) &&
    forall j :: 0 <= j < BOT_PLAYERS ==>
      After(t1, j, bs[j], if j == i then us[i][1..] else us[j], MessagesFor(UuidAt(t, j), replies), scripts[j])
  }

  lemma AllEntered(t: TableState, i: nat, bs: seq<BotState>, us: seq<seq<Request>>, t1: TableState,
                   replies: seq<Reply>, scripts: seq<Script>)
    requires |bs| == BOT_PLAYERS && |us| == BOT_PLAYERS && |scripts| == BOT_PLAYERS && i < BOT_PLAYERS && us[i] != []
    requires FullTable(t1) && SameSeating(t, t1) && t1.engine != t.engine
    requires AckPhase(t1.engine.phase) || ((AckPhase(t.engine.phase) || t.engine.phase == WaitForHandle) && us[i][1..] == [])
    requires AckPhase(t1.engine.phase) || forall j :: 0 <= j < BOT_PLAYERS && j != i ==> us[j] == []
    requires forall j :: 0 <= j < BOT_PLAYERS ==>
      Entered(t1, j, bs[j], if j == i then us[i][1..] else us[j], MessagesFor(UuidAt(t, j), replies), scripts[j])
    ensures StepDone(t, i, bs, us, t1, replies, scripts)
  {
    hide FullTable, SeatInv, Fresh, MessagesFor, Receive;
    forall j | 0 <= j < BOT_PLAYERS
      ensures After(t1, j, bs[j], if j == i then us[i][1..] else us[j], MessagesFor(UuidAt(t, j), replies), scripts[j])
      ensures AckPhase(t1.engine.phase) ==> MessagesFor(UuidAt(t, j), replies) != []
    {
      assert Entered(t1, j, bs[j], if j == i then us[i][1..] else us[j], MessagesFor(UuidAt(t, j), replies), scripts[j]);
    }
  }

  lemma JunkIgnored(t: TableState, i: nat, bs: seq<BotState>, us: seq<seq<Request>>, s: Source, scripts: seq<Script>)
    requires AllSeats(t, bs, us) && i < BOT_PLAYERS && |scripts| == BOT_PLAYERS && us[i] != [] && us[i][0] == JUNK
    ensures ExecuteRequest(t, UuidAt(t, i), JUNK, s) == (t, [])
    ensures StepDone(t, i, bs, us, t, [], scripts)
  {
    hide FullTable, SeatInv, After, ExecuteRequest;
    FullIsSized(t);
    JunkDoesNothing(t, UuidAt(t, i), s);
    forall j | 0 <= j < BOT_PLAYERS
      ensures MessagesFor(UuidAt(t, j), []) == []
      ensures After(t, j, bs[j], if j == i then us[i][1..] else us[j], MessagesFor(UuidAt(t, j), []), scripts[j])
    {
      NoMessages(UuidAt(t, j));
      assert SeatInv(t, j, bs[j], us[j]);
      if j == i { JunkSaid(t, i, bs[i], us[i]); }
      NothingHeard(t, j, bs[j], if j == i then us[i][1..] else us[j], scripts[j]);
    }
  }

  lemma JunkDoesNothing(t: TableState, src: nat, s: Source)
    requires Ready(t)
    ensures ExecuteRequest(t, src, JUNK, s) == (t, [])
  {
    hide PlaceOf, Barrier, Sync;
    StepNamesRoundTrip(WaitForDiscard, "BadSeq");
  }

  lemma FullIsSized(t: TableState)
    requires FullTable(t)
    ensures t.Sized() && Ready(t)
  {
  }

  lemma JunkSaid(t: TableState, i: nat, b: BotState, u: seq<Request>)
    requires i < |t.seats| && SeatInv(t, i, b, u) && u != [] && u[0] == JUNK
    ensures SeatInv(t, i, b, u[1..])
  {
    hide SetDiscard, SetCard, Without, WithoutAll, CanDiscard;
    StepNamesRoundTrip(t.engine.phase, "BadSeq");
  }

  lemma SeatOf(t: TableState, i: nat)
    requires FullTable(t) && i < BOT_PLAYERS
    ensures Ready(t) && UuidAt(t, i) == t.seats[i].uuid != INVALID_UID && GetPlayerPlace(t, UuidAt(t, i)) == i
    ensures forall j :: 0 <= j < BOT_PLAYERS && j != i ==> t.seats[j].uuid != t.seats[i].uuid
  {
    hide Engines.Inv, ZeroSum;
    SeatOfPlayer(t, i);
  }

  /** The flag of the seat is set; everything else stays. */
  lemma AckRecorded(t: TableState, i: nat, j: nat, b: BotState, u: seq<Request>, script: Script)
    requires FullTable(t) && i < BOT_PLAYERS && j < BOT_PLAYERS && AckPhase(t.engine.phase) && SeatInv(t, j, b, u)
    requires j == i ==> |u| == 1
    requires !Sync(t, t.engine.phase, UuidAt(t, i)).1
    ensures var t1 := Sync(t, t.engine.phase, UuidAt(t, i)).0;
      t1.engine == t.engine && t1.Sized() && After(t1, j, b, if j == i then u[1..] else u, [], script)
  {
    hide Engines.Inv, ZeroSum, Knows, StepOfPhase;
    SeatOf(t, i);
    var t1 := Sync(t, t.engine.phase, UuidAt(t, i)).0;
    assert t1.seats[j].ack == (t.seats[j].ack || j == i);
    if j == i {
      AckKnows(t.engine, j, b, u);
      assert u[1..] == [];
    }
    NothingHeard(t1, j, b, if j == i then u[1..] else u, script);
  }

  lemma AckOpens(t: TableState, i: nat, bs: seq<BotState>, us: seq<seq<Request>>)
    requires AllSeats(t, bs, us) && i < BOT_PLAYERS && AckPhase(t.engine.phase) && |us[i]| == 1
    requires Sync(t, t.engine.phase, UuidAt(t, i)).1
    ensures var t1 := Sync(t, t.engine.phase, UuidAt(t, i)).0; Opening(t1) && t1.engine == t.engine
    ensures forall j :: 0 <= j < BOT_PLAYERS && j != i ==> us[j] == []
    ensures us[i][1..] == []
  {
    hide Engines.Inv, ZeroSum, Knows, StepOfPhase;
    SeatOf(t, i);
    SyncOpens(t, t.engine.phase, UuidAt(t, i));
    SyncKeepsSeats(t, t.engine.phase, UuidAt(t, i));
    forall j | 0 <= j < BOT_PLAYERS && j != i ensures us[j] == [] {
      assert SeatInv(t, j, bs[j], us[j]);
    }
  }

  lemma AckStep(t: TableState, i: nat, bs: seq<BotState>, us: seq<seq<Request>>, s: Source, scripts: seq<Script>)
    requires AllSeats(t, bs, us) && i < BOT_PLAYERS && |scripts| == BOT_PLAYERS && FairSource(s, BOT_PLAYERS)
    requires AckPhase(t.engine.phase) && us[i] == [ReqAck(StepOfPhase(t.engine.phase))]
    ensures var (t1, replies) := ExecuteRequest(t, UuidAt(t, i), us[i][0], s);
      StepDone(t, i, bs, us, t1, replies, scripts)
  {
    hide FullTable, SeatInv, Knows, After, StepOfPhase, PhaseOfStep, Sync, Barrier, FairSource, Opening, PlaceOf;
    SeatOf(t, i);
    var phase, uuid := t.engine.phase, UuidAt(t, i);
    StepNamesRoundTrip(phase, "");
    var (ta, passed) := Sync(t, phase, uuid);
    SyncKeepsSeating(t, phase, uuid);
    if passed {
      AckOpens(t, i, bs, us);
      AckPassed(t, ta, i, bs, us, s, scripts);
    } else {
      MarkedIsFull(t, i);
      SeatsOnly(t, phase, uuid);
      forall j | 0 <= j < BOT_PLAYERS
        ensures After(ta, j, bs[j], if j == i then us[i][1..] else us[j], MessagesFor(UuidAt(t, j), []), scripts[j])
      {
        AckRecorded(t, i, j, bs[j], us[j], scripts[j]);
      }
    }
  }

  lemma MarkedIsFull(t: TableState, i: nat)
    requires FullTable(t) && i < BOT_PLAYERS && AckPhase(t.engine.phase)
    requires !Sync(t, t.engine.phase, UuidAt(t, i)).1
    ensures FullTable(Sync(t, t.engine.phase, UuidAt(t, i)).0)
  {
    hide Engines.Inv, ZeroSum;
    SeatOf(t, i);
    SyncKeepsSeats(t, t.engine.phase, UuidAt(t, i));
  }

  lemma AckPassed(t: TableState, ta: TableState, i: nat, bs: seq<BotState>, us: seq<seq<Request>>, s: Source,
                  scripts: seq<Script>)
    requires AllSeats(t, bs, us) && i < BOT_PLAYERS && |scripts| == BOT_PLAYERS && FairSource(s, BOT_PLAYERS)
    requires AckPhase(t.engine.phase) && ta.engine == t.engine && Opening(ta) && SameSeating(t, ta) && us[i] != []
    requires us[i][1..] == [] && forall j :: 0 <= j < BOT_PLAYERS && j != i ==> us[j] == []
    ensures Ready(ta)
    ensures var (t1, replies) := Barrier(ta, t.engine.phase, s); StepDone(t, i, bs, us, t1, replies, scripts)
  {
    hide FullTable, Owes, Knows, Entered, StepDone, Barrier, FairSource, Opening, MessagesFor;
    var phase := t.engine.phase;
    OpeningReady(ta);
    PhasesStayValid(ta, phase, s);
    BarrierKeepsSeating(ta, phase, s);
    var (t1, replies) := Barrier(ta, phase, s);
    forall j | 0 <= j < BOT_PLAYERS
      ensures Entered(t1, j, bs[j], if j == i then us[i][1..] else us[j], MessagesFor(UuidAt(t, j), replies), scripts[j])
    {
      AckKnows(t.engine, j, bs[j], us[j]);
      BarrierEntered(ta, s, j, bs[j], scripts[j]);
    }
    assert t1.engine != t.engine by { OpeningMoves(ta, s); }
    AllEntered(t, i, bs, us, t1, replies, scripts);
  }

  lemma OpeningMoves(t: TableState, s: Source)
    requires Opening(t) && AckPhase(t.engine.phase)
    ensures Ready(t) && Barrier(t, t.engine.phase, s).0.engine != t.engine
  {
    hide Engines.Inv, SeatsInv, ZeroSum, Barrier;
    BarrierMoves(t, s);
  }

  lemma AckKnows(e: EngineState, i: nat, b: BotState, u: seq<Request>)
    requires e.phase !in {WaitForPlayedCard, WaitForDiscard} && Knows(e, i, b, u)
    ensures Knows(e, i, b, [])
  {
    hide Without, WithoutAll;
  }

  // ---------------------------------------------------------------- one answer

  /** The answer of the seat the engine waits for comes when no flag is set and no other seat owes anything. */
  lemma Answered(t: TableState, i: nat, bs: seq<BotState>, us: seq<seq<Request>>)
    requires AllSeats(t, bs, us) && i < BOT_PLAYERS && !AckPhase(t.engine.phase) && us[i] != []
    ensures Opening(t) && Answering(t.engine, i) && Ready(t) && t.N() == BOT_PLAYERS
    ensures t.engine.phase in {WaitForBid, WaitForHandle, WaitForPlayedCard, WaitForDiscard}
    ensures forall j :: 0 <= j < BOT_PLAYERS && j != i ==> us[j] == [] && Knows(t.engine, j, bs[j], [])
    ensures Knows(t.engine, i, bs[i], us[i])
  {
    hide Engines.Inv, ZeroSum, SetCard, SetDiscard, Without, WithoutAll, SeatInv;
    NoFlagWithoutAck(t);
    assert SeatInv(t, i, bs[i], us[i]);
    SeatOwes(t, i, bs[i], us[i]);
    forall j | 0 <= j < BOT_PLAYERS && j != i ensures us[j] == [] && Knows(t.engine, j, bs[j], []) {
      assert SeatInv(t, j, bs[j], us[j]);
      SeatOwes(t, j, bs[j], us[j]);
    }
  }

  lemma SeatOwes(t: TableState, i: nat, b: BotState, u: seq<Request>)
    requires i < |t.seats| && SeatInv(t, i, b, u) && !AckPhase(t.engine.phase)
    ensures Knows(t.engine, i, b, u)
    ensures u != [] ==> t.engine.phase in {WaitForBid, WaitForHandle, WaitForPlayedCard, WaitForDiscard}
    ensures !Answering(t.engine, i) ==> u == []
  {
    hide Knows, SetCard, SetDiscard;
  }

  lemma BidStep(t: TableState, i: nat, bs: seq<BotState>, us: seq<seq<Request>>, s: Source, scripts: seq<Script>)
    requires AllSeats(t, bs, us) && i < BOT_PLAYERS && |scripts| == BOT_PLAYERS && FairSource(s, BOT_PLAYERS)
    requires t.engine.phase == WaitForBid && us[i] != []
    ensures var (t1, replies) := ExecuteRequest(t, UuidAt(t, i), us[i][0], s);
      StepDone(t, i, bs, us, t1, replies, scripts)
  {
    hide TableInv, Knows, Entered, StepDone, FairSource, PlaceOf, MessagesFor, RaiseBid, HandleMessage;
    Answered(t, i, bs, us);
    SeatOf(t, i);
    assert SeatInv(t, i, bs[i], us[i]);
    AckKnows(t.engine, i, bs[i], us[i]);
    assert us[i][1..] == [];
    var r := us[i][0];
    var (t1, replies) := ExecuteRequest(t, UuidAt(t, i), r, s);
    AnswerFull(t, i, r, s);
    forall j | 0 <= j < BOT_PLAYERS
      ensures Entered(t1, j, bs[j], if j == i then us[i][1..] else us[j], MessagesFor(UuidAt(t, j), replies), scripts[j])
    {
      BidShown(t, t1, j, bs[j], replies[0].msg, scripts[j]);
    }
    AllEntered(t, i, bs, us, t1, replies, scripts);
  }

  lemma BidShown(t: TableState, t1: TableState, j: nat, b: BotState, m: Msg, script: Script)
    requires Opening(t) && t.engine.phase == WaitForBid && j < BOT_PLAYERS && Knows(t.engine, j, b, [])
    requires t1.engine.phase == WaitForShowBid && t1.seats == t.seats && t1.engine.players == t.engine.players && m.MsgShowBid?
    requires t1.N() == t.N() && m.taker == t1.engine.ctx.bid
    ensures Entered(t1, j, b, [], MessagesFor(UuidAt(t, j), ToAll(t1, m)), script)
  {
    hide Engines.Inv, ZeroSum, MessagesFor, Entered, ToAll, Without, WithoutAll;
    QuietKept(t, t1);
    ForSeat(t1, j, 0, m);
    AckEntered(t1, j, b, [], m, script);
  }

  /** The table stays full after an answer it accepts. */
  lemma AnswerFull(t: TableState, i: nat, r: Request, s: Source)
    requires FullTable(t) && i < BOT_PLAYERS && FairSource(s, BOT_PLAYERS) && (r.ReqBid? ==> PASS <= r.contract <= GUARD_AGAINST)
    requires r.ReqBid? || r.ReqHandle? || r.ReqCard? || r.ReqDiscard?
    ensures var t1 := ExecuteRequest(t, UuidAt(t, i), r, s).0; FullTable(t1) && SameSeating(t, t1)
  {
    hide Engines.Inv, SeatsInv, TournamentInv, ExecuteRequest, SameSeating, FairSource;
    SeatOf(t, i);
    StepKeeps(t, Received(UuidAt(t, i), r, s));
    AnswerSeating(t, UuidAt(t, i), r, s);
    SeatedStay(t, ExecuteRequest(t, UuidAt(t, i), r, s).0);
  }

  lemma SeatedStay(t: TableState, t1: TableState)
    requires FullTable(t) && SameSeating(t, t1)
    ensures t1.N() == BOT_PLAYERS && AllSeated(t1) && !t1.adminMode
  {
    hide Engines.Inv, ZeroSum;
  }

  lemma AnswerSeating(t: TableState, src: nat, r: Request, s: Source)
    requires FullTable(t) && (r.ReqBid? || r.ReqHandle? || r.ReqCard? || r.ReqDiscard?)
    ensures Ready(t)
    ensures var t1 := ExecuteRequest(t, src, r, s).0; SameSeating(t, t1) && t1.engine.phase !in {BadStep, Stopped}
  {
    hide Engines.Inv, ZeroSum, PlaceOf, PlaySequence, SeatsInv, OnBid, OnHandle, OnCard, OnDiscard;
    var p := GetPlayerPlace(t, src);
    match r
    case ReqBid(contract, slam) => OnBidDoes(t, p, contract, slam);
    case ReqDiscard(discard) => OnDiscardDoes(t, p, discard);
    case ReqCard(card) => OnCardDoes(t, p, card);
    case ReqHandle(handle) =>
      OnHandleDoes(t, p, handle);
      if t.engine.phase == WaitForHandle { PlaySequenceShows(t.engine); }
  }

  lemma HandleStep(t: TableState, i: nat, bs: seq<BotState>, us: seq<seq<Request>>, s: Source, scripts: seq<Script>)
    requires AllSeats(t, bs, us) && i < BOT_PLAYERS && |scripts| == BOT_PLAYERS && FairSource(s, BOT_PLAYERS)
    requires t.engine.phase == WaitForHandle && us[i] != []
    ensures var (t1, replies) := ExecuteRequest(t, UuidAt(t, i), us[i][0], s);
      StepDone(t, i, bs, us, t1, replies, scripts)
  {
    hide TableInv, FairSource, PlaceOf, MessagesFor, HandleGameSequence, After;
    Answered(t, i, bs, us);
    SeatOf(t, i);
    assert SeatInv(t, i, bs[i], us[i]);
    AckKnows(t.engine, i, bs[i], us[i]);
    assert us[i] == [ReqHandle([])] && us[i][1..] == [];
    var (t1, replies) := HandleGameSequence(t);
    assert ExecuteRequest(t, UuidAt(t, i), us[i][0], s) == (t1, replies);
    AnswerFull(t, i, us[i][0], s);
    assert t1.engine != t.engine by {
      GameSequenceRuns(t);
      assert Engines.Inv(t.engine);
      PlaySequenceMoves(t.engine);
    }
    forall j | 0 <= j < BOT_PLAYERS
      ensures Entered(t1, j, bs[j], if j == i then us[i][1..] else us[j], MessagesFor(UuidAt(t, j), replies), scripts[j])
    {
      assert Knows(t.engine, j, bs[j], []);
      GameEntered(t, j, bs[j], scripts[j]);
    }
    AllEntered(t, i, bs, us, t1, replies, scripts);
  }

  lemma CardStep(t: TableState, i: nat, bs: seq<BotState>, us: seq<seq<Request>>, s: Source, scripts: seq<Script>)
    requires AllSeats(t, bs, us) && i < BOT_PLAYERS && |scripts| == BOT_PLAYERS && FairSource(s, BOT_PLAYERS)
    requires t.engine.phase == WaitForPlayedCard && us[i] != []
    ensures var (t1, replies) := ExecuteRequest(t, UuidAt(t, i), us[i][0], s);
      StepDone(t, i, bs, us, t1, replies, scripts) && t1.engine == SetCard(t.engine, us[i][0].card, i).0
  {
    hide TableInv, FairSource, PlaceOf, MessagesFor, Entered, StepDone, CanPlayCard, Without, WithoutAll, FullTable, Opening, ToAll;
    Answered(t, i, bs, us);
    SeatOf(t, i);
    assert SeatInv(t, i, bs[i], us[i]);
    assert us[i][1..] == [];
    var c := us[i][0].card;
    var t1 := t.(engine := SetCard(t.engine, c, i).0);
    assert ExecuteRequest(t, UuidAt(t, i), us[i][0], s) == (t1, ToAll(t1, MsgShowCard(i, c)));
    AnswerFull(t, i, us[i][0], s);
    forall j | 0 <= j < BOT_PLAYERS
      ensures Entered(t1, j, bs[j], if j == i then us[i][1..] else us[j],
                    MessagesFor(UuidAt(t, j), ToAll(t1, MsgShowCard(i, c))), scripts[j])
    {
      CardShown(t, i, j, bs[j], us[j], c, scripts[j]);
    }
    AllEntered(t, i, bs, us, t1, ToAll(t1, MsgShowCard(i, c)), scripts);
  }

  lemma CardShown(t: TableState, i: nat, j: nat, b: BotState, u: seq<Request>, c: Card, script: Script)
    requires Opening(t) && t.engine.phase == WaitForPlayedCard && i < BOT_PLAYERS && j < BOT_PLAYERS
    requires Answering(t.engine, i) && Knows(t.engine, j, b, u) && SetCard(t.engine, c, i).1
    requires j == i ==> |u| == 1 && u[0] == ReqCard(c)
    ensures var t1 := t.(engine := SetCard(t.engine, c, i).0);
      t1.Sized() && Entered(t1, j, b, [], MessagesFor(UuidAt(t, j), ToAll(t1, MsgShowCard(i, c))), script)
  {
    hide Engines.Inv, ZeroSum, MessagesFor, Entered, ToAll, CanPlayCard, Without, WithoutAll;
    var t1 := t.(engine := SetCard(t.engine, c, i).0);
    QuietKept(t, t1);
    ForSeat(t1, j, 0, MsgShowCard(i, c));
    AckEntered(t1, j, b, [], MsgShowCard(i, c), script);
  }

  lemma DiscardStep(t: TableState, i: nat, bs: seq<BotState>, us: seq<seq<Request>>, s: Source, scripts: seq<Script>)
    requires AllSeats(t, bs, us) && i < BOT_PLAYERS && |scripts| == BOT_PLAYERS && FairSource(s, BOT_PLAYERS)
    requires t.engine.phase == WaitForDiscard && us[i] != [] && us[i][0] != JUNK
    ensures var (t1, replies) := ExecuteRequest(t, UuidAt(t, i), us[i][0], s);
      StepDone(t, i, bs, us, t1, replies, scripts)
  {
    hide TableInv, FairSource, PlaceOf, MessagesFor, After, Entered, TestDiscard, WithoutAll, FullTable, Opening, ToAll,
         CanDiscard, HandleStartDeal;
    Answered(t, i, bs, us);
    SeatOf(t, i);
    assert SeatInv(t, i, bs[i], us[i]);
    var d := us[i][0].discard;
    AnswerFull(t, i, us[i][0], s);
    var (t1, replies) := ExecuteRequest(t, UuidAt(t, i), us[i][0], s);
    assert us[i][1..] == [JUNK];
    if CanDiscard(t.engine) {
      forall j | 0 <= j < BOT_PLAYERS
        ensures Entered(t1, j, bs[j], if j == i then us[i][1..] else us[j], MessagesFor(UuidAt(t, j), replies), scripts[j])
      {
        DiscardShown(t, i, j, bs[j], us[j], d, scripts[j]);
      }
      DealStarted(t.(engine := SetDiscard(t.engine, d).0));
      AllEntered(t, i, bs, us, t1, replies, scripts);
    } else {
      forall j | 0 <= j < BOT_PLAYERS
        ensures MessagesFor(UuidAt(t, j), replies) == []
        ensures After(t1, j, bs[j], if j == i then us[i][1..] else us[j], MessagesFor(UuidAt(t, j), replies), scripts[j])
      {
        NoMessages(UuidAt(t, j));
        DiscardRefused(t, j, bs[j], us[j], scripts[j]);
      }
    }
  }

  lemma DealStarted(t: TableState)
    requires Ready(t) && t.engine.phase == WaitForStartDeal
    ensures AckPhase(HandleStartDeal(t).0.engine.phase)
  {
  }

  lemma NoMessages(uuid: nat)
    ensures MessagesFor(uuid, []) == []
  {
  }

  lemma DiscardRefused(t: TableState, j: nat, b: BotState, u: seq<Request>, script: Script)
    requires j < |t.seats| && SeatInv(t, j, b, u) && t.engine.phase == WaitForDiscard && !CanDiscard(t.engine)
    ensures After(t, j, b, if u != [] && u[0] != JUNK then u[1..] else u, [], script)
  {
    hide CanDiscard, SetDiscard, SetCard, Without, WithoutAll;
    NothingHeard(t, j, b, if u != [] && u[0] != JUNK then u[1..] else u, script);
  }

  lemma DiscardShown(t: TableState, i: nat, j: nat, b: BotState, u: seq<Request>, d: Cards, script: Script)
    requires Opening(t) && t.engine.phase == WaitForDiscard && i < BOT_PLAYERS && j < BOT_PLAYERS && CanDiscard(t.engine)
    requires Answering(t.engine, i) && Knows(t.engine, j, b, u) && SetDiscard(t.engine, d).1
    requires j == i ==> |u| == 2 && u[0] == ReqDiscard(d)
    ensures var t0 := t.(engine := SetDiscard(t.engine, d).0);
      Ready(t0) &&
      var (t1, replies) := HandleStartDeal(t0);
      j < |t1.seats| && Entered(t1, j, b, if j == i then [JUNK] else [], MessagesFor(UuidAt(t, j), replies), script)
  {
    hide ZeroSum, MessagesFor, Entered, TestDiscard, WithoutAll, HandleStartDeal, CanDiscard;
    var t0 := t.(engine := SetDiscard(t.engine, d).0);
    DealNotStarted(t.engine);
    QuietKept(t, t0);
    StartDealEntered(t0, j, b, if j == i then [JUNK] else [], script);
  }

  lemma DealNotStarted(e: EngineState)
    requires Engines.Inv(e) && e.phase == WaitForDiscard
    ensures e.currentTrick == [] && e.ctx.bid.taker < e.N()
  {
    hide NothingPlayed, Complete;
  }

  /** Every request the bots make is answered, and leaves each bot knowing and owing what it should. */
  lemma RequestStep(t: TableState, i: nat, bs: seq<BotState>, us: seq<seq<Request>>, s: Source, scripts: seq<Script>)
    requires AllSeats(t, bs, us) && i < BOT_PLAYERS && |scripts| == BOT_PLAYERS && FairSource(s, BOT_PLAYERS)
    requires us[i] != []
    ensures Ready(t)
    ensures var (t1, replies) := ExecuteRequest(t, UuidAt(t, i), us[i][0], s);
      StepDone(t, i, bs, us, t1, replies, scripts)
  {
    hide FullTable, Knows, After, FairSource, ExecuteRequest, StepDone, StepOfPhase, SetCard, SetDiscard, CanDiscard;
    SeatOf(t, i);
    assert SeatInv(t, i, bs[i], us[i]);
    if us[i][0] == JUNK {
      JunkIgnored(t, i, bs, us, s, scripts);
    } else if AckPhase(t.engine.phase) {
      AckStep(t, i, bs, us, s, scripts);
    } else if t.engine.phase == WaitForBid {
      BidStep(t, i, bs, us, s, scripts);
    } else if t.engine.phase == WaitForHandle {
      HandleStep(t, i, bs, us, s, scripts);
    } else if t.engine.phase == WaitForPlayedCard {
      CardStep(t, i, bs, us, s, scripts);
    } else {
      DiscardStep(t, i, bs, us, s, scripts);
    }
  }

  // ---------------------------------------------------------------- the messages under way

  /** What the bots will know, and what they will have said, when they have read all their messages. */
  function LaterBots(w: World, scripts: seq<Script>): seq<BotState>
    requires w.Sized() && |scripts| == BOT_PLAYERS
  {
    seq(BOT_PLAYERS, i requires 0 <= i < BOT_PLAYERS => Receive(w.bots[i], w.down[i], scripts[i]).0)
  }

  function LaterUps(w: World, scripts: seq<Script>): seq<seq<Request>>
    requires w.Sized() && |scripts| == BOT_PLAYERS
  {
    seq(BOT_PLAYERS, i requires 0 <= i < BOT_PLAYERS => w.up[i] + Receive(w.bots[i], w.down[i], scripts[i]).1)
  }

  /** The messages a bot has not read: the last one belongs to the present phase. */
  predicate Unread(e: EngineState, i: nat, b: BotState, d: seq<Msg>) {
    d == [] || (if AckPhase(e.phase) then AckedBy(d[|d| - 1]) == e.phase else Fresh(e, i, b, d))
  }

  predicate WorldInv(w: World, scripts: seq<Script>) {
    w.Sized() && |scripts| == BOT_PLAYERS && AllSeats(w.table, LaterBots(w, scripts), LaterUps(w, scripts)) &&
    forall i :: 0 <= i < BOT_PLAYERS ==> Unread(w.table.engine, i, w.bots[i], w.down[i])
  }

  /** Reading a message changes nothing that is not already settled. */
  lemma DeliverKeeps(w: World, i: nat, scripts: seq<Script>)
    requires WorldInv(w, scripts) && i < BOT_PLAYERS
    ensures WorldInv(DeliverTo(w, i, scripts), scripts)
  {
    hide AllSeats, HandleMessage, AckPhase;
    var w' := DeliverTo(w, i, scripts);
    if w.down[i] != [] {
      var (b, sent) := HandleMessage(w.bots[i], w.down[i][0], scripts[i]);
      var more := Receive(b, w.down[i][1..], scripts[i]).1;
      assert (w.up[i] + sent) + more == w.up[i] + (sent + more);
      assert LaterBots(w', scripts) == LaterBots(w, scripts);
      assert LaterUps(w', scripts) == LaterUps(w, scripts);
    }
  }

  /** An unread message of the present phase will make its reader speak. */
  lemma UnreadSpeaks(e: EngineState, i: nat, b: BotState, d: seq<Msg>, script: Script)
    requires Unread(e, i, b, d) && d != [] && (AckPhase(e.phase) || e.phase == WaitForHandle)
    ensures Receive(b, d, script).1 != []
  {
    hide HandleMessage;
    var k := |d| - 1;
    assert d == d[..k] + [d[k]];
    var (b1, sent) := Receive(b, d[..k], script);
    ReceiveMore(b, d[..k], [d[k]], script);
    ReceiveOne(b1, d[k], script);
    if AckPhase(e.phase) {
      Acknowledges(b1, d[k], script);
    } else {
      assert HandleMessage(b1, MsgAskForHandle, script).1 == [ReqHandle([])] by { HandleReply(b1, script); }
    }
  }

  lemma HandleReply(b: BotState, script: Script)
    ensures HandleMessage(b, MsgAskForHandle, script).1 == [ReqHandle([])]
  {
  }

  /** When nothing is owed any more, nothing is unread. */
  lemma AllRead(w: World, i: nat, scripts: seq<Script>)
    requires WorldInv(w, scripts) && i < BOT_PLAYERS && w.up[i] != []
    requires AckPhase(w.table.engine.phase) || w.table.engine.phase == WaitForHandle
    requires var us := LaterUps(w, scripts);
      us[i][1..] == [] && forall j :: 0 <= j < BOT_PLAYERS && j != i ==> us[j] == []
    ensures forall j :: 0 <= j < BOT_PLAYERS ==> w.down[j] == []
  {
    hide AllSeats, Receive, Unread;
    forall j | 0 <= j < BOT_PLAYERS ensures w.down[j] == [] {
      assert LaterUps(w, scripts)[j] == w.up[j] + Receive(w.bots[j], w.down[j], scripts[j]).1;
      if w.down[j] != [] {
        UnreadSpeaks(w.table.engine, j, w.bots[j], w.down[j], scripts[j]);
      }
    }
  }

  lemma UnreadAfter(w: World, i: nat, t1: TableState, replies: seq<Reply>, scripts: seq<Script>, j: nat)
    requires WorldInv(w, scripts) && i < BOT_PLAYERS && j < BOT_PLAYERS && w.up[i] != []
    requires StepDone(w.table, i, LaterBots(w, scripts), LaterUps(w, scripts), t1, replies, scripts)
    ensures Unread(t1.engine, j, w.bots[j], w.down[j] + MessagesFor(UuidAt(w.table, j), replies))
  {
    hide AllSeats, SeatInv, FullTable, MessagesFor, Fits, AckPhase;
    var us, ms := LaterUps(w, scripts), MessagesFor(UuidAt(w.table, j), replies);
    var d := w.down[j] + ms;
    assert us[i] == w.up[i] + Receive(w.bots[i], w.down[i], scripts[i]).1;
    assert After(t1, j, LaterBots(w, scripts)[j], if j == i then us[i][1..] else us[j], ms, scripts[j]);
    if ms == [] && t1.engine == w.table.engine {
      assert d == w.down[j];
    } else if AckPhase(t1.engine.phase) {
      assert d[|d| - 1] == ms[0];
      FitsIsAcked(t1.engine, j, LaterBots(w, scripts)[j], ms[0]);
    } else {
      AllRead(w, i, scripts);
      assert d == ms && Receive(w.bots[j], [], scripts[j]).0 == w.bots[j];
    }
  }

  lemma FitsIsAcked(e: EngineState, i: nat, b: BotState, m: Msg)
    requires Fits(e, i, b, m) && AckPhase(e.phase)
    ensures AckedBy(m) == e.phase
  {
  }

  lemma ProcessKeeps(w: World, i: nat, s: Source, scripts: seq<Script>)
    requires WorldInv(w, scripts) && i < BOT_PLAYERS && FairSource(s, BOT_PLAYERS)
    ensures WorldInv(ProcessFrom(w, i, s), scripts)
  {
    hide AllSeats, FullTable, SeatInv, Fresh, Unread, FairSource, ExecuteRequest, Moved, MessagesFor, Receive;
    var w' := ProcessFrom(w, i, s);
    if w.up[i] != [] {
      var bs, us := LaterBots(w, scripts), LaterUps(w, scripts);
      assert us[i][0] == w.up[i][0];
      var (t1, replies) := ExecuteRequest(w.table, UuidAt(w.table, i), us[i][0], s);
      RequestStep(w.table, i, bs, us, s, scripts);
      forall j | 0 <= j < BOT_PLAYERS ensures Unread(t1.engine, j, w'.bots[j], w'.down[j]) {
        UnreadAfter(w, i, t1, replies, scripts, j);
      }
      assert Ready(t1) by { FullIsSized(t1); }
      SeatsAfter(w, w', i, t1, replies, scripts);
    }
  }

  lemma SeatsAfter(w: World, w': World, i: nat, t1: TableState, replies: seq<Reply>, scripts: seq<Script>)
    requires WorldInv(w, scripts) && i < BOT_PLAYERS && w.up[i] != [] && w'.Sized() && w'.table == t1
    requires StepDone(w.table, i, LaterBots(w, scripts), LaterUps(w, scripts), t1, replies, scripts)
    requires w'.bots == w.bots && w'.up == w.up[i := w.up[i][1..]]
    requires forall j :: 0 <= j < BOT_PLAYERS ==> w'.down[j] == w.down[j] + MessagesFor(UuidAt(w.table, j), replies)
    ensures AllSeats(t1, LaterBots(w', scripts), LaterUps(w', scripts))
  {
    hide FullTable, SeatInv, Fresh, Unread, Moved, MessagesFor, Receive;
    var bs, us := LaterBots(w, scripts), LaterUps(w, scripts);
    forall j | 0 <= j < BOT_PLAYERS ensures SeatInv(t1, j, LaterBots(w', scripts)[j], LaterUps(w', scripts)[j]) {
      var ms := MessagesFor(UuidAt(w.table, j), replies);
      assert After(t1, j, bs[j], if j == i then us[i][1..] else us[j], ms, scripts[j]);
      ReceiveMore(w.bots[j], w.down[j], ms, scripts[j]);
      var sent, more := Receive(w.bots[j], w.down[j], scripts[j]).1, Receive(bs[j], ms, scripts[j]).1;
      if j == i {
        assert us[i][1..] + more == w.up[i][1..] + (sent + more);
      } else {
        assert us[j] + more == w.up[j] + (sent + more);
      }
    }
  }

  // ---------------------------------------------------------------- whole runs

  /** Four bots have joined a new table; some have said so, the others are about to. */
  predicate WorldStart(w: World) {
    w.Sized() && FullTable(w.table) && w.table.engine.phase == WaitForPlayers &&
    forall i :: 0 <= i < BOT_PLAYERS ==>
      w.bots[i].place == i && w.down[i] == [] && w.up[i] == if w.table.seats[i].ack then [] else Ack(WaitForPlayers)
  }

  lemma StartHolds(w: World, scripts: seq<Script>)
    requires WorldStart(w) && |scripts| == BOT_PLAYERS
    ensures WorldInv(w, scripts)
  {
    hide FullTable;
    assert w.table.N() == BOT_PLAYERS by { FullRoom(w.table); }
    forall i | 0 <= i < BOT_PLAYERS
      ensures SeatInv(w.table, i, LaterBots(w, scripts)[i], LaterUps(w, scripts)[i])
    {
      assert w.up[i] + [] == w.up[i];
    }
  }

  lemma FullRoom(t: TableState)
    requires FullTable(t)
    ensures t.N() == BOT_PLAYERS
  {
  }

  predicate AllowedInWorld(ev: WorldEvent) {
    ev.seat < BOT_PLAYERS && (ev.Process? ==> FairSource(ev.source, BOT_PLAYERS))
  }

  lemma {:induction false} WorldRunKeeps(w: World, events: seq<WorldEvent>, scripts: seq<Script>)
    requires WorldInv(w, scripts) && forall ev :: ev in events ==> AllowedInWorld(ev)
    ensures WorldInv(RunWorld(w, events, scripts), scripts)
    decreases |events|
  {
    hide AllSeats, Unread, DeliverTo, ProcessFrom, FairSource;
    if events != [] {
      var ev := events[0];
      assert AllowedInWorld(ev);
      if ev.Deliver? { DeliverKeeps(w, ev.seat, scripts); } else { ProcessKeeps(w, ev.seat, ev.source, scripts); }
      WorldRunKeeps(WorldStep(w, ev, scripts), events[1..], scripts);
    }
  }

  /** The bot holds the hand of its seat and sees the trick on the table. */
  predicate InStep(e: EngineState, i: nat, b: BotState) {
    b.deck == e.Hand(i) && b.trick == e.currentTrick
  }

  /** The bot has played: its card is on its way to the table, and the engine accepts it. */
  predicate HasPlayed(e: EngineState, i: nat, b: BotState, u: seq<Request>) {
    i == e.currentPlayer && b.trick == e.currentTrick && OneCard(u, e, i) && b.deck == Without(e.Hand(i), u[0].card)
  }

  lemma MirrorNow(w: World, scripts: seq<Script>, i: nat)
    requires WorldInv(w, scripts) && w.table.engine.phase == WaitForPlayedCard && i < BOT_PLAYERS
    ensures var e := w.table.engine;
      (InStep(e, i, w.bots[i]) && w.up[i] == []) || (HasPlayed(e, i, w.bots[i], w.up[i]) && w.down[i] == [])
  {
    hide FullTable, HandleMessage, SetCard, Without, WithoutAll;
    var e := w.table.engine;
    assert SeatInv(w.table, i, LaterBots(w, scripts)[i], LaterUps(w, scripts)[i]);
    assert Unread(e, i, w.bots[i], w.down[i]);
    if w.down[i] == [] {
      assert w.up[i] + [] == w.up[i];
    } else {
      ReceiveOne(w.bots[i], w.down[i][0], scripts[i]);
      AnswerToPlay(w.bots[i], e.currentPlayer, scripts[i]);
    }
  }

  lemma AnswerToPlay(b: BotState, p: Place, script: Script)
    ensures |HandleMessage(b, MsgPlayCard(p), script).1| == if p == b.place then 1 else 0
  {
  }

  /**
   * The mirror. Take any run of a table of four bots, whatever their scripts answer and however the
   * messages interleave. When the engine waits for a card, every bot holds exactly the hand of its
   * seat, in the same order, and sees the trick on the table -- or it is the bot whose turn it is,
   * its card is already under way, and that card will be accepted.
   */
  lemma BotsMirrorTheEngine(w0: World, events: seq<WorldEvent>, scripts: seq<Script>, i: nat)
    requires WorldStart(w0) && |scripts| == BOT_PLAYERS && i < BOT_PLAYERS
    requires forall ev :: ev in events ==> AllowedInWorld(ev)
    ensures RunWorld(w0, events, scripts).Sized()
    ensures var w := RunWorld(w0, events, scripts);
      var e := w.table.engine;
      e.phase == WaitForPlayedCard ==>
        (InStep(e, i, w.bots[i]) && w.up[i] == []) || (HasPlayed(e, i, w.bots[i], w.up[i]) && w.down[i] == [])
  {
    hide WorldStart, InStep, HasPlayed, AllSeats, Unread;
    StartHolds(w0, scripts);
    WorldRunKeeps(w0, events, scripts);
    var w := RunWorld(w0, events, scripts);
    if w.table.engine.phase == WaitForPlayedCard {
      MirrorNow(w, scripts, i);
    }
  }

  lemma BidsNow(w: World, scripts: seq<Script>, i: nat)
    requires WorldInv(w, scripts) && w.table.engine.phase == WaitForBid && i < BOT_PLAYERS
    ensures BidsHeard(w.table.engine, w.bots[i])
    ensures w.up[i] != [] ==> i == w.table.engine.currentPlayer && OneBid(w.up[i], w.table.engine)
  {
    hide FullTable, HandleMessage, Without, WithoutAll;
    var e := w.table.engine;
    assert SeatInv(w.table, i, LaterBots(w, scripts)[i], LaterUps(w, scripts)[i]);
    assert Unread(e, i, w.bots[i], w.down[i]);
    if w.down[i] == [] {
      assert w.up[i] + [] == w.up[i];
    } else {
      ReceiveOne(w.bots[i], w.down[i][0], scripts[i]);
      AskedForBid(w.bots[i], w.down[i][0], scripts[i]);
      assert w.down[i] == [w.down[i][0]];
      assert LaterBots(w, scripts)[i] == HandleMessage(w.bots[i], w.down[i][0], scripts[i]).0;
    }
  }

  lemma AskedForBid(b: BotState, m: Msg, script: Script)
    requires m.MsgRequestBid?
    ensures HandleMessage(b, m, script).0.highestBid == b.highestBid
    ensures HandleMessage(b, m, script).1 == [] <==> m.place != b.place
  {
  }

  lemma NobodySpokeYet(t: TableState)
    requires FullTable(t) && t.engine.phase == WaitForBid && t.engine.position == 0
    ensures t.engine.ctx.bid.contract == NO_ANY
  {
    hide Complete, NothingPlayed, ZeroSum, SeatsInv;
  }

  /**
   * The mirror of the auction. Whenever a bid is awaited, a bot remembers the engine's highest contract exactly
   * when a seat has spoken in this deal or nothing is left from an earlier one; and a bid under way is a pass or
   * goes higher.
   */
  lemma BotsHearTheBids(w0: World, events: seq<WorldEvent>, scripts: seq<Script>, i: nat)
    requires WorldStart(w0) && |scripts| == BOT_PLAYERS && i < BOT_PLAYERS
    requires forall ev :: ev in events ==> AllowedInWorld(ev)
    ensures RunWorld(w0, events, scripts).Sized()
    ensures var w := RunWorld(w0, events, scripts);
      var e := w.table.engine;
      e.phase == WaitForBid ==>
        (w.bots[i].highestBid == e.ctx.bid.contract <==> e.position > 0 || w.bots[i].highestBid == NO_ANY) &&
        (w.up[i] != [] ==> i == e.currentPlayer && OneBid(w.up[i], e))
  {
    hide WorldStart, AllSeats, Unread, OneBid;
    StartHolds(w0, scripts);
    WorldRunKeeps(w0, events, scripts);
    var w := RunWorld(w0, events, scripts);
    if w.table.engine.phase == WaitForBid {
      BidsNow(w, scripts, i);
      if w.table.engine.position == 0 { assert FullTable(w.table) by { AllFull(w, scripts); } NobodySpokeYet(w.table); }
    }
  }

  lemma AllFull(w: World, scripts: seq<Script>)
    requires WorldInv(w, scripts)
    ensures FullTable(w.table)
  {
    hide FullTable, Unread, SeatInv;
  }

  /** What is left from an earlier deal: after a guard against the dog nothing but a pass opens the next auction. */
  lemma StaleBid(b: BotState, cards: Cards, script: Script)
    requires b.highestBid == GUARD_AGAINST
    ensures var dealt := HandleMessage(b, MsgNewDeal(cards), script).0;
      var sent := HandleMessage(dealt, MsgRequestBid(b.place, NO_ANY), script).1;
      dealt.highestBid == GUARD_AGAINST && |sent| == 1 && sent[0].ReqBid? && sent[0].contract == PASS
  {
  }

  /** Some bot has something to say, unless a discard was refused. */
  lemma SomeoneOwes(t: TableState, bs: seq<BotState>, us: seq<seq<Request>>)
    requires AllSeats(t, bs, us)
    ensures (exists i :: 0 <= i < BOT_PLAYERS && us[i] != []) || Refused(t.engine)
  {
    hide Knows, SetCard, SetDiscard, CanDiscard, ZeroSum, AuctionInv, AuctionShape, ContractInv, PlayInv;
    if AckPhase(t.engine.phase) {
      var i :| 0 <= i < t.N() && !t.seats[i].ack;
      assert SeatInv(t, i, bs[i], us[i]);
      assert us[i] != [];
    } else {
      ActorSeated(t.engine);
      NoKingCall(t.engine);
      var i := if t.engine.phase == WaitForDiscard then t.engine.ctx.bid.taker else t.engine.currentPlayer;
      assert SeatInv(t, i, bs[i], us[i]);
      if t.engine.phase != WaitForDiscard || CanDiscard(t.engine) {
        assert us[i] != [];
      }
    }
  }

  /** Deliveries and requests after which the engine is not where it was. */
  predicate MovesOn(w: World, events: seq<WorldEvent>, scripts: seq<Script>) {
    |scripts| == BOT_PLAYERS && (forall ev :: ev in events ==> AllowedInWorld(ev)) &&
    RunWorld(w, events, scripts).table.engine != w.table.engine
  }

  function LeftToSay(us: seq<seq<Request>>): nat {
    if us == [] then 0 else LeftToSay(us[..|us| - 1]) + |us[|us| - 1]|
  }

  function LeftToRead(ds: seq<seq<Msg>>): nat {
    if ds == [] then 0 else LeftToRead(ds[..|ds| - 1]) + |ds[|ds| - 1]|
  }

  lemma {:induction false} OneSaid(us: seq<seq<Request>>, i: nat)
    requires i < |us| && us[i] != []
    ensures LeftToSay(us[i := us[i][1..]]) == LeftToSay(us) - 1
  {
    var last, us' := |us| - 1, us[i := us[i][1..]];
    if i < last {
      OneSaid(us[..last], i);
      assert us'[..last] == us[..last][i := us[i][1..]];
    } else {
      assert us'[..last] == us[..last];
    }
  }

  lemma {:induction false} OneRead(ds: seq<seq<Msg>>, i: nat)
    requires i < |ds| && ds[i] != []
    ensures LeftToRead(ds[i := ds[i][1..]]) == LeftToRead(ds) - 1
  {
    var last, ds' := |ds| - 1, ds[i := ds[i][1..]];
    if i < last {
      OneRead(ds[..last], i);
      assert ds'[..last] == ds[..last][i := ds[i][1..]];
    } else {
      assert ds'[..last] == ds[..last];
    }
  }

  /** A request that leaves the engine where it is has been said, and causes nothing else to say. */
  lemma OneLess(w: World, i: nat, s: Source, scripts: seq<Script>)
    requires WorldInv(w, scripts) && i < BOT_PLAYERS && FairSource(s, BOT_PLAYERS) && w.up[i] != []
    requires ProcessFrom(w, i, s).table.engine == w.table.engine
    ensures var w' := ProcessFrom(w, i, s);
      w'.Sized() && LaterUps(w', scripts) == LaterUps(w, scripts)[i := LaterUps(w, scripts)[i][1..]]
  {
    hide AllSeats, FullTable, SeatInv, After, Unread, FairSource, ExecuteRequest, MessagesFor, Receive;
    var w' := ProcessFrom(w, i, s);
    var bs, us := LaterBots(w, scripts), LaterUps(w, scripts);
    assert us[i][0] == w.up[i][0];
    RequestStep(w.table, i, bs, us, s, scripts);
    assert Ready(w'.table) by { FullIsSized(w'.table); }
    forall j | 0 <= j < BOT_PLAYERS ensures LaterUps(w', scripts)[j] == us[i := us[i][1..]][j] {
      assert w'.down[j] == w.down[j] + [] == w.down[j];
      assert j == i ==> w.up[i][1..] + Receive(w.bots[i], w.down[i], scripts[i]).1 == us[i][1..];
    }
  }

  /** What a bot says is a request of a player within the game. */
  lemma BotsSay(t: TableState, i: nat, b: BotState, u: seq<Request>, s: Source)
    requires FullTable(t) && i < BOT_PLAYERS && FairSource(s, BOT_PLAYERS)
    requires i < |t.seats| && SeatInv(t, i, b, u) && u != []
    ensures PlayerRequest(t, Received(UuidAt(t, i), u[0], s))
  {
    hide Engines.Inv, ZeroSum, Knows, PlaceOf, SetCard, SetDiscard, CanDiscard, FairSource, StepOfPhase;
    SeatOf(t, i);
  }

  /** Some message can be read or some request made; either uses up what there is, or moves the engine. */
  lemma OneEvent(w: World, s: Source, scripts: seq<Script>) returns (ev: WorldEvent, w1: World, asked: Event)
    requires WorldInv(w, scripts) && FairSource(s, BOT_PLAYERS) && !Refused(w.table.engine)
    ensures AllowedInWorld(ev) && w1 == WorldStep(w, ev, scripts) && WorldInv(w1, scripts)
    ensures w1.table != w.table ==> PlayerRequest(w.table, asked) && w1.table == Step(w.table, asked)
    ensures w1.table.engine == w.table.engine ==>
      var left, left1 := LeftToSay(LaterUps(w, scripts)), LeftToSay(LaterUps(w1, scripts));
      left1 < left || (left1 == left && LeftToRead(w1.down) < LeftToRead(w.down))
  {
    hide AllSeats, Unread, FairSource, HandleMessage, ExecuteRequest, MessagesFor, Refused, Receive, LeftToSay, LeftToRead,
         PlayerRequest;
    var bs, us := LaterBots(w, scripts), LaterUps(w, scripts);
    SomeoneOwes(w.table, bs, us);
    var i :| 0 <= i < BOT_PLAYERS && us[i] != [];
    ev := if w.up[i] == [] then Deliver(i) else Process(i, s);
    w1 := WorldStep(w, ev, scripts);
    asked := Received(UuidAt(w.table, i), us[i][0], s);
    if w.up[i] == [] {
      if w.down[i] == [] { NothingToRead(w, i, scripts); }
      DeliverKeeps(w, i, scripts);
      LaterAfterDelivery(w, i, scripts);
      OneRead(w.down, i);
    } else {
      assert us[i][0] == w.up[i][0];
      ProcessKeeps(w, i, s, scripts);
      assert PlayerRequest(w.table, asked) by { SeatSays(w.table, i, bs, us, s); }
      if w1.table.engine == w.table.engine {
        OneLess(w, i, s, scripts);
        OneSaid(us, i);
      }
    }
  }

  lemma SeatSays(t: TableState, i: nat, bs: seq<BotState>, us: seq<seq<Request>>, s: Source)
    requires AllSeats(t, bs, us) && i < BOT_PLAYERS && us[i] != [] && FairSource(s, BOT_PLAYERS)
    ensures PlayerRequest(t, Received(UuidAt(t, i), us[i][0], s))
  {
    hide FullTable, SeatInv, FairSource, PlayerRequest;
    FullIsSized(t);
    assert SeatInv(t, i, bs[i], us[i]);
    BotsSay(t, i, bs[i], us[i], s);
  }

  /** Reading and saying what there is to read and to say brings the engine to its next step. */
  lemma {:induction false} BotsGoOn(w: World, s: Source, scripts: seq<Script>) returns (events: seq<WorldEvent>)
    requires WorldInv(w, scripts) && FairSource(s, BOT_PLAYERS) && !Refused(w.table.engine)
    ensures MovesOn(w, events, scripts)
    decreases LeftToSay(LaterUps(w, scripts)), LeftToRead(w.down)
  {
    hide AllSeats, Unread, FairSource, WorldStep, Refused, Receive, LeftToSay, LeftToRead, LaterUps, AllowedInWorld;
    var ev, w1, _ := OneEvent(w, s, scripts);
    if w1.table.engine != w.table.engine {
      events := [ev];
      assert events[1..] == [] && RunWorld(w1, [], scripts) == w1;
    } else {
      var more := BotsGoOn(w1, s, scripts);
      events := [ev] + more;
      assert events[1..] == more;
    }
    SeatAllowed(ev);
    assert RunWorld(w, events, scripts) == RunWorld(w1, events[1..], scripts);
  }

  lemma SeatAllowed(ev: WorldEvent)
    requires AllowedInWorld(ev)
    ensures ev.seat < BOT_PLAYERS
  {
  }

  /** The bots finish every deal they have begun to play. */
  lemma {:induction false} BotsFinish(w: World, s: Source, scripts: seq<Script>) returns (events: seq<WorldEvent>)
    requires WorldInv(w, scripts) && FairSource(s, BOT_PLAYERS) && Playing(w.table.engine.phase)
    ensures (forall ev :: ev in events ==> AllowedInWorld(ev)) &&
      RunWorld(w, events, scripts).table.engine.phase == WaitForEndOfDeal
    decreases Remaining(w.table.engine), LeftToSay(LaterUps(w, scripts)), LeftToRead(w.down)
  {
    hide AllSeats, Unread, FairSource, WorldStep, Refused, Receive, LeftToSay, LeftToRead, LaterUps, AllowedInWorld, Remaining,
         Step, PlayerRequest;
    if w.table.engine.phase == WaitForEndOfDeal {
      events := [];
    } else {
      assert !Refused(w.table.engine) by { PlayRuns(w.table); }
      var ev, w1, asked := OneEvent(w, s, scripts);
      DealGoesOn(w.table, w1.table, LaterBots(w, scripts), LaterUps(w, scripts), asked);
      var more := BotsFinish(w1, s, scripts);
      events := [ev] + more;
      assert events[1..] == more;
      SeatAllowed(ev);
      assert RunWorld(w, events, scripts) == RunWorld(w1, events[1..], scripts);
    }
  }

  /** Every deal that a table of four bots has begun to play is finished by some messages read and requests made. */
  lemma BotsFinishTheDeal(w0: World, events: seq<WorldEvent>, s: Source, scripts: seq<Script>) returns (more: seq<WorldEvent>)
    requires WorldStart(w0) && |scripts| == BOT_PLAYERS && FairSource(s, BOT_PLAYERS)
    requires forall ev :: ev in events ==> AllowedInWorld(ev)
    requires Playing(RunWorld(w0, events, scripts).table.engine.phase)
    ensures forall ev :: ev in more ==> AllowedInWorld(ev)
    ensures RunWorld(RunWorld(w0, events, scripts), more, scripts).table.engine.phase == WaitForEndOfDeal
  {
    hide WorldStart, AllSeats, Unread, FairSource, RunWorld;
    StartHolds(w0, scripts);
    WorldRunKeeps(w0, events, scripts);
    more := BotsFinish(RunWorld(w0, events, scripts), s, scripts);
  }

  lemma DealGoesOn(t: TableState, t1: TableState, bs: seq<BotState>, us: seq<seq<Request>>, asked: Event)
    requires AllSeats(t, bs, us) && Playing(t.engine.phase) && t.engine.phase != WaitForEndOfDeal
    requires t1 != t ==> PlayerRequest(t, asked) && Ready(t) && t1 == Step(t, asked)
    ensures Playing(t1.engine.phase) && Remaining(t.engine) >= 0
    ensures t1.engine == t.engine || Remaining(t1.engine) < Remaining(t.engine)
  {
    hide Engines.Inv, ZeroSum, SeatsInv, SeatInv, Step, Remaining, CardsToPlay, NobodyBids, Meant;
    CardsLeft(t.engine);
    RemainingNonNegative(t.engine);
    if t1 != t {
      DealStays(t, asked);
      if t1.engine != t.engine { PlayStepDecreases(t, asked); }
    }
  }

  lemma NothingToRead(w: World, i: nat, scripts: seq<Script>)
    requires w.Sized() && |scripts| == BOT_PLAYERS && i < BOT_PLAYERS && w.up[i] == [] && w.down[i] == []
    ensures LaterUps(w, scripts)[i] == []
  {
  }

  lemma LaterAfterDelivery(w: World, i: nat, scripts: seq<Script>)
    requires WorldInv(w, scripts) && i < BOT_PLAYERS && w.down[i] != []
    ensures var w' := DeliverTo(w, i, scripts);
      w'.Sized() && w'.table == w.table && w'.down == w.down[i := w.down[i][1..]] &&
      LaterUps(w', scripts) == LaterUps(w, scripts)
  {
    hide AllSeats, HandleMessage, Unread;
    var (b, sent) := HandleMessage(w.bots[i], w.down[i][0], scripts[i]);
    var more := Receive(b, w.down[i][1..], scripts[i]).1;
    assert (w.up[i] + sent) + more == w.up[i] + (sent + more);
  }

  /** One event does not move the engine from a refused discard. */
  lemma RefusalStays(w: World, ev: WorldEvent, scripts: seq<Script>)
    requires WorldInv(w, scripts) && AllowedInWorld(ev) && Refused(w.table.engine)
    ensures WorldStep(w, ev, scripts).table.engine == w.table.engine
  {
    hide FullTable, Knows, CanDiscard, TestDiscard, FairSource, Unread, Receive;
    var i, t := ev.seat, w.table;
    if ev.Process? && w.up[i] != [] {
      var bs, us := LaterBots(w, scripts), LaterUps(w, scripts);
      assert us[i][0] == w.up[i][0];
      assert SeatInv(t, i, bs[i], us[i]);
      if w.up[i][0] == JUNK { JunkIgnored(t, i, bs, us, ev.source, scripts); }
    }
  }

  /** A refused discard is final: whatever is read and said from there on, the deal does not go on. */
  lemma {:induction false} RefusedDiscardIsFinal(w: World, events: seq<WorldEvent>, scripts: seq<Script>)
    requires WorldInv(w, scripts) && Refused(w.table.engine) && forall ev :: ev in events ==> AllowedInWorld(ev)
    ensures RunWorld(w, events, scripts).table.engine == w.table.engine
    decreases |events|
  {
    hide AllSeats, Unread, DeliverTo, ProcessFrom, FairSource, Refused;
    if events != [] {
      var ev := events[0];
      assert AllowedInWorld(ev);
      RefusalStays(w, ev, scripts);
      if ev.Deliver? { DeliverKeeps(w, ev.seat, scripts); } else { ProcessKeeps(w, ev.seat, ev.source, scripts); }
      RefusedDiscardIsFinal(WorldStep(w, ev, scripts), events[1..], scripts);
    }
  }

  /**
   * The bots never wait for each other. From every state a table of four bots can reach, some messages
   * read and some requests made bring the engine to its next step -- if and only if the taker has not
   * been asked for a discard that hand and dog do not allow.
   */
  lemma BotsNeverDeadlock(w0: World, events: seq<WorldEvent>, s: Source, scripts: seq<Script>)
    requires WorldStart(w0) && |scripts| == BOT_PLAYERS && FairSource(s, BOT_PLAYERS)
    requires forall ev :: ev in events ==> AllowedInWorld(ev)
    ensures var w := RunWorld(w0, events, scripts);
      (exists more :: MovesOn(w, more, scripts)) <==> !Refused(w.table.engine)
  {
    hide WorldStart, AllSeats, Refused, Unread, FairSource, MovesOn, RunWorld;
    StartHolds(w0, scripts);
    WorldRunKeeps(w0, events, scripts);
    var w := RunWorld(w0, events, scripts);
    if Refused(w.table.engine) {
      forall more ensures !MovesOn(w, more, scripts) {
        NothingMovesOn(w, more, scripts);
      }
    } else {
      var more := BotsGoOn(w, s, scripts);
    }
  }

  lemma NothingMovesOn(w: World, more: seq<WorldEvent>, scripts: seq<Script>)
    requires WorldInv(w, scripts) && Refused(w.table.engine)
    ensures !MovesOn(w, more, scripts)
  {
    hide AllSeats, Refused, Unread, RunWorld, AllowedInWorld;
    if forall ev :: ev in more ==> AllowedInWorld(ev) {
      RefusedDiscardIsFinal(w, more, scripts);
    }
  }

  // ---------------------------------------------------------------- how such a table comes about

  /** The first k players of a list have joined, in order, and nobody else has; any of them may have acknowledged it. */
  predicate SatDown(t: TableState, ids: seq<nat>, k: nat) {
    TableInv(t) && t.N() == BOT_PLAYERS && !t.adminMode && t.engine.phase == WaitForPlayers &&
    k <= |ids| == BOT_PLAYERS && (forall i :: 0 <= i < BOT_PLAYERS ==> ids[i] != INVALID_UID) &&
    (forall i, j :: 0 <= i < j < BOT_PLAYERS ==> ids[i] != ids[j]) &&
    forall i :: 0 <= i < BOT_PLAYERS ==> t.seats[i].uuid == if i < k then ids[i] else INVALID_UID
  }

  /**
   * What happens until all have come: from the k-th player on they join one by one, and those who have
   * joined acknowledge it at any time. The game has not begun.
   */
  predicate Arrivals(t: TableState, ids: seq<nat>, k: nat, events: seq<Event>)
    decreases |events|
  {
    Ready(t) && t.engine.phase == WaitForPlayers && k <= |ids| &&
    if events == [] then k == BOT_PLAYERS
    else
      match events[0]
      case Joined(uuid) => k < |ids| && uuid == ids[k] && Arrivals(Step(t, events[0]), ids, k + 1, events[1..])
      case Received(src, req, s) =>
        src in ids[..k] && [req] == Ack(WaitForPlayers) && FairSource(s, BOT_PLAYERS) &&
        Arrivals(Step(t, events[0]), ids, k, events[1..])
      case Left(_) => false
  }

  lemma NextJoins(t: TableState, ids: seq<nat>, k: nat)
    requires SatDown(t, ids, k) && k < BOT_PLAYERS
    ensures AddPlayer(t, ids[k]).1 == k && SatDown(AddPlayer(t, ids[k]).0, ids, k + 1)
  {
    hide Engines.Inv, ZeroSum;
    AddPlayerKeeps(t, ids[k]);
    PlaceOfFinds(t.seats, ids[k], t.N());
    FirstSeatFinds(t.seats, (s: SeatState) => s.uuid == INVALID_UID, 0, t.N());
  }

  lemma OneSaysSo(t: TableState, ids: seq<nat>, k: nat, src: nat, req: Request, s: Source)
    requires SatDown(t, ids, k) && src in ids[..k] && [req] == Ack(WaitForPlayers) && FairSource(s, BOT_PLAYERS)
    ensures Ready(t)
    ensures var t1 := Step(t, Received(src, req, s)); t1.engine.phase == WaitForPlayers ==> SatDown(t1, ids, k)
  {
    hide Engines.Inv, ZeroSum, PlaceOf, FairSource, HandleNewGame;
    var ev := Received(src, req, s);
    StepKeeps(t, ev);
    SyncOpens(t, WaitForPlayers, src);
    SyncKeepsSeating(t, WaitForPlayers, src);
    var t1 := Sync(t, WaitForPlayers, src).0;
    SeatsOnly(t, WaitForPlayers, src);
    NewGamePhase(t1);
    StepNamesRoundTrip(WaitForPlayers, req.step);
  }

  /**
   * Four players come to a new table, and each says so as soon as it likes: they take its seats in order,
   * and until the last one has said so they are where a run of the bots begins.
   */
  lemma {:induction false} FourBotsSitDown(t: TableState, ids: seq<nat>, k: nat, events: seq<Event>, w: World)
    requires SatDown(t, ids, k) && Arrivals(t, ids, k, events)
    requires w.table == Run(t, events) && |w.bots| == BOT_PLAYERS && w.down == [[], [], [], []] && |w.up| == BOT_PLAYERS
    requires forall i :: 0 <= i < BOT_PLAYERS ==> w.bots[i].place == i
    requires forall i :: 0 <= i < BOT_PLAYERS && i < |w.table.seats| ==>
      w.up[i] == if w.table.seats[i].ack then [] else Ack(WaitForPlayers)
    ensures WorldStart(w) && forall i :: 0 <= i < BOT_PLAYERS ==> w.table.seats[i].uuid == ids[i]
    decreases |events|
  {
    hide Step, Engines.Inv, ZeroSum, FairSource;
    if events == [] {
      assert FullTable(t);
    } else {
      match events[0]
      case Joined(uuid) =>
        NextJoins(t, ids, k);
        JoinIsStep(t, uuid);
        FourBotsSitDown(Step(t, events[0]), ids, k + 1, events[1..], w);
      case Received(src, req, s) =>
        OneSaysSo(t, ids, k, src, req, s);
        FourBotsSitDown(Step(t, events[0]), ids, k, events[1..], w);
      case Left(_) => assert false;
    }
  }

  lemma JoinIsStep(t: TableState, uuid: nat)
    requires Ready(t)
    ensures Step(t, Joined(uuid)) == AddPlayer(t, uuid).0
  {
  }
}
