/** A deal in which a table of four bots comes to a stop, played from the first message on. */
module Refusals {
  import opened Tarot
  import opened Decks
  import opened Context
  import opened Engines
  import opened EngineProofs
  import opened Scores
  import opened Tables
  import opened TableProofs
  import opened Deals
  import opened Play
  import opened Bots
  import opened Mirror

  // ---------------------------------------------------------------- the input

  /** The deck in its own order: the last seat gets almost all the trumps. */
  function UnshuffledDeck(): Source {
    Shuffled(FullDeck())
  }

  /** Scripts that always pass, but for the last seat, which always takes. */
  function LastSeatTakes(): seq<Script> {
    seq(BOT_PLAYERS, i requires 0 <= i < BOT_PLAYERS =>
      (k: nat) => Answer(if i == 3 then TAKE else PASS, SlamAnswer(false), 0, 0, []))
  }

  /** The last seat and the dog of that deal: two plain cards, one of them a king, and the trumps. */
  predicate TrumpsForTheLast(e: EngineState) {
    e.N() == BOT_PLAYERS && e.Hand(3) + e.ctx.dog == FullDeck()[54..]
  }

  lemma {:induction false} NoneDiscardable(front: Cards, d: Cards)
    requires forall c :: c in d ==> !Discardable(c)
    ensures Discardables(front + d) == Discardables(front)
  {
    if d == [] {
      assert front + d == front;
    } else {
      var last := |d| - 1;
      assert (front + d)[..|front| + last] == front + d[..last];
      NoneDiscardable(front, d[..last]);
    }
  }

  lemma {:induction false} NoMoreThanAll(d: Cards)
    ensures |Discardables(d)| <= |d|
  {
    if d != [] { NoMoreThanAll(d[..|d| - 1]); }
  }

  lemma TooFewToDiscard(e: EngineState)
    requires TrumpsForTheLast(e) && e.ctx.bid.taker == 3
    ensures !CanDiscard(e)
  {
    var front, rest := FullDeck()[54..56], FullDeck()[56..];
    assert FullDeck()[54..] == front + rest;
    forall c | c in rest ensures !Discardable(c) {
      var i :| 0 <= i < |rest| && rest[i] == c;
      assert c == CardAt(56 + i);
    }
    NoneDiscardable(front, rest);
    NoMoreThanAll(front);
  }

  /** The generator does not reject this deal: no hand has the smallest trump without a higher one. */
  lemma DealIsValid(i: nat)
    requires i < BOT_PLAYERS
    ensures !HasOnlyOneOfTrump(RandomHand(FullDeck(), i, BOT_PLAYERS))
  {
    hide HasOnlyOneOfTrump;
    var hand := FullDeck()[18 * i..18 * i + 18];
    assert RandomHand(FullDeck(), i, BOT_PLAYERS) == hand;
    assert forall j :: 0 <= j < 18 ==> hand[j] == CardAt(18 * i + j);
    LoneSmallTrump(hand);
    if i == 3 {
      assert hand[4] == CardAt(58) == Card(2, TRUMPS);
    }
  }

  // ---------------------------------------------------------------- rounds of messages

  /** Every bot has one message to read, and nothing else is under way. */
  predicate Told(w: World, phase: Phase, ms: seq<Msg>) {
    w.Sized() && FullTable(w.table) && Quiet(w.table) && w.table.engine.phase == phase && |ms| == BOT_PLAYERS &&
    forall i :: 0 <= i < BOT_PLAYERS ==> w.bots[i].place == i && w.up[i] == [] && w.down[i] == [ms[i]]
  }

  /** Every bot has read its message, and what it answers is on its way. */
  predicate ReadBy(w: World, w': World, ms: seq<Msg>, scripts: seq<Script>) {
    w.Sized() && w'.Sized() && |ms| == BOT_PLAYERS && |scripts| == BOT_PLAYERS && w'.table == w.table &&
    forall i :: 0 <= i < BOT_PLAYERS ==>
      w'.down[i] == [] && (w'.bots[i], w'.up[i]) == HandleMessage(w.bots[i], ms[i], scripts[i])
  }

  lemma {:induction false} RunsAppend(w: World, a: seq<WorldEvent>, b: seq<WorldEvent>, scripts: seq<Script>)
    requires |scripts| == BOT_PLAYERS && forall ev :: ev in a ==> AllowedInWorld(ev)
    ensures RunWorld(w, a + b, scripts) == RunWorld(RunWorld(w, a, scripts), b, scripts)
    decreases |a|
  {
    hide WorldStep, FairSource;
    if a == [] {
      assert a + b == b;
    } else if w.Sized() {
      assert AllowedInWorld(a[0]);
      assert (a + b)[1..] == a[1..] + b;
      RunsAppend(WorldStep(w, a[0], scripts), a[1..], b, scripts);
    } else {
      NothingRuns(w, b, scripts);
    }
  }

  lemma NothingRuns(w: World, b: seq<WorldEvent>, scripts: seq<Script>)
    requires |scripts| == BOT_PLAYERS && !w.Sized()
    ensures RunWorld(w, b, scripts) == w
  {
  }

  function Deliveries(k: nat): seq<WorldEvent> {
    seq(k, i requires 0 <= i < k => Deliver(i))
  }

  lemma {:induction false} ReadTheFirst(w: World, ms: seq<Msg>, phase: Phase, scripts: seq<Script>, k: nat) returns (w': World)
    requires Told(w, phase, ms) && |scripts| == BOT_PLAYERS && k <= BOT_PLAYERS
    ensures w' == RunWorld(w, Deliveries(k), scripts) && w'.Sized() && w'.table == w.table
    ensures forall i :: 0 <= i < BOT_PLAYERS ==>
      if i < k then w'.down[i] == [] && (w'.bots[i], w'.up[i]) == HandleMessage(w.bots[i], ms[i], scripts[i])
      else w'.down[i] == w.down[i] && w'.bots[i] == w.bots[i] && w'.up[i] == []
  {
    hide HandleMessage, FullTable, Quiet;
    if k == 0 {
      w' := w;
    } else {
      var w1 := ReadTheFirst(w, ms, phase, scripts, k - 1);
      assert Deliveries(k) == Deliveries(k - 1) + [Deliver(k - 1)];
      RunsAppend(w, Deliveries(k - 1), [Deliver(k - 1)], scripts);
      w' := DeliverTo(w1, k - 1, scripts);
      assert [Deliver(k - 1)][1..] == [] && RunWorld(w', [], scripts) == w';
      assert w1.down[k - 1] == [ms[k - 1]];
      var sent := HandleMessage(w.bots[k - 1], ms[k - 1], scripts[k - 1]).1;
      assert [] + sent == sent;
    }
  }

  lemma AllReadTheirs(w: World, ms: seq<Msg>, phase: Phase, scripts: seq<Script>) returns (w': World)
    requires Told(w, phase, ms) && |scripts| == BOT_PLAYERS
    ensures w' == RunWorld(w, Deliveries(BOT_PLAYERS), scripts) && ReadBy(w, w', ms, scripts)
  {
    hide HandleMessage, FullTable, Quiet;
    w' := ReadTheFirst(w, ms, phase, scripts, BOT_PLAYERS);
  }

  /** The flags of the first k seats are up. */
  function Marked(t: TableState, k: nat): TableState
    requires t.Sized()
  {
    t.(seats := seq(MAX_SEATS, i requires 0 <= i < MAX_SEATS => if i < k then t.seats[i].(ack := true) else t.seats[i]))
  }

  lemma MarkNext(t: TableState, k: nat)
    requires FullTable(t) && Quiet(t) && AckPhase(t.engine.phase) && k < BOT_PLAYERS
    ensures GetPlayerPlace(Marked(t, k), UuidAt(Marked(t, k), k)) == k
    ensures Sync(Marked(t, k), t.engine.phase, UuidAt(Marked(t, k), k)) ==
      if k < BOT_PLAYERS - 1 then (Marked(t, k + 1), false) else (t, true)
  {
    hide Engines.Inv, ZeroSum;
    var tk := Marked(t, k);
    SeatOf(t, k);
    PlaceOfFinds(tk.seats, UuidAt(tk, k), tk.N());
    assert tk.N() == BOT_PLAYERS && UuidAt(tk, k) == UuidAt(t, k);
    var marked := MarkAck(tk, UuidAt(tk, k));
    assert marked == Marked(t, k + 1);
    if k < BOT_PLAYERS - 1 {
      assert !marked.seats[BOT_PLAYERS - 1].ack;
    } else {
      assert ResetAck(marked) == t;
    }
  }

  function Requests(s: Source, k: nat): seq<WorldEvent> {
    seq(k, i requires 0 <= i < k => Process(i, s))
  }

  /** One acknowledgement that is not the last. */
  lemma AckOne(t: TableState, k: nat, s: Source)
    requires FullTable(t) && Quiet(t) && AckPhase(t.engine.phase) && k < BOT_PLAYERS - 1
    ensures Ready(t) && Ready(Marked(t, k)) && Ready(Marked(t, k + 1))
    ensures ExecuteRequest(Marked(t, k), UuidAt(Marked(t, k), k), Ack(t.engine.phase)[0], s) == (Marked(t, k + 1), [])
  {
    hide Engines.Inv, ZeroSum, StepOfPhase, PhaseOfStep, Sync, Barrier, PlaceOf;
    MarkNext(t, k);
    StepNamesRoundTrip(t.engine.phase, "");
  }

  lemma {:induction false} AckTheFirst(w: World, s: Source, scripts: seq<Script>, k: nat) returns (w': World)
    requires w.Sized() && FullTable(w.table) && Quiet(w.table) && AckPhase(w.table.engine.phase) && |scripts| == BOT_PLAYERS
    requires FairSource(s, BOT_PLAYERS) && k < BOT_PLAYERS
    requires forall i :: 0 <= i < BOT_PLAYERS ==> w.down[i] == [] && w.up[i] == Ack(w.table.engine.phase)
    ensures w' == RunWorld(w, Requests(s, k), scripts) && w'.Sized() && w'.table == Marked(w.table, k) && w'.bots == w.bots
    ensures forall i :: 0 <= i < BOT_PLAYERS ==> w'.down[i] == [] && w'.up[i] == if i < k then [] else w.up[i]
  {
    hide FullTable, Quiet, FairSource, Ack, ExecuteRequest, Ready;
    if k == 0 {
      w' := w;
      FullIsSized(w.table);
      assert Marked(w.table, 0) == w.table;
    } else {
      FullIsSized(w.table);
      var w1 := AckTheFirst(w, s, scripts, k - 1);
      assert Requests(s, k) == Requests(s, k - 1) + [Process(k - 1, s)];
      RunsAppend(w, Requests(s, k - 1), [Process(k - 1, s)], scripts);
      AckOne(w.table, k - 1, s);
      SaysOne(w.table.engine.phase);
      w' := ProcessFrom(w1, k - 1, s);
      forall i | 0 <= i < BOT_PLAYERS ensures w'.down[i] == [] {
        NoMessages(UuidAt(w1.table, i));
      }
      assert [Process(k - 1, s)][1..] == [] && RunWorld(w', [], scripts) == w';
    }
  }

  lemma SaysOne(phase: Phase)
    ensures |Ack(phase)| == 1
  {
  }

  /** All acknowledge: the phase handler runs, and its messages are sent. */
  lemma AllAcknowledge(w: World, s: Source, scripts: seq<Script>) returns (w': World)
    requires w.Sized() && FullTable(w.table) && Quiet(w.table) && AckPhase(w.table.engine.phase) && |scripts| == BOT_PLAYERS
    requires FairSource(s, BOT_PLAYERS)
    requires forall i :: 0 <= i < BOT_PLAYERS ==> w.down[i] == [] && w.up[i] == Ack(w.table.engine.phase)
    ensures w' == RunWorld(w, Requests(s, BOT_PLAYERS), scripts) && w'.Sized() && w'.bots == w.bots
    ensures var (t1, replies) := Barrier(w.table, w.table.engine.phase, s);
      w'.table == t1 && FullTable(t1) && Quiet(t1) && SameSeating(w.table, t1) &&
      forall i :: 0 <= i < BOT_PLAYERS ==> w'.up[i] == [] && w'.down[i] == MessagesFor(UuidAt(w.table, i), replies)
  {
    hide Engines.Inv, ZeroSum, FairSource, StepOfPhase, PhaseOfStep, Sync, Barrier, PlaceOf, MessagesFor;
    var k, t, phase := BOT_PLAYERS - 1, w.table, w.table.engine.phase;
    var w1 := AckTheFirst(w, s, scripts, k);
    assert Requests(s, BOT_PLAYERS) == Requests(s, k) + [Process(k, s)];
    RunsAppend(w, Requests(s, k), [Process(k, s)], scripts);
    MarkNext(t, k);
    StepNamesRoundTrip(phase, "");
    PhasesStayValid(t, phase, s);
    BarrierKeeps(t, phase, s);
    BarrierKeepsSeating(t, phase, s);
    FullIsSized(Barrier(t, phase, s).0);
    w' := ProcessFrom(w1, k, s);
    assert ExecuteRequest(w1.table, UuidAt(w1.table, k), w1.up[k][0], s) == Barrier(t, phase, s);
    assert [Process(k, s)][1..] == [] && RunWorld(w', [], scripts) == w';
  }

  /** A round: every bot reads a message of the phase and acknowledges it, and the handler runs. */
  lemma Round(w: World, ms: seq<Msg>, s: Source, scripts: seq<Script>) returns (events: seq<WorldEvent>, w': World)
    requires |scripts| == BOT_PLAYERS && FairSource(s, BOT_PLAYERS) && Told(w, w.table.engine.phase, ms)
    requires AckPhase(w.table.engine.phase) && forall i :: 0 <= i < BOT_PLAYERS ==> AckedBy(ms[i]) == w.table.engine.phase
    ensures (forall ev :: ev in events ==> AllowedInWorld(ev)) && w' == RunWorld(w, events, scripts) && w'.Sized()
    ensures var (t1, replies) := Barrier(w.table, w.table.engine.phase, s);
      w'.table == t1 && FullTable(t1) && Quiet(t1) && SameSeating(w.table, t1) &&
      forall i :: 0 <= i < BOT_PLAYERS ==>
        w'.up[i] == [] && w'.down[i] == MessagesFor(UuidAt(w.table, i), replies) &&
        w'.bots[i] == HandleMessage(w.bots[i], ms[i], scripts[i]).0
  {
    hide HandleMessage, FullTable, Quiet, FairSource, Barrier, MessagesFor, StepOfPhase;
    var w1 := AllReadTheirs(w, ms, w.table.engine.phase, scripts);
    forall i | 0 <= i < BOT_PLAYERS ensures w1.up[i] == Ack(w.table.engine.phase) {
      Acknowledges(w.bots[i], ms[i], scripts[i]);
    }
    w' := AllAcknowledge(w1, s, scripts);
    events := Deliveries(BOT_PLAYERS) + Requests(s, BOT_PLAYERS);
    RunsAppend(w, Deliveries(BOT_PLAYERS), Requests(s, BOT_PLAYERS), scripts);
  }

  // ---------------------------------------------------------------- the auction of that deal

  function BidAsked(e: EngineState): Msg {
    MsgRequestBid(e.currentPlayer, e.ctx.bid.contract)
  }

  /** k seats have spoken, from the last one on; it took. */
  predicate Spoken(e: EngineState, k: nat) {
    TrumpsForTheLast(e) && e.position == k && e.currentPlayer == (3 + k) % BOT_PLAYERS &&
    e.ctx.bid == if k == 0 then NO_BID else Bid(3, NOWHERE, TAKE, false)
  }

  /** The step of the auction after k seats have spoken. */
  lemma SpokenOn(e: EngineState, k: nat)
    requires Spoken(e, k) && k <= BOT_PLAYERS && e.phase == if k == 0 then WaitForCards else WaitForShowBid
    ensures var e' := BidSequence(e);
      if k < BOT_PLAYERS then e'.phase == WaitForBid && Spoken(e', k)
      else e'.phase == WaitForShowDog && TrumpsForTheLast(e') && e'.ctx.bid == Bid(3, NOWHERE, TAKE, false)
  {
    hide FullDeck;
  }

  lemma BarrierOf(t: TableState, s: Source)
    requires Ready(t) && t.engine.phase in {WaitForCards, WaitForShowBid}
    ensures Ready(t.(engine := BidSequence(t.engine)))
    ensures Barrier(t, t.engine.phase, s) == NextBidSequence(t.(engine := BidSequence(t.engine)))
  {
    hide BidSequence, NextBidSequence;
    SameRoomAfterBid(t.engine);
  }

  /** Everyone is told the same. */
  function ToEveryone(m: Msg): seq<Msg> {
    [m, m, m, m]
  }

  lemma EveryoneTold(t: TableState, t1: TableState, m: Msg, i: nat)
    requires FullTable(t) && SameSeating(t, t1) && t1.Sized() && i < BOT_PLAYERS && FullTable(t1)
    ensures MessagesFor(UuidAt(t, i), ToAll(t1, m)) == [m]
  {
    hide Engines.Inv, ZeroSum, MessagesFor, ToAll;
    ForSeat(t1, i, 0, m);
  }

  /** From the cards, or a shown bid, to the request for the next bid. */
  lemma AskNext(w: World, ms: seq<Msg>, k: nat, scripts: seq<Script>) returns (events: seq<WorldEvent>, w': World)
    requires |scripts| == BOT_PLAYERS && Told(w, w.table.engine.phase, ms) && Spoken(w.table.engine, k) && k <= BOT_PLAYERS
    requires w.table.engine.phase == if k == 0 then WaitForCards else WaitForShowBid
    requires forall i :: 0 <= i < BOT_PLAYERS ==> AckedBy(ms[i]) == w.table.engine.phase
    ensures (forall ev :: ev in events ==> AllowedInWorld(ev)) && w' == RunWorld(w, events, scripts)
    ensures w'.Sized() && TrumpsForTheLast(w'.table.engine)
    ensures k < BOT_PLAYERS ==>
      Spoken(w'.table.engine, k) && Told(w', WaitForBid, ToEveryone(BidAsked(w'.table.engine)))
    ensures k == BOT_PLAYERS ==>
      w'.table.engine.ctx.bid == Bid(3, NOWHERE, TAKE, false) &&
      Told(w', WaitForShowDog, ToEveryone(MsgShowDog(w'.table.engine.ctx.dog)))
    ensures forall i :: 0 <= i < BOT_PLAYERS ==> w'.bots[i] == HandleMessage(w.bots[i], ms[i], scripts[i]).0
  {
    hide FairSource, Barrier, MessagesFor, HandleMessage, ToAll, TrumpsForTheLast, FullTable, Quiet, BidSequence, SameSeating;
    SpokenOn(w.table.engine, k);
    assert FairSource(UnshuffledDeck(), BOT_PLAYERS) by { UnshuffledIsFair(); }
    events, w' := Round(w, ms, UnshuffledDeck(), scripts);
    var t := w.table;
    FullIsSized(t);
    BarrierOf(t, UnshuffledDeck());
    var m := if k < BOT_PLAYERS then BidAsked(w'.table.engine) else MsgShowDog(w'.table.engine.ctx.dog);
    forall i | 0 <= i < BOT_PLAYERS ensures w'.down[i] == [m] && w'.bots[i].place == i {
      EveryoneTold(t, w'.table, m, i);
      PlaceKept(w.bots[i], ms[i], scripts[i]);
    }
  }

  lemma PlaceKept(b: BotState, m: Msg, script: Script)
    ensures HandleMessage(b, m, script).0.place == b.place
  {
  }

  lemma UnshuffledIsFair()
    ensures FairSource(UnshuffledDeck(), BOT_PLAYERS)
  {
  }

  /** What the bot of seat i answers when a bid is asked for. */
  lemma BidAnswered(b: BotState, e: EngineState, k: nat, i: nat)
    requires Spoken(e, k) && k < BOT_PLAYERS && i < BOT_PLAYERS && b.place == i
    requires k == 0 && i == 3 ==> b.highestBid == NO_ANY
    ensures var (b', sent) := HandleMessage(b, BidAsked(e), LastSeatTakes()[i]);
      b'.place == i && sent == if i == e.currentPlayer then [ReqBid(if i == 3 then TAKE else PASS, false)] else []
  {
    hide TrumpsForTheLast;
  }

  lemma BidHeard(e: EngineState, k: nat)
    requires Spoken(e, k) && k < BOT_PLAYERS
    ensures Spoken(Engines.SetBid(e, if e.currentPlayer == 3 then TAKE else PASS, false, e.currentPlayer).0, k + 1)
  {
    hide FullDeck;
  }

  /** The request of the player who is asked for a bid. */
  lemma BidExecuted(t: TableState, contract: Contract, s: Source)
    requires FullTable(t) && Quiet(t) && t.engine.phase == WaitForBid && t.engine.currentPlayer < BOT_PLAYERS
    requires PASS <= contract <= GUARD_AGAINST && FairSource(s, BOT_PLAYERS)
    ensures var p := t.engine.currentPlayer;
      var (e1, answer) := Engines.SetBid(t.engine, contract, false, p);
      var t1 := t.(engine := e1);
      Ready(t) && Ready(t1) && FullTable(t1) && Quiet(t1) && SameSeating(t, t1) &&
      ExecuteRequest(t, UuidAt(t, p), ReqBid(contract, false), s) == (t1, ToAll(t1, MsgShowBid(p, answer, false, e1.ctx.bid)))
  {
    hide Engines.Inv, ZeroSum, FairSource, ToAll, PlaceOf, RaiseBid;
    var p := t.engine.currentPlayer;
    SeatOf(t, p);
    AnswerFull(t, p, ReqBid(contract, false), s);
    QuietKept(t, t.(engine := Engines.SetBid(t.engine, contract, false, p).0));
  }

  /** The bid is executed and shown to everyone. */
  lemma BidShownToAll(w: World, contract: Contract, s: Source, scripts: seq<Script>) returns (w': World, shown: Msg)
    requires w.Sized() && |scripts| == BOT_PLAYERS && FairSource(s, BOT_PLAYERS) && PASS <= contract <= GUARD_AGAINST
    requires var t := w.table;
      FullTable(t) && Quiet(t) && t.engine.phase == WaitForBid && t.engine.currentPlayer < BOT_PLAYERS &&
      forall i :: 0 <= i < BOT_PLAYERS ==>
        w.bots[i].place == i && w.down[i] == [] &&
        w.up[i] == if i == t.engine.currentPlayer then [ReqBid(contract, false)] else []
    ensures w' == RunWorld(w, [Process(w.table.engine.currentPlayer, s)], scripts) && w'.Sized() && shown.MsgShowBid?
    ensures w'.table.engine == Engines.SetBid(w.table.engine, contract, false, w.table.engine.currentPlayer).0
    ensures Told(w', WaitForShowBid, ToEveryone(shown))
  {
    hide FairSource, MessagesFor, FullTable, Quiet, ToAll, ExecuteRequest, RaiseBid, SameSeating, Ready;
    var p, t := w.table.engine.currentPlayer, w.table;
    BidExecuted(t, contract, s);
    var (e1, answer) := Engines.SetBid(t.engine, contract, false, p);
    var t1 := t.(engine := e1);
    shown := MsgShowBid(p, answer, false, e1.ctx.bid);
    w' := ProcessFrom(w, p, s);
    FullIsSized(t1);
    forall i | 0 <= i < BOT_PLAYERS ensures w'.down[i] == [shown] && w'.up[i] == [] {
      EveryoneTold(t, t1, shown, i);
      assert [] + [shown] == [shown];
    }
    assert [Process(p, s)][1..] == [] && RunWorld(w', [], scripts) == w';
  }

  /** The bot that is asked takes if it is the last one, and passes otherwise. */
  lemma BidTurn(w: World, k: nat) returns (events: seq<WorldEvent>, w': World, shown: Msg)
    requires w.Sized() && Told(w, WaitForBid, ToEveryone(BidAsked(w.table.engine))) && Spoken(w.table.engine, k)
    requires k < BOT_PLAYERS && (k == 0 ==> w.bots[3].highestBid == NO_ANY)
    ensures (forall ev :: ev in events ==> AllowedInWorld(ev)) && w' == RunWorld(w, events, LastSeatTakes())
    ensures w'.Sized() && Spoken(w'.table.engine, k + 1) && shown.MsgShowBid? && Told(w', WaitForShowBid, ToEveryone(shown))
  {
    hide FairSource, TrumpsForTheLast, FullTable, Quiet, HandleMessage, LastSeatTakes, RunWorld, Engines.SetBid;
    var s, scripts, p, t := UnshuffledDeck(), LastSeatTakes(), w.table.engine.currentPlayer, w.table;
    var contract := if p == 3 then TAKE else PASS;
    assert FairSource(s, BOT_PLAYERS) by { UnshuffledIsFair(); }
    var w1 := AllReadTheirs(w, ToEveryone(BidAsked(t.engine)), WaitForBid, scripts);
    forall i | 0 <= i < BOT_PLAYERS
      ensures w1.up[i] == (if i == p then [ReqBid(contract, false)] else []) && w1.bots[i].place == i
    {
      BidAnswered(w.bots[i], t.engine, k, i);
    }
    w', shown := BidShownToAll(w1, contract, s, scripts);
    BidHeard(t.engine, k);
    events := Deliveries(BOT_PLAYERS) + [Process(p, s)];
    RunsAppend(w, Deliveries(BOT_PLAYERS), [Process(p, s)], scripts);
  }

  /** From the request for bid k on: the others pass, and everyone is shown the dog. */
  lemma {:induction false} RestOfAuction(w: World, k: nat) returns (events: seq<WorldEvent>, w': World)
    requires w.Sized() && Told(w, WaitForBid, ToEveryone(BidAsked(w.table.engine))) && Spoken(w.table.engine, k)
    requires k < BOT_PLAYERS && (k == 0 ==> w.bots[3].highestBid == NO_ANY)
    ensures (forall ev :: ev in events ==> AllowedInWorld(ev)) && w' == RunWorld(w, events, LastSeatTakes())
    ensures w'.Sized() && TrumpsForTheLast(w'.table.engine) && w'.table.engine.ctx.bid == Bid(3, NOWHERE, TAKE, false)
    ensures Told(w', WaitForShowDog, ToEveryone(MsgShowDog(w'.table.engine.ctx.dog)))
    decreases BOT_PLAYERS - k
  {
    hide Told, Spoken, AllowedInWorld, RunWorld, TrumpsForTheLast, HandleMessage;
    var scripts := LastSeatTakes();
    var bid, w1, shown := BidTurn(w, k);
    assert w1.table.engine.phase == WaitForShowBid by { PhaseTold(w1, WaitForShowBid, ToEveryone(shown)); }
    var asked, w2 := AskNext(w1, ToEveryone(shown), k + 1, scripts);
    RunsAppend(w, bid, asked, scripts);
    if k + 1 < BOT_PLAYERS {
      var more;
      more, w' := RestOfAuction(w2, k + 1);
      events := (bid + asked) + more;
      RunsAppend(w, bid + asked, more, scripts);
    } else {
      events, w' := bid + asked, w2;
    }
  }

  lemma PhaseTold(w: World, phase: Phase, ms: seq<Msg>)
    requires Told(w, phase, ms)
    ensures w.table.engine.phase == phase
  {
  }

  // ---------------------------------------------------------------- from the first message to the last

  /** The cards of that deal are dealt, and the last seat is the first to speak. */
  lemma CardsDealt(e: EngineState)
    requires e.N() == BOT_PLAYERS && |e.players| == MAX_SEATS && e.dealer == 1
    ensures Spoken(Engines.NewDeal(e, UnshuffledDeck()), 0)
  {
    var e' := Engines.NewDeal(e, UnshuffledDeck());
    assert e'.Hand(3) == FullDeck()[54..72] && e'.ctx.dog == FullDeck()[72..78];
    assert FullDeck()[54..72] + FullDeck()[72..78] == FullDeck()[54..];
  }

  /** The game begins, and the deal is dealt. */
  lemma Dealing(w: World, ms: seq<Msg>, scripts: seq<Script>) returns (events: seq<WorldEvent>, w': World, hands: seq<Msg>)
    requires |scripts| == BOT_PLAYERS && Told(w, WaitForReady, ms) && w.table.engine.dealer == 1
    requires forall i :: 0 <= i < BOT_PLAYERS ==> ms[i] == MsgNewGame
    ensures (forall ev :: ev in events ==> AllowedInWorld(ev)) && w' == RunWorld(w, events, scripts)
    ensures w'.Sized() && Told(w', WaitForCards, hands) && Spoken(w'.table.engine, 0)
    ensures forall i :: 0 <= i < BOT_PLAYERS ==> hands[i].MsgNewDeal? && w'.bots[i] == w.bots[i]
  {
    hide Engines.Inv, ZeroSum, FairSource, MessagesFor, Seated, FullDeck, FullTable, Quiet, Engines.NewDeal, Spoken;
    var s, t := UnshuffledDeck(), w.table;
    assert FairSource(s, BOT_PLAYERS) by { UnshuffledIsFair(); }
    events, w' := Round(w, ms, s, scripts);
    FullIsSized(t);
    SeatsOfFull(t);
    CardsDealt(t.engine);
    NewDealEntersCards(t, s);
    hands := seq(BOT_PLAYERS, i requires 0 <= i < BOT_PLAYERS => MsgNewDeal(w'.table.engine.Hand(i)));
    forall i | 0 <= i < BOT_PLAYERS ensures w'.down[i] == [hands[i]] {
      HandTold(t, w'.table, i);
    }
  }

  lemma HandTold(t: TableState, t1: TableState, i: nat)
    requires FullTable(t) && FullTable(t1) && t1.Sized() && SameSeating(t, t1) && i < BOT_PLAYERS
    ensures MessagesFor(UuidAt(t, i), DealMessages(t1, t1.N())) == [MsgNewDeal(t1.engine.Hand(i))]
  {
    hide Engines.Inv, ZeroSum, MessagesFor, DealMessages;
    DealForSeat(t1, i, t1.N());
  }

  lemma SeatsOfFull(t: TableState)
    requires FullTable(t) && t.engine.phase == WaitForReady
    ensures t.N() == BOT_PLAYERS && |t.engine.players| == MAX_SEATS
  {
  }

  lemma GameBegins(t: TableState, s: Source)
    requires Ready(t) && t.engine.phase == WaitForPlayers && !t.adminMode
    ensures var (t1, replies) := Barrier(t, WaitForPlayers, s);
      replies == ToAll(t1, MsgNewGame) && t1.Sized() && t1.engine == t.engine.(phase := WaitForReady)
  {
    hide Seated;
  }

  /** Everyone has sat down: the game begins. */
  lemma Beginning(w: World, scripts: seq<Script>) returns (events: seq<WorldEvent>, w': World)
    requires |scripts| == BOT_PLAYERS && WorldStart(w) && Quiet(w.table)
    ensures (forall ev :: ev in events ==> AllowedInWorld(ev)) && w' == RunWorld(w, events, scripts)
    ensures w'.Sized() && Told(w', WaitForReady, ToEveryone(MsgNewGame)) && w'.bots == w.bots
    ensures w'.table.engine.dealer == w.table.engine.dealer
  {
    hide Engines.Inv, ZeroSum, FairSource, MessagesFor, Seated, FullTable, Barrier, Quiet, ToAll, SameSeating;
    var s, t := UnshuffledDeck(), w.table;
    assert FairSource(s, BOT_PLAYERS) by { UnshuffledIsFair(); }
    FullIsSized(t);
    NobodyAcked(t);
    FullRoom(t);
    AdminAway(t);
    GameBegins(t, s);
    w' := AllAcknowledge(w, s, scripts);
    events := Requests(s, BOT_PLAYERS);
    forall i | 0 <= i < BOT_PLAYERS ensures w'.down[i] == [MsgNewGame] {
      EveryoneTold(t, w'.table, MsgNewGame, i);
    }
  }

  lemma NobodyAcked(t: TableState)
    requires Quiet(t)
    ensures forall i :: 0 <= i < t.N() ==> !t.seats[i].ack
  {
  }

  lemma AdminAway(t: TableState)
    requires FullTable(t)
    ensures !t.adminMode
  {
  }

  /** The dog has been seen: the taker is asked for its discard. */
  lemma AskForDiscard(w: World, scripts: seq<Script>) returns (events: seq<WorldEvent>, w': World)
    requires |scripts| == BOT_PLAYERS && Told(w, WaitForShowDog, ToEveryone(MsgShowDog(w.table.engine.ctx.dog)))
    ensures (forall ev :: ev in events ==> AllowedInWorld(ev)) && w' == RunWorld(w, events, scripts)
    ensures w'.table.engine == w.table.engine.(phase := WaitForDiscard)
  {
    hide Engines.Inv, ZeroSum, FairSource, MessagesFor, FullTable, Quiet;
    assert FairSource(UnshuffledDeck(), BOT_PLAYERS) by { UnshuffledIsFair(); }
    FullIsSized(w.table);
    events, w' := Round(w, ToEveryone(MsgShowDog(w.table.engine.ctx.dog)), UnshuffledDeck(), scripts);
  }

  /**
   * A stop that happens. Four bots sit down at a new table whose dealer is the second seat, the last seat's
   * script takes and the others pass, and the deck comes up in its own order: after these messages the taker
   * has been asked for a discard that it cannot make, and no message moves the deal any more.
   */
  lemma BotsCanStop(w: World, more: seq<WorldEvent>) returns (events: seq<WorldEvent>)
    requires WorldStart(w) && Quiet(w.table) && w.table.engine.dealer == 1 && w.bots[3].highestBid == NO_ANY
    requires forall ev :: ev in more ==> AllowedInWorld(ev)
    ensures forall ev :: ev in events ==> AllowedInWorld(ev)
    ensures var stopped := RunWorld(w, events, LastSeatTakes()).table.engine;
      Refused(stopped) && RunWorld(w, events + more, LastSeatTakes()).table.engine == stopped
  {
    hide WorldStart, Told, Spoken, AllowedInWorld, RunWorld, HandleMessage, Quiet, CanDiscard, WorldInv, FullDeck;
    var scripts := LastSeatTakes();
    var begin, w1 := Beginning(w, scripts);
    assert w1.table.engine.phase == WaitForReady by { PhaseTold(w1, WaitForReady, ToEveryone(MsgNewGame)); }
    var deal, w2, hands := Dealing(w1, ToEveryone(MsgNewGame), scripts);
    PhaseTold(w2, WaitForCards, hands);
    RunsAppend(w, begin, deal, scripts);
    assert |hands| == BOT_PLAYERS by { TellsFour(w2, WaitForCards, hands); }
    var ask, w3 := AskNext(w2, hands, 0, scripts);
    RunsAppend(w, begin + deal, ask, scripts);
    HearsNoBid(w2.bots[3], hands[3], scripts[3]);
    var auction, w4 := RestOfAuction(w3, 0);
    RunsAppend(w, begin + deal + ask, auction, scripts);
    var dog, w5 := AskForDiscard(w4, scripts);
    RunsAppend(w, begin + deal + ask + auction, dog, scripts);
    events := begin + deal + ask + auction + dog;
    assert Refused(w5.table.engine) by { TooFewToDiscard(w5.table.engine); }
    StartHolds(w, scripts);
    WorldRunKeeps(w, events, scripts);
    RunsAppend(w, events, more, scripts);
    RefusedDiscardIsFinal(w5, more, scripts);
  }

  lemma TellsFour(w: World, phase: Phase, ms: seq<Msg>)
    requires Told(w, phase, ms)
    ensures |ms| == BOT_PLAYERS
  {
  }

  lemma HearsNoBid(b: BotState, m: Msg, script: Script)
    requires m.MsgNewDeal?
    ensures HandleMessage(b, m, script).0.highestBid == b.highestBid
  {
  }

  /** A table before its creation. */
  function NoTable(): TableState {
    var ctx := Ctx(BOT_PLAYERS, NO_BID, Pile([], NoTeam), [], [], [], 0, seq(MAX_TRICKS, _ => Pile([], NoTeam)),
                   seq(MAX_TRICKS, _ => 0), 0, NO_STATS, NO_CARD);
    TableState(EngineState(seq(MAX_SEATS, _ => []), [], NO_POINTS, Stopped, 0, 0, 0, 0, seq(MAX_SEATS, _ => false), ctx),
               [], INVALID_UID, false, NewScore(5), 1)
  }

  function NewTable(): TableState {
    CreateTable(NoTable(), BOT_PLAYERS, 1)
  }

  const FOUR_IDS: seq<nat> := [1, 2, 3, 4]

  function NewBots(): seq<BotState> {
    seq(BOT_PLAYERS, i requires 0 <= i < BOT_PLAYERS => BotState(i, [], [], [], 0, NO_ANY, false, 0))
  }

  lemma NewTableIsEmpty()
    ensures SatDown(NewTable(), FOUR_IDS, 0) && NewTable().engine.dealer == 1
    ensures forall i :: 0 <= i < BOT_PLAYERS ==> !NewTable().seats[i].ack
  {
    hide Engines.Inv, ZeroSum, SeatsInv;
    CreatedTable(NoTable(), BOT_PLAYERS, 1);
  }

  /** Joining sets no flag and leaves the engine alone. */
  lemma JoinsQuietly(t: TableState, ids: seq<nat>, k: nat)
    requires SatDown(t, ids, k) && k < BOT_PLAYERS && forall i :: 0 <= i < BOT_PLAYERS ==> !t.seats[i].ack
    ensures var t1 := AddPlayer(t, ids[k]).0;
      Ready(t) && Step(t, Joined(ids[k])) == t1 && SatDown(t1, ids, k + 1) && t1.engine == t.engine &&
      forall i :: 0 <= i < BOT_PLAYERS ==> !t1.seats[i].ack
  {
    hide Engines.Inv, ZeroSum;
    NextJoins(t, ids, k);
    JoinIsStep(t, ids[k]);
  }

  /** So it does happen: from a table just created, with the first four players who join it. */
  lemma AStopExists() returns (w: World, events: seq<WorldEvent>)
    ensures WorldStart(w) && w.bots == NewBots() && forall ev :: ev in events ==> AllowedInWorld(ev)
    ensures Refused(RunWorld(w, events, LastSeatTakes()).table.engine)
  {
    hide Engines.Inv, ZeroSum, SeatsInv, Step, SatDown, Refused, RunWorld, AllowedInWorld, NewTable;
    var ids := FOUR_IDS;
    NewTableIsEmpty();
    var t0 := NewTable();
    JoinsQuietly(t0, ids, 0);
    var t1 := AddPlayer(t0, ids[0]).0;
    JoinsQuietly(t1, ids, 1);
    var t2 := AddPlayer(t1, ids[1]).0;
    JoinsQuietly(t2, ids, 2);
    var t3 := AddPlayer(t2, ids[2]).0;
    JoinsQuietly(t3, ids, 3);
    var t4 := AddPlayer(t3, ids[3]).0;
    w := World(t4, NewBots(), [[], [], [], []], seq(BOT_PLAYERS, _ => Ack(WaitForPlayers)));
    AllSatDown(t4, ids);
    events := BotsCanStop(w, []);
    assert events + [] == events;
  }

  lemma AllSatDown(t: TableState, ids: seq<nat>)
    requires SatDown(t, ids, BOT_PLAYERS) && forall i :: 0 <= i < BOT_PLAYERS ==> !t.seats[i].ack
    ensures FullTable(t) && Ready(t) && Quiet(t) && t.engine.phase == WaitForPlayers
  {
    hide Engines.Inv, ZeroSum;
  }
}
