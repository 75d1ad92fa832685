/** The computer players: how they answer the table, and a table whose seats are all theirs. */
module Bots {
  import opened Tarot
  import opened Decks
  import opened Engines
  import opened Tables

  /** The number of players a bot believes in: joining a table never sets it. */
  const BOT_PLAYERS: nat := 4

  // ---------------------------------------------------------------- the script of a bot

  datatype SlamAnswer = NoSlamAnswer | SlamAnswer(slam: bool)

  /** Whatever the script engine may answer to one call. */
  datatype Answer = Answer(
    contract: Contract,
    slam: SlamAnswer,
    handStrength: int,
    discardCount: nat,
    discard: Cards)

  /** The k-th answer of the script of a bot. */
  type Script = nat -> Answer

  /** `CalculateBid`: the contract that goes with the strength of a hand. */
  function CalculatedBid(total: int): Contract {
    if total <= 35 then PASS
    else if total <= 50 then TAKE
    else if total <= 65 then GUARD
    else if total <= 75 then GUARD_WITHOUT
    else GUARD_AGAINST
  }

  // ---------------------------------------------------------------- one bot

  datatype BotState = BotState(
    place: Place,
    deck: Cards,
    dog: Cards,
    trick: Cards,
    currentPlayer: Place,
    highestBid: Contract,
    slam: bool,
    calls: nat)

  function Ack(phase: Phase): seq<Request> {
    [ReqAck(StepOfPhase(phase))]
  }

  function RequestBid(b: BotState, a: Answer): (BotState, seq<Request>) {
    var known := PASS <= a.contract <= GUARD_AGAINST;
    var contract := if known then a.contract else CalculatedBid(a.handStrength);
    var slam := if known && a.slam.SlamAnswer? then a.slam.slam else b.slam;
    (b.(slam := slam, calls := b.calls + 1),
     [ReqBid(if contract <= b.highestBid then PASS else contract, slam)])
  }

  /** A discard of the script if it is a valid one, else the first discardable cards. */
  function ChosenDiscard(b: BotState, a: Answer): Cards {
    if a.discardCount == DogSize(BOT_PLAYERS) && TestDiscard(b.deck, a.discard, b.dog, BOT_PLAYERS) then a.discard
    else AutoDiscard(b.deck + b.dog, BOT_PLAYERS)
  }

  function BuildDiscard(b: BotState, a: Answer): (BotState, seq<Request>) {
    var discard := ChosenDiscard(b, a);
    (b.(deck := WithoutAll(b.deck + b.dog, discard), calls := b.calls + 1),
     [ReqDiscard(discard)] + Ack(WaitForDiscard))
  }

  function PlayCard(b: BotState): (BotState, seq<Request>) {
    var c := FirstPlayable(b.deck, b.deck, b.trick);
    (b.(deck := Without(b.deck, c)), [ReqCard(c)])
  }

  /** What a bot does with a message of the table, and what it sends back. */
  function HandleMessage(b: BotState, m: Msg, script: Script): (BotState, seq<Request>) {
    match m
    case MsgNewGame => (b, Ack(WaitForReady))
    case MsgNewDeal(cards) => (b.(deck := cards, slam := false, calls := b.calls + 1), Ack(WaitForCards))
    case MsgRequestBid(place, _) =>
      var b1 := b.(currentPlayer := place);
      if place == b.place then RequestBid(b1, script(b1.calls)) else (b1, [])
    case MsgShowBid(_, _, _, taker) => (b.(highestBid := taker.contract), Ack(WaitForShowBid))
    case MsgAllPassed => (b, Ack(WaitForAllPassed))
    case MsgRequestKingCall => (b, Ack(WaitForKingCall))
    case MsgShowKingCall(_) => (b, Ack(WaitForShowKingCall))
    case MsgShowDog(dog) => (b.(dog := dog), Ack(WaitForShowDog))
    case MsgBuildDiscard => BuildDiscard(b, script(b.calls))
    case MsgStartDeal(_, bid) => (b.(highestBid := bid.contract, trick := []), Ack(WaitForStartDeal))
    case MsgAskForHandle => (b, [ReqHandle([])])
    case MsgShowHandle(_, _) => (b, Ack(WaitForShowHandle))
    case MsgPlayCard(place) =>
      var b1 := b.(currentPlayer := place);
      if place == b.place then PlayCard(b1) else (b1, [])
    case MsgShowCard(place, card) => (b.(currentPlayer := place, trick := b.trick + [card]), Ack(WaitForShowCard))
    case MsgEndOfTrick(place) => (b.(currentPlayer := place, trick := []), Ack(WaitForEndOfTrick))
    case MsgEndOfDeal => (b, Ack(WaitForEndOfDeal))
    case MsgEndOfGame => (b, Ack(WaitForReady))
  }

  /** All the messages in turn. */
  function Receive(b: BotState, ms: seq<Msg>, script: Script): (BotState, seq<Request>)
    decreases |ms|
  {
    if ms == [] then (b, [])
    else
      var (b1, sent) := HandleMessage(b, ms[0], script);
      var (b2, more) := Receive(b1, ms[1..], script);
      (b2, sent + more)
  }

  // ---------------------------------------------------------------- a table of bots

  /** Four bots around a table, with the messages on their way to each seat and from it, in order. */
  datatype World = World(
    table: TableState,
    bots: seq<BotState>,
    down: seq<seq<Msg>>,
    up: seq<seq<Request>>)
  {
    predicate Sized() {
      Ready(table) && |bots| == BOT_PLAYERS && |down| == BOT_PLAYERS && |up| == BOT_PLAYERS
    }
  }

  /** The messages among the replies that are addressed to a player. */
  function MessagesFor(uuid: nat, replies: seq<Reply>): seq<Msg> {
    if replies == [] then []
    else
      var front := MessagesFor(uuid, replies[..|replies| - 1]);
      var last := replies[|replies| - 1];
      if uuid in last.dest then front + [last.msg] else front
  }

  datatype WorldEvent =
    | Deliver(seat: nat)
    | Process(seat: nat, source: Source)

  function DeliverTo(w: World, i: nat, scripts: seq<Script>): World
    requires w.Sized() && i < BOT_PLAYERS && |scripts| == BOT_PLAYERS
  {
    if w.down[i] == [] then w
    else
      var (b, sent) := HandleMessage(w.bots[i], w.down[i][0], scripts[i]);
      w.(bots := w.bots[i := b], down := w.down[i := w.down[i][1..]], up := w.up[i := w.up[i] + sent])
  }

  function ProcessFrom(w: World, i: nat, s: Source): World
    requires w.Sized() && i < BOT_PLAYERS
  {
    if w.up[i] == [] then w
    else
      var (t, replies) := ExecuteRequest(w.table, UuidAt(w.table, i), w.up[i][0], s);
      w.(table := t,
         down := seq(BOT_PLAYERS, j requires 0 <= j < BOT_PLAYERS =>
           w.down[j] + MessagesFor(UuidAt(w.table, j), replies)),
         up := w.up[i := w.up[i][1..]])
  }

  function WorldStep(w: World, ev: WorldEvent, scripts: seq<Script>): World
    requires w.Sized() && ev.seat < BOT_PLAYERS && |scripts| == BOT_PLAYERS
  {
    match ev
    case Deliver(i) => DeliverTo(w, i, scripts)
    case Process(i, s) => ProcessFrom(w, i, s)
  }

  function RunWorld(w: World, events: seq<WorldEvent>, scripts: seq<Script>): World
    requires |scripts| == BOT_PLAYERS
    decreases |events|
  {
    if events == [] || !w.Sized() || events[0].seat >= BOT_PLAYERS then w
    else RunWorld(WorldStep(w, events[0], scripts), events[1..], scripts)
  }
}
