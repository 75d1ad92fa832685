/** The table: seats, acknowledgements, and the requests that drive the engine. */
module Tables {
  import opened Tarot
  import opened Decks
  import opened Context
  import opened Engines
  import opened Scores

  const INVALID_UID: nat := 0

  datatype SeatState = SeatState(uuid: nat, ack: bool)

  const FREE_SEAT := SeatState(INVALID_UID, false)

  datatype TableState = TableState(
    engine: EngineState,
    seats: seq<SeatState>,
    admin: nat,
    adminMode: bool,
    score: ScoreState,
    deals: nat)
  {
    function N(): nat { engine.N() }

    predicate Sized() { |seats| == MAX_SEATS && N() <= MAX_SEATS }
  }

  /** What the table sends. */
  datatype Msg =
    | MsgNewGame
    | MsgNewDeal(cards: Cards)
    | MsgRequestBid(place: Place, contract: Contract)
    | MsgShowBid(place: Place, contract: Contract, slam: bool, taker: Bid)
    | MsgAllPassed
    | MsgRequestKingCall
    | MsgShowKingCall(card: Card)
    | MsgShowDog(dog: Cards)
    | MsgBuildDiscard
    | MsgStartDeal(first: Place, bid: Bid)
    | MsgAskForHandle
    | MsgShowHandle(place: Place, handle: Cards)
    | MsgPlayCard(place: Place)
    | MsgShowCard(place: Place, card: Card)
    | MsgEndOfTrick(place: Place)
    | MsgEndOfDeal
    | MsgEndOfGame

  datatype Reply = Reply(dest: seq<nat>, msg: Msg)

  /** What a player sends, already split into its fields. */
  datatype Request =
    | ReqError
    | ReqAck(step: string)
    | ReqNewGame(deals: nat)
    | ReqBid(contract: Contract, slam: bool)
    | ReqDiscard(discard: Cards)
    | ReqKingCall(king: Card)
    | ReqHandle(handle: Cards)
    | ReqCard(card: Card)
    | ReqUnknown

  // ---------------------------------------------------------------- names of the acknowledged steps

  function PhaseOfStep(step: string): Phase {
    if step == "AckJoinTable" then WaitForPlayers
    else if step == "Ready" then WaitForReady
    else if step == "NewDeal" then WaitForCards
    else if step == "ShowBid" then WaitForShowBid
    else if step == "AllPassed" then WaitForAllPassed
    else if step == "ShowKingCall" then WaitForShowKingCall
    else if step == "ShowDog" then WaitForShowDog
    else if step == "StartDeal" then WaitForStartDeal
    else if step == "ShowHandle" then WaitForShowHandle
    else if step == "Card" then WaitForShowCard
    else if step == "EndOfTrick" then WaitForEndOfTrick
    else if step == "EndOfDeal" then WaitForEndOfDeal
    else BadStep
  }

  function StepOfPhase(phase: Phase): string {
    match phase
    case WaitForPlayers => "AckJoinTable"
    case WaitForReady => "Ready"
    case WaitForCards => "NewDeal"
    case WaitForShowBid => "ShowBid"
    case WaitForAllPassed => "AllPassed"
    case WaitForShowKingCall => "ShowKingCall"
    case WaitForShowDog => "ShowDog"
    case WaitForStartDeal => "StartDeal"
    case WaitForShowHandle => "ShowHandle"
    case WaitForShowCard => "Card"
    case WaitForEndOfTrick => "EndOfTrick"
    case WaitForEndOfDeal => "EndOfDeal"
    case _ => "BadSeq"
  }

  predicate AckPhase(p: Phase) {
    p in {WaitForPlayers, WaitForReady, WaitForCards, WaitForShowBid, WaitForAllPassed, WaitForShowKingCall,
          WaitForShowDog, WaitForStartDeal, WaitForShowHandle, WaitForShowCard, WaitForEndOfTrick, WaitForEndOfDeal}
  }

  // ---------------------------------------------------------------- seats

  predicate AllAcked(seats: seq<SeatState>, n: nat)
    requires n <= |seats|
  {
    forall i :: 0 <= i < n ==> seats[i].ack
  }

  function ResetAck(t: TableState): TableState
    requires t.Sized()
  {
    t.(seats := seq(MAX_SEATS, i requires 0 <= i < MAX_SEATS =>
         if i < t.N() then t.seats[i].(ack := false) else t.seats[i]))
  }

  function MarkAck(t: TableState, uuid: nat): TableState
    requires t.Sized()
  {
    t.(seats := seq(MAX_SEATS, i requires 0 <= i < MAX_SEATS =>
         if i < t.N() && t.seats[i].uuid == uuid then t.seats[i].(ack := true) else t.seats[i]))
  }

  /** Records an acknowledgement; true when it was the last one missing, and then all are forgotten. */
  function Sync(t: TableState, phase: Phase, uuid: nat): (TableState, bool)
    requires t.Sized()
  {
    var t1 := if t.engine.phase == phase then MarkAck(t, uuid) else t;
    if AllAcked(t1.seats, t.N()) then (ResetAck(t1), true) else (t1, false)
  }

  /** The last of the first k seats with this uuid. */
  function PlaceOf(seats: seq<SeatState>, uuid: nat, k: nat): Place
    requires k <= |seats|
  {
    if k == 0 then NOWHERE
    else if seats[k - 1].uuid == uuid then k - 1
    else PlaceOf(seats, uuid, k - 1)
  }

  function GetPlayerPlace(t: TableState, uuid: nat): Place
    requires t.Sized()
  {
    PlaceOf(t.seats, uuid, t.N())
  }

  function UuidAt(t: TableState, p: Place): nat {
    if p < |t.seats| then t.seats[p].uuid else INVALID_UID
  }

  /** The first seat from i on that satisfies the test. */
  function FirstSeat(seats: seq<SeatState>, test: SeatState -> bool, i: nat, n: nat): Place
    requires i <= n <= |seats|
    decreases n - i
  {
    if i == n then NOWHERE else if test(seats[i]) then i else FirstSeat(seats, test, i + 1, n)
  }

  function AddPlayer(t: TableState, uuid: nat): (TableState, Place)
    requires t.Sized()
  {
    if GetPlayerPlace(t, uuid) != NOWHERE then (t, NOWHERE)
    else
      var free := FirstSeat(t.seats, (s: SeatState) => s.uuid == INVALID_UID, 0, t.N());
      if free < |t.seats| then
        (t.(seats := t.seats[free := t.seats[free].(uuid := uuid)],
            admin := if t.admin == INVALID_UID then uuid else t.admin),
         free)
      else (t, free)
  }

  function RemovePlayer(t: TableState, uuid: nat): TableState
    requires t.Sized()
  {
    if GetPlayerPlace(t, uuid) == NOWHERE then t
    else
      var heir := FirstSeat(t.seats, (s: SeatState) => s.uuid != uuid, 0, t.N());
      t.(admin := if uuid == t.admin then UuidAt(t, heir) else t.admin,
         seats := seq(MAX_SEATS, i requires 0 <= i < MAX_SEATS =>
           if i < t.N() && t.seats[i].uuid == uuid then FREE_SEAT else t.seats[i]))
  }

  // ---------------------------------------------------------------- sending

  function Seated(seats: seq<SeatState>, n: nat): seq<nat>
    requires n <= |seats|
  {
    if n == 0 then []
    else
      var front := Seated(seats, n - 1);
      if seats[n - 1].uuid != INVALID_UID then front + [seats[n - 1].uuid] else front
  }

  function ToAll(t: TableState, msg: Msg): seq<Reply>
    requires t.Sized()
  {
    [Reply(Seated(t.seats, t.N()), msg)]
  }

  function ToSeat(t: TableState, p: Place, msg: Msg): seq<Reply> {
    [Reply([UuidAt(t, p)], msg)]
  }

  // ---------------------------------------------------------------- phase handlers

  predicate Ready(t: TableState) {
    t.Sized() && PlayerCount(t.N()) && t.engine.ctx.Sized() && t.score.Sized()
  }

  function HandleNewGame(t: TableState): (TableState, seq<Reply>)
    requires Ready(t)
  {
    var t1 := ResetAck(t.(score := NewScore(t.deals), engine := Engines.NewGame(t.engine)));
    (t1, ToAll(t1, MsgNewGame))
  }

  function DealMessages(t: TableState, k: nat): seq<Reply>
    requires t.Sized()
  {
    if k == 0 then [] else DealMessages(t, k - 1) + ToSeat(t, k - 1, MsgNewDeal(t.engine.Hand(k - 1)))
  }

  function HandleNewDeal(t: TableState, s: Source): (TableState, seq<Reply>)
    requires Ready(t)
  {
    var score := if t.score.dealCounter >= t.deals then NewScore(t.deals) else t.score;
    var t1 := t.(score := score, engine := Engines.NewDeal(t.engine, s));
    (t1, DealMessages(t1, t1.N()))
  }

  function HandleStartDeal(t: TableState): (TableState, seq<Reply>)
    requires Ready(t)
  {
    var t1 := t.(engine := Engines.StartDeal(t.engine));
    (t1, ToAll(t1, MsgStartDeal(t1.engine.currentPlayer, t1.engine.ctx.bid)))
  }

  function NextBidSequence(t: TableState): (TableState, seq<Reply>)
    requires Ready(t)
  {
    match t.engine.phase
    case WaitForBid => (t, ToAll(t, MsgRequestBid(t.engine.currentPlayer, t.engine.ctx.bid.contract)))
    case WaitForKingCall => (t, ToAll(t, MsgRequestKingCall))
    case WaitForAllPassed => (t, ToAll(t, MsgAllPassed))
    case WaitForStartDeal => HandleStartDeal(t)
    case WaitForShowDog => (t, ToAll(t, MsgShowDog(t.engine.ctx.dog)))
    case _ => (t, [])
  }

  /** What is sent after a step of the play. */
  function StepMessages(t: TableState): seq<Reply>
    requires t.Sized()
  {
    var p := t.engine.currentPlayer;
    match t.engine.phase
    case WaitForEndOfDeal => ToAll(t, MsgEndOfDeal)
    case WaitForEndOfTrick => ToAll(t, MsgEndOfTrick(p))
    case WaitForPlayedCard => ToAll(t, MsgPlayCard(p))
    case WaitForHandle => ToSeat(t, p, MsgAskForHandle)
    case _ => []
  }

  function HandleGameSequence(t: TableState): (TableState, seq<Reply>)
    requires Ready(t)
  {
    var t1 := t.(engine := PlaySequence(t.engine));
    (t1, StepMessages(t1))
  }

  function HandleEndOfDeal(t: TableState, s: Source): (TableState, seq<Reply>)
    requires Ready(t)
  {
    var (score, more) :=
      if t.score.dealCounter < MAX_TURNS then AddPoints(t.score, t.engine.points, t.engine.ctx.bid, t.N())
      else (t.score, false);
    var t1 := t.(score := score);
    if more then HandleNewDeal(t1, s)
    else
      var t2 := t1.(engine := Engines.NewGame(t1.engine));
      (t2, ToAll(t2, MsgEndOfGame))
  }

  /** What runs when every seat has acknowledged the phase. */
  function Barrier(t: TableState, phase: Phase, s: Source): (TableState, seq<Reply>)
    requires Ready(t)
  {
    match phase
    case WaitForPlayers => if t.adminMode then (t, []) else HandleNewGame(t)
    case WaitForReady => HandleNewDeal(t, s)
    case WaitForAllPassed => HandleNewDeal(t, s)
    case WaitForCards => NextBidSequence(t.(engine := BidSequence(t.engine)))
    case WaitForShowBid => NextBidSequence(t.(engine := BidSequence(t.engine)))
    case WaitForShowKingCall => NextBidSequence(t.(engine := ManageAfterBidSequence(t.engine)))
    case WaitForShowDog =>
      var t1 := t.(engine := DiscardSequence(t.engine));
      (t1, ToSeat(t1, t1.engine.ctx.bid.taker, MsgBuildDiscard))
    case WaitForStartDeal => HandleGameSequence(t)
    case WaitForShowHandle => HandleGameSequence(t)
    case WaitForShowCard => HandleGameSequence(t)
    case WaitForEndOfTrick => HandleGameSequence(t)
    case WaitForEndOfDeal => HandleEndOfDeal(t, s)
    case _ => (t, [])
  }

  // ---------------------------------------------------------------- requests

  // What each kind of request does to the table, and what is sent.

  function OnAck(t: TableState, src: nat, step: string, s: Source): (TableState, seq<Reply>)
    requires Ready(t)
  {
    var phase := PhaseOfStep(step);
    if GetPlayerPlace(t, src) == NOWHERE || phase == BadStep then (t, [])
    else
      var (t1, passed) := Sync(t, phase, src);
      if passed then Barrier(t1, phase, s) else (t1, [])
  }

  function OnNewGame(t: TableState, src: nat, deals: nat): (TableState, seq<Reply>)
    requires Ready(t)
  {
    if src == t.admin then HandleNewGame(t.(deals := deals)) else (t, [])
  }

  function OnBid(t: TableState, p: Place, contract: Contract, slam: bool): (TableState, seq<Reply>)
    requires Ready(t)
  {
    if p != NOWHERE && p == t.engine.currentPlayer && t.engine.phase == WaitForBid then
      var (e1, answer) := Engines.SetBid(t.engine, contract, slam, p);
      var t1 := t.(engine := e1);
      (t1, ToAll(t1, MsgShowBid(p, answer, slam, e1.ctx.bid)))
    else (t, [])
  }

  function OnDiscard(t: TableState, p: Place, discard: Cards): (TableState, seq<Reply>)
    requires Ready(t)
  {
    if t.engine.phase == WaitForDiscard && t.engine.ctx.bid.taker == p then
      var (e1, valid) := SetDiscard(t.engine, discard);
      if valid then HandleStartDeal(t.(engine := e1)) else (t, [])
    else (t, [])
  }

  function OnKingCall(t: TableState, p: Place, king: Card): (TableState, seq<Reply>)
    requires Ready(t)
  {
    if t.engine.phase == WaitForKingCall && t.engine.ctx.bid.taker == p then
      var (e1, found) := SetKingCalled(t.engine, king);
      var t1 := t.(engine := e1);
      if found then (ResetAck(t1), ToAll(t1, MsgShowKingCall(king))) else (t1, [])
    else (t, [])
  }

  function OnHandle(t: TableState, p: Place, handle: Cards): (TableState, seq<Reply>)
    requires Ready(t)
  {
    if t.engine.phase == WaitForHandle && t.engine.currentPlayer == p then
      var (e1, valid) := Engines.SetHandle(t.engine, handle, p);
      if valid then
        var t1 := t.(engine := e1);
        (t1, ToAll(t1, MsgShowHandle(p, handle)))
      else HandleGameSequence(t)
    else (t, [])
  }

  function OnCard(t: TableState, p: Place, card: Card): (TableState, seq<Reply>)
    requires Ready(t)
  {
    if card.IsValid() && t.engine.phase == WaitForPlayedCard && t.engine.currentPlayer == p then
      var (e1, accepted) := SetCard(t.engine, card, p);
      var t1 := t.(engine := e1);
      if accepted then (t1, ToAll(t1, MsgShowCard(p, card))) else (t, [])
    else (t, [])
  }

  function ExecuteRequest(t: TableState, src: nat, req: Request, s: Source): (TableState, seq<Reply>)
    requires Ready(t)
  {
    var p := GetPlayerPlace(t, src);
    match req
    case ReqAck(step) => OnAck(t, src, step, s)
    case ReqNewGame(deals) => OnNewGame(t, src, deals)
    case ReqBid(contract, slam) => OnBid(t, p, contract, slam)
    case ReqDiscard(discard) => OnDiscard(t, p, discard)
    case ReqKingCall(king) => OnKingCall(t, p, king)
    case ReqHandle(handle) => OnHandle(t, p, handle)
    case ReqCard(card) => OnCard(t, p, card)
    case _ => (t, [])
  }

  /** What the table reports to the lobby: whether the request ended a deal. */
  predicate EndsDeal(t: TableState, src: nat, req: Request)
    requires t.Sized()
  {
    req.ReqAck? && GetPlayerPlace(t, src) != NOWHERE && PhaseOfStep(req.step) == WaitForEndOfDeal &&
    Sync(t, WaitForEndOfDeal, src).1
  }

  /** One thing that happens to a table. */
  datatype Event =
    | Received(src: nat, req: Request, source: Source)
    | Joined(uuid: nat)
    | Left(uuid: nat)

  function Step(t: TableState, ev: Event): TableState
    requires Ready(t)
  {
    match ev
    case Received(src, req, s) => ExecuteRequest(t, src, req, s).0
    case Joined(uuid) => AddPlayer(t, uuid).0
    case Left(uuid) => RemovePlayer(t, uuid)
  }

  function CreateTable(t: TableState, n: nat, dealer: Place): TableState {
    t.(engine := t.engine.(ctx := Initialize(t.engine.ctx.(nbPlayers := n)), dealer := dealer, phase := WaitForPlayers),
       seats := seq(MAX_SEATS, _ => FREE_SEAT),
       admin := INVALID_UID)
  }
}
