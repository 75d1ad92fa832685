/** The state machine of one deal: what each operation of the engine does to its state. */
module Engines {
  import opened Tarot
  import opened Decks
  import opened Context

  datatype Phase =
    | BadStep
    | Stopped
    | WaitForPlayers
    | WaitForReady
    | WaitForCards
    | WaitForBid
    | WaitForShowBid
    | WaitForAllPassed
    | WaitForKingCall
    | WaitForShowKingCall
    | WaitForShowDog
    | WaitForDiscard
    | WaitForStartDeal
    | WaitForHandle
    | WaitForShowHandle
    | WaitForPlayedCard
    | WaitForShowCard
    | WaitForEndOfTrick
    | WaitForEndOfDeal

  const MAX_SEATS: nat := 5

  datatype EngineState = EngineState(
    players: seq<Cards>,
    currentTrick: Cards,
    points: Points,
    phase: Phase,
    position: nat,
    dealer: Place,
    trickCounter: nat,
    currentPlayer: Place,
    handleAsked: seq<bool>,
    ctx: Ctx)
  {
    function N(): nat { ctx.nbPlayers }

    /** The hands of the seats in play. */
    function Hands(): seq<Cards> {
      if N() <= |players| then players[..N()] else players
    }

    /** The hand of a seat; no seat means no card. */
    function Hand(p: Place): Cards {
      if p < |players| then players[p] else []
    }
  }

  // ---------------------------------------------------------------- dealing

  /** `Deck::Mid`, with its protections against positions outside the deck. */
  function Mid(d: Cards, from: nat, size: nat): Cards {
    var start := if from >= |d| then 0 else from;
    var count := if size > |d| then |d| - start else size;
    if start + count <= |d| then d[start..start + count] else d[start..]
  }

  /** A new deal comes from a shuffled deck, or from a file when its sizes are right. */
  datatype Source =
    | Shuffled(deck: Cards)
    | FromFile(hands: seq<Cards>, fileDog: Cards, first: Place, deck: Cards)

  predicate RightSizes(hands: seq<Cards>, dog: Cards, n: nat) {
    |hands| == MAX_SEATS && n <= MAX_SEATS &&
    (forall i :: 0 <= i < n ==> |hands[i]| == HandSize(n)) && |dog| == DogSize(n)
  }

  function RandomHand(deck: Cards, i: nat, n: nat): Cards {
    Mid(deck, i * HandSize(n), HandSize(n))
  }

  function RandomDog(deck: Cards, n: nat): Cards {
    if n * HandSize(n) <= |deck| then Mid(deck, n * HandSize(n), |deck| - n * HandSize(n)) else []
  }

  predicate UsesFile(s: Source, n: nat) {
    s.FromFile? && RightSizes(s.hands, s.fileDog, n)
  }

  function CreateDeal(e: EngineState, s: Source): EngineState
    requires PlayerCount(e.N())
  {
    var n := e.N();
    var file := UsesFile(s, n);
    e.(currentPlayer := if file then s.first else e.currentPlayer,
       dealer := if file then Previous(s.first, n) else e.dealer,
       players := seq(|e.players|, i requires 0 <= i < |e.players| =>
         if i >= n then e.players[i] else if file then s.hands[i] else RandomHand(s.deck, i, n)),
       ctx := e.ctx.(dog := if file then s.fileDog else RandomDog(s.deck, n)))
  }

  function NewDeal(e: EngineState, s: Source): EngineState
    requires PlayerCount(e.N())
  {
    var n := e.N();
    var dealer := Next(e.dealer, n);
    var e1 := e.(ctx := Initialize(e.ctx), position := 0, currentTrick := [],
                 dealer := dealer, currentPlayer := Next(dealer, n));
    CreateDeal(e1, s).(phase := WaitForCards)
  }

  function NewGame(e: EngineState): EngineState {
    e.(phase := WaitForReady)
  }

  // ---------------------------------------------------------------- bidding

  function SetBid(e: EngineState, contract: Contract, slam: bool, p: Place): (EngineState, Contract) {
    var (bid, answer) := RaiseBid(e.ctx.bid, contract, slam, p);
    (e.(ctx := e.ctx.(bid := bid),
        position := e.position + 1,
        currentPlayer := Next(e.currentPlayer, e.N()),
        phase := WaitForShowBid),
     answer)
  }

  predicate IsEndOfTrick(e: EngineState) {
    e.position >= e.N()
  }

  /** `IsEndOfTrick` also starts the next round; the counter is a byte. */
  function CloseRound(e: EngineState): EngineState {
    if IsEndOfTrick(e) then e.(position := 0, trickCounter := Byte(e.trickCounter + 1)) else e
  }

  function ManageAfterBidSequence(e: EngineState): EngineState {
    var (ctx, showDog) := ManageDogAfterBid(e.ctx);
    e.(ctx := ctx, phase := if showDog then WaitForShowDog else WaitForStartDeal)
  }

  function BidSequence(e: EngineState): EngineState {
    var e1 := CloseRound(e);
    if IsEndOfTrick(e) || e.ctx.bid.slam then
      if e1.ctx.bid.contract == PASS then e1.(phase := WaitForAllPassed)
      else if e1.N() == 5 && e1.phase == WaitForShowBid then
        e1.(ctx := e1.ctx.(bid := e1.ctx.bid.(partner := e1.ctx.bid.taker)), phase := WaitForKingCall)
      else ManageAfterBidSequence(e1)
    else e1.(phase := WaitForBid)
  }

  /** Plain-suit cards of a given value. */
  function CountValue(d: Cards, value: nat): nat {
    if d == [] then 0
    else CountValue(d[..|d| - 1], value) + if d[|d| - 1].suit < TRUMPS && d[|d| - 1].value == value then 1 else 0
  }

  /** A king may always be called; a lower honour only by a taker who holds the four cards above it. */
  predicate CheckKingCall(value: nat, hand: Cards) {
    value == 14 ||
    (CountValue(hand, 14) == 4 &&
     (value == 13 ||
      (CountValue(hand, 13) == 4 &&
       (value == 12 ||
        (CountValue(hand, 12) == 4 && (value == 11 || CountValue(hand, 11) == 4))))))
  }

  /** The first seat from p on, among k, that holds c. */
  function FindHolder(e: EngineState, c: Card, p: Place, k: nat): Place
    decreases k
  {
    if k == 0 then NOWHERE
    else if c in e.Hand(p) then p
    else FindHolder(e, c, Next(p, 5), k - 1)
  }

  function SetKingCalled(e: EngineState, c: Card): (EngineState, bool) {
    var taker := e.ctx.bid.taker;
    if CheckKingCall(c.value, e.Hand(taker)) then
      var holder := if c in e.ctx.dog || c in e.Hand(taker) then taker else FindHolder(e, c, Next(taker, 5), 4);
      var partner := if holder == NOWHERE then e.ctx.bid.partner else holder;
      (e.(ctx := e.ctx.(bid := e.ctx.bid.(partner := partner), kingCalled := c), phase := WaitForShowKingCall),
       holder != NOWHERE)
    else (e, false)
  }

  function DiscardSequence(e: EngineState): EngineState {
    e.(phase := WaitForDiscard)
  }

  function SetDiscard(e: EngineState, discard: Cards): (EngineState, bool) {
    var taker := e.ctx.bid.taker;
    if taker < |e.players| && TestDiscard(e.players[taker], discard, e.ctx.dog, e.N()) then
      (e.(players := e.players[taker := WithoutAll(e.players[taker] + e.ctx.dog, discard)],
          ctx := e.ctx.(discard := Pile(discard, Attack)),
          phase := WaitForStartDeal),
       true)
    else (e, false)
  }

  function StartDeal(e: EngineState): EngineState {
    var first := if e.ctx.bid.slam then e.ctx.bid.taker else Next(e.dealer, e.N());
    e.(trickCounter := 0, position := 0, handleAsked := seq(MAX_SEATS, _ => false),
       currentPlayer := first, ctx := e.ctx.(firstPlayer := first))
  }

  // ---------------------------------------------------------------- play

  function SetHandle(e: EngineState, handle: Cards, p: Place): (EngineState, bool) {
    if TestHandle(e.Hand(p), handle) then
      (e.(ctx := StoreHandle(e.ctx, handle, p), phase := WaitForShowHandle), true)
    else (e, false)
  }

  function SetCard(e: EngineState, c: Card, p: Place): (EngineState, bool) {
    if p < |e.players| && CanPlayCard(e.players[p], c, e.currentTrick) then
      (e.(currentTrick := e.currentTrick + [c],
          players := e.players[p := Without(e.players[p], c)],
          position := e.position + 1,
          currentPlayer := Next(e.currentPlayer, e.N()),
          phase := WaitForShowCard),
       true)
    else (e, false)
  }

  function GameSequence(e: EngineState): EngineState
    requires e.ctx.Sized()
  {
    var e1 := CloseRound(e);
    if IsEndOfTrick(e) then
      if 1 <= e1.trickCounter <= MAX_TRICKS + 1 then
        var (ctx, winner) := SetTrick(e1.ctx, e1.currentTrick, e1.trickCounter);
        e1.(ctx := ctx, currentPlayer := winner, currentTrick := [], phase := WaitForEndOfTrick)
      else e1
    else if e1.trickCounter == 0 && e1.currentPlayer < |e1.handleAsked| && !e1.handleAsked[e1.currentPlayer] then
      e1.(handleAsked := e1.handleAsked[e1.currentPlayer := true], phase := WaitForHandle)
    else e1.(phase := WaitForPlayedCard)
  }

  predicate IsLastTrick(e: EngineState) {
    IsDealFinished(e.trickCounter, e.N())
  }

  function EndOfDeal(e: EngineState): EngineState
    requires e.ctx.Sized() && PlayerCount(e.N())
  {
    var (ctx, points) := AnalyzeGame(e.ctx, NO_POINTS);
    e.(ctx := ctx, points := points, phase := WaitForEndOfDeal)
  }

  /** What the table runs after a barrier of the play: one step, then the scoring after the last trick. */
  function PlaySequence(e: EngineState): EngineState
    requires e.ctx.Sized() && PlayerCount(e.N())
  {
    var e1 := GameSequence(e);
    if IsLastTrick(e1) then EndOfDeal(e1) else e1
  }

  // ---------------------------------------------------------------- the invariant

  predicate Sound(e: EngineState) {
    PlayerCount(e.N()) && |e.players| == MAX_SEATS && |e.handleAsked| == MAX_SEATS &&
    e.ctx.Sized() && e.dealer < e.N()
  }

  predicate Complete(d: Cards) {
    multiset(d) == multiset(FullDeck())
  }

  /** The trick counter and the statistics of a deal in which no card was played. */
  predicate NothingPlayed(c: Ctx) {
    c.Sized() && (forall t :: 0 <= t < MAX_TRICKS ==> c.tricks[t].cards == []) &&
    c.tricksWon == 0 && c.stats == NO_STATS && c.attackHandle == [] && c.defenseHandle == []
  }

  /** The decks that are only shown or saved hold existing cards. */
  predicate ShownCardsExist(c: Ctx) {
    ValidCards(c.dog) && ValidCards(c.attackHandle) && ValidCards(c.defenseHandle)
  }

  /** Between the deal and the discard the hands and the dog are the whole deck. */
  predicate BeforePlay(e: EngineState)
    requires Sound(e)
  {
    e.currentTrick == [] && e.currentPlayer < e.N() && NothingPlayed(e.ctx) &&
    (forall p :: 0 <= p < e.N() ==> |e.players[p]| == HandSize(e.N())) &&
    |e.ctx.dog| == DogSize(e.N()) &&
    Complete(Flatten(e.Hands()) + e.ctx.dog)
  }

  predicate AuctionShape(e: EngineState)
    requires Sound(e)
  {
    var b := e.ctx.bid;
    BeforePlay(e) && e.position <= e.N() && b.partner == NOWHERE && b.contract <= GUARD_AGAINST &&
    (if b.contract == NO_ANY then b == NO_BID else b.taker < e.N()) &&
    (e.phase == WaitForCards ==> e.position == 0 && b == NO_BID && e.currentPlayer == Next(e.dealer, e.N())) &&
    (e.phase == WaitForBid ==> e.position < e.N() && !b.slam && (e.position == 0 ==> b == NO_BID)) &&
    (e.phase == WaitForShowBid ==> e.position > 0) &&
    (e.phase == WaitForAllPassed ==> b.contract == PASS)
  }

  /** When every seat has spoken, one of them has made a bid. */
  predicate AuctionInv(e: EngineState)
    requires Sound(e)
  {
    AuctionShape(e) && (e.phase == WaitForShowBid && e.position == e.N() ==> e.ctx.bid.contract >= PASS)
  }

  /** A partner exists with five players only; it is then the taker until a king is called. */
  predicate ContractKnown(e: EngineState) {
    var b := e.ctx.bid;
    TAKE <= b.contract <= GUARD_AGAINST && b.taker < e.N() &&
    if e.N() == 5 then b.partner < 5 else b.partner == NOWHERE
  }

  predicate ContractInv(e: EngineState)
    requires Sound(e)
  {
    BeforePlay(e) && ContractKnown(e) &&
    (e.phase == WaitForKingCall || e.phase == WaitForShowKingCall ==> e.N() == 5) &&
    (e.phase == WaitForShowDog || e.phase == WaitForDiscard ==> e.ctx.bid.contract <= GUARD)
  }

  function DiscardOwner(b: Bid): Team {
    if b.contract == GUARD_AGAINST then Defense else Attack
  }

  /** How far seat p is behind seat `leader` around the table. */
  function Offset(leader: Place, p: Place, n: nat): int {
    if p >= leader then p - leader else p + n - leader
  }

  function CurrentLeader(e: EngineState): Place
    requires e.ctx.Sized() && e.trickCounter <= MAX_TRICKS
  {
    LeaderAt(e.ctx, e.trickCounter)
  }

  /** Whose turn it is, and in which phase that can be. */
  predicate TurnInv(e: EngineState)
    requires Sound(e)
  {
    var k, n := e.trickCounter, e.N();
    k <= HandSize(n) && e.position <= n && e.ctx.firstPlayer < n && CurrentLeader(e) < n &&
    e.currentPlayer == Seat(CurrentLeader(e), e.position, n) &&
    match e.phase
    case WaitForStartDeal => k == 0 && e.position == 0 && forall p :: 0 <= p < MAX_SEATS ==> !e.handleAsked[p]
    case WaitForHandle => k == 0 && e.position < n && e.handleAsked[e.currentPlayer]
    case WaitForShowHandle => k == 0 && e.position < n && e.handleAsked[e.currentPlayer]
    case WaitForPlayedCard => k < HandSize(n) && e.position < n && (k == 0 ==> e.handleAsked[e.currentPlayer])
    case WaitForShowCard => k < HandSize(n) && 1 <= e.position
    case WaitForEndOfTrick => 1 <= k < HandSize(n) && e.position == 0
    case WaitForEndOfDeal => k == HandSize(n) && e.position == 0
    case _ => false
  }

  /** Every seat has played once per trick. */
  predicate SizesInv(e: EngineState)
    requires Sound(e) && e.trickCounter <= HandSize(e.N())
  {
    var k, n := e.trickCounter, e.N();
    |e.currentTrick| == e.position &&
    |e.ctx.discard.cards| == DogSize(n) &&
    (forall p :: 0 <= p < n ==>
       |e.players[p]| == HandSize(n) - k - if Offset(CurrentLeader(e), p, n) < e.position then 1 else 0) &&
    (forall t :: 0 <= t < k ==> |e.ctx.tricks[t].cards| == n && e.ctx.winner[t] < n) &&
    (forall t :: k <= t < MAX_TRICKS ==> e.ctx.tricks[t].cards == [])
  }

  function TableCards(e: EngineState): Cards
    requires e.ctx.Sized() && e.trickCounter <= MAX_TRICKS
  {
    Flatten(e.Hands()) + e.currentTrick + TrickCards(e.ctx, e.trickCounter) + e.ctx.discard.cards
  }

  /** The statistics the completed tricks determine; the final scoring overwrites the stored ones. */
  function Tallied(c: Ctx, k: nat): Ctx
    requires c.Sized() && k <= MAX_TRICKS
  {
    c.(stats := Stats(0, Byte(Side(OUDLER_COUNT, c, Attack, k)), Side(HALVES, c, Attack, k)))
  }

  predicate ScoreInv(e: EngineState)
    requires Sound(e) && e.trickCounter <= HandSize(e.N())
  {
    JudgedTricks(e.ctx, e.trickCounter) &&
    if e.phase == WaitForEndOfDeal then
      e.points == AnalyzeGame(Tallied(e.ctx, e.trickCounter), NO_POINTS).1
    else StatsMatch(e.ctx, e.trickCounter)
  }

  predicate PlayInv(e: EngineState)
    requires Sound(e)
  {
    ContractKnown(e) && e.ctx.discard.owner == DiscardOwner(e.ctx.bid) && ShownCardsExist(e.ctx) &&
    TurnInv(e) && SizesInv(e) && Complete(TableCards(e)) && ScoreInv(e)
  }

  predicate Inv(e: EngineState) {
    Sound(e) &&
    match e.phase
    case WaitForCards => AuctionInv(e)
    case WaitForBid => AuctionInv(e)
    case WaitForShowBid => AuctionInv(e)
    case WaitForAllPassed => AuctionInv(e)
    case WaitForKingCall => ContractInv(e)
    case WaitForShowKingCall => ContractInv(e)
    case WaitForShowDog => ContractInv(e)
    case WaitForDiscard => ContractInv(e)
    case WaitForStartDeal => PlayInv(e)
    case WaitForHandle => PlayInv(e)
    case WaitForShowHandle => PlayInv(e)
    case WaitForPlayedCard => PlayInv(e)
    case WaitForShowCard => PlayInv(e)
    case WaitForEndOfTrick => PlayInv(e)
    case WaitForEndOfDeal => PlayInv(e)
    case _ => true
  }
}
