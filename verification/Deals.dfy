/** What holds in every reachable state of a table, deal after deal. */
module Deals {
  import opened Tarot
  import opened Decks
  import opened Context
  import opened Engines
  import opened Scores
  import opened Tables
  import opened TableProofs

  // ---------------------------------------------------------------- runs

  function Run(t: TableState, events: seq<Event>): TableState
    decreases |events|
  {
    if events == [] || !Ready(t) then t else Run(Step(t, events[0]), events[1..])
  }

  predicate AllAllowed(t: TableState, events: seq<Event>)
    decreases |events|
  {
    events == [] || (Ready(t) && Allowed(t, events[0]) && AllAllowed(Step(t, events[0]), events[1..]))
  }

  lemma EngineSameSize(e: EngineState, s: Source, p: Place, cards: Cards, card: Card, contract: Contract, slam: bool)
    requires e.ctx.Sized() && PlayerCount(e.N())
    ensures Engines.NewDeal(e, s).N() == e.N() && BidSequence(e).N() == e.N() && StartDeal(e).N() == e.N()
    ensures ManageAfterBidSequence(e).N() == e.N() && PlaySequence(e).N() == e.N()
    ensures SetDiscard(e, cards).0.N() == e.N() && SetKingCalled(e, card).0.N() == e.N()
    ensures Engines.SetBid(e, contract, slam, p).0.N() == e.N()
    ensures Engines.SetHandle(e, cards, p).0.N() == e.N() && SetCard(e, card, p).0.N() == e.N()
  {
    hide TestDiscard, CheckKingCall, FindHolder, TestHandle, CanPlayCard, Judge, Credit, WithoutAll, Without;
  }

  lemma HandlersSameSize(t: TableState, s: Source)
    requires Ready(t)
    ensures HandleNewGame(t).0.N() == t.N() && HandleNewDeal(t, s).0.N() == t.N() && HandleStartDeal(t).0.N() == t.N()
    ensures NextBidSequence(t).0.N() == t.N() && HandleGameSequence(t).0.N() == t.N()
    ensures HandleEndOfDeal(t, s).0.N() == t.N()
  {
    hide Engines.NewDeal, StartDeal, PlaySequence, AddPoints, BidSequence, ManageAfterBidSequence, NewScore, SetDiscard,
         SetKingCalled, Engines.SetBid, Engines.SetHandle, SetCard;
    EngineSameSize(t.engine, s, 0, [], NO_CARD, 0, false);
  }

  lemma BarrierSameSize(t: TableState, phase: Phase, s: Source)
    requires Ready(t)
    ensures Barrier(t, phase, s).0.N() == t.N()
  {
    hide HandleNewGame, HandleNewDeal, NextBidSequence, HandleGameSequence, HandleEndOfDeal, BidSequence,
         ManageAfterBidSequence;
    HandlersSameSize(t, s);
    SameRoomAfterBid(t.engine);
    HandlersSameSize(t.(engine := BidSequence(t.engine)), s);
    HandlersSameSize(t.(engine := ManageAfterBidSequence(t.engine)), s);
  }

  lemma SameRoomAfterBid(e: EngineState)
    requires e.ctx.Sized()
    ensures BidSequence(e).N() == e.N() && BidSequence(e).ctx.Sized()
    ensures ManageAfterBidSequence(e).N() == e.N() && ManageAfterBidSequence(e).ctx.Sized()
  {
  }

  lemma SeatsOnly(t: TableState, phase: Phase, uuid: nat)
    requires t.Sized()
    ensures ResetAck(t).engine == t.engine && ResetAck(t).score == t.score && ResetAck(t).Sized()
    ensures Sync(t, phase, uuid).0.engine == t.engine && Sync(t, phase, uuid).0.score == t.score
    ensures Sync(t, phase, uuid).0.Sized()
    ensures AddPlayer(t, uuid).0.engine == t.engine && RemovePlayer(t, uuid).engine == t.engine
  {
  }

  // Each kind of request either changes nothing, or does what its phase waits for.

  /** The table keeps its players and its mode, whatever is asked. */
  predicate SameSeating(t: TableState, t1: TableState) {
    t.Sized() && t1.Sized() && t1.adminMode == t.adminMode && t1.N() == t.N() &&
    forall i :: 0 <= i < MAX_SEATS ==> t1.seats[i].uuid == t.seats[i].uuid
  }

  /** The dealer stays; the first trick is led by the taker of a slam, else by the seat after the dealer, and stays so. */
  predicate LeadKept(e: EngineState, e': EngineState) {
    e'.dealer == e.dealer &&
    (Playing(e.phase) ==> e'.ctx.firstPlayer == e.ctx.firstPlayer) &&
    (!Playing(e.phase) && Playing(e'.phase) ==>
       e'.ctx.firstPlayer == if e'.ctx.bid.slam then e'.ctx.bid.taker else Next(e.dealer, e.N()))
  }

  lemma OnBidDoes(t: TableState, p: Place, contract: Contract, slam: bool)
    requires Ready(t)
    ensures var t1 := OnBid(t, p, contract, slam).0;
      t1 == t ||
      (t.engine.phase == WaitForBid && t1.engine.phase == WaitForShowBid && t1 == t.(engine := t1.engine) && SameSeating(t, t1))
  {
    hide RaiseBid, ToAll;
  }

  lemma OnDiscardDoes(t: TableState, p: Place, discard: Cards)
    requires Ready(t)
    ensures var t1 := OnDiscard(t, p, discard).0;
      t1 == t ||
      (t.engine.phase == WaitForDiscard && t1.engine.phase == WaitForStartDeal && t1 == t.(engine := t1.engine) &&
       SameSeating(t, t1) && t1.engine.ctx.bid == t.engine.ctx.bid && SetDiscard(t.engine, discard).1 &&
       LeadKept(t.engine, t1.engine))
  {
    hide TestDiscard, WithoutAll, ToAll;
  }

  lemma OnKingCallDoes(t: TableState, p: Place, king: Card)
    requires Ready(t)
    ensures var t1 := OnKingCall(t, p, king).0;
      t1 == t ||
      (t.engine.phase == WaitForKingCall && t1.engine.phase == WaitForShowKingCall && SameSeating(t, t1) &&
       t1.score == t.score && t1.deals == t.deals && t1.admin == t.admin && LeadKept(t.engine, t1.engine) &&
       t1.engine.ctx.bid.(partner := NOWHERE) == t.engine.ctx.bid.(partner := NOWHERE))
  {
    hide CheckKingCall, FindHolder, ToAll;
  }

  lemma OnHandleDoes(t: TableState, p: Place, handle: Cards)
    requires Ready(t)
    ensures var t1 := OnHandle(t, p, handle).0;
      t1 == t ||
      (t.engine.phase == WaitForHandle && t1 == t.(engine := t1.engine) && SameSeating(t, t1) &&
       t1.engine.ctx.bid == t.engine.ctx.bid && LeadKept(t.engine, t1.engine) &&
       (t1.engine.phase == WaitForShowHandle || t1.engine == PlaySequence(t.engine)))
  {
    hide TestHandle, ToAll, StepMessages, PlaySequence;
    PlayKeepsBid(t.engine);
  }

  lemma PlayKeepsBid(e: EngineState)
    requires e.ctx.Sized() && PlayerCount(e.N())
    ensures PlaySequence(e).ctx.bid == e.ctx.bid && PlaySequence(e).N() == e.N()
    ensures PlaySequence(e).dealer == e.dealer && PlaySequence(e).ctx.firstPlayer == e.ctx.firstPlayer
  {
    hide Judge, Credit;
  }

  lemma OnCardDoes(t: TableState, p: Place, card: Card)
    requires Ready(t)
    ensures var t1 := OnCard(t, p, card).0;
      t1 == t ||
      (t.engine.phase == WaitForPlayedCard && t1.engine.phase == WaitForShowCard && t1 == t.(engine := t1.engine) &&
       SameSeating(t, t1) && t1.engine.ctx == t.engine.ctx && t1.engine.dealer == t.engine.dealer)
  {
    hide CanPlayCard, Without, ToAll;
  }

  lemma OnAckSameSize(t: TableState, src: nat, step: string, s: Source)
    requires Ready(t)
    ensures OnAck(t, src, step, s).0.N() == t.N()
  {
    hide Barrier, PlaceOf, PhaseOfStep, Sync;
    SeatsOnly(t, PhaseOfStep(step), src);
    BarrierSameSize(Sync(t, PhaseOfStep(step), src).0, PhaseOfStep(step), s);
  }

  lemma OnNewGameSameSize(t: TableState, src: nat, deals: nat)
    requires Ready(t)
    ensures OnNewGame(t, src, deals).0.N() == t.N()
  {
    hide NewScore, Seated;
  }

  lemma StepSameSize(t: TableState, ev: Event)
    requires Ready(t)
    ensures Step(t, ev).N() == t.N()
  {
    hide OnAck, OnNewGame, OnBid, OnDiscard, OnKingCall, OnHandle, OnCard, AddPlayer, RemovePlayer, Sync, ResetAck, SameSeating;
    match ev
    case Joined(uuid) => SeatsOnly(t, WaitForReady, uuid);
    case Left(uuid) => SeatsOnly(t, WaitForReady, uuid);
    case Received(src, req, s) =>
      var p := GetPlayerPlace(t, src);
      match req
      case ReqAck(step) => OnAckSameSize(t, src, step, s);
      case ReqNewGame(deals) => OnNewGameSameSize(t, src, deals);
      case ReqBid(contract, slam) => OnBidDoes(t, p, contract, slam); RoomSize(t, Step(t, ev));
      case ReqDiscard(discard) => OnDiscardDoes(t, p, discard); RoomSize(t, Step(t, ev));
      case ReqKingCall(king) => OnKingCallDoes(t, p, king); RoomSize(t, Step(t, ev));
      case ReqHandle(handle) => OnHandleDoes(t, p, handle); RoomSize(t, Step(t, ev));
      case ReqCard(card) => OnCardDoes(t, p, card); RoomSize(t, Step(t, ev));
      case _ =>
  }

  lemma RoomSize(t: TableState, t1: TableState)
    ensures SameSeating(t, t1) ==> t1.N() == t.N()
  {
  }

  lemma {:induction false} RunKeeps(t: TableState, events: seq<Event>)
    requires TableInv(t) && AllAllowed(t, events)
    ensures TableInv(Run(t, events)) && Run(t, events).N() == t.N()
    decreases |events|
  {
    if events != [] {
      StepKeeps(t, events[0]);
      StepSameSize(t, events[0]);
      RunKeeps(Step(t, events[0]), events[1..]);
    }
  }

  lemma CreatedTable(t: TableState, n: nat, dealer: Place)
    requires PlayerCount(n) && dealer < n && t.score == NewScore(5) && t.deals == 1
    requires |t.engine.players| == MAX_SEATS && |t.engine.handleAsked| == MAX_SEATS && t.engine.ctx.Sized()
    ensures TableInv(CreateTable(t, n, dealer)) && CreateTable(t, n, dealer).N() == n
  {
    NewScoreZeroSum(5, n);
    var t' := CreateTable(t, n, dealer);
    assert !t'.seats[0].ack;
  }

  /** The phases in which cards are out, before and after the discard. */
  predicate Bidding(p: Phase) {
    p in {WaitForCards, WaitForBid, WaitForShowBid, WaitForAllPassed, WaitForKingCall, WaitForShowKingCall,
          WaitForShowDog, WaitForDiscard}
  }

  predicate Playing(p: Phase) {
    p in {WaitForStartDeal, WaitForHandle, WaitForShowHandle, WaitForPlayedCard, WaitForShowCard,
          WaitForEndOfTrick, WaitForEndOfDeal}
  }

  /** All the cards of a deal, wherever they are. */
  function CardsOut(e: EngineState): Cards
    requires e.ctx.Sized()
  {
    if Playing(e.phase) && e.trickCounter <= MAX_TRICKS then TableCards(e) else Flatten(e.Hands()) + e.ctx.dog
  }

  lemma InvCompletes(e: EngineState)
    requires Engines.Inv(e) && (Bidding(e.phase) || Playing(e.phase))
    ensures Complete(CardsOut(e))
  {
    hide Complete, NothingPlayed, SizesInv, ScoreInv, TableCards, CurrentLeader, LeaderAt;
  }

  /** Whatever happens at a table, the deal in progress has each of the 78 cards exactly once. */
  lemma CardsAreConserved(t: TableState, events: seq<Event>)
    requires TableInv(t) && AllAllowed(t, events)
    ensures var e := Run(t, events).engine;
      Engines.Inv(e) &&
      (Bidding(e.phase) || Playing(e.phase) ==>
         forall c :: multiset(CardsOut(e))[c] == if c.IsValid() then 1 else 0)
  {
    RunKeeps(t, events);
    var e := Run(t, events).engine;
    if Bidding(e.phase) || Playing(e.phase) {
      InvCompletes(e);
      CompleteDeckCounts(CardsOut(e));
    }
  }

  // ---------------------------------------------------------------- points

  lemma MeasuresSound()
    ensures HALVES.Sound() && OUDLER_COUNT.Sound()
  {
  }

  lemma {:induction false} PartOfTotal(m: Measure, whole: Cards, part: Cards, rest: Cards)
    requires m.Sound() && multiset(whole) == multiset(part + rest)
    ensures Total(m.weight, whole) == Total(m.weight, part) + Total(m.weight, rest)
    ensures Total(m.weight, rest) >= 0
  {
    TotalPermuted(m.weight, whole, part + rest);
    TotalConcat(m.weight, part, rest);
    TotalBounds(m.weight, rest, FOOL);
  }

  /** In every state of the play the attack has between nothing and everything, and its byte has not wrapped. */
  lemma AttackInRange(e: EngineState)
    requires Engines.Inv(e) && Playing(e.phase) && e.phase != WaitForEndOfDeal
    ensures 0 <= e.ctx.stats.halfPoints <= 182
    ensures e.ctx.stats.oudlers == Side(OUDLER_COUNT, e.ctx, Attack, e.trickCounter) <= 3
  {
    hide Complete, SizesInv, TurnInv, JudgedTricks, Total, Side, Byte, TableCards;
    MeasuresSound();
    StoredFit(e);
    SidesWithin(HALVES, e);
    SidesWithin(OUDLER_COUNT, e);
    CompleteTotals(e);
    SmallByte(Side(OUDLER_COUNT, e.ctx, Attack, e.trickCounter));
  }

  lemma StoredFit(e: EngineState)
    requires Engines.Inv(e) && Playing(e.phase)
    ensures e.trickCounter <= HandSize(e.N()) <= MAX_TRICKS && e.ctx.Sized()
  {
  }

  lemma CompleteTotals(e: EngineState)
    requires Engines.Inv(e) && Playing(e.phase)
    ensures Total(HALF_POINTS, TableCards(e)) == 182 && Total(OUDLERS, TableCards(e)) == 3
  {
    hide FullDeck, SizesInv, ScoreInv, Total;
    CompleteDeckTotals(TableCards(e));
  }

  lemma SidesWithin(m: Measure, e: EngineState)
    requires Engines.Inv(e) && Playing(e.phase) && m.Sound()
    ensures 0 <= Side(m, e.ctx, Attack, e.trickCounter) <= Total(m.weight, TableCards(e))
  {
    hide FullDeck, Complete, SizesInv, StatsMatch;
    var k := e.trickCounter;
    SidesShareTricks(m, e.ctx, k, k);
    var rest := Flatten(e.Hands()) + e.currentTrick + e.ctx.discard.cards;
    assert multiset(TableCards(e)) == multiset(TrickCards(e.ctx, k) + rest);
    PartOfTotal(m, TableCards(e), TrickCards(e.ctx, k), rest);
  }

  /** The raw count of a side at the end of the deal: its tricks, and the discard if it owns it. */
  function FinalShare(m: Measure, e: EngineState, side: Team): int
    requires Sound(e)
  {
    Side(m, e.ctx, side, HandSize(e.N())) +
    if e.ctx.discard.owner == side then Total(m.weight, e.ctx.discard.cards) else 0
  }

  lemma {:induction false} NoCards(ds: seq<Cards>)
    requires forall i :: 0 <= i < |ds| ==> ds[i] == []
    ensures Flatten(ds) == []
  {
    if ds != [] {
      NoCards(ds[..|ds| - 1]);
    }
  }

  /** At the end of a deal the shares of the two sides make up the whole deck. */
  lemma SharesMakeDeck(m: Measure, e: EngineState)
    requires Engines.Inv(e) && e.phase == WaitForEndOfDeal && m.Sound()
    ensures FinalShare(m, e, Attack) + FinalShare(m, e, Defense) == Total(m.weight, TableCards(e))
    ensures FinalShare(m, e, Attack) >= 0 && FinalShare(m, e, Defense) >= 0
  {
    hide FullDeck, Complete, StatsMatch, AnalyzeGame;
    var k := e.trickCounter;
    SidesShareTricks(m, e.ctx, k, k);
    assert Flatten(e.Hands()) == [] by { NoCards(e.Hands()); }
    assert TableCards(e) == TrickCards(e.ctx, k) + e.ctx.discard.cards;
    PartOfTotal(m, TableCards(e), TrickCards(e.ctx, k), e.ctx.discard.cards);
  }

  /** What the scoring announces is the rounded share of the attack. */
  lemma PointsAnnounced(e: EngineState)
    requires Engines.Inv(e) && e.phase == WaitForEndOfDeal
    ensures e.points.cardsHalfPoints == FinalShare(HALVES, e, Attack)
    ensures e.points.oudlers == FinalShare(OUDLER_COUNT, e, Attack)
    ensures e.points.pointsAttack == Truncate(RoundHalf(e.points.cardsHalfPoints, e.points.oudlers))
  {
    hide FullDeck, Complete, SizesInv, JudgedTricks, Side, Total, Byte, AnalyzeTrumps;
    MeasuresSound();
    var k := e.trickCounter;
    var c := Tallied(e.ctx, k);
    OudlersFit(e);
    SmallByte(Side(OUDLER_COUNT, e.ctx, Attack, k));
    AnalyzeTotals(c.stats, e.ctx.discard.cards);
    ByteAdds(Side(OUDLER_COUNT, e.ctx, Attack, k), Total(OUDLERS, e.ctx.discard.cards));
    SmallByte(FinalShare(OUDLER_COUNT, e, Attack));
  }

  lemma SmallByte(x: int)
    requires 0 <= x <= 3
    ensures Byte(x) == x
  {
  }

  lemma OudlersFit(e: EngineState)
    requires Engines.Inv(e) && e.phase == WaitForEndOfDeal
    ensures 0 <= FinalShare(OUDLER_COUNT, e, Attack) <= 3
    ensures 0 <= Side(OUDLER_COUNT, e.ctx, Attack, e.trickCounter) <= 3
  {
    hide FullDeck, Complete, SizesInv, ScoreInv, Side, Total;
    MeasuresSound();
    SharesMakeDeck(OUDLER_COUNT, e);
    SidesWithin(OUDLER_COUNT, e);
    CompleteTotals(e);
  }

  /**
   * Points are conserved: attack and defence share 91 points and three oudlers, the announced
   * points are a number from 0 to 91, and rounding never changes the winner.
   */
  lemma PointsAreConserved(e: EngineState)
    requires Engines.Inv(e) && e.phase == WaitForEndOfDeal
    ensures FinalShare(HALVES, e, Attack) + FinalShare(HALVES, e, Defense) == 182
    ensures FinalShare(OUDLER_COUNT, e, Attack) + FinalShare(OUDLER_COUNT, e, Defense) == 3
    ensures 0 <= e.points.pointsAttack <= 91 && 0 <= e.points.oudlers <= 3
    ensures Winner(e.points) == Attack <==> FinalShare(HALVES, e, Attack) >= 2 * PointsToDo(e.points.oudlers)
  {
    hide FullDeck, Complete, SizesInv, ScoreInv, FinalShare, Engines.Inv, Total, TableCards;
    MeasuresSound();
    InvSound(e);
    SharesMakeDeck(HALVES, e);
    SharesMakeDeck(OUDLER_COUNT, e);
    CompleteTotals(e);
    PointsAnnounced(e);
    RoundingIsFair(e.points.cardsHalfPoints, e.points.oudlers);
  }

  /** At the end of a deal nothing wraps: the machine computes the score of the rules. */
  lemma DealScoreIsRuleScore(e: EngineState)
    requires Engines.Inv(e) && e.phase == WaitForEndOfDeal
    ensures MachineScore(e.points, e.ctx.bid) == RuleScore(e.points, e.ctx.bid)
    ensures -185 <= RuleScore(e.points, e.ctx.bid) <= 1026
  {
    hide Engines.Inv, FinalShare, MachineScore, RuleScore;
    PointsAreConserved(e);
    HandlesPay(e);
    RuleScoreBounds(e.points, e.ctx.bid);
    MachineScoreIsRuleScore(e.points, e.ctx.bid);
  }

  lemma HandlesPay(e: EngineState)
    requires Engines.Inv(e) && e.phase == WaitForEndOfDeal
    ensures 0 <= e.points.handlePoints <= 80 && TAKE <= e.ctx.bid.contract <= GUARD_AGAINST
  {
    hide FullDeck, Complete, SizesInv, TurnInv, JudgedTricks, TableCards, AnalyzeTrumps, LittleEndianOwner, RoundHalf, Side,
         ShownCardsExist;
  }

  lemma InvSound(e: EngineState)
    requires Engines.Inv(e)
    ensures Sound(e)
  {
  }

  // ---------------------------------------------------------------- half points

  lemma {:induction false} SideParity(c: Ctx, k: nat, n: nat, t: nat)
    requires JudgedTricks(c, k) && t <= k && forall i :: 0 <= i < k ==> |c.tricks[i].cards| == n
    ensures (Side(HALVES, c, Attack, t) - n * WonBefore(c, t)) % 2 == 0
  {
    hide JudgedAt, VerdictAt, Total, Share;
    if t > 0 {
      SideParity(c, k, n, t - 1);
      var trick := c.tricks[t - 1].cards;
      ShareParity(trick, c.tricks[t - 1].owner == Attack, VerdictAt(c, t - 1).foolSwap);
      EvenSum(Side(HALVES, c, Attack, t - 1) - n * WonBefore(c, t - 1),
              Share(HALVES, trick, c.tricks[t - 1].owner == Attack, VerdictAt(c, t - 1).foolSwap)
              - (if c.tricks[t - 1].owner == Attack then n else 0));
      assert n * (WonBefore(c, t - 1) + 1) == n * WonBefore(c, t - 1) + n;
    }
  }

  lemma EvenSum(x: int, y: int)
    requires x % 2 == 0 && y % 2 == 0
    ensures (x + y) % 2 == 0
  {
  }

  lemma ShareParity(trick: Cards, wins: bool, foolSwap: bool)
    ensures (Share(HALVES, trick, wins, foolSwap) - (if wins then |trick| else 0)) % 2 == 0
  {
    HalfPointsParity(trick);
    if wins && foolSwap {
      EvenSum(Total(HALF_POINTS, trick) - |trick|, -8);
    }
  }

  /** The half points of the attack have the parity of the number of cards it won. */
  lemma AttackParity(e: EngineState)
    requires Engines.Inv(e) && e.phase == WaitForEndOfDeal
    ensures (e.points.cardsHalfPoints - e.N() * e.ctx.tricksWon -
             (if e.ctx.discard.owner == Attack then DogSize(e.N()) else 0)) % 2 == 0
  {
    hide FullDeck, Complete, AnalyzeGame, Total, Side, Share, TableCards, DogSize, HandSize;
    PointsAnnounced(e);
    SideParity(e.ctx, e.trickCounter, e.N(), e.trickCounter);
    HalfPointsParity(e.ctx.discard.cards);
    EvenSum(Side(HALVES, e.ctx, Attack, e.trickCounter) - e.N() * e.ctx.tricksWon,
            if e.ctx.discard.owner == Attack then Total(HALF_POINTS, e.ctx.discard.cards) - DogSize(e.N()) else 0);
  }

  /** With four players there is never a half point to round. */
  lemma FourPlayersNeverRound(e: EngineState)
    requires Engines.Inv(e) && e.phase == WaitForEndOfDeal && e.N() == 4
    ensures e.points.cardsHalfPoints % 2 == 0 && 2 * e.points.pointsAttack == e.points.cardsHalfPoints
  {
    hide Engines.Inv, FinalShare, RoundHalf, DogSize, Truncate;
    InvSound(e);
    AttackParity(e);
    EvenWithFour(e.points.cardsHalfPoints, e.ctx.tricksWon, e.ctx.discard.owner == Attack);
    PointsAnnounced(e);
    MeasuresSound();
    SharesMakeDeck(HALVES, e);
    EvenIsNotRounded(e.points.cardsHalfPoints, e.points.oudlers);
  }

  lemma EvenWithFour(x: int, won: int, dog: bool)
    requires (x - 4 * won - (if dog then DogSize(4) else 0)) % 2 == 0
    ensures x % 2 == 0
  {
  }

  lemma EvenIsNotRounded(halfPoints: int, oudlers: nat)
    requires halfPoints % 2 == 0 && halfPoints >= 0
    ensures 2 * Truncate(RoundHalf(halfPoints, oudlers)) == halfPoints
  {
  }
}
