/** Who pays whom: the score of a deal by the rules of the game, from the tricks to the entry of each seat. */
module Payments {
  import opened Tarot
  import opened Decks
  import opened Context
  import opened Engines
  import opened Scores
  import opened Deals

  // ---------------------------------------------------------------- the tables of the rules

  /** The points the attack needs, by its number of oudlers. */
  const GOALS: seq<int> := [56, 51, 41, 36]

  /** What a contract multiplies, from no bid to a guard against the dog. */
  const STAKES: seq<int> := [0, 0, 1, 2, 4, 6]

  /** What a declared handle of 10, 13 or 15 trumps is worth with three, four and five players. */
  function HandleBonus(n: nat, size: nat): int
    requires PlayerCount(n)
  {
    if size == 10 then [13, 20, 8][n - 3]
    else if size == 13 then [15, 30, 10][n - 3]
    else if size == 15 then [18, 40, 13][n - 3]
    else 0
  }

  lemma TablesAgree(n: nat, size: nat)
    requires PlayerCount(n)
    ensures forall o :: 0 <= o < 4 ==> PointsToDo(o) == GOALS[o]
    ensures forall c :: 0 <= c < 6 ==> Multiplier(c) == STAKES[c]
    ensures HandlePoints(n, HandleTypeOf(size)) == HandleBonus(n, size)
  {
  }

  // ---------------------------------------------------------------- the score of a deal

  /** The contract is made. */
  predicate Made(p: Points)
    requires p.oudlers < 4
  {
    p.pointsAttack >= GOALS[p.oudlers]
  }

  /**
   * What the attack gains from each defender. The stake and the handles go to the side that won; the smallest trump
   * at the end goes to the side that took it, whoever won; a slam goes to the side that did it, twice if it was
   * announced; and an announced slam that failed costs the attack, whoever won.
   */
  function AttackGain(p: Points, b: Bid): int
    requires p.oudlers < 4 && b.contract < 6
  {
    var margin := p.pointsAttack - GOALS[p.oudlers];
    var game := (25 + if margin < 0 then -margin else margin) * STAKES[b.contract] + p.handlePoints;
    var petit := 10 * STAKES[b.contract];
    (if Made(p) then game else -game) +
    (if p.littleEndianOwner == Attack then petit else if p.littleEndianOwner == Defense then -petit else 0) +
    (if p.slamDone then (if !Made(p) then -200 else if b.slam then 400 else 200) else if b.slam then -200 else 0)
  }

  /** The rule score is what the winners get from each loser. */
  lemma WinnersGain(p: Points, b: Bid)
    requires p.oudlers < 4 && b.contract < 6
    ensures (Winner(p) == Attack <==> Made(p)) && (Winner(p) == Defense <==> !Made(p))
    ensures AttackGain(p, b) == if Made(p) then RuleScore(p, b) else -RuleScore(p, b)
  {
    TablesAgree(3, 0);
    var margin := p.pointsAttack - GOALS[p.oudlers];
    var base := 25 + if margin < 0 then -margin else margin;
    var petit := if p.littleEndianOwner == NoTeam then 0 else if (p.littleEndianOwner == Attack) == Made(p) then 10 else -10;
    assert Difference(p) == margin && LittleEndianPoints(p) == petit && Multiplier(b.contract) == STAKES[b.contract];
    assert (base + petit) * STAKES[b.contract] == base * STAKES[b.contract] + petit * STAKES[b.contract];
  }

  /** The entry of a seat: the taker plays against all defenders, a partner takes about a third of the attack's part. */
  function Paid(p: Points, b: Bid, n: nat, seat: nat): int
    requires p.oudlers < 4 && b.contract < 6
  {
    var gain := AttackGain(p, b);
    if !b.HasPartner() then
      if seat == b.taker then (n - 1) * gain else -gain
    else if seat == b.taker then (if gain >= 0 then 2 * gain else 2 * gain + 1)
    else if seat == b.partner then (if gain >= 0 then gain else gain - 1)
    else -gain
  }

  /** Every seat is paid what the rules say, as long as the machine computes the score of the rules. */
  lemma SeatsArePaid(p: Points, b: Bid, n: nat, seat: nat)
    requires PlayerCount(n) && b.taker < n && p.oudlers < 4 && b.contract < 6 && (n == 5 || !b.HasPartner())
    requires MachineScore(p, b) == RuleScore(p, b)
    ensures SeatScore(p, b, n, seat) == Paid(p, b, n, seat)
  {
    hide MachineScore, RuleScore, AttackGain, TakerShare;
    WinnersGain(p, b);
    var gain := AttackGain(p, b);
    TakerShareOfThree(gain);
    if b.HasPartner() {
      assert GetPoints(p, Attack, b, n) == 3 * gain;
    } else {
      assert GetPoints(p, Attack, b, n) == (n - 1) * gain;
    }
    assert GetPoints(p, Defense, b, n) == -gain;
  }

  /** For instance: with four players a guard made by 19 points. */
  lemma GuardMadeByNineteen()
    ensures var p, b := Points(60, 120, 2, 0, false, NoTeam), Bid(0, NOWHERE, GUARD, false);
      SeatScore(p, b, 4, 0) == 264 && SeatScore(p, b, 4, 1) == -88
  {
    var p, b := Points(60, 120, 2, 0, false, NoTeam), Bid(0, NOWHERE, GUARD, false);
    MachineScoreIsRuleScore(p, b);
    SeatsArePaid(p, b, 4, 0);
    SeatsArePaid(p, b, 4, 1);
  }

  // ---------------------------------------------------------------- the end of a deal

  predicate AllWon(c: Ctx, k: nat, side: Team)
    requires c.Sized() && k <= MAX_TRICKS
  {
    forall t :: 0 <= t < k ==> c.tricks[t].owner == side
  }

  lemma {:induction false} WonAll(c: Ctx, k: nat)
    requires c.Sized() && k <= MAX_TRICKS
    requires forall t :: 0 <= t < k ==> c.tricks[t].owner == Attack || c.tricks[t].owner == Defense
    ensures WonBefore(c, k) <= k
    ensures WonBefore(c, k) == k <==> AllWon(c, k, Attack)
    ensures WonBefore(c, k) == 0 <==> AllWon(c, k, Defense)
  {
    if k > 0 {
      WonAll(c, k - 1);
      assert AllWon(c, k, Attack) <==> AllWon(c, k - 1, Attack) && c.tricks[k - 1].owner == Attack;
      assert AllWon(c, k, Defense) <==> AllWon(c, k - 1, Defense) && c.tricks[k - 1].owner == Defense;
    }
  }

  /** The side of a seat: the taker and the partner attack. */
  function SideOf(b: Bid, p: Place): Team {
    if p == b.taker || p == b.partner then Attack else Defense
  }

  lemma TricksBelong(e: EngineState, t: nat)
    requires Engines.Inv(e) && e.phase == WaitForEndOfDeal && t < HandSize(e.N())
    ensures e.ctx.Sized() && HandSize(e.N()) <= MAX_TRICKS
    ensures e.ctx.tricks[t].owner == SideOf(e.ctx.bid, e.ctx.winner[t])
  {
    hide FullDeck, Complete, SizesInv, TableCards, AnalyzeGame, VerdictAt;
    assert JudgedAt(e.ctx, t);
  }

  /** A slam is done exactly when one side has won every trick. */
  lemma SlamIsEveryTrick(e: EngineState)
    requires Engines.Inv(e) && e.phase == WaitForEndOfDeal
    ensures var won := (side: Team) =>
        forall t :: 0 <= t < HandSize(e.N()) && t < |e.ctx.winner| ==> SideOf(e.ctx.bid, e.ctx.winner[t]) == side;
      e.points.slamDone <==> won(Attack) || won(Defense)
  {
    hide FullDeck, Complete, SizesInv, TableCards, JudgedAt, Side, AnalyzeTrumps, LittleEndianOwner, RoundHalf;
    var h := HandSize(e.N());
    forall t | 0 <= t < h ensures e.ctx.tricks[t].owner == SideOf(e.ctx.bid, e.ctx.winner[t]) {
      TricksBelong(e, t);
    }
    WonAll(e.ctx, h);
  }

  /** The trick that decides on the smallest trump: the last one, or the one before a fool that ends a slam. */
  function DecidingTrick(e: EngineState): nat
    requires e.ctx.Sized() && PlayerCount(e.N())
  {
    var h := HandSize(e.N());
    if e.points.slamDone && FOOL in e.ctx.tricks[h - 1].cards then h - 2 else h - 1
  }

  /** The bonus for the smallest trump belongs to the side that won the deciding trick, if that trick holds it. */
  lemma PetitAtTheEnd(e: EngineState)
    requires Engines.Inv(e) && e.phase == WaitForEndOfDeal
    ensures e.ctx.Sized() && PlayerCount(e.N())
    ensures var d := DecidingTrick(e);
      e.points.littleEndianOwner ==
        if Card(1, TRUMPS) in e.ctx.tricks[d].cards then SideOf(e.ctx.bid, e.ctx.winner[d]) else NoTeam
  {
    hide FullDeck, Complete, SizesInv, TableCards, JudgedTricks, Side, AnalyzeTrumps, RoundHalf;
    TricksBelong(e, DecidingTrick(e));
  }

  /** Both sides' handles are counted, for the winner. */
  lemma HandlesCounted(e: EngineState)
    requires Engines.Inv(e) && e.phase == WaitForEndOfDeal
    ensures PlayerCount(e.N())
    ensures e.points.handlePoints == HandleBonus(e.N(), |e.ctx.attackHandle|) + HandleBonus(e.N(), |e.ctx.defenseHandle|)
  {
    hide FullDeck, Complete, SizesInv, TableCards, JudgedTricks, Side, AnalyzeTrumps, LittleEndianOwner, RoundHalf,
         HandlePoints, HandleTypeOf, HandleBonus;
    TablesAgree(e.N(), |e.ctx.attackHandle|);
    TablesAgree(e.N(), |e.ctx.defenseHandle|);
  }

  /** At the end of every deal each seat's entry is what the rules give it, for the side that made its points. */
  lemma DealIsPaid(e: EngineState, seat: nat)
    requires Engines.Inv(e) && e.phase == WaitForEndOfDeal && seat < e.N()
    ensures e.points.oudlers < 4 && e.ctx.bid.contract < 6
    ensures SeatScore(e.points, e.ctx.bid, e.N(), seat) == Paid(e.points, e.ctx.bid, e.N(), seat)
    ensures Made(e.points) <==> FinalShare(HALVES, e, Attack) >= 2 * GOALS[e.points.oudlers]
  {
    hide Engines.Inv, FinalShare, MachineScore, RuleScore, SeatScore, Paid, GetPoints;
    PointsAreConserved(e);
    HandlesPay(e);
    DealScoreIsRuleScore(e);
    assert PlayerCount(e.N()) && e.ctx.bid.taker < e.N() && (e.N() == 5 || !e.ctx.bid.HasPartner()) by { PartnersSit(e); }
    SeatsArePaid(e.points, e.ctx.bid, e.N(), seat);
    WinnersGain(e.points, e.ctx.bid);
    TablesAgree(3, 0);
  }

  lemma PartnersSit(e: EngineState)
    requires Engines.Inv(e) && e.phase == WaitForEndOfDeal
    ensures PlayerCount(e.N()) && e.ctx.bid.taker < e.N() && (e.N() == 5 || !e.ctx.bid.HasPartner())
  {
    hide SizesInv, TurnInv, ScoreInv, TableCards, Complete;
  }

  // ---------------------------------------------------------------- the record of a tournament

  /** Recording a deal fills its row and leaves the others, and every seat's total grows by its entry. */
  lemma EntriesAreRecorded(s: ScoreState, p: Points, b: Bid, n: nat, seat: nat)
    requires s.Sized() && s.dealCounter < MAX_TURNS && seat < n <= SEATS
    ensures var s' := AddPoints(s, p, b, n).0;
      s'.Sized() && s'.dealCounter == s.dealCounter + 1 &&
      s'.rows[s.dealCounter][seat] == SeatScore(p, b, n, seat) &&
      (forall i :: 0 <= i < MAX_TURNS && i != s.dealCounter ==> s'.rows[i] == s.rows[i]) &&
      TotalPoints(s', seat, s'.dealCounter) == TotalPoints(s, seat, s.dealCounter) + SeatScore(p, b, n, seat)
  {
    hide SeatScore;
    SameTotal(s, AddPoints(s, p, b, n).0, seat, s.dealCounter);
  }

  lemma {:induction false} SameTotal(s: ScoreState, s': ScoreState, seat: nat, d: nat)
    requires s.Sized() && s'.Sized() && seat < SEATS && d <= MAX_TURNS
    requires forall i :: 0 <= i < d ==> s'.rows[i] == s.rows[i]
    ensures TotalPoints(s', seat, d) == TotalPoints(s, seat, d)
  {
    if d > 0 {
      SameTotal(s, s', seat, d - 1);
    }
  }
}
