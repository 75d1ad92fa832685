/** The score of a deal and of a tournament. */
module Scores {
  import opened Tarot
  import opened Context

  // ---------------------------------------------------------------- one deal

  function Winner(p: Points): Team {
    if p.pointsAttack >= PointsToDo(p.oudlers) then Attack else Defense
  }

  function Difference(p: Points): int {
    p.pointsAttack - PointsToDo(p.oudlers)
  }

  function SlamPoints(p: Points, b: Bid): int {
    if p.slamDone then
      if Winner(p) == Attack && b.slam then 400 else 200
    else if b.slam then
      if Winner(p) == Attack then -200 else 200
    else 0
  }

  function LittleEndianPoints(p: Points): int {
    if p.littleEndianOwner == NoTeam then 0
    else if p.littleEndianOwner == Winner(p) then 10 else -10
  }

  function Abs(x: int): nat {
    if x < 0 then -x else x
  }

  // The source multiplies a signed by an unsigned 32-bit integer.

  const TWO_31: int := 0x8000_0000
  const TWO_32: int := 0x1_0000_0000

  function ToUnsigned(x: int): int {
    x % TWO_32
  }

  function ToSigned(u: int): int {
    if u < TWO_31 then u else u - TWO_32
  }

  /** The score as the machine computes it. */
  function MachineScore(p: Points, b: Bid): int {
    var product := ToUnsigned(ToUnsigned(25 + Abs(Difference(p)) + LittleEndianPoints(p)) * Multiplier(b.contract));
    var withHandle := ToUnsigned(product + ToUnsigned(p.handlePoints));
    ToSigned(ToUnsigned(withHandle + ToUnsigned(SlamPoints(p, b))))
  }

  /** The score as the rules give it. */
  function RuleScore(p: Points, b: Bid): int {
    (25 + Abs(Difference(p)) + LittleEndianPoints(p)) * Multiplier(b.contract) + p.handlePoints + SlamPoints(p, b)
  }

  function GetPoints(p: Points, team: Team, b: Bid, n: nat): int {
    var sign := if Winner(p) == team then 1 else -1;
    var multiplier := if team == Attack then n - 1 - (if b.HasPartner() then 1 else 0) else 1;
    MachineScore(p, b) * sign * multiplier
  }

  lemma ModAbsorbs(x: int, y: int)
    ensures (x % TWO_32 + y) % TWO_32 == (x + y) % TWO_32
    ensures (x % TWO_32 + y % TWO_32) % TWO_32 == (x + y) % TWO_32
  {
  }

  lemma {:induction false} ModTimes(x: int, m: nat)
    ensures (x % TWO_32 * m) % TWO_32 == (x * m) % TWO_32
  {
    if m > 0 {
      var r := x % TWO_32;
      ModTimes(x, m - 1);
      assert r * m == r * (m - 1) + r && x * m == x * (m - 1) + x;
      ModAbsorbs(r * (m - 1), r);
      ModAbsorbs(x * (m - 1), x);
    }
  }

  lemma SignedRoundTrip(x: int)
    ensures ToSigned(ToUnsigned(x)) == x <==> -TWO_31 <= x < TWO_31
  {
  }

  /** Unsigned arithmetic gives the score of the rules exactly when that score fits a signed 32-bit integer. */
  lemma MachineScoreIsRuleScore(p: Points, b: Bid)
    ensures MachineScore(p, b) == RuleScore(p, b) <==> -TWO_31 <= RuleScore(p, b) < TWO_31
  {
    hide Multiplier, SlamPoints, LittleEndianPoints, Difference, ToSigned;
    var base := 25 + Abs(Difference(p)) + LittleEndianPoints(p);
    var m := Multiplier(b.contract);
    assert ToUnsigned(ToUnsigned(base) * m) == ToUnsigned(base * m) by { ModTimes(base, m); }
    ModAbsorbs(base * m, p.handlePoints);
    ModAbsorbs(base * m + p.handlePoints, SlamPoints(p, b));
    SignedRoundTrip(RuleScore(p, b));
  }

  /** The base is at least 15 and at most 91, and the multiplier at most 6. */
  lemma RuleScoreBounds(p: Points, b: Bid)
    requires 0 <= p.pointsAttack <= 91 && 0 <= p.handlePoints <= 80 && TAKE <= b.contract <= GUARD_AGAINST
    ensures -185 <= RuleScore(p, b) <= 1026
  {
    hide Winner, LittleEndianPoints, SlamPoints;
    var base := 25 + Abs(Difference(p)) + LittleEndianPoints(p);
    assert -10 <= LittleEndianPoints(p) <= 10 by { LittleEndianIsTen(p); }
    assert -200 <= SlamPoints(p, b) <= 400 by { SlamIsBounded(p, b); }
    assert 15 <= base <= 91;
    assert Multiplier(b.contract) in {1, 2, 4, 6};
  }

  lemma LittleEndianIsTen(p: Points)
    ensures -10 <= LittleEndianPoints(p) <= 10
  {
  }

  lemma SlamIsBounded(p: Points, b: Bid)
    ensures -200 <= SlamPoints(p, b) <= 400
  {
  }

  // ---------------------------------------------------------------- sharing the score among the seats

  /** Conversion of a float to an integer: towards zero. */
  function TruncateReal(r: real): int {
    if r >= 0.0 then r.Floor else -((-r).Floor)
  }

  function TakerShare(attackPoints: int): int {
    TruncateReal(attackPoints as real * 2.0 / 3.0 + 0.4)
  }

  function SeatScore(p: Points, b: Bid, n: nat, seat: nat): int {
    var attack := GetPoints(p, Attack, b, n);
    var shared := n == 5 && b.HasPartner();
    var takerPoints := if shared then TakerShare(attack) else attack;
    if seat == b.taker then takerPoints
    else if n == 5 && seat == b.partner && b.HasPartner() then (if shared then attack - takerPoints else 0)
    else GetPoints(p, Defense, b, n)
  }

  function SeatsTotal(p: Points, b: Bid, n: nat, k: nat): int {
    if k == 0 then 0 else SeatsTotal(p, b, n, k - 1) + SeatScore(p, b, n, k - 1)
  }

  /** The taker's share of a score of the attack that three defenders paid or won. */
  lemma TakerShareOfThree(s: int)
    ensures TakerShare(3 * s) == if s >= 0 then 2 * s else 2 * s + 1
  {
    var r := (3 * s) as real * 2.0 / 3.0 + 0.4;
    assert r == (2 * s) as real + 0.4;
    if s >= 0 {
      assert r.Floor == 2 * s;
    } else {
      assert (-r) == (-2 * s - 1) as real + 0.6;
      assert (-r).Floor == -2 * s - 1;
    }
  }

  /** With five players and a partner the two shares add up, and each is within one point of its due. */
  lemma PartnersShare(p: Points, b: Bid)
    requires b.HasPartner()
    ensures var attack := GetPoints(p, Attack, b, 5);
      SeatScore(p, b, 5, b.taker) + SeatScore(p, b, 5, b.partner) == attack &&
      -3 <= 3 * SeatScore(p, b, 5, b.taker) - 2 * attack <= 3
  {
    hide MachineScore, TakerShare;
    var s := MachineScore(p, b) * (if Winner(p) == Attack then 1 else -1);
    assert GetPoints(p, Attack, b, 5) == 3 * s;
    TakerShareOfThree(s);
  }

  /** What the attack wins, each defender pays an equal part of. */
  lemma AttackMirrorsDefense(p: Points, b: Bid, n: nat)
    ensures GetPoints(p, Attack, b, n) == -(n - 1 - (if b.HasPartner() then 1 else 0)) * GetPoints(p, Defense, b, n)
    ensures GetPoints(p, Defense, b, n) == 0 <==> MachineScore(p, b) == 0
  {
    hide MachineScore;
  }

  /** A deal is zero-sum exactly when a partner sits at a table of five, or nothing was at stake. */
  lemma DealIsZeroSum(p: Points, b: Bid, n: nat)
    requires PlayerCount(n) && b.taker < n
    ensures SeatsTotal(p, b, n, n) == 0 <==> n == 5 || !b.HasPartner() || MachineScore(p, b) == 0
  {
    hide MachineScore, GetPoints, TakerShare, SeatsTotal;
    AttackMirrorsDefense(p, b, n);
    if n == 5 && b.HasPartner() {
      PartnersShare(p, b);
    }
    SeatsSum(p, b, n);
  }

  lemma SeatsSum(p: Points, b: Bid, n: nat)
    requires PlayerCount(n)
    ensures SeatsTotal(p, b, n, n) ==
      SeatScore(p, b, n, 0) + SeatScore(p, b, n, 1) + SeatScore(p, b, n, 2) +
      (if n >= 4 then SeatScore(p, b, n, 3) else 0) + (if n == 5 then SeatScore(p, b, n, 4) else 0)
  {
    hide SeatScore;
    assert SeatsTotal(p, b, n, 3) == SeatScore(p, b, n, 0) + SeatScore(p, b, n, 1) + SeatScore(p, b, n, 2) by {
      assert SeatsTotal(p, b, n, 1) == SeatScore(p, b, n, 0);
      assert SeatsTotal(p, b, n, 2) == SeatScore(p, b, n, 0) + SeatScore(p, b, n, 1);
    }
    if n == 5 {
      assert SeatsTotal(p, b, n, 4) == SeatsTotal(p, b, n, 3) + SeatScore(p, b, n, 3);
    }
  }

  // ---------------------------------------------------------------- a tournament

  const MAX_TURNS: nat := 40
  const SEATS: nat := 5

  datatype ScoreState = ScoreState(rows: seq<seq<int>>, dealCounter: nat, numberOfTurns: nat) {
    predicate Sized() {
      |rows| == MAX_TURNS && forall i :: 0 <= i < MAX_TURNS ==> |rows[i]| == SEATS
    }
  }

  function NewScore(numberOfTurns: nat): ScoreState {
    ScoreState(seq(MAX_TURNS, _ => seq(SEATS, _ => 0)), 0, numberOfTurns % 256)
  }

  function DealRow(row: seq<int>, p: Points, b: Bid, n: nat): seq<int> {
    seq(|row|, i requires 0 <= i < |row| => if i < n then SeatScore(p, b, n, i) else row[i])
  }

  function AddPoints(s: ScoreState, p: Points, b: Bid, n: nat): (ScoreState, bool)
    requires s.Sized() && s.dealCounter < MAX_TURNS
  {
    (s.(rows := s.rows[s.dealCounter := DealRow(s.rows[s.dealCounter], p, b, n)], dealCounter := s.dealCounter + 1),
     s.dealCounter + 1 < s.numberOfTurns)
  }

  /** Sum of the first k entries of a row. */
  function RowSum(row: seq<int>, k: nat): int
    requires k <= |row|
  {
    if k == 0 then 0 else RowSum(row, k - 1) + row[k - 1]
  }

  /** `GetTotalPoints`, over the first d deals. */
  function TotalPoints(s: ScoreState, seat: nat, d: nat): int
    requires s.Sized() && seat < SEATS && d <= MAX_TURNS
  {
    if d == 0 then 0 else TotalPoints(s, seat, d - 1) + s.rows[d - 1][seat]
  }

  function GrandTotal(s: ScoreState, k: nat, d: nat): int
    requires s.Sized() && k <= SEATS && d <= MAX_TURNS
  {
    if k == 0 then 0 else GrandTotal(s, k - 1, d) + TotalPoints(s, k - 1, d)
  }

  /** Every deal played so far is zero-sum. */
  predicate ZeroSum(s: ScoreState, n: nat) {
    s.Sized() && n <= SEATS && s.dealCounter <= MAX_TURNS &&
    forall i :: 0 <= i < s.dealCounter ==> RowSum(s.rows[i], n) == 0
  }

  lemma {:induction false} DealRowSum(row: seq<int>, p: Points, b: Bid, n: nat, k: nat)
    requires |row| == SEATS && k <= n <= SEATS
    ensures RowSum(DealRow(row, p, b, n), k) == SeatsTotal(p, b, n, k)
  {
    if k > 0 {
      DealRowSum(row, p, b, n, k - 1);
    }
  }

  lemma AddPointsZeroSum(s: ScoreState, p: Points, b: Bid, n: nat)
    requires PlayerCount(n) && b.taker < n && (n == 5 || !b.HasPartner())
    requires ZeroSum(s, n) && s.dealCounter < MAX_TURNS
    ensures ZeroSum(AddPoints(s, p, b, n).0, n)
  {
    DealRowSum(s.rows[s.dealCounter], p, b, n, n);
    DealIsZeroSum(p, b, n);
  }

  lemma NewScoreZeroSum(turns: nat, n: nat)
    requires n <= SEATS
    ensures ZeroSum(NewScore(turns), n)
  {
  }

  lemma {:induction false} GrandTotalStep(s: ScoreState, k: nat, d: nat)
    requires s.Sized() && k <= SEATS && 0 < d <= MAX_TURNS
    ensures GrandTotal(s, k, d) == GrandTotal(s, k, d - 1) + RowSum(s.rows[d - 1], k)
  {
    if k > 0 {
      GrandTotalStep(s, k - 1, d);
    }
  }

  lemma {:induction false} GrandTotalStart(s: ScoreState, k: nat)
    requires s.Sized() && k <= SEATS
    ensures GrandTotal(s, k, 0) == 0
  {
    if k > 0 {
      GrandTotalStart(s, k - 1);
    }
  }

  /** In a tournament of zero-sum deals the totals of the seats add up to zero after every deal. */
  lemma {:induction false} TotalsAreZeroSum(s: ScoreState, n: nat, d: nat)
    requires ZeroSum(s, n) && d <= s.dealCounter
    ensures GrandTotal(s, n, d) == 0
  {
    if d == 0 {
      GrandTotalStart(s, n);
    } else {
      TotalsAreZeroSum(s, n, d - 1);
      GrandTotalStep(s, n, d);
    }
  }
}
