/** The record of one deal: bid, dog, completed tricks and the score of the attack. */
module Context {
  import opened Tarot
  import opened Decks

  datatype Pile = Pile(cards: Cards, owner: Team)

  const MAX_TRICKS: nat := 24

  datatype Points = Points(pointsAttack: int, cardsHalfPoints: int, oudlers: nat, handlePoints: int,
                           slamDone: bool, littleEndianOwner: Team)

  const NO_POINTS := Points(0, 0, 0, 0, false, NoTeam)

  datatype Ctx = Ctx(
    nbPlayers: nat,
    bid: Bid,
    discard: Pile,
    dog: Cards,
    attackHandle: Cards,
    defenseHandle: Cards,
    firstPlayer: Place,
    tricks: seq<Pile>,
    winner: seq<Place>,
    tricksWon: int,
    stats: Stats,
    kingCalled: Card)
  {
    predicate Sized() {
      |tricks| == MAX_TRICKS && |winner| == MAX_TRICKS
    }
  }

  function Clear(p: Pile): Pile {
    p.(cards := [])
  }

  function Initialize(c: Ctx): Ctx {
    c.(bid := NO_BID,
       discard := Clear(c.discard),
       attackHandle := [],
       defenseHandle := [],
       tricks := seq(|c.tricks|, i requires 0 <= i < |c.tricks| => Clear(c.tricks[i])),
       tricksWon := 0,
       stats := NO_STATS)
  }

  function StoreHandle(c: Ctx, handle: Cards, p: Place): Ctx {
    if c.bid.InAttack(p) then c.(attackHandle := handle) else c.(defenseHandle := handle)
  }

  /** Sets the dog aside for one side when no discard is made; says whether the dog is shown. */
  function ManageDogAfterBid(c: Ctx): (Ctx, bool) {
    if c.bid.contract == GUARD_WITHOUT then (c.(discard := Pile(c.dog, Attack)), false)
    else if c.bid.contract == GUARD_AGAINST then (c.(discard := Pile(c.dog, Defense)), false)
    else (c, true)
  }

  function RaiseBid(b: Bid, contract: Contract, slam: bool, p: Place): (Bid, Contract) {
    if contract > b.contract then (b.(contract := contract, taker := p, slam := slam), contract)
    else (b, PASS)
  }

  // ---------------------------------------------------------------- one trick

  function FirstIndex(d: Cards, c: Card): nat {
    if d == [] || d[0] == c then 0 else 1 + FirstIndex(d[1..], c)
  }

  /** Seats are not stored with the cards: they are recomputed from the position in the trick. */
  function GetOwner(first: Place, card: Card, trick: Cards): Place {
    SeatAfter(first, FirstIndex(trick, card), Byte(|trick|))
  }

  function Leader(trick: Cards): Card {
    if HighestTrump(trick).IsValid() then HighestTrump(trick) else HighestSuit(trick)
  }

  datatype Verdict = Verdict(winner: Place, foolSwap: bool)

  function TeamOf(b: Bid, p: Place): Team {
    if b.InAttack(p) then Attack else Defense
  }

  /** The side the fool is counted for depends on the taker alone. */
  function FoolTeam(b: Bid, p: Place): Team {
    if p == b.taker then Attack else Defense
  }

  function Judge(b: Bid, first: Place, won: int, trick: Cards, counter: nat): Verdict {
    var n := Byte(|trick|);
    if !Leader(trick).IsValid() then Verdict(NOWHERE, false)
    else
      var winner := GetOwner(first, Leader(trick), trick);
      if FOOL !in trick then Verdict(winner, false)
      else
        var foolPlace := GetOwner(first, FOOL, trick);
        if IsDealFinished(counter, n) then
          if won == HandSize(n) - 1 && foolPlace == b.taker then Verdict(b.taker, false)
          else Verdict(winner, TeamOf(b, winner) == FoolTeam(b, foolPlace))
        else Verdict(winner, TeamOf(b, winner) != FoolTeam(b, foolPlace))
  }

  /** What a trick does to the statistics of the attack. */
  function Credit(s: Stats, trick: Cards, attack: bool, foolSwap: bool): Stats {
    if attack then
      var s' := AnalyzeTrumps(s, trick);
      if foolSwap then s'.(halfPoints := s'.halfPoints - 8, oudlers := Byte(s'.oudlers - 1)) else s'
    else
      if foolSwap then s.(halfPoints := s.halfPoints + 8, oudlers := Byte(s.oudlers + 1)) else s
  }

  function SetTrick(c: Ctx, trick: Cards, counter: nat): (Ctx, Place)
    requires c.Sized() && 1 <= counter <= MAX_TRICKS + 1
  {
    var turn := counter - 1;
    if turn < MAX_TRICKS then
      var v := Judge(c.bid, LeaderAt(c, turn), c.tricksWon, trick, counter);
      var attack := c.bid.InAttack(v.winner);
      (c.(tricks := c.tricks[turn := Pile(trick, TeamOf(c.bid, v.winner))],
          winner := c.winner[turn := v.winner],
          tricksWon := if attack then c.tricksWon + 1 else c.tricksWon,
          stats := Credit(c.stats, trick, attack, v.foolSwap)),
       v.winner)
    else (c, NOWHERE)
  }

  /** The seat that leads trick t. */
  function LeaderAt(c: Ctx, t: nat): Place
    requires c.Sized() && t <= MAX_TRICKS
  {
    if t == 0 then c.firstPlayer else c.winner[t - 1]
  }

  // ---------------------------------------------------------------- the end of the deal

  function RoundHalf(halfPoints: int, oudlers: nat): int {
    if halfPoints % 2 == 0 then halfPoints
    else if halfPoints >= 2 * PointsToDo(oudlers) then halfPoints + 1
    else halfPoints - 1
  }

  function LittleEndianOwner(c: Ctx, slamDone: bool): Team
    requires c.Sized() && PlayerCount(c.nbPlayers)
  {
    var last := HandSize(c.nbPlayers) - 1;
    var t := if slamDone && FOOL in c.tricks[last].cards then last - 1 else last;
    if Card(1, TRUMPS) in c.tricks[t].cards then c.tricks[t].owner else NoTeam
  }

  function AnalyzeGame(c: Ctx, p: Points): (Ctx, Points)
    requires c.Sized() && PlayerCount(c.nbPlayers)
  {
    var slamDone := c.tricksWon == HandSize(c.nbPlayers) || c.tricksWon == 0;
    var s := if c.discard.owner == Attack then AnalyzeTrumps(c.stats, c.discard.cards) else c.stats;
    var rounded := RoundHalf(s.halfPoints, s.oudlers);
    (c.(stats := s.(halfPoints := rounded)),
     Points(
       Truncate(rounded),
       s.halfPoints,
       s.oudlers,
       p.handlePoints + HandlePoints(c.nbPlayers, HandleTypeOf(|c.attackHandle|))
                      + HandlePoints(c.nbPlayers, HandleTypeOf(|c.defenseHandle|)),
       slamDone,
       LittleEndianOwner(c, slamDone)))
  }

  /** From half points to points, as the conversion of a float to an integer does. */
  function Truncate(halfPoints: int): int {
    if halfPoints >= 0 then halfPoints / 2 else -(-halfPoints / 2)
  }

  // ---------------------------------------------------------------- lemmas: one trick

  predicate ValidCards(d: Cards) {
    forall c :: c in d ==> c.IsValid()
  }

  predicate Distinct(d: Cards) {
    forall i, j :: 0 <= i < j < |d| ==> d[i] != d[j]
  }

  /** Cards drawn from a pack without repetitions are distinct. */
  lemma DistinctFromCounts(d: Cards)
    requires forall c :: multiset(d)[c] <= 1
    ensures Distinct(d)
  {
    forall i, j | 0 <= i < j < |d| ensures d[i] != d[j] {
      assert d == d[..j] + d[j..];
      assert d[i] in d[..j] && d[j] in d[j..];
      assert multiset(d)[d[j]] == multiset(d[..j])[d[j]] + multiset(d[j..])[d[j]];
    }
  }

  lemma {:induction false} FirstIndexOf(d: Cards, i: nat)
    requires Distinct(d) && i < |d|
    ensures FirstIndex(d, d[i]) == i
  {
    if i > 0 {
      FirstIndexOf(d[1..], i - 1);
    }
  }

  /** The seat computed for the i-th card of a trick is i places after the leader. */
  lemma OwnerOfPosition(first: Place, trick: Cards, i: nat)
    requires Distinct(trick) && 1 <= |trick| <= 5 && first < |trick| && i < |trick|
    ensures GetOwner(first, trick[i], trick) == Seat(first, i, |trick|)
  {
    FirstIndexOf(trick, i);
    SeatAfterIsSeat(first, i, |trick|);
  }

  /** The card that takes the trick: the highest trump, else the highest card of the suit led. */
  predicate Takes(c: Card, trick: Cards) {
    c in trick && !c.IsFool() &&
    if exists t :: t in trick && t.IsTrump() && !t.IsFool() then
      c.IsTrump() && forall t :: t in trick && t.IsTrump() ==> t.value <= c.value
    else
      c.suit == LeadCard(trick).suit && forall t :: t in trick && t.suit == c.suit ==> t.value <= c.value
  }

  lemma TakerUnique(c: Card, c': Card, trick: Cards)
    requires Takes(c, trick) && Takes(c', trick)
    ensures c == c'
  {
  }

  lemma LeaderTakes(trick: Cards)
    requires ValidCards(trick) && Distinct(trick) && |trick| >= 2
    ensures Leader(trick).IsValid() && Takes(Leader(trick), trick)
  {
    HighestTrumpIsHighest(trick);
    if HighestTrump(trick) == NO_CARD {
      HighestSuitIsHighest(trick);
      assert trick[0] in trick && trick[1] in trick;
      assert LeadCard(trick) != NO_CARD;
    }
  }

  /** Who wins a trick, and the one case in which it is not the seat of the card that takes it. */
  lemma TrickWinner(b: Bid, first: Place, won: int, trick: Cards, counter: nat, i: nat, f: nat)
    requires 3 <= |trick| <= 5 && ValidCards(trick) && Distinct(trick) && first < |trick|
    requires i < |trick| && Takes(trick[i], trick)
    requires f <= |trick| && (f < |trick| ==> trick[f] == FOOL) && (f == |trick| ==> FOOL !in trick)
    ensures Judge(b, first, won, trick, counter).winner ==
      if f < |trick| && Seat(first, f, |trick|) == b.taker && counter >= HandSize(|trick|) && won == HandSize(|trick|) - 1
      then b.taker
      else Seat(first, i, |trick|)
  {
    LeaderTakes(trick);
    TakerUnique(Leader(trick), trick[i], trick);
    OwnerOfPosition(first, trick, i);
    if f < |trick| {
      OwnerOfPosition(first, trick, f);
    }
  }

  /**
   * Whether the rules give the fool to the side that did not win the trick: it stays with the side that
   * played it, except on the last trick, where that side loses it unless it crowns a slam of the taker.
   */
  predicate FoolLeavesWinner(winner: Team, holder: Team, last: bool, slam: bool) {
    if last then !slam && winner == holder else winner != holder
  }

  /** The code follows that rule exactly when the fool is not played by a partner distinct from the taker. */
  lemma FoolKeptBySide(b: Bid, first: Place, won: int, trick: Cards, counter: nat)
    requires 3 <= |trick| <= 5 && ValidCards(trick) && Distinct(trick) && FOOL in trick
    ensures var v := Judge(b, first, won, trick, counter);
      var holder := GetOwner(first, FOOL, trick);
      var last := counter >= HandSize(|trick|);
      var slam := holder == b.taker && won == HandSize(|trick|) - 1;
      (v.foolSwap <==> FoolLeavesWinner(TeamOf(b, v.winner), TeamOf(b, holder), last, slam)) <==>
      !(holder == b.partner && holder != b.taker)
  {
    LeaderTakes(trick);
  }

  /** So a partner's fool is always counted for the defence, except on the last trick: then always for the attack. */
  lemma PartnersFool(b: Bid, first: Place, won: int, trick: Cards, counter: nat)
    requires 3 <= |trick| <= 5 && ValidCards(trick) && Distinct(trick) && FOOL in trick
    requires GetOwner(first, FOOL, trick) == b.partner && b.partner != b.taker
    ensures var v := Judge(b, first, won, trick, counter);
      var attackWins := TeamOf(b, v.winner) == Attack;
      v.foolSwap <==> if counter >= HandSize(|trick|) then !attackWins else attackWins
  {
    LeaderTakes(trick);
  }

  /** A trick on which this happens: the taker wins with a king, and holds or loses the fool of his partner. */
  lemma PartnersFoolGoesToTheDefence()
    ensures var b := Bid(0, 2, TAKE, false);
      var trick := [Card(KING, HEARTS), Card(2, HEARTS), FOOL, Card(3, HEARTS), Card(4, HEARTS)];
      GetOwner(0, FOOL, trick) == b.partner &&
      Judge(b, 0, 0, trick, 1) == Verdict(b.taker, true) && Judge(b, 0, 0, trick, 15) == Verdict(b.taker, false)
  {
    var b := Bid(0, 2, TAKE, false);
    var trick := [Card(KING, HEARTS), Card(2, HEARTS), FOOL, Card(3, HEARTS), Card(4, HEARTS)];
    assert Takes(trick[0], trick);
    TrickWinner(b, 0, 0, trick, 1, 0, 2);
    TrickWinner(b, 0, 0, trick, 15, 0, 2);
    OwnerOfPosition(0, trick, 2);
    assert trick[2] == FOOL;
    LeaderTakes(trick);
  }

  lemma JudgeInRange(b: Bid, first: Place, won: int, trick: Cards, counter: nat)
    requires 3 <= |trick| <= 5 && ValidCards(trick) && Distinct(trick) && first < |trick| && b.taker < |trick|
    ensures Judge(b, first, won, trick, counter).winner < |trick|
    ensures Judge(b, first, won, trick, counter).foolSwap ==> FOOL in trick
  {
    LeaderTakes(trick);
    var i :| 0 <= i < |trick| && trick[i] == Leader(trick);
    OwnerOfPosition(first, trick, i);
  }

  /** How cards are counted: a weight for each card, and what changes hands in an exchange for the fool. */
  datatype Measure = Measure(weight: Card -> int, exchanged: int) {
    ghost predicate Sound() {
      exchanged >= 0 && weight(FOOL) >= exchanged && forall c :: weight(c) >= 0
    }
  }

  const HALVES := Measure(HALF_POINTS, 8)
  const OUDLER_COUNT := Measure(OUDLERS, 1)

  /** What one trick is worth to a side, with the exchange for the fool. */
  function Share(m: Measure, trick: Cards, wins: bool, foolSwap: bool): int {
    if wins then Total(m.weight, trick) - (if foolSwap then m.exchanged else 0)
    else if foolSwap then m.exchanged else 0
  }

  /** Neither side can lose on a trick: an exchange happens only when the fool is in it. */
  lemma ShareNonNegative(m: Measure, trick: Cards, wins: bool, foolSwap: bool)
    requires m.Sound() && (foolSwap ==> FOOL in trick)
    ensures Share(m, trick, wins, foolSwap) >= 0
  {
    TotalBounds(m.weight, trick, FOOL);
  }

  // ---------------------------------------------------------------- lemmas: all completed tricks

  function WonBefore(c: Ctx, k: nat): nat
    requires c.Sized() && k <= MAX_TRICKS
  {
    if k == 0 then 0 else WonBefore(c, k - 1) + if c.tricks[k - 1].owner == Attack then 1 else 0
  }

  function VerdictAt(c: Ctx, t: nat): Verdict
    requires c.Sized() && t < MAX_TRICKS
  {
    Judge(c.bid, LeaderAt(c, t), WonBefore(c, t), c.tricks[t].cards, t + 1)
  }

  /** What the first k tricks brought to a side; the same definition serves both. */
  function Side(m: Measure, c: Ctx, side: Team, k: nat): int
    requires c.Sized() && k <= MAX_TRICKS
  {
    if k == 0 then 0
    else Side(m, c, side, k - 1) +
         Share(m, c.tricks[k - 1].cards, c.tricks[k - 1].owner == side, VerdictAt(c, k - 1).foolSwap)
  }

  function TrickCards(c: Ctx, k: nat): Cards
    requires c.Sized() && k <= MAX_TRICKS
  {
    if k == 0 then [] else TrickCards(c, k - 1) + c.tricks[k - 1].cards
  }

  predicate JudgedAt(c: Ctx, t: nat)
    requires c.Sized() && t < MAX_TRICKS
  {
    var v := VerdictAt(c, t);
    c.winner[t] == v.winner && c.tricks[t].owner == TeamOf(c.bid, v.winner) &&
    (v.foolSwap ==> FOOL in c.tricks[t].cards)
  }

  /** The stored winners, owners and count are those the first k tricks determine. */
  predicate JudgedTricks(c: Ctx, k: nat) {
    c.Sized() && k <= MAX_TRICKS &&
    (forall t :: 0 <= t < k ==> JudgedAt(c, t)) &&
    c.tricksWon == WonBefore(c, k)
  }

  /** The statistics are the share of the attack. */
  predicate StatsMatch(c: Ctx, k: nat)
    requires c.Sized() && k <= MAX_TRICKS
  {
    c.stats.halfPoints == Side(HALVES, c, Attack, k) &&
    c.stats.oudlers == Byte(Side(OUDLER_COUNT, c, Attack, k))
  }

  predicate Judged(c: Ctx, k: nat) {
    JudgedTricks(c, k) && StatsMatch(c, k)
  }

  /** c and c' tell the same story up to trick k. */
  predicate SamePrefix(c: Ctx, c': Ctx, k: nat) {
    c.Sized() && c'.Sized() && k <= MAX_TRICKS &&
    c.bid == c'.bid && c.firstPlayer == c'.firstPlayer &&
    c.tricks[..k] == c'.tricks[..k] && c.winner[..k] == c'.winner[..k]
  }

  lemma {:induction false} PrefixDetermines(c: Ctx, c': Ctx, k: nat, t: nat)
    requires SamePrefix(c, c', k) && t <= k
    ensures WonBefore(c, t) == WonBefore(c', t) && TrickCards(c, t) == TrickCards(c', t)
    ensures t < k ==> VerdictAt(c, t) == VerdictAt(c', t)
  {
    if t > 0 {
      PrefixDetermines(c, c', k, t - 1);
      SamePrefixAt(c, c', k, t - 1);
    }
    if t < k {
      SamePrefixAt(c, c', k, t);
    }
  }

  lemma SamePrefixAt(c: Ctx, c': Ctx, k: nat, t: nat)
    requires SamePrefix(c, c', k) && t < k
    ensures c.tricks[t] == c'.tricks[t] && c.winner[t] == c'.winner[t]
  {
    assert c.tricks[t] == c.tricks[..k][t] && c.winner[t] == c.winner[..k][t];
    assert c'.tricks[t] == c'.tricks[..k][t] && c'.winner[t] == c'.winner[..k][t];
  }

  lemma {:induction false} PrefixDeterminesSide(m: Measure, c: Ctx, c': Ctx, side: Team, k: nat, t: nat)
    requires SamePrefix(c, c', k) && t <= k
    ensures Side(m, c, side, t) == Side(m, c', side, t)
  {
    if t > 0 {
      PrefixDeterminesSide(m, c, c', side, k, t - 1);
      PrefixDetermines(c, c', k, t - 1);
      SamePrefixAt(c, c', k, t - 1);
    }
  }

  lemma SetTrickKeepsPrefix(c: Ctx, trick: Cards, k: nat)
    requires c.Sized() && k < MAX_TRICKS
    ensures SamePrefix(c, SetTrick(c, trick, k + 1).0, k)
  {
  }

  /** The statistics of the attack follow its share of the trick. */
  lemma CreditIsShare(s: Stats, trick: Cards, attack: bool, foolSwap: bool)
    requires s.oudlers < 256
    ensures Credit(s, trick, attack, foolSwap).halfPoints == s.halfPoints + Share(HALVES, trick, attack, foolSwap)
    ensures Credit(s, trick, attack, foolSwap).oudlers == Byte(s.oudlers + Share(OUDLER_COUNT, trick, attack, foolSwap))
  {
    hide AnalyzeTrumps;
    AnalyzeTotals(s, trick);
    ByteAdds(s.oudlers + Total(OUDLERS, trick), -1);
  }

  lemma SetTrickJudgesIt(c: Ctx, trick: Cards, k: nat)
    requires c.Sized() && k < MAX_TRICKS && c.tricksWon == WonBefore(c, k)
    requires Judge(c.bid, LeaderAt(c, k), c.tricksWon, trick, k + 1).foolSwap ==> FOOL in trick
    ensures var c' := SetTrick(c, trick, k + 1).0;
      VerdictAt(c', k) == Judge(c.bid, LeaderAt(c, k), c.tricksWon, trick, k + 1) && JudgedAt(c', k)
  {
    var c' := SetTrick(c, trick, k + 1).0;
    SetTrickKeepsPrefix(c, trick, k);
    PrefixDetermines(c, c', k, k);
  }

  lemma JudgedAtKept(c: Ctx, c': Ctx, k: nat, t: nat)
    requires SamePrefix(c, c', k) && t < k && JudgedAt(c, t)
    ensures JudgedAt(c', t)
  {
    PrefixDetermines(c, c', k, t);
    SamePrefixAt(c, c', k, t);
  }

  lemma ExtendJudged(c: Ctx, c': Ctx, k: nat, v: Verdict)
    requires k < MAX_TRICKS && Judged(c, k) && SamePrefix(c, c', k)
    requires JudgedAt(c', k) && VerdictAt(c', k) == v
    requires var attack := c.bid.InAttack(v.winner);
      c'.tricksWon == c.tricksWon + (if attack then 1 else 0) &&
      c'.stats == Credit(c.stats, c'.tricks[k].cards, attack, v.foolSwap)
    ensures Judged(c', k + 1)
  {
    hide Judge, AnalyzeTrumps, Credit, Byte, StatsMatch;
    forall t | 0 <= t < k ensures JudgedAt(c', t) {
      JudgedAtKept(c, c', k, t);
    }
    PrefixDetermines(c, c', k, k);
    ExtendStats(c, c', k, v);
  }

  lemma ExtendStats(c: Ctx, c': Ctx, k: nat, v: Verdict)
    requires k < MAX_TRICKS && SamePrefix(c, c', k) && StatsMatch(c, k)
    requires VerdictAt(c', k) == v && c'.tricks[k].owner == TeamOf(c.bid, v.winner)
    requires c'.stats == Credit(c.stats, c'.tricks[k].cards, c.bid.InAttack(v.winner), v.foolSwap)
    ensures StatsMatch(c', k + 1)
  {
    hide Judge, AnalyzeTrumps, Credit, VerdictAt, Byte;
    PrefixDeterminesSide(HALVES, c, c', Attack, k, k);
    PrefixDeterminesSide(OUDLER_COUNT, c, c', Attack, k, k);
    var share := Share(OUDLER_COUNT, c'.tricks[k].cards, c.bid.InAttack(v.winner), v.foolSwap);
    ByteAdds(Side(OUDLER_COUNT, c, Attack, k), share);
    CreditIsShare(c.stats, c'.tricks[k].cards, c.bid.InAttack(v.winner), v.foolSwap);
  }

  /** Storing a trick extends the story by one trick and changes nothing before it. */
  lemma SetTrickJudged(c: Ctx, trick: Cards, k: nat)
    requires Judged(c, k) && k < MAX_TRICKS
    requires Judge(c.bid, LeaderAt(c, k), c.tricksWon, trick, k + 1).foolSwap ==> FOOL in trick
    ensures Judged(SetTrick(c, trick, k + 1).0, k + 1)
  {
    SetTrickKeepsPrefix(c, trick, k);
    SetTrickJudgesIt(c, trick, k);
    ExtendJudged(c, SetTrick(c, trick, k + 1).0, k, Judge(c.bid, LeaderAt(c, k), c.tricksWon, trick, k + 1));
  }

  /** What one side gets the other does not, nothing is lost, and no side ever owes anything. */
  lemma {:induction false} SidesShareTricks(m: Measure, c: Ctx, k: nat, t: nat)
    requires JudgedTricks(c, k) && t <= k && m.Sound()
    ensures Side(m, c, Attack, t) + Side(m, c, Defense, t) == Total(m.weight, TrickCards(c, t))
    ensures Side(m, c, Attack, t) >= 0 && Side(m, c, Defense, t) >= 0
  {
    if t > 0 {
      SidesShareTricks(m, c, k, t - 1);
      assert JudgedAt(c, t - 1);
      var trick := c.tricks[t - 1].cards;
      TotalConcat(m.weight, TrickCards(c, t - 1), trick);
      ShareNonNegative(m, trick, true, VerdictAt(c, t - 1).foolSwap);
      ShareNonNegative(m, trick, false, VerdictAt(c, t - 1).foolSwap);
    }
  }

  // ---------------------------------------------------------------- lemmas: rounding

  /** The rounded score is a number of points, and has the same winner as the raw one. */
  lemma RoundingIsFair(halfPoints: int, oudlers: nat)
    requires 0 <= halfPoints <= 182
    ensures var r := RoundHalf(halfPoints, oudlers);
      r % 2 == 0 && 0 <= Truncate(r) <= 91 && 2 * Truncate(r) == r &&
      -1 <= r - halfPoints <= 1 &&
      (Truncate(r) >= PointsToDo(oudlers) <==> halfPoints >= 2 * PointsToDo(oudlers))
  {
  }

  // ---------------------------------------------------------------- lemmas: the auction

  /** Bids announced in turn by the seats first, first + 1, ... */
  function Auction(b: Bid, bids: seq<(Contract, bool)>, first: Place, n: nat): Bid {
    if bids == [] then b
    else
      var k := |bids| - 1;
      RaiseBid(Auction(b, bids[..k], first, n), bids[k].0, bids[k].1, SeatAfter(first, k, n)).0
  }

  /**
   * The taker is the first seat k to announce the highest contract;
   * nobody is (k is past the end) exactly when every bid is empty.
   */
  lemma {:induction false} AuctionOutcome(bids: seq<(Contract, bool)>, first: Place, n: nat) returns (k: nat)
    ensures var b := Auction(NO_BID, bids, first, n);
      k <= |bids| && b.partner == NOWHERE &&
      (forall j :: 0 <= j < |bids| ==> bids[j].0 <= b.contract) &&
      if k == |bids| then b == NO_BID
      else (forall j :: 0 <= j < k ==> bids[j].0 < b.contract) &&
           bids[k] == (b.contract, b.slam) && b.contract != NO_ANY && b.taker == SeatAfter(first, k, n)
  {
    k := 0;
    if bids != [] {
      var last := |bids| - 1;
      var b := Auction(NO_BID, bids[..last], first, n);
      k := AuctionOutcome(bids[..last], first, n);
      if bids[last].0 > b.contract {
        k := last;
      } else if k == last {
        k := |bids|;
      }
      assert forall j :: 0 <= j < last ==> bids[j] == bids[..last][j];
    }
  }
}
