/** What the operations on a deck compute, as functions on the sequence of its cards. */
module Decks {
  import opened Division
  import opened Tarot

  type Cards = seq<Card>

  // ---------------------------------------------------------------- removal

  /** All cards equal to c removed. */
  function Without(d: Cards, c: Card): Cards {
    if d == [] then []
    else
      var front := Without(d[..|d| - 1], c);
      if d[|d| - 1] == c then front else front + [d[|d| - 1]]
  }

  function WithoutAll(d: Cards, xs: Cards): Cards {
    if xs == [] then d else Without(WithoutAll(d, xs[..|xs| - 1]), xs[|xs| - 1])
  }

  /** How many of xs are still there when their turn to be removed comes. */
  function Hits(d: Cards, xs: Cards): nat {
    if xs == [] then 0
    else
      var front := xs[..|xs| - 1];
      Hits(d, front) + if xs[|xs| - 1] in WithoutAll(d, front) then 1 else 0
  }

  lemma {:induction false} WithoutCounts(d: Cards, c: Card)
    ensures multiset(Without(d, c)) == multiset(d)[c := 0]
  {
    if d != [] {
      WithoutCounts(d[..|d| - 1], c);
      assert d == d[..|d| - 1] + [d[|d| - 1]];
    }
  }

  lemma {:induction false} WithoutAbsent(d: Cards, c: Card)
    requires c !in d
    ensures Without(d, c) == d
  {
    if d != [] {
      WithoutAbsent(d[..|d| - 1], c);
      assert d == d[..|d| - 1] + [d[|d| - 1]];
    }
  }

  lemma {:induction false} WithoutAllCounts(d: Cards, xs: Cards)
    ensures forall x :: multiset(WithoutAll(d, xs))[x] == if x in xs then 0 else multiset(d)[x]
  {
    if xs != [] {
      var front := xs[..|xs| - 1];
      WithoutAllCounts(d, front);
      WithoutCounts(WithoutAll(d, front), xs[|xs| - 1]);
      assert xs == front + [xs[|xs| - 1]];
    }
  }

  /** Removing distinct cards of a deck without repetitions leaves exactly the others. */
  lemma WithoutAllPartition(d: Cards, xs: Cards)
    requires forall x :: multiset(d)[x] <= 1
    requires forall x :: multiset(xs)[x] <= multiset(d)[x]
    ensures multiset(WithoutAll(d, xs)) + multiset(xs) == multiset(d)
    ensures |WithoutAll(d, xs)| == |d| - |xs|
  {
    WithoutAllCounts(d, xs);
    var rest := WithoutAll(d, xs);
    forall x ensures (multiset(rest) + multiset(xs))[x] == multiset(d)[x] {
      if x in xs { assert multiset(xs)[x] > 0; }
    }
    assert multiset(rest) + multiset(xs) == multiset(d);
    assert |multiset(rest) + multiset(xs)| == |rest| + |xs|;
  }

  /** The removal counter of `RemoveDuplicates` reaches |xs| exactly for distinct cards of the deck. */
  lemma {:induction false} HitsAll(d: Cards, xs: Cards)
    ensures Hits(d, xs) <= |xs|
    ensures Hits(d, xs) == |xs| <==>
      forall i :: 0 <= i < |xs| ==> xs[i] in d && xs[i] !in xs[..i]
  {
    if xs != [] {
      var front := xs[..|xs| - 1];
      var last := xs[|xs| - 1];
      HitsAll(d, front);
      WithoutAllCounts(d, front);
      assert last in WithoutAll(d, front) <==> multiset(WithoutAll(d, front))[last] > 0;
      assert last in d <==> multiset(d)[last] > 0;
      assert forall i :: 0 <= i < |front| ==> front[i] == xs[i] && front[..i] == xs[..i];
    }
  }

  // ---------------------------------------------------------------- several decks at once

  function Flatten(ds: seq<Cards>): Cards {
    if ds == [] then [] else Flatten(ds[..|ds| - 1]) + ds[|ds| - 1]
  }

  lemma AddToBoth(a: multiset<Card>, b: multiset<Card>, c: multiset<Card>, d: multiset<Card>, e: multiset<Card>)
    requires a + b == c + d
    ensures (a + e) + b == (c + e) + d
  {
    forall x ensures ((a + e) + b)[x] == ((c + e) + d)[x] {
      assert (a + b)[x] == (c + d)[x];
    }
  }

  lemma DropOne(a: multiset<Card>, b: multiset<Card>, c: Card)
    requires a + multiset{c} == b + multiset{c}
    ensures a == b
  {
    forall x ensures a[x] == b[x] {
      assert (a + multiset{c})[x] == (b + multiset{c})[x];
    }
  }

  lemma {:induction false} FlattenUpdate(ds: seq<Cards>, i: nat, d: Cards)
    requires i < |ds|
    ensures multiset(Flatten(ds[i := d])) + multiset(ds[i]) == multiset(Flatten(ds)) + multiset(d)
  {
    var ds' := ds[i := d];
    if i == |ds| - 1 {
      assert ds'[..|ds| - 1] == ds[..|ds| - 1];
    } else {
      var front, last := ds[..|ds| - 1], ds[|ds| - 1];
      FlattenUpdate(front, i, d);
      assert ds'[..|ds| - 1] == front[i := d];
      AddToBoth(multiset(Flatten(front[i := d])), multiset(ds[i]), multiset(Flatten(front)), multiset(d), multiset(last));
    }
  }

  lemma {:induction false} InFlatten(ds: seq<Cards>, i: nat)
    requires i < |ds|
    ensures multiset(ds[i]) <= multiset(Flatten(ds))
  {
    if i < |ds| - 1 {
      InFlatten(ds[..|ds| - 1], i);
    }
  }

  lemma {:induction false} FromFlatten(ds: seq<Cards>, c: Card) returns (i: nat)
    requires c in Flatten(ds)
    ensures i < |ds| && c in ds[i]
  {
    i := |ds| - 1;
    if c !in ds[|ds| - 1] {
      i := FromFlatten(ds[..|ds| - 1], c);
    }
  }

  // ---------------------------------------------------------------- sums over a deck

  /** The sum of w over the cards of d. */
  function Total(w: Card -> int, d: Cards): int {
    if d == [] then 0 else Total(w, d[..|d| - 1]) + w(d[|d| - 1])
  }

  lemma {:induction false} TotalConcat(w: Card -> int, a: Cards, b: Cards)
    ensures Total(w, a + b) == Total(w, a) + Total(w, b)
  {
    if b == [] {
      assert a + b == a;
    } else {
      TotalConcat(w, a, b[..|b| - 1]);
      assert (a + b)[..|a + b| - 1] == a + b[..|b| - 1];
    }
  }

  /** A sum depends on the cards only, not on their order. */
  lemma {:induction false} TotalPermuted(w: Card -> int, a: Cards, b: Cards)
    requires multiset(a) == multiset(b)
    ensures Total(w, a) == Total(w, b)
    decreases |a|
  {
    assert |multiset(a)| == |a| && |multiset(b)| == |b|;
    if a != [] {
      var c := a[|a| - 1];
      var front := a[..|a| - 1];
      assert a == front + [c];
      assert c in multiset(b);
      var i :| 0 <= i < |b| && b[i] == c;
      var l, r := b[..i], b[i + 1..];
      assert b == l + [c] + r;
      assert multiset(a) == multiset(front) + multiset{c};
      assert multiset(b) == multiset(l + r) + multiset{c};
      DropOne(multiset(front), multiset(l + r), c);
      TotalPermuted(w, front, l + r);
      TotalConcat(w, l, r);
      TotalConcat(w, l + [c], r);
      TotalConcat(w, l, [c]);
    }
  }

  lemma {:induction false} TotalBounds(w: Card -> int, d: Cards, x: Card)
    requires forall c :: w(c) >= 0
    ensures Total(w, d) >= 0
    ensures x in d ==> Total(w, d) >= w(x)
  {
    if d != [] {
      TotalBounds(w, d[..|d| - 1], x);
    }
  }

  const HALF_POINTS: Card -> int := (c: Card) => c.HalfPoints()
  const OUDLERS: Card -> int := (c: Card) => if c.IsOudler() then 1 else 0

  /** Every card counts an odd number of half points. */
  lemma {:induction false} HalfPointsParity(d: Cards)
    ensures (Total(HALF_POINTS, d) - |d|) % 2 == 0
  {
    if d != [] {
      HalfPointsParity(d[..|d| - 1]);
    }
  }

  /** The sum of w over the first k cards of a new deck. */
  function DeckTotal(w: Card -> int, k: nat): int {
    if k == 0 then 0 else DeckTotal(w, k - 1) + w(CardAt(k - 1))
  }

  lemma {:induction false} DeckTotalIsTotal(w: Card -> int, k: nat)
    requires k <= DECK_SIZE
    ensures Total(w, FullDeck()[..k]) == DeckTotal(w, k)
  {
    if k > 0 {
      DeckTotalIsTotal(w, k - 1);
      assert FullDeck()[..k][..k - 1] == FullDeck()[..k - 1];
    }
  }

  /** Half points of the ranks 1..r of one suit. */
  function SuitTotal(r: nat): nat {
    if r <= 10 then r else r + (r - 10) * (r - 9)
  }

  lemma SuitCard(suit: nat, rank: nat)
    requires 1 <= rank <= 14 && suit < 4
    ensures CardAt(14 * suit + rank - 1) == Card(rank, suit)
  {
    QuotientIs(14, suit, rank - 1);
  }

  lemma SuitTotalStep(rank: nat)
    requires 1 <= rank <= 14
    ensures SuitTotal(rank) == SuitTotal(rank - 1) + Card(rank, SPADES).HalfPoints()
    ensures SuitTotal(0) == 0 && SuitTotal(14) == 34
  {
  }

  lemma {:induction false} SuitsTotal(suit: nat, rank: nat)
    requires rank <= 14 && 14 * suit + rank <= 56
    ensures DeckTotal(HALF_POINTS, 14 * suit + rank) == 34 * suit + SuitTotal(rank)
    decreases suit, rank
  {
    hide CardAt, SuitTotal;
    if rank > 0 {
      SuitsTotal(suit, rank - 1);
      SuitCard(suit, rank);
      SuitTotalStep(rank);
    } else {
      SuitTotalStep(14);
      if suit > 0 {
        SuitsTotal(suit - 1, 14);
      }
    }
  }

  lemma {:induction false} TrumpsTotal(k: nat)
    requires 56 <= k <= DECK_SIZE
    ensures DeckTotal(HALF_POINTS, k) == 136 + (k - 56) + 8 * TrumpOudlers(k)
  {
    if k > 56 {
      TrumpsTotal(k - 1);
    } else {
      SuitsTotal(4, 0);
    }
  }

  function TrumpOudlers(k: nat): nat {
    if k <= 56 then 0 else if k == 57 then 1 else if k < 78 then 2 else 3
  }

  lemma {:induction false} OudlersPrefix(k: nat)
    requires k <= DECK_SIZE
    ensures DeckTotal(OUDLERS, k) == TrumpOudlers(k)
  {
    if k > 0 {
      OudlersPrefix(k - 1);
    }
  }

  lemma CompleteDeckTotal(w: Card -> int, d: Cards)
    requires multiset(d) == multiset(FullDeck())
    ensures Total(w, d) == DeckTotal(w, DECK_SIZE)
  {
    assert FullDeck()[..DECK_SIZE] == FullDeck();
    DeckTotalIsTotal(w, DECK_SIZE);
    TotalPermuted(w, d, FullDeck());
  }

  /** A complete deck is worth 91 points and holds the three oudlers. */
  lemma CompleteDeckTotals(d: Cards)
    requires multiset(d) == multiset(FullDeck())
    ensures Total(HALF_POINTS, d) == 182 && Total(OUDLERS, d) == 3
  {
    hide FullDeck, DeckTotal, Total;
    CompleteDeckTotal(HALF_POINTS, d);
    CompleteDeckTotal(OUDLERS, d);
    TrumpsTotal(DECK_SIZE);
    OudlersPrefix(DECK_SIZE);
  }

  lemma {:induction false} DeckPrefixCounts(k: nat, c: Card)
    requires k <= DECK_SIZE
    ensures multiset(FullDeck()[..k])[c] == if c.IsValid() && IndexOfCard(c) < k then 1 else 0
  {
    if k > 0 {
      DeckPrefixCounts(k - 1, c);
      assert FullDeck()[..k] == FullDeck()[..k - 1] + [CardAt(k - 1)];
      IndexOfCardAt(k - 1);
      if c.IsValid() { CardAtIndex(c); }
    }
  }

  /** A complete deck holds every existing card exactly once, and nothing else. */
  lemma CompleteDeckCounts(d: Cards)
    requires multiset(d) == multiset(FullDeck())
    ensures forall c :: multiset(d)[c] == if c.IsValid() then 1 else 0
  {
    assert FullDeck()[..DECK_SIZE] == FullDeck();
    forall c ensures multiset(d)[c] == if c.IsValid() then 1 else 0 {
      DeckPrefixCounts(DECK_SIZE, c);
      if c.IsValid() { CardAtIndex(c); }
    }
  }

  // ---------------------------------------------------------------- statistics

  /** The statistics any operation reads; `trumps` and `oudlers` are bytes in the source. */
  datatype Stats = Stats(trumps: nat, oudlers: nat, halfPoints: int)

  const NO_STATS := Stats(0, 0, 0)

  function Byte(x: int): nat {
    x % 256
  }

  function AnalyzeCard(s: Stats, c: Card): Stats {
    Stats(
      if c.IsTrump() then Byte(s.trumps + 1) else s.trumps,
      if c.IsOudler() then Byte(s.oudlers + 1) else s.oudlers,
      s.halfPoints + c.HalfPoints())
  }

  function AnalyzeTrumps(s: Stats, d: Cards): Stats {
    if d == [] then s else AnalyzeCard(AnalyzeTrumps(s, d[..|d| - 1]), d[|d| - 1])
  }

  lemma {:induction false} AnalyzeTotals(s: Stats, d: Cards)
    requires s.oudlers < 256
    ensures AnalyzeTrumps(s, d).halfPoints == s.halfPoints + Total(HALF_POINTS, d)
    ensures AnalyzeTrumps(s, d).oudlers == Byte(s.oudlers + Total(OUDLERS, d))
  {
    if d != [] {
      AnalyzeTotals(s, d[..|d| - 1]);
      ByteAdds(s.oudlers + Total(OUDLERS, d[..|d| - 1]), 1);
    }
  }

  lemma ByteAdds(x: int, y: int)
    ensures Byte(Byte(x) + y) == Byte(x + y) && Byte(x) < 256
  {
  }

  // ---------------------------------------------------------------- the leading card of a trick

  function HighestTrump(d: Cards): Card {
    if d == [] then NO_CARD
    else
      var best := HighestTrump(d[..|d| - 1]);
      var c := d[|d| - 1];
      if c.IsTrump() && c.value > (if best == NO_CARD then 0 else best.value) then c else best
  }

  datatype SuitScan = NoLead | Lead(card: Card)

  /** The first plain card fixes the suit; later cards of it take over when they are higher. */
  function ScanSuit(d: Cards): SuitScan {
    if d == [] then NoLead
    else
      var best := ScanSuit(d[..|d| - 1]);
      var c := d[|d| - 1];
      if c.IsTrump() || c.value <= (if best.NoLead? then 0 else best.card.value) then best
      else if best.NoLead? || c.suit == best.card.suit then Lead(c)
      else best
  }

  function HighestSuit(d: Cards): Card {
    match ScanSuit(d)
    case NoLead => NO_CARD
    case Lead(c) => c
  }

  /** The first card that is no fool decides the suit to follow. */
  function LeadCard(d: Cards): Card {
    if d == [] then NO_CARD else if d[0].IsFool() then (if |d| > 1 then d[1] else NO_CARD) else d[0]
  }

  lemma {:induction false} HighestTrumpIsHighest(d: Cards)
    requires forall c :: c in d ==> c.IsValid()
    ensures var best := HighestTrump(d);
      if best == NO_CARD then forall c :: c in d && c.IsTrump() ==> c.IsFool()
      else best in d && best.IsTrump() && !best.IsFool() &&
           forall c :: c in d && c.IsTrump() ==> c.value <= best.value
  {
    if d != [] {
      HighestTrumpIsHighest(d[..|d| - 1]);
      assert d == d[..|d| - 1] + [d[|d| - 1]];
    }
  }

  /** The smallest trump without a higher one and without the fool: such a deal is not played. */
  predicate HasOnlyOneOfTrump(d: Cards) {
    HighestTrump(d).value == 1 && FOOL !in d
  }

  lemma LoneSmallTrump(d: Cards)
    requires forall c :: c in d ==> c.IsValid()
    ensures HasOnlyOneOfTrump(d) <==> Card(1, TRUMPS) in d && forall c :: c in d && c.IsTrump() ==> c.value == 1
  {
    HighestTrumpIsHighest(d);
  }

  /** Without trumps but at most one fool, the highest card of the suit led. */
  lemma {:induction false} HighestSuitIsHighest(d: Cards)
    requires forall c :: c in d ==> c.IsValid() && (c.IsTrump() ==> c.IsFool())
    requires |d| >= 2 && d[0].IsFool() ==> !d[1].IsFool()
    ensures var best := HighestSuit(d); var lead := LeadCard(d);
      if best == NO_CARD then lead == NO_CARD
      else lead != NO_CARD && best in d && !best.IsTrump() && best.suit == lead.suit &&
           forall c :: c in d && c.suit == lead.suit ==> c.value <= best.value
    ensures ScanSuit(d).NoLead? <==> HighestSuit(d) == NO_CARD
  {
    if d != [] {
      var front, c := d[..|d| - 1], d[|d| - 1];
      assert d == front + [c];
      HighestSuitIsHighest(front);
    }
  }

  // ---------------------------------------------------------------- legality of a card

  predicate HasTrump(d: Cards) {
    exists c :: c in d && c.IsTrump()
  }

  predicate HasSuit(d: Cards, suit: nat) {
    exists c :: c in d && c.suit == suit
  }

  /** The highest value of a trump of d, zero when there is none. */
  function MaxTrump(d: Cards): nat {
    if d == [] then 0
    else
      var m := MaxTrump(d[..|d| - 1]);
      if d[|d| - 1].IsTrump() && d[|d| - 1].value > m then d[|d| - 1].value else m
  }

  datatype PlayStats = PlayStats(hasSuit: bool, hasTrump: bool, highestTrumpValue: nat,
                                 previousTrump: bool, maxPreviousTrump: nat)

  function TestPlayTrump(card: Card, s: PlayStats): bool {
    if card.IsTrump() then
      s.previousTrump ==> card.value > s.maxPreviousTrump || s.highestTrumpValue <= s.maxPreviousTrump
    else
      s.hasTrump ==> s.highestTrumpValue == 0
  }

  function PlayStatsOf(hand: Cards, trick: Cards, suit: nat): PlayStats {
    PlayStats(suit != TRUMPS && HasSuit(hand, suit), HasTrump(hand), MaxTrump(hand), HasTrump(trick), MaxTrump(trick))
  }

  /** The card that sets the suit asked for, with the source's rule for a fool in front. */
  function AskedCard(trick: Cards): Card
    requires |trick| > 0
  {
    if trick[0].IsFool() && |trick| > 1 then trick[1] else trick[0]
  }

  predicate CanPlayCard(hand: Cards, card: Card, trick: Cards) {
    card in hand &&
    (|trick| == 0 || card.IsFool() || (trick[0].IsFool() && |trick| == 1) ||
     var suit := AskedCard(trick).suit;
     var stats := PlayStatsOf(hand, trick, suit);
     if suit == TRUMPS then TestPlayTrump(card, stats)
     else card.suit == suit || (!stats.hasSuit && TestPlayTrump(card, stats)))
  }

  // The same rule as players state it, without maxima.

  predicate Overtrumps(c: Card, trick: Cards) {
    forall t :: t in trick && t.IsTrump() ==> c.value > t.value
  }

  predicate MustFollow(hand: Cards, suit: nat) {
    suit != TRUMPS && exists h :: h in hand && h.suit == suit
  }

  /** A trump must beat the trick if the hand can; anything else only without a trump to play. */
  predicate FollowsTrumpRule(hand: Cards, card: Card, trick: Cards) {
    if card.IsTrump() then
      Overtrumps(card, trick) || !exists h :: h in hand && h.IsTrump() && Overtrumps(h, trick)
    else
      forall h :: h in hand && h.IsTrump() ==> h.IsFool()
  }

  predicate MayPlay(hand: Cards, card: Card, trick: Cards) {
    card in hand &&
    (card.IsFool() || LeadCard(trick) == NO_CARD ||
     var suit := LeadCard(trick).suit;
     if MustFollow(hand, suit) then card.suit == suit
     else FollowsTrumpRule(hand, card, trick))
  }

  lemma {:induction false} MaxTrumpIsMax(d: Cards)
    ensures forall c :: c in d && c.IsTrump() ==> c.value <= MaxTrump(d)
    ensures MaxTrump(d) > 0 ==> exists c :: c in d && c.IsTrump() && c.value == MaxTrump(d)
  {
    if d != [] {
      MaxTrumpIsMax(d[..|d| - 1]);
      var last := d[|d| - 1];
      assert d == d[..|d| - 1] + [last];
      if MaxTrump(d) > 0 && !(last.IsTrump() && last.value == MaxTrump(d)) {
        var c :| c in d[..|d| - 1] && c.IsTrump() && c.value == MaxTrump(d);
        assert c in d;
      }
    }
  }

  lemma OvertrumpsIsMax(c: Card, trick: Cards)
    requires HasTrump(trick)
    ensures Overtrumps(c, trick) <==> c.value > MaxTrump(trick)
  {
    MaxTrumpIsMax(trick);
    if Overtrumps(c, trick) {
      var t :| t in trick && t.IsTrump();
      assert c.value > t.value;
    }
  }

  lemma TrumpRuleMatches(hand: Cards, card: Card, trick: Cards, suit: nat)
    requires card in hand
    ensures TestPlayTrump(card, PlayStatsOf(hand, trick, suit)) <==> FollowsTrumpRule(hand, card, trick)
  {
    MaxTrumpIsMax(hand);
    if HasTrump(trick) {
      OvertrumpsIsMax(card, trick);
      forall h | h in hand ensures Overtrumps(h, trick) <==> h.value > MaxTrump(trick) {
        OvertrumpsIsMax(h, trick);
      }
    }
  }

  /** The source's test accepts exactly the cards the rules of the game allow. */
  lemma CanPlayIsMayPlay(hand: Cards, card: Card, trick: Cards)
    requires forall c :: c in trick ==> c.IsValid()
    ensures CanPlayCard(hand, card, trick) <==> MayPlay(hand, card, trick)
  {
    if card in hand && LeadCard(trick) != NO_CARD {
      var suit := LeadCard(trick).suit;
      assert LeadCard(trick) == AskedCard(trick);
      TrumpRuleMatches(hand, card, trick, suit);
      assert MustFollow(hand, suit) <==> PlayStatsOf(hand, trick, suit).hasSuit;
    } else if |trick| > 1 {
      assert trick[0] in trick && trick[1] in trick;
    } else if |trick| > 0 {
      assert trick[0] in trick;
    }
  }

  /** A player who holds cards always has one to play. */
  lemma SomeCardPlayable(hand: Cards, trick: Cards)
    requires hand != []
    requires forall c :: c in trick ==> c.IsValid()
    ensures exists c :: c in hand && CanPlayCard(hand, c, trick)
  {
    var c := hand[0];
    if LeadCard(trick) != NO_CARD {
      var suit := LeadCard(trick).suit;
      MaxTrumpIsMax(hand);
      if MustFollow(hand, suit) {
        c :| c in hand && c.suit == suit;
      } else if MaxTrump(hand) > 0 {
        c :| c in hand && c.IsTrump() && c.value == MaxTrump(hand);
      }
    }
    CanPlayIsMayPlay(hand, c, trick);
  }

  /** The first playable card of the hand, an invalid card if there is none. */
  function FirstPlayable(hand: Cards, from: Cards, trick: Cards): Card {
    if from == [] then NO_CARD
    else if CanPlayCard(hand, from[0], trick) then from[0]
    else FirstPlayable(hand, from[1..], trick)
  }

  lemma {:induction false} FirstPlayableFound(hand: Cards, from: Cards, trick: Cards)
    requires exists c :: c in from && CanPlayCard(hand, c, trick)
    ensures FirstPlayable(hand, from, trick) in from
    ensures CanPlayCard(hand, FirstPlayable(hand, from, trick), trick)
  {
    if !CanPlayCard(hand, from[0], trick) {
      var c :| c in from && CanPlayCard(hand, c, trick);
      assert c in from[1..];
      FirstPlayableFound(hand, from[1..], trick);
    }
  }

  // ---------------------------------------------------------------- discards and handles

  predicate Discardable(c: Card) {
    !c.IsTrump() && c.value != KING
  }

  predicate TestDiscard(hand: Cards, discard: Cards, dog: Cards, n: nat) {
    |discard| == DogSize(n) &&
    forall c :: c in discard ==> (c in hand || c in dog) && Discardable(c) && multiset(discard)[c] == 1
  }

  function Discardables(d: Cards): Cards {
    if d == [] then []
    else
      var front := Discardables(d[..|d| - 1]);
      if Discardable(d[|d| - 1]) then front + [d[|d| - 1]] else front
  }

  /** The first `DogSize(n)` discardable cards of d. */
  function AutoDiscard(d: Cards, n: nat): Cards {
    var all := Discardables(d);
    if 0 < DogSize(n) < |all| then all[..DogSize(n)] else all
  }

  lemma {:induction false} DiscardablesCounts(d: Cards)
    ensures forall c :: multiset(Discardables(d))[c] == if Discardable(c) then multiset(d)[c] else 0
  {
    if d != [] {
      DiscardablesCounts(d[..|d| - 1]);
      assert d == d[..|d| - 1] + [d[|d| - 1]];
    }
  }

  /** With distinct cards, the automatic discard is accepted if and only if there are enough cards for it. */
  lemma AutoDiscardAccepted(hand: Cards, dog: Cards, n: nat)
    requires PlayerCount(n)
    requires forall c :: multiset(hand + dog)[c] <= 1
    ensures TestDiscard(hand, AutoDiscard(hand + dog, n), dog, n) <==> |Discardables(hand + dog)| >= DogSize(n)
  {
    var all := Discardables(hand + dog);
    var d := AutoDiscard(hand + dog, n);
    DiscardablesCounts(hand + dog);
    assert all == d + all[|d|..];
    forall c | c in d ensures (c in hand || c in dog) && Discardable(c) && multiset(d)[c] == 1 {
      assert multiset(all)[c] == multiset(d)[c] + multiset(all[|d|..])[c];
      assert multiset(hand + dog)[c] > 0;
    }
  }

  predicate TestHandle(hand: Cards, handle: Cards) {
    HandleTypeOf(|handle|) != NoHandle &&
    |handle| == AnalyzeTrumps(NO_STATS, handle).trumps &&
    (forall c :: c in handle ==> c in hand) &&
    !(FOOL in handle && AnalyzeTrumps(NO_STATS, hand).trumps > |handle|)
  }
}
