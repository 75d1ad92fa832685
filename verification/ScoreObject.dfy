/** The tournament score as the table keeps it: one row of seats per deal. */
module ScoreObjects {
  import opened Tarot
  import opened Context
  import opened Scores

  class Score {
    const scores: array2<int>
    var dealCounter: nat
    var numberOfTurns: nat

    ghost predicate Valid() {
      scores.Length0 == MAX_TURNS && scores.Length1 == SEATS
    }

    ghost function Row(i: nat): (row: seq<int>)
      requires Valid() && i < MAX_TURNS
      reads scores
      ensures |row| == SEATS
    {
      seq(SEATS, j requires 0 <= j < SEATS reads scores => scores[i, j])
    }

    ghost function Rows(): (rows: seq<seq<int>>)
      requires Valid()
      reads scores
      ensures |rows| == MAX_TURNS && forall i :: 0 <= i < MAX_TURNS ==> rows[i] == Row(i)
    {
      seq(MAX_TURNS, i requires 0 <= i < MAX_TURNS reads scores => Row(i))
    }

    ghost function State(): (s: ScoreState)
      requires Valid()
      reads this, scores
      ensures s.Sized()
    {
      ScoreState(Rows(), dealCounter, numberOfTurns)
    }

    constructor (turns: nat)
      ensures Valid() && fresh(scores) && State() == NewScore(turns)
    {
      scores := new int[MAX_TURNS, SEATS]((_, _) => 0);
      dealCounter := 0;
      numberOfTurns := turns % 256;
      new;
      RowsZero(turns);
    }

    method NewGame(turns: nat)
      requires Valid()
      modifies this, scores
      ensures State() == NewScore(turns)
    {
      for i := 0 to MAX_TURNS
        invariant forall k, j :: 0 <= k < i && 0 <= j < SEATS ==> scores[k, j] == 0
      {
        for j := 0 to SEATS
          invariant forall k, l :: 0 <= k < i && 0 <= l < SEATS ==> scores[k, l] == 0
          invariant forall l :: 0 <= l < j ==> scores[i, l] == 0
        {
          scores[i, j] := 0;
        }
      }
      numberOfTurns := turns % 256;
      dealCounter := 0;
      RowsZero(turns);
    }

    /** Adds the row of a deal; says whether the tournament goes on. */
    method AddPoints(p: Points, b: Bid, n: nat) returns (more: bool)
      requires Valid() && dealCounter < MAX_TURNS && n <= SEATS
      modifies this`dealCounter, scores
      ensures (State(), more) == Scores.AddPoints(old(State()), p, b, n)
    {
      hide GetPoints, TakerShare;
      ghost var before := State();
      var attackPoints := GetPoints(p, Attack, b, n);
      var defensePoints := GetPoints(p, Defense, b, n);
      var takerPoints := attackPoints;
      var partnerPoints := 0;
      if n == 5 && b.HasPartner() {
        takerPoints := TakerShare(attackPoints);
        partnerPoints := attackPoints - takerPoints;
      }
      for i := 0 to n
        invariant dealCounter == old(dealCounter) && numberOfTurns == old(numberOfTurns)
        invariant forall k, j :: 0 <= k < MAX_TURNS && 0 <= j < SEATS && (k != dealCounter || j >= i) ==>
          scores[k, j] == old(scores[k, j])
        invariant forall j :: 0 <= j < i ==> scores[dealCounter, j] == SeatScore(p, b, n, j)
      {
        if n == 5 {
          if i == b.taker {
            scores[dealCounter, i] := takerPoints;
          } else if i == b.partner && b.HasPartner() {
            scores[dealCounter, i] := partnerPoints;
          } else {
            scores[dealCounter, i] := defensePoints;
          }
        } else {
          if i == b.taker {
            scores[dealCounter, i] := takerPoints;
          } else {
            scores[dealCounter, i] := defensePoints;
          }
        }
      }
      RowsAfter(before, p, b, n);
      dealCounter := dealCounter + 1;
      more := dealCounter < numberOfTurns;
    }

    lemma RowsZero(turns: nat)
      requires Valid() && forall k, j :: 0 <= k < MAX_TURNS && 0 <= j < SEATS ==> scores[k, j] == 0
      ensures Rows() == NewScore(turns).rows
    {
      var rows := NewScore(turns).rows;
      forall k | 0 <= k < MAX_TURNS ensures Rows()[k] == rows[k] {
        assert Row(k) == rows[k];
      }
    }

    /** The rows of the object are those of the state with one row replaced. */
    lemma RowsAfter(before: ScoreState, p: Points, b: Bid, n: nat)
      requires Valid() && before.Sized() && dealCounter < MAX_TURNS && n <= SEATS
      requires forall k, j :: 0 <= k < MAX_TURNS && 0 <= j < SEATS && (k != dealCounter || j >= n) ==>
        scores[k, j] == before.rows[k][j]
      requires forall j :: 0 <= j < n ==> scores[dealCounter, j] == SeatScore(p, b, n, j)
      ensures Rows() == before.rows[dealCounter := DealRow(before.rows[dealCounter], p, b, n)]
    {
      hide SeatScore;
      var rows := before.rows[dealCounter := DealRow(before.rows[dealCounter], p, b, n)];
      forall k | 0 <= k < MAX_TURNS ensures Rows()[k] == rows[k] {
        assert Row(k) == rows[k];
      }
    }

    method GetTotalPoints(p: nat) returns (total: int)
      requires Valid() && p < SEATS && dealCounter <= MAX_TURNS
      ensures total == TotalPoints(State(), p, dealCounter)
    {
      total := 0;
      for i := 0 to dealCounter
        invariant total == TotalPoints(State(), p, i)
      {
        total := total + scores[i, p];
      }
    }
  }
}
