/** The record of a deal as the object the engine updates. */
module ContextObjects {
  import opened Tarot
  import opened Decks
  import opened Context
  import opened DeckObjects
  import opened Json
  import opened CardTexts
  import Replay

  class TarotContext {
    var nbPlayers: nat
    var bid: Bid
    var discard: Pile
    var dog: Cards
    var attackHandle: Cards
    var defenseHandle: Cards
    var firstPlayer: Place
    const tricks: array<Pile>
    const winner: array<Place>
    var tricksWon: int
    var stats: Stats
    var kingCalled: Card

    ghost predicate Valid() {
      tricks.Length == MAX_TRICKS && winner.Length == MAX_TRICKS
    }

    ghost function State(): (c: Ctx)
      reads this, tricks, winner
      ensures Valid() ==> c.Sized()
    {
      Ctx(nbPlayers, bid, discard, dog, attackHandle, defenseHandle, firstPlayer, tricks[..], winner[..], tricksWon, stats,
          kingCalled)
    }

    constructor ()
      ensures Valid() && fresh(tricks) && fresh(winner) && nbPlayers == 4
    {
      nbPlayers := 4;
      bid := NO_BID;
      discard := Pile([], NoTeam);
      dog := [];
      attackHandle := [];
      defenseHandle := [];
      firstPlayer := NOWHERE;
      tricks := new Pile[MAX_TRICKS](_ => Pile([], NoTeam));
      winner := new Place[MAX_TRICKS](_ => NOWHERE);
      tricksWon := 0;
      stats := NO_STATS;
      kingCalled := NO_CARD;
    }

    method Initialize()
      requires Valid()
      modifies this, tricks
      ensures State() == Context.Initialize(old(State()))
    {
      bid := NO_BID;
      discard := discard.(cards := []);
      attackHandle := [];
      defenseHandle := [];
      for i := 0 to MAX_TRICKS
        invariant forall k :: 0 <= k < i ==> tricks[k] == Clear(old(tricks[k]))
        invariant forall k :: i <= k < MAX_TRICKS ==> tricks[k] == old(tricks[k])
        invariant State() == old(State()).(bid := NO_BID, discard := Clear(old(discard)), attackHandle := [],
                                           defenseHandle := [], tricks := tricks[..])
      {
        tricks[i] := tricks[i].(cards := []);
      }
      tricksWon := 0;
      stats := NO_STATS;
      assert tricks[..] == Context.Initialize(old(State())).tricks;
    }

    method SetHandle(handle: Cards, p: Place)
      modifies this`attackHandle, this`defenseHandle
      ensures State() == StoreHandle(old(State()), handle, p)
    {
      if p == bid.taker || p == bid.partner {
        attackHandle := handle;
      } else {
        defenseHandle := handle;
      }
    }

    method ManageDogAfterBid() returns (showDog: bool)
      modifies this`discard
      ensures (State(), showDog) == Context.ManageDogAfterBid(old(State()))
    {
      showDog := true;
      if bid.contract == GUARD_WITHOUT || bid.contract == GUARD_AGAINST {
        if bid.contract != GUARD_AGAINST {
          discard := Pile(dog, Attack);
        } else {
          discard := Pile(dog, Defense);
        }
        showDog := false;
      }
    }

    method SetBid(c: Contract, slam: bool, p: Place) returns (answer: Contract)
      modifies this`bid
      ensures State() == old(State()).(bid := RaiseBid(old(bid), c, slam, p).0)
      ensures answer == RaiseBid(old(bid), c, slam, p).1
    {
      answer := c;
      if c > bid.contract {
        bid := bid.(contract := c, taker := p, slam := slam);
      } else {
        answer := PASS;
      }
    }

    /** Walks around the table from the leader until the card is met. */
    method GetOwner(first: Place, card: Card, turn: nat) returns (p: Place)
      requires Valid() && turn < MAX_TRICKS
      ensures p == Context.GetOwner(first, card, tricks[turn].cards)
    {
      p := first;
      var trick := tricks[turn].cards;
      var numberOfPlayers := Byte(|trick|);
      var i := 0;
      while i < |trick|
        invariant i <= |trick| && p == SeatAfter(first, i, numberOfPlayers)
        invariant forall k :: 0 <= k < i ==> trick[k] != card
      {
        if trick[i] == card {
          break;
        }
        p := Next(p, numberOfPlayers);
        i := i + 1;
      }
      FirstIndexAt(trick, card, i);
    }

    /** Who won the trick that was just stored, and whether the fool changes sides. */
    method FindWinner(first: Place, turn: nat) returns (w: Place, foolSwap: bool)
      requires Valid() && turn < MAX_TRICKS
      ensures Verdict(w, foolSwap) == Judge(bid, first, tricksWon, tricks[turn].cards, turn + 1)
    {
      hide Decks.HighestTrump, ScanSuit, SeatAfter, FirstIndex;
      w, foolSwap := NOWHERE, false;
      var deck := new Deck.FromCards(tricks[turn].cards);
      var numberOfPlayers := Byte(|deck.cards|);
      var numberOfTricks := HandSize(numberOfPlayers);
      var leader := deck.HighestTrump();
      if !leader.IsValid() {
        leader := deck.HighestSuit();
      }
      if leader.IsValid() {
        w := GetOwner(first, leader, turn);
        var hasFool := deck.HasCard(FOOL);
        if hasFool {
          var foolPlace := GetOwner(first, FOOL, turn);
          var winnerTeam := if w == bid.taker || w == bid.partner then Attack else Defense;
          var foolTeam := if foolPlace == bid.taker then Attack else Defense;
          if IsDealFinished(turn + 1, numberOfPlayers) {
            if tricksWon == numberOfTricks - 1 && foolPlace == bid.taker {
              w := bid.taker;
            } else if winnerTeam == foolTeam {
              foolSwap := true;
            }
          } else if winnerTeam != foolTeam {
            foolSwap := true;
          }
        }
      }
    }

    /** Gives a trick to the side that won it, with the exchange for the fool. */
    method Account(turn: nat, w: Place, foolSwap: bool)
      requires Valid() && turn < MAX_TRICKS
      modifies this`tricksWon, this`stats, tricks
      ensures tricks[..] == old(tricks[..])[turn := old(tricks[turn]).(owner := TeamOf(bid, w))]
      ensures tricksWon == old(tricksWon) + if bid.InAttack(w) then 1 else 0
      ensures stats == Credit(old(stats), old(tricks[turn].cards), bid.InAttack(w), foolSwap)
    {
      hide Decks.AnalyzeTrumps;
      if w == bid.taker || w == bid.partner {
        tricks[turn] := tricks[turn].(owner := Attack);
        var deck := new Deck.FromCards(tricks[turn].cards);
        stats := deck.AnalyzeTrumps(stats);
        tricksWon := tricksWon + 1;
        if foolSwap {
          stats := stats.(halfPoints := stats.halfPoints - 8, oudlers := Byte(stats.oudlers - 1));
        }
      } else {
        tricks[turn] := tricks[turn].(owner := Defense);
        if foolSwap {
          stats := stats.(halfPoints := stats.halfPoints + 8, oudlers := Byte(stats.oudlers + 1));
        }
      }
      assert tricks[..] == old(tricks[..])[turn := tricks[turn]];
    }

    /** Stores a trick, finds who won it and updates what the attack has won. */
    method SetTrick(trick: Cards, counter: nat) returns (w: Place)
      requires Valid() && 1 <= counter <= MAX_TRICKS + 1
      modifies this`tricksWon, this`stats, tricks, winner
      ensures (State(), w) == Context.SetTrick(old(State()), trick, counter)
    {
      hide Judge, Credit;
      var turn := counter - 1;
      w := NOWHERE;
      var first := if turn == 0 then firstPlayer else winner[turn - 1];
      if turn < MAX_TRICKS {
        tricks[turn] := Pile(trick, NoTeam);
        var foolSwap;
        w, foolSwap := FindWinner(first, turn);
        Account(turn, w, foolSwap);
        winner[turn] := w;
        assert tricks[..] == old(tricks[..])[turn := Pile(trick, TeamOf(bid, w))];
        assert winner[..] == old(winner[..])[turn := w];
      }
    }

    /** Scores the deal; the half point of an odd score goes to the winner. */
    method AnalyzeGame(p: Points) returns (points: Points)
      requires Valid() && PlayerCount(nbPlayers)
      modifies this`stats
      ensures (State(), points) == Context.AnalyzeGame(old(State()), p)
    {
      hide Decks.AnalyzeTrumps, Truncate, RoundHalf, HandlePoints, HandleTypeOf, Context.LittleEndianOwner;
      points := p;
      ghost var before := State();
      var numberOfTricks := HandSize(nbPlayers);
      points := points.(slamDone := tricksWon == numberOfTricks || tricksWon == 0);
      if discard.owner == Attack {
        var deck := new Deck.FromCards(discard.cards);
        stats := deck.AnalyzeTrumps(stats);
      }
      var owner := LittleEndianOwner(points.slamDone);
      LittleEndianReads(before, stats, points.slamDone);
      points := points.(littleEndianOwner := owner);
      points := points.(oudlers := stats.oudlers, cardsHalfPoints := stats.halfPoints);
      RoundHalfPoint();
      points := points.(pointsAttack := Truncate(stats.halfPoints));
      points := points.(handlePoints := points.handlePoints + HandlePoints(nbPlayers, HandleTypeOf(|attackHandle|)));
      points := points.(handlePoints := points.handlePoints + HandlePoints(nbPlayers, HandleTypeOf(|defenseHandle|)));
    }

    /** The side that took the smallest trump in the last trick, or in the one before a fool that crowns a slam. */
    method LittleEndianOwner(slamDone: bool) returns (owner: Team)
      requires Valid() && PlayerCount(nbPlayers)
      ensures owner == Context.LittleEndianOwner(State(), slamDone)
    {
      var lastTrick := HandSize(nbPlayers) - 1;
      if slamDone {
        if FOOL in tricks[lastTrick].cards {
          lastTrick := lastTrick - 1;
        }
      }
      if Card(1, TRUMPS) in tricks[lastTrick].cards {
        owner := tricks[lastTrick].owner;
      } else {
        owner := NoTeam;
      }
    }

    /** A half point goes to the winner. */
    method RoundHalfPoint()
      modifies this`stats
      ensures stats == old(stats).(halfPoints := RoundHalf(old(stats).halfPoints, old(stats).oudlers))
    {
      if stats.halfPoints % 2 != 0 {
        if stats.halfPoints >= 2 * PointsToDo(stats.oudlers) {
          stats := stats.(halfPoints := stats.halfPoints + 1);
        } else {
          stats := stats.(halfPoints := stats.halfPoints - 1);
        }
      }
    }

    /** Stores a loaded trick and takes its cards out of the deck of those not seen yet. */
    method LoadTrick(trick: Deck, counter: nat, rest: Deck, numberOfPlayers: nat) returns (ok: bool)
      requires Valid() && 1 <= counter <= MAX_TRICKS + 1 && rest != trick && rest.cards == discard.cards
      modifies this`tricksWon, this`stats, this`discard, tricks, winner, rest
      ensures var c := Context.SetTrick(old(State()), trick.cards, counter).0;
        State() == c.(discard := c.discard.(cards := WithoutAll(c.discard.cards, trick.cards)))
      ensures ok <==> Hits(old(discard.cards), trick.cards) == numberOfPlayers
      ensures rest.cards == discard.cards && discard.owner == old(discard.owner)
    {
      hide Context.SetTrick, WithoutAll, Hits;
      var _ := SetTrick(trick.cards, counter);
      SetTrickFrame(old(State()), trick.cards, counter);
      var removed := rest.RemoveDuplicates(trick);
      ok := removed == numberOfPlayers;
      discard := discard.(cards := rest.cards);
    }

    /** The tricks of a saved deal, one by one, out of a full deck. */
    method LoadTricks(items: seq<Value>, numberOfPlayers: nat) returns (ok: bool)
      requires Valid() && |items| <= MAX_TRICKS
      modifies this`tricksWon, this`stats, this`discard, tricks, winner
      ensures var l := Replay.LoadTricks(old(State()).(discard := Pile(FullDeck(), old(discard.owner))), items, numberOfPlayers);
        State() == l.ctx && ok == l.ok
    {
      hide Context.SetTrick, CardsOfText, FullDeck, WithoutAll, Hits, Replay.StringOf;
      ok := true;
      var rest := new Deck();
      rest.CreateTarotDeck();
      discard := discard.(cards := rest.cards);
      ghost var start := State();
      assert start == old(State()).(discard := Pile(FullDeck(), old(discard.owner)));
      var counter := 1;
      for i := 0 to |items|
        invariant fresh(rest) && rest.cards == discard.cards && State().discard == discard
        invariant var l := Replay.LoadTricks(start, items[..i], numberOfPlayers);
          State() == l.ctx && counter == l.counter && ok == l.ok
      {
        assert items[..i + 1][..i] == items[..i];
        var trick := new Deck();
        var _ := trick.SetCards(Replay.StringOf(items[i]));
        if |trick.cards| > 0 {
          SetTrickFrame(State(), trick.cards, counter);
          var good := LoadTrick(trick, counter, rest, numberOfPlayers);
          ok := ok && good;
          counter := counter + 1;
        }
      }
      assert items[..|items|] == items;
    }

    method SetDecks(dogText: Value, attack: Value, defense: Value) returns (ok: bool)
      modifies this`dog, this`attackHandle, this`defenseHandle
      ensures dog == (if dogText.String? then CardsOfText(dogText.s) else old(dog))
      ensures attackHandle == (if attack.String? then CardsOfText(attack.s) else old(attackHandle))
      ensures defenseHandle == (if defense.String? then CardsOfText(defense.s) else old(defenseHandle))
      ensures ok <==> dogText.String? && attack.String? && defense.String?
    {
      hide CardsOfText;
      ok := true;
      if dogText.String? { dog := CardsOfText(dogText.s); } else { ok := false; }
      if attack.String? { attackHandle := CardsOfText(attack.s); } else { ok := false; }
      if defense.String? { defenseHandle := CardsOfText(defense.s); } else { ok := false; }
    }

    /** The header of a saved deal: the decks are set as far as they are found. */
    method SetHeader(taker: Value, contract: Value, slam: Value, dogText: Value, attack: Value, defense: Value, lead: Value)
      returns (ok: bool)
      requires Valid()
      modifies this`dog, this`attackHandle, this`defenseHandle, this`firstPlayer, this`bid
      ensures (State(), ok) == Replay.SetHeader(old(State()), taker, contract, slam, dogText, attack, defense, lead)
    {
      hide CardsOfText, PlaceOfText, ContractOfText;
      var loaded := Bid(if taker.String? then PlaceOfText(taker.s) else NOWHERE, NOWHERE,
                        if contract.String? then ContractOfText(contract.s) else NO_ANY, slam.Boolean? && slam.b);
      ok := taker.String? && contract.String? && slam.Boolean?;
      var decks := SetDecks(dogText, attack, defense);
      ok := ok && decks && lead.String?;
      if ok {
        firstPlayer := PlaceOfText(lead.s);
        bid := loaded;
      }
      assert tricks[..] == old(tricks[..]) && winner[..] == old(winner[..]);
    }

    method LoadHeader(json: Value) returns (ok: bool)
      requires Valid()
      modifies this`dog, this`attackHandle, this`defenseHandle, this`firstPlayer, this`bid
      ensures (State(), ok) == Replay.LoadHeader(old(State()), json)
    {
      hide Replay.FindValue, Replay.SetHeader;
      ok := SetHeader(Replay.FindValue(json, ["deal_info", "taker"]), Replay.FindValue(json, ["deal_info", "contract"]),
                      Replay.FindValue(json, ["deal_info", "slam"]), Replay.FindValue(json, ["deal_info", "dog"]),
                      Replay.FindValue(json, ["deal_info", "attack_handle"]),
                      Replay.FindValue(json, ["deal_info", "defense_handle"]),
                      Replay.FindValue(json, ["deal_info", "first_trick_lead"]));
    }

    /** The tricks, and what is left of the deck as the discard. */
    method LoadDeal(items: seq<Value>, numberOfPlayers: nat) returns (ok: bool)
      requires Valid() && PlayerCount(numberOfPlayers)
      modifies this`tricksWon, this`stats, this`discard, tricks, winner
      ensures (State(), ok) == Replay.LoadDeal(old(State()), items, numberOfPlayers)
    {
      hide Replay.LoadTricks, FullDeck;
      ok := false;
      if |items| == HandSize(numberOfPlayers) {
        ok := LoadTricks(items, numberOfPlayers);
        if |discard.cards| == DogSize(numberOfPlayers) {
          discard := discard.(owner := if bid.contract == GUARD_AGAINST then Defense else Attack);
        } else {
          ok := false;
        }
      }
    }

    method LoadFromJson(json: Value) returns (ok: bool)
      requires Valid()
      modifies this, tricks, winner
      ensures (State(), ok) == Replay.LoadFromJson(old(State()), json)
    {
      hide Context.Initialize, Replay.FindValue, Replay.LoadHeader, Replay.LoadDeal, State;
      Initialize();
      var players := Replay.FindValue(json, ["deal_info", "number_of_players"]);
      var numberOfPlayers := if players.Integer? then players.n else 0;
      ok := false;
      if numberOfPlayers == 3 || numberOfPlayers == 4 || numberOfPlayers == 5 {
        ok := LoadHeader(json);
        if ok {
          var list := Replay.FindValue(json, ["tricks"]);
          ok := LoadDeal(if list.Array? then list.items else [], numberOfPlayers);
        }
      }
    }
  }

  lemma {:induction false} FirstIndexAt(d: Cards, c: Card, i: nat)
    requires i <= |d| && (i < |d| ==> d[i] == c) && forall k :: 0 <= k < i ==> d[k] != c
    ensures FirstIndex(d, c) == i
  {
    if i > 0 {
      FirstIndexAt(d[1..], c, i - 1);
    }
  }

  lemma LittleEndianReads(c: Ctx, s: Stats, slamDone: bool)
    requires c.Sized() && PlayerCount(c.nbPlayers)
    ensures Context.LittleEndianOwner(c.(stats := s), slamDone) == Context.LittleEndianOwner(c, slamDone)
  {
  }

  lemma SetTrickFrame(c: Ctx, trick: Cards, counter: nat)
    requires c.Sized() && 1 <= counter <= MAX_TRICKS + 1
    ensures Context.SetTrick(c, trick, counter).0.discard == c.discard
  {
    hide Judge, Credit;
  }
}
