/** The deck as an object whose list of cards changes in place. */
module DeckObjects {
  import opened Tarot
  import opened Decks
  import opened CardTexts
  import opened Engines

  class Deck {
    var cards: Cards
    var owner: Team

    constructor ()
      ensures cards == [] && owner == NoTeam
    {
      cards := [];
      owner := NoTeam;
    }

    constructor FromCards(cs: Cards)
      ensures cards == cs && owner == NoTeam
    {
      cards := cs;
      owner := NoTeam;
    }

    method Clear()
      modifies this
      ensures cards == [] && owner == old(owner)
    {
      cards := [];
    }

    method Append(c: Card)
      modifies this
      ensures cards == old(cards) + [c] && owner == old(owner)
    {
      cards := cards + [c];
    }

    method AppendDeck(deck: Deck)
      requires deck != this
      modifies this
      ensures cards == old(cards) + deck.cards && owner == old(owner)
    {
      for i := 0 to |deck.cards|
        invariant cards == old(cards) + deck.cards[..i] && owner == old(owner)
      {
        Append(deck.cards[i]);
      }
    }

    /** A new deck of 78 cards: the four suits from ace to king, then the trumps. */
    method CreateTarotDeck()
      modifies this
      ensures cards == FullDeck() && owner == old(owner)
    {
      Clear();
      for suit := 0 to 4
        invariant cards == FullDeck()[..14 * suit] && owner == old(owner)
      {
        for value := 1 to 15
          invariant cards == FullDeck()[..14 * suit + value - 1] && owner == old(owner)
        {
          SuitCard(suit, value);
          NextOfFullDeck(14 * suit + value - 1);
          Append(Card(value, suit));
        }
      }
      for value := 0 to 22
        invariant cards == FullDeck()[..56 + value] && owner == old(owner)
      {
        NextOfFullDeck(56 + value);
        Append(Card(value, TRUMPS));
      }
    }

    method At(pos: nat) returns (card: Card)
      ensures card == if pos < |cards| then cards[pos] else NO_CARD
    {
      card := NO_CARD;
      var counter := 0;
      while counter < |cards|
        invariant counter <= |cards| && card == NO_CARD && (counter <= pos || pos >= |cards|)
      {
        if pos == counter {
          card := cards[counter];
          break;
        }
        counter := counter + 1;
      }
    }

    method Count(card: Card) returns (counter: nat)
      ensures counter == multiset(cards)[card]
    {
      counter := 0;
      for i := 0 to |cards|
        invariant counter == multiset(cards[..i])[card]
      {
        assert cards[..i + 1] == cards[..i] + [cards[i]];
        if cards[i] == card {
          counter := counter + 1;
        }
      }
      assert cards[..|cards|] == cards;
    }

    method HasCard(card: Card) returns (found: bool)
      ensures found <==> card in cards
    {
      found := false;
      for i := 0 to |cards|
        invariant found <==> card in cards[..i]
      {
        if cards[i] == card {
          found := true;
        }
      }
    }

    /** Removes every card equal to the given one, and says how many there were. */
    method Remove(card: Card) returns (removed: nat)
      modifies this
      ensures cards == Without(old(cards), card) && removed == multiset(old(cards))[card] && owner == old(owner)
    {
      removed := Count(card);
      var kept: Cards := [];
      for i := 0 to |cards|
        invariant cards == old(cards) && owner == old(owner)
        invariant kept == Without(cards[..i], card)
      {
        assert cards[..i + 1][..i] == cards[..i];
        if cards[i] != card {
          kept := kept + [cards[i]];
        }
      }
      assert cards[..|cards|] == cards;
      cards := kept;
    }

    /** Removes the cards of another deck; the result counts those that were still there. */
    method RemoveDuplicates(deck: Deck) returns (removed: nat)
      requires deck != this
      modifies this
      ensures cards == WithoutAll(old(cards), deck.cards) && removed == Hits(old(cards), deck.cards)
      ensures owner == old(owner)
    {
      hide Without;
      removed := 0;
      for i := 0 to |deck.cards|
        invariant cards == WithoutAll(old(cards), deck.cards[..i]) && removed == Hits(old(cards), deck.cards[..i])
        invariant owner == old(owner)
      {
        assert deck.cards[..i + 1][..i] == deck.cards[..i];
        var c := deck.cards[i];
        var present := HasCard(c);
        if present {
          var _ := Remove(c);
          removed := removed + 1;
        } else {
          WithoutAbsent(cards, c);
        }
      }
      assert deck.cards[..|deck.cards|] == deck.cards;
    }

    method Mid(from: nat, size: nat) returns (deck: Deck)
      ensures fresh(deck) && deck.cards == Engines.Mid(cards, from, size) && deck.owner == NoTeam
    {
      deck := new Deck();
      var start := if from >= |cards| then 0 else from;
      var count := if size > |cards| then |cards| - start else size;
      var end := start + count;
      for counter := 0 to |cards|
        invariant deck.owner == NoTeam
        invariant deck.cards == if counter <= start then [] else cards[start..if counter < end then counter else end]
      {
        if start <= counter < end {
          assert cards[start..counter] + [cards[counter]] == cards[start..counter + 1];
          deck.Append(cards[counter]);
        }
      }
    }

    /** The highest trump that is not the fool. */
    method HighestTrump() returns (card: Card)
      ensures card == Decks.HighestTrump(cards)
    {
      card := NO_CARD;
      var value := 0;
      for i := 0 to |cards|
        invariant card == Decks.HighestTrump(cards[..i]) && value == if card == NO_CARD then 0 else card.value
      {
        assert cards[..i + 1][..i] == cards[..i];
        if cards[i].suit == TRUMPS && cards[i].value > value {
          value := cards[i].value;
          card := cards[i];
        }
      }
      assert cards[..|cards|] == cards;
    }

    /** The highest card of the first suit that is no trump. */
    method HighestSuit() returns (card: Card)
      ensures card == Decks.HighestSuit(cards)
    {
      card := NO_CARD;
      var value, suit, hasLead := 0, 0, false;
      for i := 0 to |cards|
        invariant card == Decks.HighestSuit(cards[..i]) && (hasLead <==> ScanSuit(cards[..i]).Lead?)
        invariant if hasLead then value == card.value && suit == card.suit else value == 0
      {
        assert cards[..i + 1][..i] == cards[..i];
        if cards[i].suit != TRUMPS && cards[i].value > value {
          if !hasLead {
            hasLead := true;
            suit := cards[i].suit;
            value := cards[i].value;
            card := cards[i];
          } else if cards[i].suit == suit {
            value := cards[i].value;
            card := cards[i];
          }
        }
      }
      assert cards[..|cards|] == cards;
    }

    /** The smallest trump is there, and no higher one and no fool. */
    method HasOnlyOneOfTrump() returns (alone: bool)
      ensures alone <==> Decks.HasOnlyOneOfTrump(cards)
    {
      alone := false;
      var highest := HighestTrump();
      if highest.value == 1 {
        var fool := HasCard(FOOL);
        alone := !fool;
      }
    }

    /** Adds the cards of the deck to some statistics; the counters are bytes. */
    method AnalyzeTrumps(s: Stats) returns (stats: Stats)
      ensures stats == Decks.AnalyzeTrumps(s, cards)
    {
      stats := s;
      for i := 0 to |cards|
        invariant stats == Decks.AnalyzeTrumps(s, cards[..i])
      {
        assert cards[..i + 1][..i] == cards[..i];
        var c := cards[i];
        if c.suit == TRUMPS {
          stats := stats.(trumps := Byte(stats.trumps + 1));
          if c.value == 21 { stats := stats.(oudlers := Byte(stats.oudlers + 1)); }
          if c.value == 1 { stats := stats.(oudlers := Byte(stats.oudlers + 1)); }
          if c.value == 0 { stats := stats.(oudlers := Byte(stats.oudlers + 1)); }
        }
        stats := stats.(halfPoints := stats.halfPoints + c.HalfPoints());
      }
      assert cards[..|cards|] == cards;
    }

    /** What the trumps of a deck say: whether there are any, and the highest value. */
    method TrumpsOf() returns (any: bool, highest: nat)
      ensures any <==> HasTrump(cards)
      ensures highest == MaxTrump(cards)
    {
      any, highest := false, 0;
      for i := 0 to |cards|
        invariant (any <==> HasTrump(cards[..i])) && highest == MaxTrump(cards[..i])
      {
        TrumpsExtend(cards, i, TRUMPS);
        if cards[i].suit == TRUMPS {
          any := true;
          if cards[i].value > highest {
            highest := cards[i].value;
          }
        }
      }
      assert cards[..|cards|] == cards;
    }

    method SuitIn(suit: nat) returns (any: bool)
      ensures any <==> HasSuit(cards, suit)
    {
      any := false;
      for i := 0 to |cards|
        invariant any <==> HasSuit(cards[..i], suit)
      {
        TrumpsExtend(cards, i, suit);
        if cards[i].suit == suit {
          any := true;
        }
      }
      assert cards[..|cards|] == cards;
    }

    /** Whether a card of this hand may be played on the trick. */
    method CanPlayCard(card: Card, trick: Deck) returns (ok: bool)
      ensures ok <==> Decks.CanPlayCard(cards, card, trick.cards)
    {
      var held := HasCard(card);
      if !held {
        return false;
      }
      if |trick.cards| == 0 {
        return true;
      }
      if card.IsFool() {
        return true;
      }
      var c := trick.At(0);
      if c.IsFool() {
        if |trick.cards| == 1 {
          return true;
        }
        c := trick.At(1);
      }
      var suit := c.suit;
      var previousTrump, maxPreviousTrump := trick.TrumpsOf();
      var hasTrump, highestTrumpValue := TrumpsOf();
      var hasSuit := SuitIn(suit);
      var stats := PlayStats(suit != TRUMPS && hasSuit, hasTrump, highestTrumpValue, previousTrump, maxPreviousTrump);
      if suit == TRUMPS {
        ok := TestPlayTrump(card, stats);
      } else if card.suit == suit {
        ok := true;
      } else if stats.hasSuit {
        ok := false;
      } else {
        ok := TestPlayTrump(card, stats);
      }
    }

    method TestDiscard(discard: Deck, dog: Deck, n: nat) returns (valid: bool)
      ensures valid <==> Decks.TestDiscard(cards, discard.cards, dog.cards, n)
    {
      valid := true;
      if |discard.cards| == DogSize(n) {
        for i := 0 to |discard.cards|
          invariant valid <==> forall k :: 0 <= k < i ==> DiscardOk(discard.cards[k], discard.cards, dog.cards)
        {
          var c := discard.cards[i];
          var held := HasCard(c);
          var inDog := dog.HasCard(c);
          if held || inDog {
            if c.suit == TRUMPS || (c.suit != TRUMPS && c.value == 14) {
              valid := false;
            }
            var count := discard.Count(c);
            if count != 1 {
              valid := false;
            }
          } else {
            valid := false;
          }
        }
        DiscardOkMeans(discard.cards, dog.cards, n);
      } else {
        valid := false;
      }
    }

    predicate DiscardOk(c: Card, discard: Cards, dog: Cards)
      reads this
    {
      (c in cards || c in dog) && Discardable(c) && multiset(discard)[c] == 1
    }

    lemma DiscardOkMeans(discard: Cards, dog: Cards, n: nat)
      requires |discard| == DogSize(n)
      ensures (forall k :: 0 <= k < |discard| ==> DiscardOk(discard[k], discard, dog)) <==>
        Decks.TestDiscard(cards, discard, dog, n)
    {
      if Decks.TestDiscard(cards, discard, dog, n) {
        forall k | 0 <= k < |discard| ensures DiscardOk(discard[k], discard, dog) {
          assert discard[k] in discard;
        }
      }
    }

    method TestHandle(handle: Deck) returns (valid: bool)
      ensures valid <==> Decks.TestHandle(cards, handle.cards)
    {
      valid := true;
      if HandleTypeOf(|handle.cards|) == NoHandle {
        valid := false;
      }
      var stats := handle.AnalyzeTrumps(NO_STATS);
      if |handle.cards| != stats.trumps {
        valid := false;
      }
      var allHeld := true;
      for i := 0 to |handle.cards|
        invariant allHeld <==> forall k :: 0 <= k < i ==> handle.cards[k] in cards
      {
        var held := HasCard(handle.cards[i]);
        if !held {
          allHeld := false;
        }
      }
      assert allHeld <==> forall c :: c in handle.cards ==> c in cards;
      if !allHeld {
        valid := false;
      }
      stats := AnalyzeTrumps(NO_STATS);
      var fool := handle.HasCard(FOOL);
      if fool && stats.trumps > |handle.cards| {
        valid := false;
      }
    }

    /** Takes the dog and offers the first cards that may be laid aside. */
    method AutoDiscard(dog: Deck, n: nat) returns (discard: Deck)
      requires dog != this
      modifies this
      ensures fresh(discard) && discard.cards == Decks.AutoDiscard(old(cards) + dog.cards, n)
      ensures cards == old(cards) + dog.cards && owner == old(owner)
    {
      AppendDeck(dog);
      discard := new Deck();
      var i := 0;
      while i < |cards|
        invariant i <= |cards| && cards == old(cards) + dog.cards && owner == old(owner)
        invariant fresh(discard) && discard.cards == Discardables(cards[..i])
        invariant |discard.cards| < DogSize(n) || DogSize(n) <= 0
      {
        assert cards[..i + 1][..i] == cards[..i];
        var c := cards[i];
        i := i + 1;
        if c.suit != TRUMPS && c.value != 14 {
          discard.Append(c);
          if |discard.cards| == DogSize(n) {
            break;
          }
        }
      }
      DiscardablesPrefix(cards, i);
      assert i == |cards| ==> cards[..i] == cards;
    }

    /** The cards named in a text, separated by semicolons; the result, a byte, counts the names, valid or not. */
    method SetCards(text: string) returns (count: nat)
      modifies this
      ensures cards == CardsOfText(text) && owner == old(owner)
      ensures count == Byte(Separators(text) + 1)
    {
      hide CardsOfText, CardOfText, FindSeparator, Byte, Separators;
      Clear();
      count := 0;
      ByteZero();
      assert Separators(text[..0]) == 0 by { NoSeparators(); assert text[..0] == ""; }
      var pos := 0;
      assert text[0..] == text;
      var more := true;
      while more
        invariant pos <= |text| && owner == old(owner)
        invariant count == Byte(if more then Separators(text[..pos]) else Separators(text) + 1)
        invariant cards + (if more then CardsOfText(text[pos..]) else []) == CardsOfText(text)
        decreases more, |text| - pos
      {
        var found := pos;
        while found < |text| && text[found] != ';'
          invariant pos <= found <= |text| && forall k :: pos <= k < found ==> text[k] != ';'
        {
          found := found + 1;
        }
        FirstName(text, pos, found);
        var card := CardOfText(text[pos..found]);
        CountNames(text, pos, found);
        ByteStep(Separators(text[..pos]));
        count := Byte(count + 1);
        Regroup(cards, if card.IsValid() then [card] else [], if found < |text| then CardsOfText(text[found + 1..]) else []);
        if card.IsValid() {
          cards := cards + [card];
        }
        if found < |text| {
          pos := found + 1;
        } else {
          more := false;
        }
      }
    }

    /** The names of the cards, separated by semicolons. */
    method ToString() returns (list: string)
      ensures list == DeckText(cards)
    {
      list := "";
      var first := true;
      for i := 0 to |cards|
        invariant list == DeckText(cards[..i]) && (first <==> i == 0)
      {
        if first {
          first := false;
        } else {
          list := list + ";";
        }
        TextOfOneMore(cards[..i], cards[i]);
        assert cards[..i + 1] == cards[..i] + [cards[i]];
        list := list + CardText(cards[i]);
      }
      assert cards[..|cards|] == cards;
    }
  }

  // ---------------------------------------------------------------- lemmas

  lemma NextOfFullDeck(i: nat)
    requires i < DECK_SIZE
    ensures FullDeck()[..i + 1] == FullDeck()[..i] + [CardAt(i)]
  {
  }

  lemma TrumpsExtend(d: Cards, i: nat, suit: nat)
    requires i < |d|
    ensures HasTrump(d[..i + 1]) <==> HasTrump(d[..i]) || d[i].IsTrump()
    ensures HasSuit(d[..i + 1], suit) <==> HasSuit(d[..i], suit) || d[i].suit == suit
    ensures d[..i + 1][..i] == d[..i]
  {
    assert d[..i + 1] == d[..i] + [d[i]];
    assert d[i] in d[..i + 1];
    assert forall c :: c in d[..i] ==> c in d[..i + 1];
  }

  lemma {:induction false} DiscardablesPrefix(d: Cards, i: nat)
    requires i <= |d|
    ensures Discardables(d[..i]) <= Discardables(d)
    decreases |d| - i
  {
    if i < |d| {
      assert d[..i + 1][..i] == d[..i];
      DiscardablesPrefix(d, i + 1);
    } else {
      assert d[..i] == d;
    }
  }

  function Separators(text: string): nat {
    multiset(text)[';']
  }

  /** The separators up to and including the one at `found`, if there is one. */
  lemma CountNames(text: string, pos: nat, found: nat)
    requires pos <= found <= |text| && (found < |text| ==> text[found] == ';')
    requires forall i :: pos <= i < found ==> text[i] != ';'
    ensures found < |text| ==> Separators(text[..found + 1]) == Separators(text[..pos]) + 1
    ensures found == |text| ==> Separators(text) == Separators(text[..pos])
  {
    assert text[..found] == text[..pos] + text[pos..found];
    assert ';' !in text[pos..found];
    if found < |text| {
      assert text[..found + 1] == text[..found] + [text[found]];
    } else {
      assert text[..found] == text;
    }
  }

  lemma NoSeparators()
    ensures Separators("") == 0
  {
  }

  lemma ByteZero()
    ensures Byte(0) == 0
  {
  }

  lemma ByteStep(x: int)
    ensures Byte(Byte(x) + 1) == Byte(x + 1)
  {
  }

  lemma SeparatorAt(s: string, k: nat)
    requires k <= |s| && (k < |s| ==> s[k] == ';') && forall i :: 0 <= i < k ==> s[i] != ';'
    ensures FindSeparator(s) == k
  {
    assert s == s[..k] + s[k..];
    FindSeparatorAfter(s[..k], s[k..]);
  }

  lemma Regroup(a: Cards, b: Cards, c: Cards)
    ensures a + (b + c) == (a + b) + c && a + [] == a
  {
  }

  /** The name from pos to the next separator, and what is left after it. */
  lemma FirstName(text: string, pos: nat, found: nat)
    requires pos <= found <= |text| && (found < |text| ==> text[found] == ';')
    requires forall i :: pos <= i < found ==> text[i] != ';'
    ensures var c := CardOfText(text[pos..found]);
      CardsOfText(text[pos..]) ==
        (if c.IsValid() then [c] else []) + (if found < |text| then CardsOfText(text[found + 1..]) else [])
  {
    hide CardOfText;
    var s, k := text[pos..], found - pos;
    SeparatorAt(s, k);
    assert s[..k] == text[pos..found];
    if found < |text| { assert s[k + 1..] == text[found + 1..]; }
  }

  lemma {:induction false} TextOfOneMore(d: Cards, c: Card)
    ensures DeckText(d + [c]) == DeckText(d) + (if d == [] then "" else ";") + CardText(c)
  {
    hide CardText;
    if |d| == 1 {
      assert (d + [c])[1..] == [c];
    } else if d != [] {
      assert (d + [c])[1..] == d[1..] + [c];
      TextOfOneMore(d[1..], c);
    }
  }
}
