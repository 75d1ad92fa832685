/** Which saved deals are accepted, and how the files are written. */
module SavedFiles {
  import opened Tarot
  import opened Decks
  import opened Context
  import opened Engines
  import opened EngineProofs
  import opened Json
  import opened JsonRoundTrip
  import opened CardTexts
  import opened Replay

  // ---------------------------------------------------------------- which tricks are accepted

  /** The cards that a saved trick names. */
  function Names(trick: Value): set<Card> {
    set c | c in CardsOfText(StringOf(trick))
  }

  function AllNames(tricks: seq<Value>): set<Card> {
    if tricks == [] then {} else AllNames(tricks[..|tricks| - 1]) + Names(tricks[|tricks| - 1])
  }

  /** The cards of trick i that no earlier trick names. */
  function NewNames(tricks: seq<Value>, i: nat): set<Card>
    requires i < |tricks|
  {
    Names(tricks[i]) - AllNames(tricks[..i])
  }

  function SetOf(d: Cards): set<Card> {
    set c | c in d
  }

  lemma {:induction false} HitsAreShared(d: Cards, xs: Cards)
    ensures Hits(d, xs) == |SetOf(xs) * SetOf(d)|
  {
    if xs != [] {
      var front, c := xs[..|xs| - 1], xs[|xs| - 1];
      assert xs == front + [c];
      HitsAreShared(d, front);
      WithoutAllCounts(d, front);
      var rest := WithoutAll(d, front);
      assert c in rest <==> multiset(rest)[c] > 0;
      assert c in d <==> multiset(d)[c] > 0;
      hide WithoutAll;
      SharedMore(d, front, c);
    }
  }

  lemma SharedMore(d: Cards, front: Cards, c: Card)
    ensures |SetOf(front + [c]) * SetOf(d)| == |SetOf(front) * SetOf(d)| + if c in d && c !in front then 1 else 0
  {
    var shared, shared' := SetOf(front) * SetOf(d), SetOf(front + [c]) * SetOf(d);
    assert c in shared <==> c in front && c in d;
    if c in d {
      assert shared' == shared + {c};
    } else {
      assert shared' == shared;
    }
  }

  lemma {:induction false} NamesExist(s: string)
    ensures forall c :: c in CardsOfText(s) ==> c.IsValid()
    decreases |s|
  {
    hide CardOfText;
    FindSeparatorBound(s);
    if FindSeparator(s) < |s| {
      NamesExist(s[FindSeparator(s) + 1..]);
    }
  }

  /** What is left of the deck: the existing cards that are not in `named`. */
  ghost predicate Left(d: Cards, named: set<Card>) {
    forall c :: multiset(d)[c] == if c.IsValid() && c !in named then 1 else 0
  }

  lemma NothingNamed(n: nat)
    ensures Left(FullDeck(), {}) && TricksFit([], n)
  {
    CompleteDeckCounts(FullDeck());
  }

  lemma LeftSize(d: Cards, named: set<Card>)
    requires Left(d, named) && forall c :: c in named ==> c.IsValid()
    ensures |d| + |named| == DECK_SIZE
  {
    CompleteDeckCounts(FullDeck());
    assert multiset(d) + multiset(named) == multiset(FullDeck());
    assert |multiset(d) + multiset(named)| == |d| + |named|;
  }

  lemma LeftMore(d: Cards, named: set<Card>, trick: Cards)
    requires Left(d, named) && forall c :: c in trick ==> c.IsValid()
    ensures Left(WithoutAll(d, trick), named + SetOf(trick))
    ensures Hits(d, trick) == |SetOf(trick) - named|
  {
    WithoutAllCounts(d, trick);
    HitsAreShared(d, trick);
    forall c ensures c in d <==> c.IsValid() && c !in named {
      assert c in d <==> multiset(d)[c] > 0;
    }
    assert SetOf(trick) * SetOf(d) == SetOf(trick) - named;
  }

  /** No trick falls short, or names too much that is new; tricks without cards are skipped. */
  predicate TricksFit(tricks: seq<Value>, n: nat) {
    forall i :: 0 <= i < |tricks| ==> TrickFits(tricks, i, n)
  }

  predicate TrickFits(tricks: seq<Value>, i: nat, n: nat)
    requires i < |tricks|
  {
    Names(tricks[i]) != {} ==> |NewNames(tricks, i)| == n
  }

  lemma FitsMore(tricks: seq<Value>, n: nat)
    requires tricks != []
    ensures var k := |tricks| - 1;
      TricksFit(tricks, n) <==> TricksFit(tricks[..k], n) && TrickFits(tricks, k, n)
  {
    var k := |tricks| - 1;
    forall i | 0 <= i < k ensures TrickFits(tricks[..k], i, n) <==> TrickFits(tricks, i, n) {
      SameNewNames(tricks, k, i);
      assert tricks[..k][i] == tricks[i];
    }
    hide TrickFits;
  }

  lemma SameNewNames(tricks: seq<Value>, k: nat, i: nat)
    requires i < k <= |tricks|
    ensures NewNames(tricks[..k], i) == NewNames(tricks, i)
  {
    hide Names, AllNames;
    assert tricks[..k][..i] == tricks[..i];
  }

  lemma {:induction false} TricksLoaded(c: Ctx, tricks: seq<Value>, n: nat)
    requires c.Sized() && |tricks| <= MAX_TRICKS && c.discard.cards == FullDeck()
    ensures var l := LoadTricks(c, tricks, n);
      Left(l.ctx.discard.cards, AllNames(tricks)) && (l.ok <==> TricksFit(tricks, n))
    ensures forall c :: c in AllNames(tricks) ==> c.IsValid()
  {
    hide SetTrick, CardsOfText, StringOf, TricksFit, Left, FullDeck, WithoutAll, Hits;
    if tricks == [] {
      NothingNamed(n);
    } else {
      var k := |tricks| - 1;
      var l := LoadTricks(c, tricks[..k], n);
      var trick := CardsOfText(StringOf(tricks[k]));
      TricksLoaded(c, tricks[..k], n);
      FitsMore(tricks, n);
      NamesExist(StringOf(tricks[k]));
      LeftMore(l.ctx.discard.cards, AllNames(tricks[..k]), trick);
      assert Names(tricks[k]) == SetOf(trick);
      assert trick == [] <==> Names(tricks[k]) == {} by { assert trick != [] ==> trick[0] in Names(tricks[k]); }
      TrickStoredRest(l.ctx, trick, l.counter - 1);
      assert AllNames(tricks[..k]) + {} == AllNames(tricks[..k]);
    }
  }

  lemma {:induction false} NamesCounted(tricks: seq<Value>, n: nat)
    requires n > 0 && TricksFit(tricks, n)
    ensures |AllNames(tricks)| <= n * |tricks|
    ensures |AllNames(tricks)| == n * |tricks| <==> forall i :: 0 <= i < |tricks| ==> |NewNames(tricks, i)| == n
  {
    hide Names, TricksFit;
    if tricks != [] {
      var k := |tricks| - 1;
      FitsMore(tricks, n);
      NamesCounted(tricks[..k], n);
      forall i | 0 <= i < k ensures NewNames(tricks[..k], i) == NewNames(tricks, i) {
        SameNewNames(tricks, k, i);
      }
      assert AllNames(tricks) == AllNames(tricks[..k]) + NewNames(tricks, k);
      assert n * |tricks| == n * k + n;
    }
  }

  /**
   * The tricks of a file are accepted exactly when there is one for each card of a hand and each names as many new
   * cards as there are players -- whatever cards it repeats.
   */
  lemma DealAccepted(c: Ctx, tricks: seq<Value>, n: nat)
    requires c.Sized() && PlayerCount(n)
    ensures LoadDeal(c, tricks, n).1 <==>
      |tricks| == HandSize(n) && forall i :: 0 <= i < |tricks| ==> |NewNames(tricks, i)| == n
  {
    hide SetTrick, FullDeck, TricksFit, Left, NewNames, AllNames, LoadTricks;
    if |tricks| == HandSize(n) {
      var start := c.(discard := c.discard.(cards := FullDeck()));
      var l := LoadTricks(start, tricks, n);
      TricksLoaded(start, tricks, n);
      LeftSize(l.ctx.discard.cards, AllNames(tricks));
      if TricksFit(tricks, n) {
        NamesCounted(tricks, n);
      } else {
        NotFitting(tricks, n);
      }
    }
  }

  lemma NotFitting(tricks: seq<Value>, n: nat)
    requires !TricksFit(tricks, n)
    ensures exists i :: 0 <= i < |tricks| && |NewNames(tricks, i)| != n
  {
    var i :| 0 <= i < |tricks| && !TrickFits(tricks, i, n);
  }

  // ---------------------------------------------------------------- a card named twice

  lemma FirstName(s: string)
    ensures var k := FindSeparator(s);
      k <= |s| && CardsOfText(s) ==
        (if CardOfText(s[..k]).IsValid() then [CardOfText(s[..k])] else []) + if k < |s| then CardsOfText(s[k + 1..]) else []
  {
    hide CardOfText, FindSeparator;
    FindSeparatorBound(s);
  }

  /** A card added at the end of a text is read last. */
  lemma {:induction false} CardAppended(s: string, c: Card)
    requires c.IsValid()
    ensures CardsOfText(s + ";" + CardText(c)) == CardsOfText(s) + [c]
    decreases |s|
  {
    hide CardText, CardOfText, CardsOfText, FindSeparator;
    var k := FindSeparator(s);
    var text := s + ";" + CardText(c);
    FirstName(s);
    FirstName(text);
    assert FindSeparator(text) == k by {
      assert text == s + (";" + CardText(c));
      SeparatorFirst(s, ";" + CardText(c));
    }
    assert text[..k] == s[..k];
    CardsOfTextFirst(c, "");
    if k < |s| {
      assert text[k + 1..] == s[k + 1..] + ";" + CardText(c);
      CardAppended(s[k + 1..], c);
    } else {
      assert text[k + 1..] == CardText(c);
    }
  }

  lemma {:induction false} SeparatorFirst(s: string, rest: string)
    requires rest != "" && rest[0] == ';'
    ensures FindSeparator(s + rest) == FindSeparator(s) <= |s|
    ensures FindSeparator(s) < |s| ==> s[FindSeparator(s)] == ';'
  {
    if s == "" {
      assert s + rest == rest;
    } else if s[0] != ';' {
      assert (s + rest)[1..] == s[1..] + rest;
      SeparatorFirst(s[1..], rest);
    }
  }

  lemma {:induction false} SameNames(tricks: seq<Value>, tricks': seq<Value>, k: nat)
    requires |tricks'| == |tricks| >= k && forall i :: 0 <= i < k ==> Names(tricks'[i]) == Names(tricks[i])
    ensures AllNames(tricks'[..k]) == AllNames(tricks[..k])
  {
    hide Names;
    if k > 0 {
      SameNames(tricks, tricks', k - 1);
      assert tricks'[..k][..k - 1] == tricks'[..k - 1] && tricks[..k][..k - 1] == tricks[..k - 1];
    }
  }

  lemma {:induction false} OneNameMore(tricks: seq<Value>, tricks': seq<Value>, i: nat, c: Card, k: nat)
    requires i < k <= |tricks| && c in AllNames(tricks[..i + 1])
    requires |tricks'| == |tricks| && Names(tricks'[i]) == Names(tricks[i]) + {c}
    requires forall j :: 0 <= j < |tricks| && j != i ==> Names(tricks'[j]) == Names(tricks[j])
    ensures AllNames(tricks'[..k]) == AllNames(tricks[..k]) && c in AllNames(tricks[..k])
  {
    hide Names;
    assert tricks'[..k][..k - 1] == tricks'[..k - 1] && tricks[..k][..k - 1] == tricks[..k - 1];
    if k == i + 1 {
      SameNames(tricks, tricks', i);
    } else {
      OneNameMore(tricks, tricks', i, c, k - 1);
    }
  }

  /** So a card may be named again in its trick or in a later one: the deal is accepted, with a trick too long. */
  lemma RepeatedCardAccepted(c: Ctx, tricks: seq<Value>, n: nat, i: nat, s: string, card: Card)
    requires c.Sized() && PlayerCount(n) && LoadDeal(c, tricks, n).1
    requires i < |tricks| && tricks[i] == String(s) && card in AllNames(tricks[..i + 1])
    ensures card.IsValid() && |CardsOfText(s + ";" + CardText(card))| == |CardsOfText(s)| + 1
    ensures LoadDeal(c, tricks[i := String(s + ";" + CardText(card))], n).1
  {
    hide LoadDeal, CardText, CardsOfText, AllNames;
    AllExist(tricks[..i + 1]);
    CardAppended(s, card);
    var longer := tricks[i := String(s + ";" + CardText(card))];
    DealAccepted(c, tricks, n);
    DealAccepted(c, longer, n);
    assert Names(longer[i]) == Names(tricks[i]) + {card};
    forall j | 0 <= j < |tricks| ensures NewNames(longer, j) == NewNames(tricks, j) {
      if j <= i {
        SameNames(tricks, longer, j);
        if j == i { NamedBefore(tricks, i); }
      } else {
        OneNameMore(tricks, longer, i, card, j);
      }
    }
  }

  lemma NamedBefore(tricks: seq<Value>, i: nat)
    requires i < |tricks|
    ensures AllNames(tricks[..i + 1]) == AllNames(tricks[..i]) + Names(tricks[i])
  {
    assert tricks[..i + 1][..i] == tricks[..i];
  }

  lemma {:induction false} AllExist(tricks: seq<Value>)
    ensures forall c :: c in AllNames(tricks) ==> c.IsValid()
  {
    if tricks != [] {
      AllExist(tricks[..|tricks| - 1]);
      NamesExist(StringOf(tricks[|tricks| - 1]));
    }
  }

  // ---------------------------------------------------------------- a whole file

  /** A field of the header of a file. */
  function Header(file: Value, key: string): Value {
    FindValue(file, ["deal_info", key])
  }

  function TricksOf(file: Value): seq<Value> {
    var tricks := FindValue(file, ["tricks"]);
    if tricks.Array? then tricks.items else []
  }

  lemma {:induction false} TricksKeepHeader(c: Ctx, tricks: seq<Value>, n: nat)
    requires c.Sized() && |tricks| <= MAX_TRICKS
    ensures var c' := LoadTricks(c, tricks, n).ctx;
      c' == c.(tricks := c'.tricks, winner := c'.winner, tricksWon := c'.tricksWon, stats := c'.stats, discard := c'.discard)
  {
    hide CardsOfText, StringOf, Hits, WithoutAll, SetTrick;
    if tricks != [] {
      var k := |tricks| - 1;
      TricksKeepHeader(c, tricks[..k], n);
      var l := LoadTricks(c, tricks[..k], n);
      TrickStoredRest(l.ctx, CardsOfText(StringOf(tricks[k])), l.counter - 1);
    }
  }

  /** The names under which a deal is saved. */
  lemma DealIsFiled(c: Ctx)
    requires c.Sized() && PlayerCount(c.nbPlayers)
    ensures var file := SaveToJson(c);
      FindValue(file, ["version"]) == String("3") && Header(file, "number_of_players") == Integer(c.nbPlayers) &&
      Header(file, "taker") == String(PlaceText(c.bid.taker)) &&
      Header(file, "contract") == String(ContractText(c.bid.contract)) && Header(file, "slam") == Boolean(c.bid.slam) &&
      Header(file, "first_trick_lead") == String(PlaceText(c.firstPlayer)) &&
      Header(file, "dog") == String(DeckText(c.dog)) && Header(file, "attack_handle") == String(DeckText(c.attackHandle)) &&
      Header(file, "defense_handle") == String(DeckText(c.defenseHandle)) &&
      |TricksOf(file)| == HandSize(c.nbPlayers) <= MAX_TRICKS &&
      forall t :: 0 <= t < HandSize(c.nbPlayers) ==> TricksOf(file)[t] == String(DeckText(c.tricks[t].cards))
  {
    hide SaveToJson, FindValue, DeckText, PlaceText, ContractText, TrickTexts;
    DealFieldFound(c, 0);
    DealFieldFound(c, 1);
    DealFieldFound(c, 2);
    DealFieldFound(c, 3);
    DealFieldFound(c, 4);
    DealFieldFound(c, 5);
    DealFieldFound(c, 6);
    DealFieldFound(c, 7);
    VersionFound(c);
    TricksFound(c);
    TrickTextsAt(c, HandSize(c.nbPlayers));
  }

  lemma VersionFound(c: Ctx)
    requires c.Sized() && PlayerCount(c.nbPlayers)
    ensures FindValue(SaveToJson(c), ["version"]) == String("3")
  {
    hide DealFields, Build, Lookup, HasKey, TrickTexts;
    SavedKeysDistinct(c);
    BuildLookup(SavedFields(c), 0);
    assert ["version"][1..] == [];
    FindKey(Build(SavedFields(c)), ["version"], false);
  }

  /** Exactly these files are loaded, and this is what their fields mean. */
  lemma FileAccepted(c: Ctx, file: Value)
    requires c.Sized()
    ensures var (c', ok) := LoadFromJson(c, file);
      var count := Header(file, "number_of_players");
      (ok <==>
        count.Integer? && 3 <= count.n <= 5 && Header(file, "taker").String? && Header(file, "contract").String? &&
        Header(file, "slam").Boolean? && Header(file, "first_trick_lead").String? && Header(file, "dog").String? &&
        Header(file, "attack_handle").String? && Header(file, "defense_handle").String? &&
        |TricksOf(file)| == HandSize(count.n) &&
        forall i :: 0 <= i < |TricksOf(file)| ==> |NewNames(TricksOf(file), i)| == count.n) &&
      (ok ==>
        c'.bid == Bid(PlaceOfText(Header(file, "taker").s), NOWHERE, ContractOfText(Header(file, "contract").s),
                      Header(file, "slam").b) &&
        c'.firstPlayer == PlaceOfText(Header(file, "first_trick_lead").s) &&
        c'.dog == CardsOfText(Header(file, "dog").s) && c'.attackHandle == CardsOfText(Header(file, "attack_handle").s) &&
        c'.defenseHandle == CardsOfText(Header(file, "defense_handle").s))
  {
    hide FindValue, CardsOfText, PlaceOfText, ContractOfText, NewNames, LoadTricks, FullDeck;
    var count := Header(file, "number_of_players");
    if count.Integer? && 3 <= count.n <= 5 {
      var c1 := LoadHeader(Initialize(c), file).0;
      DealAccepted(c1, TricksOf(file), count.n);
      if |TricksOf(file)| == HandSize(count.n) {
        TricksKeepHeader(c1.(discard := c1.discard.(cards := FullDeck())), TricksOf(file), count.n);
      }
    }
  }
}
