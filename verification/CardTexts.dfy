/** Names of cards, decks, places and contracts as texts. */
module CardTexts {
  import opened Tarot
  import opened Decks
  import opened Context
  import opened Json

  // ---------------------------------------------------------------- cards

  const SUIT_NAMES: string := "SHDCT"

  function SuitName(suit: nat): string {
    if suit < |SUIT_NAMES| then [SUIT_NAMES[suit]] else ""
  }

  function SuitFromName(c: char): nat {
    if c == 'S' then SPADES
    else if c == 'H' then HEARTS
    else if c == 'D' then DIAMONDS
    else if c == 'C' then CLUBS
    else if c == 'T' then TRUMPS
    else INVALID
  }

  function CardText(c: Card): string {
    (if c.value < 10 then "0" + Decimal(c.value) else Decimal(c.value)) + "-" + SuitName(c.suit)
  }

  /** Two characters read as an unsigned number: blanks before it, a sign, and garbage after it are accepted. */
  function TwoDigits(a: char, b: char): nat {
    if IsDigit(a) then
      if IsDigit(b) then 10 * (a - '0') as nat + (b - '0') as nat else (a - '0') as nat
    else if (IsSpace(a) || a == '+') && IsDigit(b) then (b - '0') as nat
    else if a == '-' && IsDigit(b) then (0x1_0000_0000 - (b - '0') as int) % 256
    else 0
  }

  /** A card from its name: any four characters will do, the third is not looked at. */
  function CardOfText(s: string): Card {
    if |s| != 4 then NO_CARD else Card(TwoDigits(s[0], s[1]), SuitFromName(s[3]))
  }

  lemma CardTextReadBack(c: Card)
    requires c.IsValid()
    ensures |CardText(c)| == 4 && ';' !in CardText(c) && PlainCardText(CardText(c))
    ensures CardOfText(CardText(c)) == c
  {
    if c.value >= 10 {
      assert Decimal(c.value) == [Digit(c.value / 10)] + [Digit(c.value % 10)];
    }
  }

  predicate PlainCardText(s: string) {
    forall ch :: ch in s ==> ch != '"' && !IsControl(ch)
  }

  // ---------------------------------------------------------------- decks

  function DeckText(d: Cards): string {
    if d == [] then "" else if |d| == 1 then CardText(d[0]) else CardText(d[0]) + (";" + DeckText(d[1..]))
  }

  /** The position of the first separator, or the end. */
  function FindSeparator(s: string): nat {
    if s == "" || s[0] == ';' then 0 else 1 + FindSeparator(s[1..])
  }

  lemma {:induction false} FindSeparatorBound(s: string)
    ensures FindSeparator(s) <= |s|
    ensures FindSeparator(s) < |s| ==> s[FindSeparator(s)] == ';'
  {
    if s != "" && s[0] != ';' {
      FindSeparatorBound(s[1..]);
    }
  }

  /** `SetCards`: the valid cards among the names; invalid names are dropped. */
  function CardsOfText(s: string): Cards
    decreases |s|
  {
    var k := FindSeparator(s);
    if k <= |s| then
      var c := CardOfText(s[..k]);
      (if c.IsValid() then [c] else []) + if k < |s| then CardsOfText(s[k + 1..]) else []
    else []
  }

  lemma {:induction false} FindSeparatorAfter(a: string, s: string)
    requires ';' !in a && (s == "" || s[0] == ';')
    ensures FindSeparator(a + s) == |a|
  {
    if a == "" {
      assert a + s == s;
    } else {
      assert (a + s)[1..] == a[1..] + s;
      FindSeparatorAfter(a[1..], s);
    }
  }

  lemma CardsOfTextFirst(c: Card, rest: string)
    requires c.IsValid()
    ensures CardsOfText(CardText(c) + (";" + rest)) == [c] + CardsOfText(rest)
    ensures CardsOfText(CardText(c)) == [c]
  {
    hide CardText, CardOfText;
    var name := CardText(c);
    CardTextReadBack(c);
    FindSeparatorAfter(name, ";" + rest);
    FindSeparatorAfter(name, "");
    var text := name + (";" + rest);
    assert text[..4] == name && text[5..] == rest;
    assert name + "" == name && name[..4] == name;
  }

  lemma NoCardsOfText()
    ensures CardsOfText("") == []
  {
  }

  /** The text of a deck of existing cards gives back the deck, card by card. */
  lemma {:induction false} DeckTextReadBack(d: Cards)
    requires ValidCards(d)
    ensures CardsOfText(DeckText(d)) == d
  {
    hide CardText, CardsOfText;
    if d == [] {
      NoCardsOfText();
    } else {
      CardsOfTextFirst(d[0], DeckText(d[1..]));
      if |d| > 1 {
        DeckTextReadBack(d[1..]);
      }
    }
  }

  lemma {:induction false} DeckTextPlain(d: Cards)
    requires ValidCards(d)
    ensures PlainCardText(DeckText(d))
  {
    hide CardText;
    if d != [] {
      CardTextReadBack(d[0]);
      DeckTextPlain(d[1..]);
    }
  }

  // ---------------------------------------------------------------- places and contracts

  function PlaceText(p: Place): string {
    if p == 0 then "South" else if p == 1 then "East" else if p == 2 then "North"
    else if p == 3 then "West" else if p == 4 then "Fifth" else "Nowhere"
  }

  function PlaceOfText(s: string): Place {
    if s == "South" then 0 else if s == "East" then 1 else if s == "North" then 2
    else if s == "West" then 3 else if s == "Fifth" then 4 else NOWHERE
  }

  function ContractText(c: Contract): string {
    if c == NO_ANY then "" else if c == PASS then "Pass" else if c == TAKE then "Take" else if c == GUARD then "Guard"
    else if c == GUARD_WITHOUT then "Guard without" else "Guard against"
  }

  /** An unknown name is a pass; the empty name is no bid at all. */
  function ContractOfText(s: string): Contract {
    if s == "" then NO_ANY else if s == "Take" then TAKE else if s == "Guard" then GUARD
    else if s == "Guard without" then GUARD_WITHOUT else if s == "Guard against" then GUARD_AGAINST else PASS
  }

  lemma NamesReadBack(p: Place, c: Contract)
    requires p <= NOWHERE && c <= GUARD_AGAINST
    ensures PlaceOfText(PlaceText(p)) == p && ContractOfText(ContractText(c)) == c
    ensures PlainCardText(PlaceText(p)) && PlainCardText(ContractText(c))
  {
    hide PlaceOfText, PlaceText, ContractOfText, ContractText;
    PlaceReadBack(p);
    ContractReadBack(c);
  }

  lemma PlaceReadBack(p: Place)
    requires p <= NOWHERE
    ensures PlaceOfText(PlaceText(p)) == p && PlainCardText(PlaceText(p))
  {
    assert "South"[0] != "North"[0] && "South"[0] != "Fifth"[0] && "North"[0] != "Fifth"[0] && "East"[0] != "West"[0];
  }

  lemma ContractReadBack(c: Contract)
    requires c <= GUARD_AGAINST
    ensures ContractOfText(ContractText(c)) == c && PlainCardText(ContractText(c))
  {
    assert "Pass"[0] != "Take"[0] && "Guard without"[6] != "Guard against"[6];
  }

  /** A text that names no contract is a pass; only the empty text is no bid at all. */
  lemma OnlyEmptyTextIsNoBid(s: string)
    ensures ContractOfText(s) == NO_ANY <==> s == ""
    ensures (forall c: nat :: c <= GUARD_AGAINST ==> s != ContractText(c)) ==> ContractOfText(s) == PASS
  {
    assert ContractText(NO_ANY) == "" && ContractText(TAKE) == "Take" && ContractText(GUARD) == "Guard";
    assert ContractText(GUARD_WITHOUT) == "Guard without" && ContractText(GUARD_AGAINST) == "Guard against";
  }
}
