/** A finished deal saved as JSON and loaded again. */
module Replay {
  import opened Tarot
  import opened Decks
  import opened Context
  import opened Engines
  import opened EngineProofs
  import opened Deals
  import opened Play
  import opened Json
  import opened JsonRoundTrip
  import opened CardTexts

  // ---------------------------------------------------------------- looking things up

  function Lookup(ms: seq<Member>, key: string): Value {
    if ms == [] then Invalid else if ms[0].key == key then ms[0].value else Lookup(ms[1..], key)
  }

  predicate HasKey(ms: seq<Member>, key: string) {
    ms != [] && (ms[0].key == key || HasKey(ms[1..], key))
  }

  predicate SomeHasKey(items: seq<Value>, key: string) {
    items != [] && ((items[0].Object? && HasKey(items[0].members, key)) || SomeHasKey(items[1..], key))
  }

  function FirstWithKey(items: seq<Value>, key: string): Value {
    if items == [] then Invalid
    else if items[0].Object? && HasKey(items[0].members, key) then Lookup(items[0].members, key)
    else FirstWithKey(items[1..], key)
  }

  /** `FindValue`: follows the keys as far as they are found; a missing key is skipped. */
  function FindFrom(v: Value, keys: seq<string>, found: bool): Value
    decreases |keys|
  {
    if keys == [] then (if found then v else Invalid)
    else match v
      case Object(ms) =>
        if HasKey(ms, keys[0]) then FindFrom(Lookup(ms, keys[0]), keys[1..], true) else FindFrom(v, keys[1..], found)
      case Array(items) =>
        if SomeHasKey(items, keys[0]) then
          FindFrom(FirstWithKey(items, keys[0]), keys[1..], true)
        else FindFrom(v, keys[1..], found)
      case _ => if found then v else Invalid
  }

  function FindValue(v: Value, keys: seq<string>): Value {
    FindFrom(v, keys, false)
  }

  function StringOf(v: Value): string {
    if v.String? then v.s else ""
  }

  // ---------------------------------------------------------------- saving

  /** An object filled by setting one key after the other. */
  function Build(fields: seq<(string, Value)>): seq<Member> {
    if fields == [] then []
    else
      var last := fields[|fields| - 1];
      AddMember(Build(fields[..|fields| - 1]), last.0, last.1)
  }

  function DealFields(c: Ctx): seq<(string, Value)> {
    [("number_of_players", Integer(c.nbPlayers)),
     ("taker", String(PlaceText(c.bid.taker))),
     ("contract", String(ContractText(c.bid.contract))),
     ("slam", Boolean(c.bid.slam)),
     ("first_trick_lead", String(PlaceText(c.firstPlayer))),
     ("dog", String(DeckText(c.dog))),
     ("attack_handle", String(DeckText(c.attackHandle))),
     ("defense_handle", String(DeckText(c.defenseHandle)))]
  }

  function TrickTexts(c: Ctx, k: nat): seq<Value>
    requires c.Sized() && k <= MAX_TRICKS
  {
    if k == 0 then [] else TrickTexts(c, k - 1) + [String(DeckText(c.tricks[k - 1].cards))]
  }

  function SavedFields(c: Ctx): seq<(string, Value)>
    requires c.Sized() && PlayerCount(c.nbPlayers)
  {
    [("version", String("3")),
     ("deal_info", Object(Build(DealFields(c)))),
     ("tricks", Array(TrickTexts(c, HandSize(c.nbPlayers))))]
  }

  function SaveToJson(c: Ctx): Value
    requires c.Sized() && PlayerCount(c.nbPlayers)
  {
    Object(Build(SavedFields(c)))
  }

  // ---------------------------------------------------------------- loading

  datatype Loading = Loading(ctx: Ctx, counter: nat, ok: bool)

  /** Stores the tricks one by one and takes their cards out of a full deck. */
  function LoadTricks(c: Ctx, tricks: seq<Value>, n: nat): (l: Loading)
    requires c.Sized() && |tricks| <= MAX_TRICKS
    ensures l.ctx.Sized() && 1 <= l.counter <= |tricks| + 1
  {
    if tricks == [] then Loading(c, 1, true)
    else
      var k := |tricks| - 1;
      var l := LoadTricks(c, tricks[..k], n);
      var trick := CardsOfText(StringOf(tricks[k]));
      if trick == [] then l
      else
        var ctx := SetTrick(l.ctx, trick, l.counter).0;
        var discard := ctx.discard;
        Loading(ctx.(discard := discard.(cards := WithoutAll(discard.cards, trick))), l.counter + 1,
                l.ok && Hits(discard.cards, trick) == n)
  }

  /** The tricks of a deal whose bid is known; what is left of the deck is the discard. */
  function LoadDeal(c: Ctx, items: seq<Value>, n: nat): (Ctx, bool)
    requires c.Sized() && PlayerCount(n)
  {
    if |items| != HandSize(n) then (c, false)
    else
      var l := LoadTricks(c.(discard := c.discard.(cards := FullDeck())), items, n);
      if |l.ctx.discard.cards| == DogSize(n) then
        (l.ctx.(discard := l.ctx.discard.(owner := DiscardOwner(c.bid))), l.ok)
      else (l.ctx, false)
  }

  /** The header: the decks are set as far as they are found, the bid only when nothing is missing. */
  function SetHeader(c: Ctx, taker: Value, contract: Value, slam: Value, dog: Value, attack: Value, defense: Value,
                     lead: Value): (r: (Ctx, bool))
    ensures c.Sized() ==> r.0.Sized()
  {
    var c1 := c.(
      dog := if dog.String? then CardsOfText(dog.s) else c.dog,
      attackHandle := if attack.String? then CardsOfText(attack.s) else c.attackHandle,
      defenseHandle := if defense.String? then CardsOfText(defense.s) else c.defenseHandle);
    if !(taker.String? && contract.String? && slam.Boolean? && dog.String? && attack.String? && defense.String? && lead.String?)
    then (c1, false)
    else
      (c1.(firstPlayer := PlaceOfText(lead.s),
           bid := Bid(PlaceOfText(taker.s), NOWHERE, ContractOfText(contract.s), slam.b)), true)
  }

  function LoadHeader(c: Ctx, json: Value): (r: (Ctx, bool))
    ensures c.Sized() ==> r.0.Sized()
  {
    SetHeader(c, FindValue(json, ["deal_info", "taker"]), FindValue(json, ["deal_info", "contract"]),
              FindValue(json, ["deal_info", "slam"]), FindValue(json, ["deal_info", "dog"]),
              FindValue(json, ["deal_info", "attack_handle"]), FindValue(json, ["deal_info", "defense_handle"]),
              FindValue(json, ["deal_info", "first_trick_lead"]))
  }

  function LoadFromJson(c: Ctx, json: Value): (Ctx, bool)
    requires c.Sized()
  {
    var c0 := Initialize(c);
    var count := FindValue(json, ["deal_info", "number_of_players"]);
    var n := if count.Integer? then count.n else 0;
    if !(3 <= n <= 5) then (c0, false)
    else
      var (c1, ok) := LoadHeader(c0, json);
      if !ok then (c1, false)
      else
        var tricks := FindValue(json, ["tricks"]);
        LoadDeal(c1, if tricks.Array? then tricks.items else [], n)
  }

  // ---------------------------------------------------------------- lemmas: the text

  lemma {:induction false} LookupAfter(ms: seq<Member>, key: string, v: Value, other: string)
    ensures HasKey(AddMember(ms, key, v), other) <==> other == key || HasKey(ms, other)
    ensures Lookup(AddMember(ms, key, v), other) == if other == key then v else Lookup(ms, other)
  {
    if ms != [] && ms[0].key != key && !Less(key, ms[0].key) {
      LookupAfter(ms[1..], key, v, other);
    }
  }

  lemma {:induction false} LessTrans(a: string, b: string, c: string)
    requires Less(a, b) && Less(b, c)
    ensures Less(a, c)
  {
    if a != "" && a[0] == b[0] && b[0] == c[0] {
      LessTrans(a[1..], b[1..], c[1..]);
    }
  }

  lemma {:induction false} LessTotal(a: string, b: string)
    ensures a == b || Less(a, b) || Less(b, a)
  {
    if a != "" && b != "" && a[0] == b[0] {
      LessTotal(a[1..], b[1..]);
      assert a == [a[0]] + a[1..] && b == [b[0]] + b[1..];
    }
  }

  /** What an object must satisfy to be printed and read back. */
  predicate GoodMembers(ms: seq<Member>) {
    SortedKeys(ms) && forall i :: 0 <= i < |ms| ==> PlainKey(ms[i].key) && Storable(ms[i].value)
  }

  lemma {:induction false} AddMemberGood(ms: seq<Member>, key: string, v: Value)
    requires GoodMembers(ms) && PlainKey(key) && Storable(v)
    ensures GoodMembers(AddMember(ms, key, v))
    ensures forall m :: m in AddMember(ms, key, v) ==> m in ms || m.key == key
  {
    hide PlainKey, Storable;
    if ms != [] {
      var r := AddMember(ms, key, v);
      LessTotal(key, ms[0].key);
      assert forall i :: 0 <= i < |ms| - 1 ==> ms[1..][i] == ms[i + 1];
      if ms[0].key == key {
        assert forall i :: 0 < i < |r| ==> r[i] == ms[i];
      } else if Less(key, ms[0].key) {
        forall i | 0 < i < |r| ensures Less(key, r[i].key) {
          if i > 1 { LessTrans(key, ms[0].key, ms[i - 1].key); }
        }
      } else {
        var tail := AddMember(ms[1..], key, v);
        AddMemberGood(ms[1..], key, v);
        forall i | 0 <= i < |tail| ensures Less(ms[0].key, tail[i].key) {
          assert tail[i] in tail;
        }
      }
    }
  }

  predicate DistinctKeys(fields: seq<(string, Value)>) {
    forall i, j :: 0 <= i < j < |fields| ==> fields[i].0 != fields[j].0
  }

  lemma {:induction false} BuildLookup(fields: seq<(string, Value)>, i: nat)
    requires DistinctKeys(fields) && i < |fields|
    ensures HasKey(Build(fields), fields[i].0) && Lookup(Build(fields), fields[i].0) == fields[i].1
  {
    var k := |fields| - 1;
    LookupAfter(Build(fields[..k]), fields[k].0, fields[k].1, fields[i].0);
    if i < k {
      BuildLookup(fields[..k], i);
    }
  }

  lemma {:induction false} BuildGood(fields: seq<(string, Value)>)
    requires forall i :: 0 <= i < |fields| ==> PlainKey(fields[i].0) && Storable(fields[i].1)
    ensures GoodMembers(Build(fields))
  {
    hide PlainKey, Storable;
    if fields != [] {
      var k := |fields| - 1;
      BuildGood(fields[..k]);
      AddMemberGood(Build(fields[..k]), fields[k].0, fields[k].1);
    }
  }

  lemma SavedKeysDistinct(c: Ctx)
    requires c.Sized() && PlayerCount(c.nbPlayers)
    ensures DistinctKeys(DealFields(c)) && DistinctKeys(SavedFields(c))
  {
    var f := DealFields(c);
    assert |f[0].0| == 17 && |f[1].0| == 5 && |f[2].0| == 8 && |f[3].0| == 4;
    assert |f[4].0| == 16 && |f[5].0| == 3 && |f[6].0| == 13 && |f[7].0| == 14;
  }

  lemma FindKey(ms: seq<Member>, keys: seq<string>, found: bool)
    requires keys != [] && HasKey(ms, keys[0])
    ensures FindFrom(Object(ms), keys, found) == FindFrom(Lookup(ms, keys[0]), keys[1..], true)
  {
  }

  /** The i-th field of the deal is found under its path. */
  lemma DealFieldFound(c: Ctx, i: nat)
    requires c.Sized() && PlayerCount(c.nbPlayers) && i < |DealFields(c)|
    ensures FindValue(SaveToJson(c), ["deal_info", DealFields(c)[i].0]) == DealFields(c)[i].1
  {
    hide DealFields, Build, Lookup, HasKey;
    SavedKeysDistinct(c);
    BuildLookup(SavedFields(c), 1);
    BuildLookup(DealFields(c), i);
    var info := Object(Build(DealFields(c)));
    assert SavedFields(c)[1] == ("deal_info", info);
    var keys := ["deal_info", DealFields(c)[i].0];
    assert keys[1..] == [DealFields(c)[i].0] && keys[1..][1..] == [];
    FindKey(Build(SavedFields(c)), keys, false);
    FindKey(Build(DealFields(c)), keys[1..], true);
  }

  lemma TricksFound(c: Ctx)
    requires c.Sized() && PlayerCount(c.nbPlayers)
    ensures FindValue(SaveToJson(c), ["tricks"]) == Array(TrickTexts(c, HandSize(c.nbPlayers)))
  {
    hide DealFields, Build, Lookup, HasKey, TrickTexts;
    SavedKeysDistinct(c);
    BuildLookup(SavedFields(c), 2);
    assert ["tricks"][1..] == [];
  }

  lemma {:induction false} TrickTextsAt(c: Ctx, k: nat)
    requires c.Sized() && k <= MAX_TRICKS
    ensures |TrickTexts(c, k)| == k
    ensures forall t :: 0 <= t < k ==> TrickTexts(c, k)[t] == String(DeckText(c.tricks[t].cards))
  {
    if k > 0 {
      TrickTextsAt(c, k - 1);
    }
  }

  /** A context whose cards exist is saved as a tree that can be printed and parsed. */
  predicate Writable(c: Ctx) {
    c.Sized() && PlayerCount(c.nbPlayers) && c.bid.taker <= NOWHERE && c.bid.contract <= GUARD_AGAINST &&
    c.firstPlayer <= NOWHERE && ValidCards(c.dog) && ValidCards(c.attackHandle) && ValidCards(c.defenseHandle) &&
    forall t :: 0 <= t < HandSize(c.nbPlayers) ==> ValidCards(c.tricks[t].cards)
  }

  predicate KeyChar(ch: char) {
    'a' <= ch <= 'z' || ch == '_'
  }

  lemma WordIsKey(s: string)
    requires s != "" && forall i :: 0 <= i < |s| ==> KeyChar(s[i])
    ensures PlainKey(s)
  {
  }

  lemma KeysPlain()
    ensures PlainKey("number_of_players") && PlainKey("taker") && PlainKey("contract") && PlainKey("slam")
    ensures PlainKey("first_trick_lead") && PlainKey("dog") && PlainKey("attack_handle") && PlainKey("defense_handle")
  {
    hide PlainKey;
    WordIsKey("number_of_players");
    WordIsKey("taker");
    WordIsKey("contract");
    WordIsKey("slam");
    WordIsKey("first_trick_lead");
    WordIsKey("dog");
    WordIsKey("attack_handle");
    WordIsKey("defense_handle");
  }

  lemma DealFieldsStorable(c: Ctx)
    requires Writable(c)
    ensures forall i :: 0 <= i < |DealFields(c)| ==> PlainKey(DealFields(c)[i].0) && Storable(DealFields(c)[i].1)
  {
    hide DeckText, PlaceText, ContractText, PlainKey, IsControl;
    KeysPlain();
    NamesReadBack(c.bid.taker, c.bid.contract);
    NamesReadBack(c.firstPlayer, c.bid.contract);
    DeckTextPlain(c.dog);
    DeckTextPlain(c.attackHandle);
    DeckTextPlain(c.defenseHandle);
  }

  lemma TricksStorable(c: Ctx, k: nat)
    requires Writable(c) && k <= HandSize(c.nbPlayers)
    ensures Storable(Array(TrickTexts(c, k)))
  {
    hide DeckText;
    TrickTextsAt(c, k);
    forall t | 0 <= t < k ensures Storable(TrickTexts(c, k)[t]) {
      DeckTextPlain(c.tricks[t].cards);
    }
  }

  lemma SavedStorable(c: Ctx)
    requires Writable(c)
    ensures Storable(SaveToJson(c))
  {
    hide DealFields, TrickTexts, Build;
    DealFieldsStorable(c);
    BuildGood(DealFields(c));
    TricksStorable(c, HandSize(c.nbPlayers));
    var f := SavedFields(c);
    assert Storable(f[0].1) && Storable(f[1].1) && Storable(f[2].1);
    BuildGood(f);
  }

  /** The file of a deal, printed at any indentation, parses to the tree that was saved. */
  lemma SavedFileParses(c: Ctx, level: int, show: real -> string)
    requires Writable(c)
    ensures Parse(Text(SaveToJson(c), level, show)) == Done(SaveToJson(c))
  {
    SavedStorable(c);
    ParsePrinted(SaveToJson(c), level, show);
  }

  // ---------------------------------------------------------------- lemmas: loading

  /** The tricks of a finished deal, as far as loading reads them. */
  predicate Finished(c: Ctx) {
    c.Sized() && PlayerCount(c.nbPlayers) && c.bid.taker < c.nbPlayers && c.firstPlayer < c.nbPlayers &&
    JudgedTricks(c, HandSize(c.nbPlayers)) &&
    (forall t :: 0 <= t < HandSize(c.nbPlayers) ==>
       |c.tricks[t].cards| == c.nbPlayers && ValidCards(c.tricks[t].cards) && Distinct(c.tricks[t].cards)) &&
    |c.discard.cards| == DogSize(c.nbPlayers) && Complete(TrickCards(c, HandSize(c.nbPlayers)) + c.discard.cards)
  }

  /** What the loop has rebuilt after k tricks of c. */
  predicate Rebuilt(c: Ctx, start: Ctx, l: Loading, k: nat)
    requires c.Sized() && start.Sized() && k <= MAX_TRICKS
  {
    l.ok && l.counter == k + 1 && l.ctx.Sized() && Judged(l.ctx, k) &&
    (forall t :: 0 <= t < k ==> l.ctx.tricks[t].cards == c.tricks[t].cards && l.ctx.winner[t] < c.nbPlayers) &&
    l.ctx == start.(tricks := l.ctx.tricks, winner := l.ctx.winner, tricksWon := l.ctx.tricksWon,
                    stats := l.ctx.stats, discard := l.ctx.discard) &&
    l.ctx.discard.owner == start.discard.owner &&
    multiset(l.ctx.discard.cards) + multiset(TrickCards(c, k)) == multiset(FullDeck())
  }

  predicate FreshStart(c: Ctx, start: Ctx) {
    start.Sized() && start.tricksWon == 0 && start.stats == NO_STATS && start.discard.cards == FullDeck() &&
    start.firstPlayer == c.firstPlayer && start.bid.taker == c.bid.taker
  }

  lemma {:induction false} PrefixInTricks(c: Ctx, k: nat, h: nat)
    requires c.Sized() && k <= h <= MAX_TRICKS
    ensures multiset(TrickCards(c, k)) <= multiset(TrickCards(c, h))
  {
    if k < h {
      PrefixInTricks(c, k, h - 1);
    }
  }

  /** The next trick is still complete in what is left of the deck. */
  lemma TrickStillThere(c: Ctx, k: nat, left: Cards)
    requires Finished(c) && k < HandSize(c.nbPlayers)
    requires multiset(left) + multiset(TrickCards(c, k)) == multiset(FullDeck())
    ensures forall x :: multiset(left)[x] <= 1
    ensures forall x :: multiset(c.tricks[k].cards)[x] <= multiset(left)[x]
  {
    hide FullDeck, JudgedTricks;
    var h := HandSize(c.nbPlayers);
    var trick := c.tricks[k].cards;
    PrefixInTricks(c, k + 1, h);
    NoCardTwice();
    forall x ensures multiset(left)[x] <= 1 && multiset(trick)[x] <= multiset(left)[x] {
      assert (multiset(left) + multiset(TrickCards(c, k)))[x] == multiset(FullDeck())[x] <= 1;
      assert multiset(TrickCards(c, k + 1))[x] == multiset(TrickCards(c, k))[x] + multiset(trick)[x];
      assert multiset(TrickCards(c, k + 1))[x] <= multiset(TrickCards(c, h) + c.discard.cards)[x] == multiset(FullDeck())[x];
    }
  }

  lemma NoCardTwice()
    ensures forall c :: multiset(FullDeck())[c] <= 1
  {
    CompleteDeckCounts(FullDeck());
  }

  lemma RemovalComplete(left: Cards, trick: Cards)
    requires forall x :: multiset(left)[x] <= 1
    requires forall x :: multiset(trick)[x] <= multiset(left)[x]
    ensures Hits(left, trick) == |trick|
    ensures multiset(WithoutAll(left, trick)) + multiset(trick) == multiset(left)
  {
    WithoutAllPartition(left, trick);
    HitsAll(left, trick);
    forall i | 0 <= i < |trick| ensures trick[i] in left && trick[i] !in trick[..i] {
      assert multiset(trick)[trick[i]] > 0;
      assert trick == trick[..i] + trick[i..];
      assert trick[i] in trick[i..];
    }
  }

  lemma {:induction false} LoadTricksRebuilds(c: Ctx, start: Ctx, k: nat)
    requires Finished(c) && FreshStart(c, start) && k <= HandSize(c.nbPlayers)
    ensures |TrickTexts(c, k)| == k && Rebuilt(c, start, LoadTricks(start, TrickTexts(c, k), c.nbPlayers), k)
  {
    hide FullDeck, JudgedTricks, Complete, Judge, Credit, SetTrick, DeckText, CardsOfText, StatsMatch;
    TrickTextsAt(c, k);
    if k == 0 {
      NothingJudged(start);
    } else {
      LoadTricksRebuilds(c, start, k - 1);
      var l := LoadTricks(start, TrickTexts(c, k - 1), c.nbPlayers);
      var trick := c.tricks[k - 1].cards;
      DeckTextReadBack(trick);
      assert TrickTexts(c, k)[..k - 1] == TrickTexts(c, k - 1);
      LoadOneTrick(c, start, l, k - 1);
    }
  }

  lemma NothingJudged(c: Ctx)
    requires c.Sized() && c.tricksWon == 0 && c.stats == NO_STATS
    ensures Judged(c, 0)
  {
  }

  lemma OneTrickJudged(c: Ctx, l: Ctx, k: nat)
    requires Finished(c) && k < HandSize(c.nbPlayers) && l.Sized() && Judged(l, k)
    requires l.bid.taker == c.bid.taker && LeaderAt(l, k) < c.nbPlayers
    ensures Judged(SetTrick(l, c.tricks[k].cards, k + 1).0, k + 1)
    ensures SetTrick(l, c.tricks[k].cards, k + 1).1 < c.nbPlayers
  {
    hide FullDeck, JudgedTricks, Complete, Judge, Credit, StatsMatch, TrickCards;
    var trick := c.tricks[k].cards;
    JudgeInRange(l.bid, LeaderAt(l, k), l.tricksWon, trick, k + 1);
    SetTrickJudged(l, trick, k);
  }

  lemma TakenFromPack(left: multiset<Card>, left': multiset<Card>, trick: multiset<Card>,
                      before: multiset<Card>, pack: multiset<Card>)
    requires left + before == pack && left' + trick == left
    ensures left' + (before + trick) == pack
  {
    assert left' + (before + trick) == (left' + trick) + before;
  }

  lemma RebuiltLeader(c: Ctx, start: Ctx, l: Loading, k: nat)
    requires Finished(c) && FreshStart(c, start) && k < HandSize(c.nbPlayers) && Rebuilt(c, start, l, k)
    ensures l.ctx.bid.taker == c.bid.taker && LeaderAt(l.ctx, k) < c.nbPlayers && |c.tricks[k].cards| == c.nbPlayers
  {
    hide FullDeck, JudgedTricks, Complete, StatsMatch;
  }

  lemma LoadOneTrick(c: Ctx, start: Ctx, l: Loading, k: nat)
    requires c.Sized() && Finished(c) && FreshStart(c, start) && k < HandSize(c.nbPlayers) && Rebuilt(c, start, l, k)
    ensures var trick := c.tricks[k].cards;
      var ctx := SetTrick(l.ctx, trick, k + 1).0;
      Rebuilt(c, start,
              Loading(ctx.(discard := ctx.discard.(cards := WithoutAll(ctx.discard.cards, trick))), k + 2,
                      l.ok && Hits(ctx.discard.cards, trick) == c.nbPlayers), k + 1)
  {
    hide FullDeck, JudgedTricks, Finished, Judge, SetTrick, StatsMatch, Without, WithoutAll, Hits;
    var trick := c.tricks[k].cards;
    var (ctx, w) := SetTrick(l.ctx, trick, k + 1);
    RebuiltLeader(c, start, l, k);
    OneTrickJudged(c, l.ctx, k);
    TrickStored(l.ctx, trick, k);
    TrickStoredRest(l.ctx, trick, k);
    TrickStillThere(c, k, l.ctx.discard.cards);
    RemovalComplete(l.ctx.discard.cards, trick);
    var ctx' := ctx.(discard := ctx.discard.(cards := WithoutAll(ctx.discard.cards, trick)));
    assert Judged(ctx', k + 1) by { SameStory(ctx, ctx', k + 1); }
    TakenFromPack(multiset(l.ctx.discard.cards), multiset(ctx'.discard.cards), multiset(trick),
                  multiset(TrickCards(c, k)), multiset(FullDeck()));
    assert multiset(TrickCards(c, k + 1)) == multiset(TrickCards(c, k)) + multiset(trick);
  }

  lemma TrickStoredRest(c: Ctx, trick: Cards, k: nat)
    requires c.Sized() && k < MAX_TRICKS
    ensures var c' := SetTrick(c, trick, k + 1).0;
      c' == c.(tricks := c'.tricks, winner := c'.winner, tricksWon := c'.tricksWon, stats := c'.stats)
  {
    hide Judge, Credit;
  }

  // ---------------------------------------------------------------- loaded and live play agree

  /** A partner who is not the taker: the one thing about the bid that the file does not keep. */
  predicate WonByPartner(c: Ctx, t: nat)
    requires c.Sized() && t < MAX_TRICKS
  {
    c.winner[t] == c.bid.partner && c.bid.partner != c.bid.taker
  }

  /** c' holds the tricks of c, judged without a partner. */
  predicate Reloaded(c: Ctx, c': Ctx) {
    Finished(c) && c'.firstPlayer == c.firstPlayer &&
    c'.bid == Bid(c.bid.taker, NOWHERE, c.bid.contract, c.bid.slam) &&
    JudgedTricks(c', HandSize(c.nbPlayers)) &&
    forall t :: 0 <= t < HandSize(c.nbPlayers) ==>
      c'.tricks[t].cards == c.tricks[t].cards && c'.winner[t] < c.nbPlayers
  }

  predicate SameOwners(c: Ctx, c': Ctx, k: nat)
    requires c.Sized() && c'.Sized() && k <= MAX_TRICKS
  {
    forall t :: 0 <= t < k ==> c'.tricks[t].owner == c.tricks[t].owner
  }

  lemma {:induction false} SameOwnersCount(c: Ctx, c': Ctx, k: nat)
    requires c.Sized() && c'.Sized() && k <= MAX_TRICKS && SameOwners(c, c', k)
    ensures WonBefore(c', k) == WonBefore(c, k)
  {
    if k > 0 {
      SameOwnersCount(c, c', k - 1);
    }
  }

  /** As long as the owners agree, the same seat wins each trick. */
  lemma {:induction false} SameWinner(c: Ctx, c': Ctx, t: nat)
    requires Reloaded(c, c') && t < HandSize(c.nbPlayers) && SameOwners(c, c', t)
    ensures c'.winner[t] == c.winner[t] && LeaderAt(c', t) == LeaderAt(c, t)
  {
    hide FullDeck, Complete, GetOwner, Leader;
    if t > 0 {
      SameWinner(c, c', t - 1);
    }
    SameOwnersCount(c, c', t);
    assert JudgedAt(c, t) && JudgedAt(c', t);
  }

  lemma {:induction false} OwnersAgree(c: Ctx, c': Ctx, k: nat)
    requires Reloaded(c, c') && k <= HandSize(c.nbPlayers)
    requires forall t :: 0 <= t < k ==> !WonByPartner(c, t)
    ensures SameOwners(c, c', k)
  {
    hide FullDeck, Complete, VerdictAt;
    if k > 0 {
      OwnersAgree(c, c', k - 1);
      SameWinner(c, c', k - 1);
      assert !WonByPartner(c, k - 1);
      assert JudgedAt(c, k - 1) && JudgedAt(c', k - 1);
    }
  }

  lemma PartnerChangesOwner(c: Ctx, c': Ctx, t: nat)
    requires Reloaded(c, c') && t < HandSize(c.nbPlayers) && SameOwners(c, c', t) && WonByPartner(c, t)
    ensures c'.tricks[t].owner != c.tricks[t].owner
  {
    hide FullDeck, Complete, VerdictAt;
    SameWinner(c, c', t);
    assert JudgedAt(c, t) && JudgedAt(c', t);
  }

  /**
   * Reloading attributes every trick to the side that won it exactly when no trick was won by a
   * partner other than the taker.
   */
  lemma OwnersAgreeIff(c: Ctx, c': Ctx)
    requires Reloaded(c, c')
    ensures SameOwners(c, c', HandSize(c.nbPlayers)) <==>
      forall t :: 0 <= t < HandSize(c.nbPlayers) ==> !WonByPartner(c, t)
  {
    hide FullDeck, Complete, VerdictAt;
    var h := HandSize(c.nbPlayers);
    if forall t :: 0 <= t < h ==> !WonByPartner(c, t) {
      OwnersAgree(c, c', h);
    } else if SameOwners(c, c', h) {
      var t :| 0 <= t < h && WonByPartner(c, t);
      PartnerChangesOwner(c, c', t);
    }
  }

  /** Such a trick: the partner wins it with a king, and reloading it credits the defence. */
  lemma PartnersTrickChangesOwner(c: Ctx)
    requires c.Sized() && c.firstPlayer == 0 && c.bid == Bid(0, 2, TAKE, false)
    ensures var trick := [Card(2, HEARTS), Card(3, HEARTS), Card(KING, HEARTS), Card(4, HEARTS), Card(5, HEARTS)];
      var reloaded := c.(bid := c.bid.(partner := NOWHERE));
      SetTrick(c, trick, 1).1 == 2 == SetTrick(reloaded, trick, 1).1 &&
      SetTrick(c, trick, 1).0.tricks[0].owner == Attack &&
      SetTrick(reloaded, trick, 1).0.tricks[0].owner == Defense
  {
    hide AnalyzeTrumps;
    var trick := [Card(2, HEARTS), Card(3, HEARTS), Card(KING, HEARTS), Card(4, HEARTS), Card(5, HEARTS)];
    assert Takes(trick[2], trick);
    TrickWinner(c.bid, 0, c.tricksWon, trick, 1, 2, 5);
    TrickWinner(c.bid.(partner := NOWHERE), 0, c.tricksWon, trick, 1, 2, 5);
  }

  /** The fool changes sides in the same tricks. */
  lemma SameVerdict(c: Ctx, c': Ctx, t: nat)
    requires Reloaded(c, c') && t < HandSize(c.nbPlayers) && SameOwners(c, c', t)
    requires !WonByPartner(c, t)
    ensures VerdictAt(c', t) == VerdictAt(c, t)
  {
    hide FullDeck, Complete, GetOwner, Leader;
    SameWinner(c, c', t);
    SameOwnersCount(c, c', t);
    assert JudgedAt(c, t) && JudgedAt(c', t);
  }

  lemma {:induction false} SameSide(m: Measure, c: Ctx, c': Ctx, k: nat)
    requires Reloaded(c, c') && k <= HandSize(c.nbPlayers)
    requires SameOwners(c, c', k) && forall t :: 0 <= t < k ==> !WonByPartner(c, t)
    ensures Side(m, c', Attack, k) == Side(m, c, Attack, k)
  {
    hide Reloaded, VerdictAt;
    if k > 0 {
      SameSide(m, c, c', k - 1);
      SameVerdict(c, c', k - 1);
      ReloadedCards(c, c', k - 1);
    }
  }

  lemma ReloadedCards(c: Ctx, c': Ctx, t: nat)
    requires Reloaded(c, c') && t < HandSize(c.nbPlayers)
    ensures c'.tricks[t].cards == c.tricks[t].cards
  {
  }

  // ---------------------------------------------------------------- the deal of an engine

  /** At the end of a deal the file can be written, and it tells the whole deal. */
  lemma EndOfDealIsFinished(e: EngineState)
    requires Engines.Inv(e) && e.phase == WaitForEndOfDeal
    ensures Writable(e.ctx) && Finished(e.ctx) && e.ctx.discard.owner == DiscardOwner(e.ctx.bid)
    ensures e.points == AnalyzeGame(Tallied(e.ctx, HandSize(e.N())), NO_POINTS).1
  {
    hide AnalyzeGame, Tallied, JudgedTricks, StatsMatch, FullDeck, TrickCards;
    var h := HandSize(e.N());
    forall t | 0 <= t < h ensures ValidCards(e.ctx.tricks[t].cards) && Distinct(e.ctx.tricks[t].cards) {
      StoredTrickDistinct(e, t);
    }
    NoCards(e.Hands());
    assert TableCards(e) == TrickCards(e.ctx, h) + e.ctx.discard.cards;
  }

  /** What the fields of the file say when they are read back. */
  lemma FieldsReadBack(c: Ctx)
    requires Writable(c)
    ensures var json := SaveToJson(c);
      FindValue(json, ["deal_info", "number_of_players"]) == Integer(c.nbPlayers) &&
      FindValue(json, ["deal_info", "taker"]) == String(PlaceText(c.bid.taker)) &&
      FindValue(json, ["deal_info", "contract"]) == String(ContractText(c.bid.contract)) &&
      FindValue(json, ["deal_info", "slam"]) == Boolean(c.bid.slam) &&
      FindValue(json, ["deal_info", "first_trick_lead"]) == String(PlaceText(c.firstPlayer)) &&
      FindValue(json, ["deal_info", "dog"]) == String(DeckText(c.dog)) &&
      FindValue(json, ["deal_info", "attack_handle"]) == String(DeckText(c.attackHandle)) &&
      FindValue(json, ["deal_info", "defense_handle"]) == String(DeckText(c.defenseHandle))
  {
    hide FindValue, SaveToJson, DeckText, PlaceText, ContractText;
    var f := DealFields(c);
    assert f[0].0 == "number_of_players" && f[1].0 == "taker" && f[2].0 == "contract" && f[3].0 == "slam";
    assert f[4].0 == "first_trick_lead" && f[5].0 == "dog" && f[6].0 == "attack_handle" && f[7].0 == "defense_handle";
    DealFieldFound(c, 0);
    DealFieldFound(c, 1);
    DealFieldFound(c, 2);
    DealFieldFound(c, 3);
    DealFieldFound(c, 4);
    DealFieldFound(c, 5);
    DealFieldFound(c, 6);
    DealFieldFound(c, 7);
  }

  /** The context the loop over the tricks starts from. */
  function Prepared(c0: Ctx, c: Ctx): Ctx {
    Initialize(c0).(dog := c.dog, attackHandle := c.attackHandle, defenseHandle := c.defenseHandle,
                    firstPlayer := c.firstPlayer,
                    bid := Bid(c.bid.taker, NOWHERE, c.bid.contract, c.bid.slam),
                    discard := Pile(FullDeck(), c0.discard.owner))
  }

  lemma LoadingStarts(c0: Ctx, c: Ctx)
    requires c0.Sized() && Writable(c)
    ensures Prepared(c0, c).Sized()
    ensures |TrickTexts(c, HandSize(c.nbPlayers))| == HandSize(c.nbPlayers)
    ensures LoadFromJson(c0, SaveToJson(c)) ==
      var l := LoadTricks(Prepared(c0, c), TrickTexts(c, HandSize(c.nbPlayers)), c.nbPlayers);
      if |l.ctx.discard.cards| == DogSize(c.nbPlayers) then
        (l.ctx.(discard := l.ctx.discard.(owner := DiscardOwner(c.bid))), l.ok)
      else (l.ctx, false)
  {
    hide FindValue, SaveToJson, DeckText, PlaceText, ContractText, PlaceOfText, ContractOfText, CardsOfText, LoadTricks,
         TrickTexts, FullDeck;
    FieldsReadBack(c);
    TricksFound(c);
    TrickTextsAt(c, HandSize(c.nbPlayers));
    NamesReadBack(c.bid.taker, c.bid.contract);
    NamesReadBack(c.firstPlayer, c.bid.contract);
    DeckTextReadBack(c.dog);
    DeckTextReadBack(c.attackHandle);
    DeckTextReadBack(c.defenseHandle);
  }

  /** Removing every trick from a pack leaves the discard. */
  lemma OnlyDiscardLeft(left: Cards, tricks: Cards, discard: Cards)
    requires multiset(left) + multiset(tricks) == multiset(FullDeck())
    requires Complete(tricks + discard)
    ensures multiset(left) == multiset(discard) && |left| == |discard|
  {
    hide FullDeck;
    forall x ensures multiset(left)[x] == multiset(discard)[x] {
      assert (multiset(left) + multiset(tricks))[x] == multiset(tricks + discard)[x];
    }
    assert multiset(left) == multiset(discard);
    assert |multiset(left)| == |left| && |multiset(discard)| == |discard|;
  }

  lemma PreparedFresh(c0: Ctx, c: Ctx)
    requires c0.Sized()
    ensures FreshStart(c, Prepared(c0, c))
  {
    hide FullDeck;
  }

  /** Everything loading restores, whoever the partner was. */
  predicate Restored(c: Ctx, c': Ctx) {
    Reloaded(c, c') && Judged(c', HandSize(c.nbPlayers)) &&
    c'.dog == c.dog && c'.attackHandle == c.attackHandle && c'.defenseHandle == c.defenseHandle &&
    multiset(c'.discard.cards) == multiset(c.discard.cards) && c'.discard.owner == c.discard.owner
  }

  lemma LoadRestores(c0: Ctx, c: Ctx)
    requires c0.Sized() && Finished(c) && Writable(c) && c.discard.owner == DiscardOwner(c.bid)
    ensures var (c', ok) := LoadFromJson(c0, SaveToJson(c)); ok && Restored(c, c') && c'.nbPlayers == c0.nbPlayers
  {
    hide LoadFromJson, SaveToJson, LoadTricks, TrickTexts, FullDeck, Judged, JudgedTricks, StatsMatch, Complete;
    var h := HandSize(c.nbPlayers);
    var start := Prepared(c0, c);
    LoadingStarts(c0, c);
    PreparedFresh(c0, c);
    LoadTricksRebuilds(c, start, h);
    var l := LoadTricks(start, TrickTexts(c, h), c.nbPlayers);
    OnlyDiscardLeft(l.ctx.discard.cards, TrickCards(c, h), c.discard.cards);
    var c' := l.ctx.(discard := l.ctx.discard.(owner := DiscardOwner(c.bid)));
    JudgedParts(l.ctx, h);
    SameStory(l.ctx, c', h);
    JudgedFromParts(c', h);
  }

  lemma JudgedParts(c: Ctx, k: nat)
    requires Judged(c, k)
    ensures JudgedTricks(c, k) && c.Sized() && k <= MAX_TRICKS && StatsMatch(c, k)
  {
  }

  lemma JudgedFromParts(c: Ctx, k: nat)
    requires JudgedTricks(c, k) && c.Sized() && k <= MAX_TRICKS && StatsMatch(c, k)
    ensures Judged(c, k)
  {
  }

  /** Same owners, same seats, same count, same points. */
  lemma RestoredScore(c: Ctx, c': Ctx)
    requires Restored(c, c') && c'.nbPlayers == c.nbPlayers
    requires forall t :: 0 <= t < HandSize(c.nbPlayers) ==> !WonByPartner(c, t)
    ensures c'.tricksWon == c.tricksWon
    ensures forall t :: 0 <= t < HandSize(c.nbPlayers) ==>
      c'.tricks[t] == c.tricks[t] && c'.winner[t] == c.winner[t]
    ensures AnalyzeGame(c', NO_POINTS).1 == AnalyzeGame(Tallied(c, HandSize(c.nbPlayers)), NO_POINTS).1
  {
    hide AnalyzeGame, Complete, VerdictAt, Side, WonByPartner;
    var h := HandSize(c.nbPlayers);
    OwnersAgree(c, c', h);
    SameOwnersCount(c, c', h);
    SameSide(HALVES, c, c', h);
    SameSide(OUDLER_COUNT, c, c', h);
    forall t | 0 <= t < h ensures c'.tricks[t] == c.tricks[t] && c'.winner[t] == c.winner[t] {
      SameWinner(c, c', t);
    }
    ByteAdds(Side(OUDLER_COUNT, c, Attack, h), 0);
    PointsIgnoreTrumps(Tallied(c, h), c');
  }

  /**
   * A deal played to its end, saved to a file at any indentation and loaded into a context of the
   * same size: the text parses, and every trick, the dog, the handles and the discard come back.
   */
  lemma SavedDealLoads(e: EngineState, c0: Ctx, level: int, show: real -> string)
    requires Engines.Inv(e) && e.phase == WaitForEndOfDeal && c0.Sized()
    ensures var json := SaveToJson(e.ctx);
      Parse(Text(json, level, show)) == Done(json) &&
      var (c', ok) := LoadFromJson(c0, json);
      ok && Restored(e.ctx, c') && c'.nbPlayers == c0.nbPlayers
  {
    hide AnalyzeGame, LoadFromJson, SaveToJson, Restored, PlayInv, Finished, DiscardOwner;
    EndOfDealIsFinished(e);
    SavedFileParses(e.ctx, level, show);
    LoadRestores(c0, e.ctx);
  }

  /**
   * The tricks come back on the sides that won them exactly when no trick was won by a partner other
   * than the taker; then the seats, the count of tricks and the points are those of the live deal.
   */
  lemma DealReplays(e: EngineState, c': Ctx)
    requires Engines.Inv(e) && e.phase == WaitForEndOfDeal && Restored(e.ctx, c') && c'.nbPlayers == e.N()
    ensures var h := HandSize(e.N());
      var kept := forall t :: 0 <= t < h ==> !WonByPartner(e.ctx, t);
      (SameOwners(e.ctx, c', h) <==> kept) &&
      (kept ==>
        (forall t :: 0 <= t < h ==> c'.tricks[t] == e.ctx.tricks[t] && c'.winner[t] == e.ctx.winner[t]) &&
        c'.tricksWon == e.ctx.tricksWon && AnalyzeGame(c', NO_POINTS).1 == e.points)
  {
    hide AnalyzeGame, PlayInv, Finished, Tallied, JudgedTricks, StatsMatch, WonByPartner, SameOwners;
    EndOfDealIsFinished(e);
    OwnersAgreeIff(e.ctx, c');
    if forall t :: 0 <= t < HandSize(e.N()) ==> !WonByPartner(e.ctx, t) {
      RestoredScore(e.ctx, c');
    }
  }
}
