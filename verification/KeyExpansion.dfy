/** The expansion of an AES key into round keys. */
module KeyExpansion {
  import opened Division
  import opened ByteField
  import opened Aes

  // ---------------------------------------------------------------- words

  /** A 32-bit word by its bytes, the least significant one first, as it lies in memory. */
  datatype Word = Word(b0: bv8, b1: bv8, b2: bv8, b3: bv8)

  function Xor(v: Word, w: Word): Word {
    Word(v.b0 ^ w.b0, v.b1 ^ w.b1, v.b2 ^ w.b2, v.b3 ^ w.b3)
  }

  function Or(v: Word, w: Word): Word {
    Word(v.b0 | w.b0, v.b1 | w.b1, v.b2 | w.b2, v.b3 | w.b3)
  }

  /** Shifts by 24 bits to the left and by 8 bits to the right. */
  function ShiftLeft24(w: Word): Word {
    Word(0, 0, 0, w.b0)
  }

  function ShiftRight8(w: Word): Word {
    Word(w.b1, w.b2, w.b3, 0)
  }

  /** A byte widened to a word. */
  function Widened(b: bv8): Word {
    Word(b, 0, 0, 0)
  }

  // FIPS 197, section 5.2.

  function RotWord(w: Word): Word {
    Word(w.b1, w.b2, w.b3, w.b0)
  }

  function SubWord(w: Word): Word {
    Word(SBox(w.b0), SBox(w.b1), SBox(w.b2), SBox(w.b3))
  }

  /** x to the power k in the field of bytes. */
  function XPower(k: nat): bv8 {
    if k == 0 then 1 else XTime(XPower(k - 1))
  }

  /** Word i of the expanded key. */
  function WordAt(key: seq<Word>, i: nat): Word
    requires |key| >= 1
  {
    var nk := |key|;
    if i < nk then key[i]
    else
      var temp := WordAt(key, i - 1);
      Xor(WordAt(key, i - nk),
          if i % nk == 0 then Xor(SubWord(RotWord(temp)), Widened(XPower(i / nk - 1)))
          else if nk > 6 && i % nk == 4 then SubWord(temp)
          else temp)
  }

  // ---------------------------------------------------------------- the code, one word

  function AesRotWord(word: Word): Word {
    Or(ShiftLeft24(word), ShiftRight8(word))
  }

  lemma RotIsRotWord(word: Word)
    ensures AesRotWord(word) == RotWord(word)
  {
  }

  /** The word in each of the four lanes of a register. */
  function Dup(w: Word): Block {
    seq(16, i requires 0 <= i < 16 =>
      if i % 4 == 0 then w.b0 else if i % 4 == 1 then w.b1 else if i % 4 == 2 then w.b2 else w.b3)
  }

  function LaneZero(b: Block): Word {
    Word(b[0], b[1], b[2], b[3])
  }

  function Zeros(): Block {
    [0, 0, 0, 0, 0, 0, 0, 0, 0, 0, 0, 0, 0, 0, 0, 0]
  }

  function AesSubWord(word: Word): Word {
    LaneZero(Aese(Zeros(), Dup(word)))
  }

  /** Shifting the rows of a block of four equal columns changes nothing. */
  lemma SubIsSubWord(word: Word)
    ensures AesSubWord(word) == SubWord(word)
  {
    hide SBox, Add;
    AddZero(word.b0);
    AddZero(word.b1);
    AddZero(word.b2);
    AddZero(word.b3);
    assert ShiftFrom(0) == 0 && ShiftFrom(1) == 5 && ShiftFrom(2) == 10 && ShiftFrom(3) == 15;
  }

  /** The code substitutes first and rotates after; the standard does it the other way round. */
  lemma RotateSubstituted(word: Word)
    ensures AesRotWord(AesSubWord(word)) == SubWord(RotWord(word))
  {
    hide SBox, AesSubWord, AesRotWord;
    SubIsSubWord(word);
    RotIsRotWord(SubWord(word));
  }

  const RCON: seq<bv8> := [0x01, 0x02, 0x04, 0x08, 0x10, 0x20, 0x40, 0x80, 0x1b, 0x36]

  lemma RconIsPower(k: nat)
    requires k < 10
    ensures RCON[k] == XPower(k)
  {
    assert XPower(0) == 0x01;
    assert XPower(1) == 0x02;
    assert XPower(2) == 0x04;
    assert XPower(3) == 0x08;
    assert XPower(4) == 0x10;
    assert XPower(5) == 0x20;
    assert XPower(6) == 0x40;
    assert XPower(7) == 0x80;
    assert XPower(8) == 0x1b;
    assert XPower(9) == 0x36;
  }

  // ---------------------------------------------------------------- the code, all words

  /** The first n words are those of the expanded key; the others are as they were. */
  predicate Filled(rk: array<Word>, key: seq<Word>, n: nat, before: seq<Word>)
    requires |key| >= 1
    reads rk
  {
    n <= rk.Length == |before| &&
    (forall i :: 0 <= i < n ==> rk[i] == WordAt(key, i)) && forall i :: n <= i < rk.Length ==> rk[i] == before[i]
  }

  /** The log of the words written: 0, 1, 2, ... without a gap and without repetition. */
  predicate InOrder(log: seq<nat>, n: nat) {
    |log| == n && forall i :: 0 <= i < n ==> log[i] == i
  }

  function KeyLength(nk: nat): nat {
    4 * (nk + 6 + 1)
  }

  /** One assignment to a word of the key. */
  method Put(rk: array<Word>, i: nat, w: Word, ghost key: seq<Word>, ghost before: seq<Word>, ghost log0: seq<nat>)
    returns (ghost log: seq<nat>)
    requires |key| >= 1 && i < rk.Length && Filled(rk, key, i, before) && InOrder(log0, i) && w == WordAt(key, i)
    modifies rk
    ensures Filled(rk, key, i + 1, before) && InOrder(log, i + 1) && log == log0 + [i]
  {
    hide WordAt;
    rk[i] := w;
    log := log0 + [i];
  }

  /** A word that only adds its predecessor. */
  lemma PlainWord(key: seq<Word>, i: nat)
    requires |key| >= 1 && i >= |key| && i % |key| != 0 && !(|key| > 6 && i % |key| == 4)
    ensures WordAt(key, i) == Xor(WordAt(key, i - 1), WordAt(key, i - |key|))
  {
    hide SubWord;
    XorComm(WordAt(key, i - 1), WordAt(key, i - |key|));
  }

  lemma XorComm(v: Word, w: Word)
    ensures Xor(v, w) == Xor(w, v)
  {
    hide Add;
    AddSym(v.b0, w.b0);
    AddSym(v.b1, w.b1);
    AddSym(v.b2, w.b2);
    AddSym(v.b3, w.b3);
    XorIsAdd(v, w);
    XorIsAdd(w, v);
  }

  lemma XorIsAdd(v: Word, w: Word)
    ensures Xor(v, w) == Word(Add(v.b0, w.b0), Add(v.b1, w.b1), Add(v.b2, w.b2), Add(v.b3, w.b3))
  {
  }

  lemma XorAssoc(u: Word, v: Word, w: Word)
    ensures Xor(u, Xor(v, w)) == Xor(w, Xor(u, v))
  {
    hide Add, Xor;
    XorIsAdd(v, w);
    XorIsAdd(u, Xor(v, w));
    XorIsAdd(u, v);
    XorIsAdd(w, Xor(u, v));
    AddTurn(u.b0, v.b0, w.b0);
    AddTurn(u.b1, v.b1, w.b1);
    AddTurn(u.b2, v.b2, w.b2);
    AddTurn(u.b3, v.b3, w.b3);
  }

  lemma AddTurn(a: bv8, b: bv8, c: bv8)
    ensures Add(a, Add(b, c)) == Add(c, Add(a, b))
  {
    hide Add;
    AddZero(a);
    AddSwap(0, a, c, b);
    AddSym(b, c);
    AddZero(c);
    AddZero(Add(c, b));
  }

  lemma RotatedWord(key: seq<Word>, i: nat)
    requires |key| >= 1 && i >= |key| && i % |key| == 0
    ensures i / |key| >= 1
    ensures WordAt(key, i) ==
      Xor(WordAt(key, i - |key|), Xor(SubWord(RotWord(WordAt(key, i - 1))), Widened(XPower(i / |key| - 1))))
  {
    hide SubWord, RotWord, XPower, Xor;
  }

  /** In the middle of a round of a 256-bit key: substituted only. */
  lemma MiddleWord(key: seq<Word>, i: nat)
    requires |key| > 6 && i >= |key| && i % |key| == 4
    ensures WordAt(key, i) == Xor(AesSubWord(WordAt(key, i - 1)), WordAt(key, i - |key|))
  {
    hide SubWord, AesSubWord, Xor;
    SubIsSubWord(WordAt(key, i - 1));
    XorComm(SubWord(WordAt(key, i - 1)), WordAt(key, i - |key|));
  }

  /** The first word of a round: rotated, substituted, with the round constant. */
  lemma FirstWord(key: seq<Word>, i: nat, k: nat)
    requires |key| >= 1 && k < 10 && i >= |key| && i % |key| == 0 && i / |key| == k + 1
    ensures WordAt(key, i) ==
      Xor(AesRotWord(AesSubWord(WordAt(key, i - 1))), Xor(Widened(RCON[k]), WordAt(key, i - |key|)))
  {
    hide SubWord, RotWord, AesSubWord, AesRotWord, XPower, Xor, WordAt;
    RotatedWord(key, i);
    RotateSubstituted(WordAt(key, i - 1));
    RconIsPower(k);
    XorAssoc(WordAt(key, i - |key|), SubWord(RotWord(WordAt(key, i - 1))), Widened(RCON[k]));
    XorAssoc(Widened(RCON[k]), WordAt(key, i - |key|), SubWord(RotWord(WordAt(key, i - 1))));
  }

  /** Round k of the loop: where it writes, and how many words there is room for. */
  lemma RoundFits(nk: nat, k: nat)
    requires nk in {4, 6, 8} && nk * k + nk < KeyLength(nk)
    ensures k < 10 && nk * k + nk + 4 <= KeyLength(nk)
    ensures nk * k + nk + nk > KeyLength(nk) ==> nk * k + nk + 4 == KeyLength(nk)
  {
    if nk == 4 {
    } else if nk == 6 {
      assert k <= 7;
    } else {
      assert k <= 6;
    }
  }

  /** Word j of a round other than the first and, for a 256-bit key, the fifth. */
  method PutNext(rk: array<Word>, k: nat, j: nat, ghost key: seq<Word>, nk: nat, ghost before: seq<Word>, ghost log0: seq<nat>)
    returns (ghost log: seq<nat>)
    requires |key| == nk && nk in {4, 6, 8} && 1 <= j < nk && (nk == 8 ==> j != 4) && nk * k + nk + j < rk.Length
    requires Filled(rk, key, nk * k + nk + j, before) && InOrder(log0, nk * k + nk + j)
    modifies rk
    ensures Filled(rk, key, nk * k + nk + j + 1, before) && InOrder(log, nk * k + nk + j + 1)
  {
    hide WordAt, Xor;
    var rki := nk * k;
    var i := rki + nk + j;
    QuotientIs(nk, k + 1, j);
    assert i == nk * (k + 1) + j;
    PlainWord(key, i);
    log := Put(rk, i, Xor(rk[i - 1], rk[rki + j]), key, before, log0);
  }

  /** The first four words of a round. */
  method PutFour(rk: array<Word>, k: nat, ghost key: seq<Word>, nk: nat, ghost before: seq<Word>, ghost log0: seq<nat>)
    returns (ghost log: seq<nat>)
    requires |key| == nk && nk in {4, 6, 8} && nk * k + nk < KeyLength(nk) <= rk.Length
    requires Filled(rk, key, nk * k + nk, before) && InOrder(log0, nk * k + nk)
    modifies rk
    ensures Filled(rk, key, nk * k + nk + 4, before) && InOrder(log, nk * k + nk + 4)
  {
    hide WordAt, Xor, AesSubWord, AesRotWord;
    RoundFits(nk, k);
    var rki := nk * k;
    var rko := rki + nk;
    QuotientIs(nk, k, 0);
    QuotientIs(nk, k + 1, 0);
    var iteration := rki / nk;
    assert rko == nk * (k + 1) + 0;
    FirstWord(key, rko, k);
    var first := AesRotWord(AesSubWord(rk[rko - 1]));
    first := Xor(first, Xor(Widened(RCON[iteration]), rk[rki]));
    log := Put(rk, rko, first, key, before, log0);
    log := PutNext(rk, k, 1, key, nk, before, log);
    log := PutNext(rk, k, 2, key, nk, before, log);
    log := PutNext(rk, k, 3, key, nk, before, log);
  }

  /** The last four words of a round for a 256-bit key. */
  method PutLastFour(rk: array<Word>, k: nat, ghost key: seq<Word>, ghost before: seq<Word>, ghost log0: seq<nat>)
    returns (ghost log: seq<nat>)
    requires |key| == 8 && 8 * k + 16 <= rk.Length
    requires Filled(rk, key, 8 * k + 12, before) && InOrder(log0, 8 * k + 12)
    modifies rk
    ensures Filled(rk, key, 8 * k + 16, before) && InOrder(log, 8 * k + 16)
  {
    hide WordAt, Xor, AesSubWord;
    var i := 8 * k + 12;
    QuotientIs(8, k + 1, 4);
    MiddleWord(key, i);
    log := Put(rk, i, Xor(AesSubWord(rk[i - 1]), rk[8 * k + 4]), key, before, log0);
    log := PutNext(rk, k, 5, key, 8, before, log);
    log := PutNext(rk, k, 6, key, 8, before, log);
    log := PutNext(rk, k, 7, key, 8, before, log);
  }

  /**
   * `aesce_setkey_enc`: every word of the expanded key is written, in order and once, nothing is
   * written after the last one, and the round constants are read within their table.
   */
  method AesceSetkeyEnc(rk: array<Word>, key: seq<Word>) returns (ghost log: seq<nat>)
    requires |key| in {4, 6, 8} && KeyLength(|key|) <= rk.Length
    modifies rk
    ensures forall i :: 0 <= i < KeyLength(|key|) ==> rk[i] == WordAt(key, i)
    ensures forall i :: KeyLength(|key|) <= i < rk.Length ==> rk[i] == old(rk[i])
    ensures InOrder(log, KeyLength(|key|))
  {
    hide WordAt, Xor, AesSubWord;
    ghost var before := rk[..];
    var nk := |key|;
    var total := KeyLength(nk);
    log := [];
    for i := 0 to nk
      invariant Filled(rk, key, i, before) && InOrder(log, i)
    {
      GivenWord(key, i);
      log := Put(rk, i, key[i], key, before, log);
    }
    var k := 0;
    while nk * k + nk < total
      invariant Filled(rk, key, if nk * k + nk < total then nk * k + nk else total, before)
      invariant InOrder(log, if nk * k + nk < total then nk * k + nk else total)
      decreases total - nk * k
    {
      RoundFits(nk, k);
      log := PutFour(rk, k, key, nk, before, log);
      if nk * k + nk + nk <= total {
        if nk == 6 {
          log := PutNext(rk, k, 4, key, nk, before, log);
          log := PutNext(rk, k, 5, key, nk, before, log);
        } else if nk == 8 {
          log := PutLastFour(rk, k, key, before, log);
        }
      }
      assert nk * (k + 1) == nk * k + nk;
      k := k + 1;
    }
  }

  lemma GivenWord(key: seq<Word>, i: nat)
    requires i < |key|
    ensures WordAt(key, i) == key[i]
  {
  }
}
