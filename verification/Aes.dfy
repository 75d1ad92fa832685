/** The AES block operations as the Arm crypto extension code composes them. */
module Aes {
  import opened Division
  import opened ByteField
  import Ghash

  type Block = Ghash.Block

  // ---------------------------------------------------------------- transformations of a block

  // Byte r + 4 c of a block is row r, column c of the state.

  function Sum(a: Block, b: Block): Block {
    seq(16, i requires 0 <= i < 16 => Add(a[i], b[i]))
  }

  function SubBytes(b: Block): Block {
    seq(16, i requires 0 <= i < 16 => SBox(b[i]))
  }

  function InvSubBytes(b: Block): Block {
    seq(16, i requires 0 <= i < 16 => InvSBox(b[i]))
  }

  /** Where the shift takes byte i from: row r moves left by r columns. */
  function ShiftFrom(i: nat): nat {
    var r, c := i % 4, i / 4;
    4 * (if c + r < 4 then c + r else c + r - 4) + r
  }

  function InvShiftFrom(i: nat): nat {
    var r, c := i % 4, i / 4;
    4 * (if c >= r then c - r else c + 4 - r) + r
  }

  function ShiftRows(b: Block): Block {
    seq(16, i requires 0 <= i < 16 => b[ShiftFrom(i)])
  }

  function InvShiftRows(b: Block): Block {
    seq(16, i requires 0 <= i < 16 => b[InvShiftFrom(i)])
  }

  /** The byte k rows below byte i in its column. */
  function Below(i: nat, k: nat): nat
    requires k < 4
  {
    if i % 4 + k < 4 then i + k else i + k - 4
  }

  lemma BelowInColumn(i: nat, k: nat)
    requires i < 16 && k < 4
    ensures Below(i, k) < 16 && Below(i, k) / 4 == i / 4
    ensures Below(i, k) % 4 == if i % 4 + k < 4 then i % 4 + k else i % 4 + k - 4
  {
  }

  function MixColumns(b: Block): Block {
    seq(16, i requires 0 <= i < 16 => MixByte(b[i], b[Below(i, 1)], b[Below(i, 2)], b[Below(i, 3)]))
  }

  function InvMixColumns(b: Block): Block {
    seq(16, i requires 0 <= i < 16 => InvMixByte(b[i], b[Below(i, 1)], b[Below(i, 2)], b[Below(i, 3)]))
  }

  lemma SumSelf(a: Block, b: Block)
    ensures Sum(Sum(a, b), b) == a
  {
    hide Add;
    forall i | 0 <= i < 16 ensures Sum(Sum(a, b), b)[i] == a[i] {
      AddTwice(a[i], b[i]);
    }
  }

  lemma AddTwice(a: bv8, b: bv8)
    ensures Add(Add(a, b), b) == a
  {
    hide Add;
    AddZero(a);
    AddZero(b);
    AddSwap(a, b, 0, b);
  }

  lemma SubInverts(b: Block)
    ensures InvSubBytes(SubBytes(b)) == b
  {
    hide SBox, InvSBox;
    forall i | 0 <= i < 16 ensures InvSubBytes(SubBytes(b))[i] == b[i] {
      SBoxInverts(b[i]);
    }
  }

  lemma ShiftInverts(b: Block)
    ensures InvShiftRows(ShiftRows(b)) == b
  {
    forall i | 0 <= i < 16 ensures InvShiftRows(ShiftRows(b))[i] == b[i] {
      ShiftTurns(i);
    }
  }

  lemma ShiftTurns(i: nat)
    requires i < 16
    ensures InvShiftFrom(i) < 16 && ShiftFrom(InvShiftFrom(i)) == i
  {
    var r, c := i % 4, i / 4;
    QuotientIs(4, if c >= r then c - r else c + 4 - r, r);
  }

  lemma MixInverts(b: Block)
    ensures InvMixColumns(MixColumns(b)) == b
  {
    hide MixByte, InvMixByte;
    forall i | 0 <= i < 16 ensures InvMixColumns(MixColumns(b))[i] == b[i] {
      ColumnTurns(i);
      InvMixInverts(b[i], b[Below(i, 1)], b[Below(i, 2)], b[Below(i, 3)]);
    }
  }

  lemma ColumnTurns(i: nat)
    requires i < 16
    ensures Below(i, 1) < 16 && Below(i, 2) < 16 && Below(i, 3) < 16
    ensures Below(Below(i, 1), 1) == Below(i, 2) && Below(Below(i, 1), 2) == Below(i, 3) && Below(Below(i, 1), 3) == i
    ensures Below(Below(i, 2), 1) == Below(i, 3) && Below(Below(i, 2), 2) == i && Below(Below(i, 2), 3) == Below(i, 1)
    ensures Below(Below(i, 3), 1) == i && Below(Below(i, 3), 2) == Below(i, 1) && Below(Below(i, 3), 3) == Below(i, 2)
  {
    BelowInColumn(i, 1);
    BelowInColumn(i, 2);
    BelowInColumn(i, 3);
  }

  lemma InvMixSum(a: Block, b: Block)
    ensures InvMixColumns(Sum(a, b)) == Sum(InvMixColumns(a), InvMixColumns(b))
  {
    hide InvMixByte, Add, Below;
    forall i | 0 <= i < 16 ensures InvMixColumns(Sum(a, b))[i] == Sum(InvMixColumns(a), InvMixColumns(b))[i] {
      ColumnTurns(i);
      InvMixLinear(a[i], a[Below(i, 1)], a[Below(i, 2)], a[Below(i, 3)], b[i], b[Below(i, 1)], b[Below(i, 2)], b[Below(i, 3)]);
    }
  }

  // ---------------------------------------------------------------- the instructions

  /** `vaeseq_u8`. */
  function Aese(data: Block, key: Block): Block {
    ShiftRows(SubBytes(Sum(data, key)))
  }

  /** `vaesdq_u8`. */
  function Aesd(data: Block, key: Block): Block {
    InvSubBytes(InvShiftRows(Sum(data, key)))
  }

  lemma AesdUndoesAese(data: Block, key: Block)
    ensures InvSubBytes(InvShiftRows(Aese(data, key))) == Sum(data, key)
  {
    hide SubBytes, InvSubBytes, ShiftRows, InvShiftRows, Sum;
    ShiftInverts(SubBytes(Sum(data, key)));
    SubInverts(Sum(data, key));
  }

  // ---------------------------------------------------------------- the cipher of FIPS 197, section 5.1

  type Keys = seq<Block>

  /** The state after the addition of round key r. */
  function CipherState(input: Block, w: Keys, r: nat): Block
    requires r < |w|
  {
    if r == 0 then Sum(input, w[0])
    else Sum(MixColumns(ShiftRows(SubBytes(CipherState(input, w, r - 1)))), w[r])
  }

  function Cipher(input: Block, w: Keys): Block
    requires |w| >= 2
  {
    var nr := |w| - 1;
    Sum(ShiftRows(SubBytes(CipherState(input, w, nr - 1))), w[nr])
  }

  /** Section 5.3: the state before the last r rounds of the cipher are undone further. */
  function InvCipherState(input: Block, w: Keys, r: nat): Block
    requires r < |w|
  {
    var nr := |w| - 1;
    if r == 0 then Sum(input, w[nr])
    else InvMixColumns(Sum(InvSubBytes(InvShiftRows(InvCipherState(input, w, r - 1))), w[nr - r]))
  }

  function InvCipher(input: Block, w: Keys): Block
    requires |w| >= 2
  {
    Sum(InvSubBytes(InvShiftRows(InvCipherState(input, w, |w| - 2))), w[0])
  }

  /** Undoing r rounds leads to the state before them. */
  lemma {:induction false} RoundsUndone(input: Block, w: Keys, r: nat)
    requires r + 1 < |w|
    ensures InvCipherState(Cipher(input, w), w, r) == ShiftRows(SubBytes(CipherState(input, w, |w| - 2 - r)))
  {
    hide Sum, SubBytes, InvSubBytes, ShiftRows, InvShiftRows, MixColumns, InvMixColumns;
    var nr := |w| - 1;
    if r == 0 {
      SumSelf(ShiftRows(SubBytes(CipherState(input, w, nr - 1))), w[nr]);
    } else {
      RoundsUndone(input, w, r - 1);
      var state := CipherState(input, w, nr - r);
      ShiftInverts(SubBytes(state));
      SubInverts(state);
      var before := ShiftRows(SubBytes(CipherState(input, w, nr - r - 1)));
      SumSelf(MixColumns(before), w[nr - r]);
      MixInverts(before);
    }
  }

  /** The inverse cipher undoes the cipher, for every number of rounds and every round keys. */
  lemma InvCipherUndoes(input: Block, w: Keys)
    requires |w| >= 2
    ensures InvCipher(Cipher(input, w), w) == input
  {
    hide Sum, SubBytes, InvSubBytes, ShiftRows, InvShiftRows, Cipher;
    RoundsUndone(input, w, |w| - 2);
    var state := CipherState(input, w, 0);
    ShiftInverts(SubBytes(state));
    SubInverts(state);
    SumSelf(input, w[0]);
  }

  // ---------------------------------------------------------------- the code

  /** The key of round i in a buffer of round keys. */
  function KeyAt(buffer: seq<bv8>, i: nat): Block
    requires 16 * i + 16 <= |buffer|
  {
    buffer[16 * i..16 * i + 16]
  }

  function RoundKeys(buffer: seq<bv8>, nr: nat): (w: Keys)
    requires 16 * (nr + 1) <= |buffer|
    ensures |w| == nr + 1
  {
    seq(nr + 1, i requires 0 <= i < nr + 1 => KeyAt(buffer, i))
  }

  /** The block in the loop of the encryption: round key i has not been added yet. */
  function EncryptLoop(block: Block, w: Keys, i: nat): Block
    requires i < |w|
  {
    if i == 0 then block else MixColumns(Aese(EncryptLoop(block, w, i - 1), w[i - 1]))
  }

  lemma {:induction false} EncryptLoopIsCipher(block: Block, w: Keys, i: nat)
    requires i < |w|
    ensures Sum(EncryptLoop(block, w, i), w[i]) == CipherState(block, w, i)
  {
    hide Sum, SubBytes, ShiftRows, MixColumns;
    if i > 0 {
      EncryptLoopIsCipher(block, w, i - 1);
    }
  }

  method AesceEncryptBlock(input: Block, keys: array<bv8>, rounds: nat) returns (block: Block)
    requires 1 <= rounds && 16 * (rounds + 1) <= keys.Length
    ensures block == Cipher(input, RoundKeys(keys[..], rounds))
  {
    hide Sum, SubBytes, ShiftRows, MixColumns;
    ghost var w := RoundKeys(keys[..], rounds);
    block := input;
    for i := 0 to rounds - 1
      invariant block == EncryptLoop(input, w, i)
    {
      block := Aese(block, KeyAt(keys[..], i));
      block := MixColumns(block);
    }
    EncryptLoopIsCipher(input, w, rounds - 1);
    block := Aese(block, KeyAt(keys[..], rounds - 1));
    block := Sum(block, KeyAt(keys[..], rounds));
  }

  /** The decryption keys: in reverse order, and mixed backwards except for the first and the last. */
  function InverseKeys(w: Keys): (d: Keys)
    ensures |d| == |w|
  {
    var nr := |w| - 1;
    seq(|w|, i requires 0 <= i < |w| => if i == 0 || i == nr then w[nr - i] else InvMixColumns(w[nr - i]))
  }

  /** The block in the loop of the decryption: decryption key i has not been added yet. */
  function DecryptLoop(block: Block, d: Keys, i: nat): Block
    requires i < |d|
  {
    if i == 0 then block else InvMixColumns(Aesd(DecryptLoop(block, d, i - 1), d[i - 1]))
  }

  // Section 5.3.5, with the decryption keys in the order in which they are used.

  /** The state after the addition of decryption key r. */
  function EqInvCipherState(block: Block, d: Keys, r: nat): Block
    requires r < |d|
  {
    if r == 0 then Sum(block, d[0])
    else Sum(InvMixColumns(InvShiftRows(InvSubBytes(EqInvCipherState(block, d, r - 1)))), d[r])
  }

  function EqInvCipher(block: Block, d: Keys): Block
    requires |d| >= 2
  {
    var nr := |d| - 1;
    Sum(InvShiftRows(InvSubBytes(EqInvCipherState(block, d, nr - 1))), d[nr])
  }

  lemma InvSubAndShift(s: Block)
    ensures InvShiftRows(InvSubBytes(s)) == InvSubBytes(InvShiftRows(s))
  {
  }

  /** The instruction adds the key first, shifts before it substitutes, and leaves the mixing to a second one. */
  lemma {:induction false} DecryptLoopIsEqInvCipher(block: Block, d: Keys, i: nat)
    requires i < |d|
    ensures Sum(DecryptLoop(block, d, i), d[i]) == EqInvCipherState(block, d, i)
  {
    hide Sum, InvSubBytes, InvShiftRows, InvMixColumns;
    if i > 0 {
      DecryptLoopIsEqInvCipher(block, d, i - 1);
      InvSubAndShift(EqInvCipherState(block, d, i - 1));
    }
  }

  /** Because the inverse mixing is linear, mixed keys may be added after it. */
  lemma {:induction false} EqInvStateIsInvState(block: Block, w: Keys, i: nat)
    requires i + 1 < |w|
    ensures EqInvCipherState(block, InverseKeys(w), i) == InvCipherState(block, w, i)
  {
    hide Sum, InvSubBytes, InvShiftRows, InvMixColumns;
    if i > 0 {
      EqInvStateIsInvState(block, w, i - 1);
      InvSubAndShift(InvCipherState(block, w, i - 1));
      InvMixSum(InvSubBytes(InvShiftRows(InvCipherState(block, w, i - 1))), w[|w| - 1 - i]);
    }
  }

  /** The equivalent inverse cipher of section 5.3.5 is the inverse cipher of section 5.3. */
  lemma EqInvCipherIsInvCipher(block: Block, w: Keys)
    requires |w| >= 2
    ensures EqInvCipher(block, InverseKeys(w)) == InvCipher(block, w)
  {
    hide Sum, InvSubBytes, InvShiftRows, InvMixColumns;
    EqInvStateIsInvState(block, w, |w| - 2);
    InvSubAndShift(InvCipherState(block, w, |w| - 2));
  }

  method AesceDecryptBlock(input: Block, keys: array<bv8>, rounds: nat) returns (block: Block)
    requires 1 <= rounds && 16 * (rounds + 1) <= keys.Length
    ensures block == EqInvCipher(input, RoundKeys(keys[..], rounds))
  {
    hide Sum, InvSubBytes, InvShiftRows, InvMixColumns;
    ghost var d := RoundKeys(keys[..], rounds);
    block := input;
    for i := 0 to rounds - 1
      invariant block == DecryptLoop(input, d, i)
    {
      block := Aesd(block, KeyAt(keys[..], i));
      block := InvMixColumns(block);
    }
    DecryptLoopIsEqInvCipher(input, d, rounds - 1);
    InvSubAndShift(EqInvCipherState(input, d, rounds - 1));
    block := Aesd(block, KeyAt(keys[..], rounds - 1));
    block := Sum(block, KeyAt(keys[..], rounds));
  }

  /** `vst1q_u8`. */
  method StoreBlock(buffer: array<bv8>, at: nat, b: Block)
    requires at + 16 <= buffer.Length
    modifies buffer
    ensures buffer[at..at + 16] == b
    ensures buffer[..at] == old(buffer[..at]) && buffer[at + 16..] == old(buffer[at + 16..])
  {
    forall k | 0 <= k < 16 {
      buffer[at + k] := b[k];
    }
  }

  method MbedtlsAesceInverseKey(invkey: array<bv8>, fwdkey: array<bv8>, nr: nat)
    requires 1 <= nr && 16 * (nr + 1) <= fwdkey.Length && 16 * (nr + 1) <= invkey.Length && invkey != fwdkey
    modifies invkey
    ensures RoundKeys(invkey[..], nr) == InverseKeys(RoundKeys(fwdkey[..], nr))
    ensures invkey[16 * (nr + 1)..] == old(invkey[16 * (nr + 1)..])
  {
    hide InvMixColumns, KeyAt, RoundKeys, InverseKeys;
    ghost var w := RoundKeys(fwdkey[..], nr);
    var i, j := 0, nr;
    StoreBlock(invkey, 0, KeyAt(fwdkey[..], j));
    assert invkey[..][16 * 0..16 * 0 + 16] == invkey[0..0 + 16];
    KeyStored(fwdkey[..], invkey[..], nr, 0);
    i, j := 1, nr - 1;
    while j > 0
      invariant i + j == nr && 1 <= i && 0 <= j && |w| == nr + 1
      invariant forall k :: 0 <= k < i ==> KeyAt(invkey[..], k) == InverseKeys(w)[k]
      invariant invkey[16 * (nr + 1)..] == old(invkey[16 * (nr + 1)..])
    {
      ghost var before := invkey[..];
      StoreBlock(invkey, 16 * i, InvMixColumns(KeyAt(fwdkey[..], j)));
      assert invkey[..][16 * i..16 * i + 16] == invkey[16 * i..16 * i + 16];
      KeysKept(before, invkey[..], i, nr);
      KeyStored(fwdkey[..], invkey[..], nr, i);
      i, j := i + 1, j - 1;
    }
    ghost var before := invkey[..];
    StoreBlock(invkey, 16 * i, KeyAt(fwdkey[..], j));
    assert invkey[..][16 * i..16 * i + 16] == invkey[16 * i..16 * i + 16];
    KeysKept(before, invkey[..], i, nr);
    KeyStored(fwdkey[..], invkey[..], nr, i);
    KeysComplete(invkey[..], w, nr);
  }

  lemma KeyStored(fwd: seq<bv8>, inv: seq<bv8>, nr: nat, i: nat)
    requires 1 <= nr && i <= nr && 16 * (nr + 1) <= |fwd| && 16 * (nr + 1) <= |inv|
    requires inv[16 * i..16 * i + 16] ==
      (if i == 0 || i == nr then KeyAt(fwd, nr - i) else InvMixColumns(KeyAt(fwd, nr - i)))
    ensures |RoundKeys(fwd, nr)| == nr + 1 && KeyAt(inv, i) == InverseKeys(RoundKeys(fwd, nr))[i]
  {
    hide InvMixColumns;
  }

  lemma KeysComplete(inv: seq<bv8>, w: Keys, nr: nat)
    requires 16 * (nr + 1) <= |inv| && |w| == nr + 1
    requires forall k :: 0 <= k <= nr ==> KeyAt(inv, k) == InverseKeys(w)[k]
    ensures RoundKeys(inv, nr) == InverseKeys(w)
  {
    hide InvMixColumns, KeyAt;
  }

  /** Storing key i leaves the keys before it and the bytes after the last one. */
  lemma KeysKept(before: seq<bv8>, after: seq<bv8>, i: nat, nr: nat)
    requires |before| == |after| && 1 <= i <= nr && 16 * (nr + 1) <= |after|
    requires after[..16 * i] == before[..16 * i] && after[16 * i + 16..] == before[16 * i + 16..]
    ensures forall k: nat :: k < i ==> KeyAt(after, k) == KeyAt(before, k)
    ensures after[16 * (nr + 1)..] == before[16 * (nr + 1)..]
  {
    forall k: nat | k < i ensures KeyAt(after, k) == KeyAt(before, k) {
      assert KeyAt(after, k) == after[..16 * i][16 * k..16 * k + 16];
      assert KeyAt(before, k) == before[..16 * i][16 * k..16 * k + 16];
    }
    assert after[16 * (nr + 1)..] == after[16 * i + 16..][16 * (nr - i)..];
    assert before[16 * (nr + 1)..] == before[16 * i + 16..][16 * (nr - i)..];
  }

  datatype Mode = Encrypt | Decrypt

  method MbedtlsAesceCryptEcb(keys: array<bv8>, nr: nat, mode: Mode, input: array<bv8>, output: array<bv8>)
    requires 1 <= nr && 16 * (nr + 1) <= keys.Length && input.Length == 16 && output.Length == 16
    modifies output
    ensures var w := RoundKeys(old(keys[..]), nr);
      output[..] == if mode == Encrypt then Cipher(old(input[..]), w) else EqInvCipher(old(input[..]), w)
  {
    hide RoundKeys, Cipher, EqInvCipher;
    var block: Block := input[..];
    if mode == Encrypt {
      block := AesceEncryptBlock(block, keys, nr);
    } else {
      block := AesceDecryptBlock(block, keys, nr);
    }
    StoreBlock(output, 0, block);
    assert output[..] == output[0..16];
  }

  /**
   * For every number of rounds, every block and every round keys: decrypting with the keys that
   * `MbedtlsAesceInverseKey` derives gives back what was encrypted.
   */
  lemma DecryptionUndoesEncryption(block: Block, w: Keys)
    requires |w| >= 2
    ensures EqInvCipher(Cipher(block, w), InverseKeys(w)) == block
  {
    hide Cipher, EqInvCipher, InvCipher, InverseKeys;
    EqInvCipherIsInvCipher(Cipher(block, w), w);
    InvCipherUndoes(block, w);
  }
}
