/** The worked examples of FIPS 197: known blocks and words that fix every transformation of the cipher. */
module StandardExamples {
  import opened Division
  import opened ByteField
  import opened Aes
  import opened KeyExpansion

  // ---------------------------------------------------------------- what the standard says of the positions

  /** Row r moves left by r columns, and the inverse moves it back. */
  lemma RowsMoveLeft(b: Block, r: nat, c: nat)
    requires r < 4 && c < 4
    ensures ShiftRows(b)[r + 4 * c] == b[r + 4 * ((c + r) % 4)]
    ensures InvShiftRows(b)[r + 4 * ((c + r) % 4)] == b[r + 4 * c]
  {
    hide ShiftRows, InvShiftRows;
    RowMoves(b, r, c, if c + r < 4 then c + r else c + r - 4);
  }

  lemma RowMoves(b: Block, r: nat, c: nat, from: nat)
    requires r < 4 && c < 4 && from == if c + r < 4 then c + r else c + r - 4
    ensures ShiftRows(b)[r + 4 * c] == b[r + 4 * from] && InvShiftRows(b)[r + 4 * from] == b[r + 4 * c]
  {
    QuotientIs(4, c, r);
    QuotientIs(4, from, r);
  }

  lemma ColumnShifted(b: Block, c: nat)
    requires c < 4
    ensures var s := ShiftRows(b);
      s[4 * c] == b[4 * c] && s[4 * c + 1] == b[4 * (if c < 3 then c + 1 else c - 3) + 1] &&
      s[4 * c + 2] == b[4 * (if c < 2 then c + 2 else c - 2) + 2] &&
      s[4 * c + 3] == b[4 * (if c < 1 then c + 3 else c - 1) + 3]
  {
    hide ShiftRows;
    RowMoves(b, 0, c, c);
    RowMoves(b, 1, c, if c < 3 then c + 1 else c - 3);
    RowMoves(b, 2, c, if c < 2 then c + 2 else c - 2);
    RowMoves(b, 3, c, if c < 1 then c + 3 else c - 1);
  }

  /** The whole block, byte by byte. */
  lemma RowsShifted(b: Block)
    ensures ShiftRows(b) == [b[0], b[5], b[10], b[15], b[4], b[9], b[14], b[3], b[8], b[13], b[2], b[7], b[12], b[1], b[6], b[11]]
  {
    hide ShiftRows;
    ColumnShifted(b, 0);
    ColumnShifted(b, 1);
    ColumnShifted(b, 2);
    ColumnShifted(b, 3);
  }

  /** Each column is mixed by itself, from its row r on downwards and around. */
  lemma ColumnsAreMixed(b: Block, c: nat)
    requires c < 4
    ensures var m := MixColumns(b);
      m[4 * c] == MixByte(b[4 * c], b[4 * c + 1], b[4 * c + 2], b[4 * c + 3]) &&
      m[4 * c + 1] == MixByte(b[4 * c + 1], b[4 * c + 2], b[4 * c + 3], b[4 * c]) &&
      m[4 * c + 2] == MixByte(b[4 * c + 2], b[4 * c + 3], b[4 * c], b[4 * c + 1]) &&
      m[4 * c + 3] == MixByte(b[4 * c + 3], b[4 * c], b[4 * c + 1], b[4 * c + 2])
  {
    hide MixByte;
    QuotientIs(4, c, 0);
    QuotientIs(4, c, 1);
    QuotientIs(4, c, 2);
    QuotientIs(4, c, 3);
  }

  /** Known values of the substitution box, and a known column. */
  lemma KnownBytes()
    ensures SBox(0x00) == 0x63 && SBox(0x53) == 0xed && InvSBox(0x63) == 0x00 && InvSBox(0xed) == 0x53
    ensures MixByte(0xdb, 0x13, 0x53, 0x45) == 0x8e && MixByte(0x13, 0x53, 0x45, 0xdb) == 0x4d
    ensures MixByte(0x53, 0x45, 0xdb, 0x13) == 0xa1 && MixByte(0x45, 0xdb, 0x13, 0x53) == 0xbc
  {
  }

  // ---------------------------------------------------------------- appendix B: the first and the last round

  const PLAIN: Block :=
    [0x32, 0x43, 0xf6, 0xa8, 0x88, 0x5a, 0x30, 0x8d, 0x31, 0x31, 0x98, 0xa2, 0xe0, 0x37, 0x07, 0x34]
  const KEY_0: Block :=
    [0x2b, 0x7e, 0x15, 0x16, 0x28, 0xae, 0xd2, 0xa6, 0xab, 0xf7, 0x15, 0x88, 0x09, 0xcf, 0x4f, 0x3c]
  const START_1: Block :=
    [0x19, 0x3d, 0xe3, 0xbe, 0xa0, 0xf4, 0xe2, 0x2b, 0x9a, 0xc6, 0x8d, 0x2a, 0xe9, 0xf8, 0x48, 0x08]
  const SUBSTITUTED_1: Block :=
    [0xd4, 0x27, 0x11, 0xae, 0xe0, 0xbf, 0x98, 0xf1, 0xb8, 0xb4, 0x5d, 0xe5, 0x1e, 0x41, 0x52, 0x30]
  const SHIFTED_1: Block :=
    [0xd4, 0xbf, 0x5d, 0x30, 0xe0, 0xb4, 0x52, 0xae, 0xb8, 0x41, 0x11, 0xf1, 0x1e, 0x27, 0x98, 0xe5]
  const MIXED_1: Block :=
    [0x04, 0x66, 0x81, 0xe5, 0xe0, 0xcb, 0x19, 0x9a, 0x48, 0xf8, 0xd3, 0x7a, 0x28, 0x06, 0x26, 0x4c]
  const KEY_1: Block :=
    [0xa0, 0xfa, 0xfe, 0x17, 0x88, 0x54, 0x2c, 0xb1, 0x23, 0xa3, 0x39, 0x39, 0x2a, 0x6c, 0x76, 0x05]
  const START_2: Block :=
    [0xa4, 0x9c, 0x7f, 0xf2, 0x68, 0x9f, 0x35, 0x2b, 0x6b, 0x5b, 0xea, 0x43, 0x02, 0x6a, 0x50, 0x49]
  const START_10: Block :=
    [0xeb, 0x40, 0xf2, 0x1e, 0x59, 0x2e, 0x38, 0x84, 0x8b, 0xa1, 0x13, 0xe7, 0x1b, 0xc3, 0x42, 0xd2]
  const SUBSTITUTED_10: Block :=
    [0xe9, 0x09, 0x89, 0x72, 0xcb, 0x31, 0x07, 0x5f, 0x3d, 0x32, 0x7d, 0x94, 0xaf, 0x2e, 0x2c, 0xb5]
  const SHIFTED_10: Block :=
    [0xe9, 0x31, 0x7d, 0xb5, 0xcb, 0x32, 0x2c, 0x72, 0x3d, 0x2e, 0x89, 0x5f, 0xaf, 0x09, 0x07, 0x94]
  const KEY_10: Block :=
    [0xd0, 0x14, 0xf9, 0xa8, 0xc9, 0xee, 0x25, 0x89, 0xe1, 0x3f, 0x0c, 0xc8, 0xb6, 0x63, 0x0c, 0xa6]
  const OUTPUT: Block :=
    [0x39, 0x25, 0x84, 0x1d, 0x02, 0xdc, 0x09, 0xfb, 0xdc, 0x11, 0x85, 0x97, 0x19, 0x6a, 0x0b, 0x32]

  lemma FirstKeyAddedBytes()
    ensures Add(0x32, 0x2b) == 0x19 && Add(0x43, 0x7e) == 0x3d && Add(0xf6, 0x15) == 0xe3 && Add(0xa8, 0x16) == 0xbe
    ensures Add(0x88, 0x28) == 0xa0 && Add(0x5a, 0xae) == 0xf4 && Add(0x30, 0xd2) == 0xe2 && Add(0x8d, 0xa6) == 0x2b
    ensures Add(0x31, 0xab) == 0x9a && Add(0x31, 0xf7) == 0xc6 && Add(0x98, 0x15) == 0x8d && Add(0xa2, 0x88) == 0x2a
    ensures Add(0xe0, 0x09) == 0xe9 && Add(0x37, 0xcf) == 0xf8 && Add(0x07, 0x4f) == 0x48 && Add(0x34, 0x3c) == 0x08
  {
  }

  lemma FirstKeyAdded()
    ensures Sum(PLAIN, KEY_0) == START_1
  {
    hide Add;
    FirstKeyAddedBytes();
    forall i | 0 <= i < 16 ensures Sum(PLAIN, KEY_0)[i] == START_1[i] {
    }
  }

  lemma FirstSubstitutedBytes()
    ensures SBox(0x19) == 0xd4 && SBox(0x3d) == 0x27 && SBox(0xe3) == 0x11 && SBox(0xbe) == 0xae
    ensures SBox(0xa0) == 0xe0 && SBox(0xf4) == 0xbf && SBox(0xe2) == 0x98 && SBox(0x2b) == 0xf1
    ensures SBox(0x9a) == 0xb8 && SBox(0xc6) == 0xb4 && SBox(0x8d) == 0x5d && SBox(0x2a) == 0xe5
    ensures SBox(0xe9) == 0x1e && SBox(0xf8) == 0x41 && SBox(0x48) == 0x52 && SBox(0x08) == 0x30
  {
  }

  lemma FirstSubstituted()
    ensures SubBytes(START_1) == SUBSTITUTED_1
  {
    hide SBox;
    FirstSubstitutedBytes();
    forall i | 0 <= i < 16 ensures SubBytes(START_1)[i] == SUBSTITUTED_1[i] {
    }
  }

  lemma FirstShifted()
    ensures ShiftRows(SUBSTITUTED_1) == SHIFTED_1
  {
    hide ShiftRows;
    RowsShifted(SUBSTITUTED_1);
  }

  lemma FirstMixedBytes()
    ensures MixByte(0xd4, 0xbf, 0x5d, 0x30) == 0x04 && MixByte(0xbf, 0x5d, 0x30, 0xd4) == 0x66
    ensures MixByte(0x5d, 0x30, 0xd4, 0xbf) == 0x81 && MixByte(0x30, 0xd4, 0xbf, 0x5d) == 0xe5
    ensures MixByte(0xe0, 0xb4, 0x52, 0xae) == 0xe0 && MixByte(0xb4, 0x52, 0xae, 0xe0) == 0xcb
    ensures MixByte(0x52, 0xae, 0xe0, 0xb4) == 0x19 && MixByte(0xae, 0xe0, 0xb4, 0x52) == 0x9a
    ensures MixByte(0xb8, 0x41, 0x11, 0xf1) == 0x48 && MixByte(0x41, 0x11, 0xf1, 0xb8) == 0xf8
    ensures MixByte(0x11, 0xf1, 0xb8, 0x41) == 0xd3 && MixByte(0xf1, 0xb8, 0x41, 0x11) == 0x7a
    ensures MixByte(0x1e, 0x27, 0x98, 0xe5) == 0x28 && MixByte(0x27, 0x98, 0xe5, 0x1e) == 0x06
    ensures MixByte(0x98, 0xe5, 0x1e, 0x27) == 0x26 && MixByte(0xe5, 0x1e, 0x27, 0x98) == 0x4c
  {
  }

  lemma FirstMixed()
    ensures MixColumns(SHIFTED_1) == MIXED_1
  {
    hide MixByte, MixColumns;
    FirstMixedBytes();
    ColumnsAreMixed(SHIFTED_1, 0);
    ColumnsAreMixed(SHIFTED_1, 1);
    ColumnsAreMixed(SHIFTED_1, 2);
    ColumnsAreMixed(SHIFTED_1, 3);
    assert MixColumns(SHIFTED_1) == MIXED_1;
  }

  lemma SecondKeyAddedBytes()
    ensures Add(0x04, 0xa0) == 0xa4 && Add(0x66, 0xfa) == 0x9c && Add(0x81, 0xfe) == 0x7f && Add(0xe5, 0x17) == 0xf2
    ensures Add(0xe0, 0x88) == 0x68 && Add(0xcb, 0x54) == 0x9f && Add(0x19, 0x2c) == 0x35 && Add(0x9a, 0xb1) == 0x2b
    ensures Add(0x48, 0x23) == 0x6b && Add(0xf8, 0xa3) == 0x5b && Add(0xd3, 0x39) == 0xea && Add(0x7a, 0x39) == 0x43
    ensures Add(0x28, 0x2a) == 0x02 && Add(0x06, 0x6c) == 0x6a && Add(0x26, 0x76) == 0x50 && Add(0x4c, 0x05) == 0x49
  {
  }

  lemma SecondKeyAdded()
    ensures Sum(MIXED_1, KEY_1) == START_2
  {
    hide Add;
    SecondKeyAddedBytes();
    forall i | 0 <= i < 16 ensures Sum(MIXED_1, KEY_1)[i] == START_2[i] {
    }
  }

  lemma LastSubstitutedBytes()
    ensures SBox(0xeb) == 0xe9 && SBox(0x40) == 0x09 && SBox(0xf2) == 0x89 && SBox(0x1e) == 0x72
    ensures SBox(0x59) == 0xcb && SBox(0x2e) == 0x31 && SBox(0x38) == 0x07 && SBox(0x84) == 0x5f
    ensures SBox(0x8b) == 0x3d && SBox(0xa1) == 0x32 && SBox(0x13) == 0x7d && SBox(0xe7) == 0x94
    ensures SBox(0x1b) == 0xaf && SBox(0xc3) == 0x2e && SBox(0x42) == 0x2c && SBox(0xd2) == 0xb5
  {
  }

  lemma LastSubstituted()
    ensures SubBytes(START_10) == SUBSTITUTED_10
  {
    hide SBox;
    LastSubstitutedBytes();
    forall i | 0 <= i < 16 ensures SubBytes(START_10)[i] == SUBSTITUTED_10[i] {
    }
  }

  lemma LastShifted()
    ensures ShiftRows(SUBSTITUTED_10) == SHIFTED_10
  {
    hide ShiftRows;
    RowsShifted(SUBSTITUTED_10);
  }

  lemma LastKeyAddedBytes()
    ensures Add(0xe9, 0xd0) == 0x39 && Add(0x31, 0x14) == 0x25 && Add(0x7d, 0xf9) == 0x84 && Add(0xb5, 0xa8) == 0x1d
    ensures Add(0xcb, 0xc9) == 0x02 && Add(0x32, 0xee) == 0xdc && Add(0x2c, 0x25) == 0x09 && Add(0x72, 0x89) == 0xfb
    ensures Add(0x3d, 0xe1) == 0xdc && Add(0x2e, 0x3f) == 0x11 && Add(0x89, 0x0c) == 0x85 && Add(0x5f, 0xc8) == 0x97
    ensures Add(0xaf, 0xb6) == 0x19 && Add(0x09, 0x63) == 0x6a && Add(0x07, 0x0c) == 0x0b && Add(0x94, 0xa6) == 0x32
  {
  }

  lemma LastKeyAdded()
    ensures Sum(SHIFTED_10, KEY_10) == OUTPUT
  {
    hide Add;
    LastKeyAddedBytes();
    forall i | 0 <= i < 16 ensures Sum(SHIFTED_10, KEY_10)[i] == OUTPUT[i] {
    }
  }

  /** The first round of the example, with any later keys. */
  lemma FirstRound(w: Keys)
    requires |w| >= 2 && w[0] == KEY_0 && w[1] == KEY_1
    ensures CipherState(PLAIN, w, 0) == START_1 && CipherState(PLAIN, w, 1) == START_2
  {
    hide Sum, SubBytes, ShiftRows, MixColumns;
    FirstKeyAdded();
    FirstSubstituted();
    FirstShifted();
    FirstMixed();
    SecondKeyAdded();
    assert CipherState(PLAIN, w, 0) == START_1;
  }

  /** The last round of the example, whatever led to it. */
  lemma LastRound(input: Block, w: Keys)
    requires |w| >= 2 && CipherState(input, w, |w| - 2) == START_10 && w[|w| - 1] == KEY_10
    ensures Cipher(input, w) == OUTPUT
  {
    hide Sum, SubBytes, ShiftRows, CipherState;
    LastSubstituted();
    LastShifted();
    LastKeyAdded();
  }

  // ---------------------------------------------------------------- appendix A: expanded keys

  const KEY_128: seq<Word> := [
    Word(0x2b, 0x7e, 0x15, 0x16), Word(0x28, 0xae, 0xd2, 0xa6),
    Word(0xab, 0xf7, 0x15, 0x88), Word(0x09, 0xcf, 0x4f, 0x3c)]
  const KEY_256: seq<Word> := [
    Word(0x60, 0x3d, 0xeb, 0x10), Word(0x15, 0xca, 0x71, 0xbe),
    Word(0x2b, 0x73, 0xae, 0xf0), Word(0x85, 0x7d, 0x77, 0x81),
    Word(0x1f, 0x35, 0x2c, 0x07), Word(0x3b, 0x61, 0x08, 0xd7),
    Word(0x2d, 0x98, 0x10, 0xa3), Word(0x09, 0x14, 0xdf, 0xf4)]

  lemma ExpandedKnownKey()
    ensures WordAt(KEY_128, 4) == Word(0xa0, 0xfa, 0xfe, 0x17)
    ensures WordAt(KEY_128, 5) == Word(0x88, 0x54, 0x2c, 0xb1)
    ensures WordAt(KEY_128, 6) == Word(0x23, 0xa3, 0x39, 0x39)
    ensures WordAt(KEY_128, 7) == Word(0x2a, 0x6c, 0x76, 0x05)
  {
  }

  /** The example with 256 bits reaches the substitution in the middle of a chunk. */
  lemma ExpandedLongKey()
    ensures WordAt(KEY_256, 8) == Word(0x9b, 0xa3, 0x54, 0x11)
    ensures WordAt(KEY_256, 9) == Word(0x8e, 0x69, 0x25, 0xaf)
    ensures WordAt(KEY_256, 10) == Word(0xa5, 0x1a, 0x8b, 0x5f)
    ensures WordAt(KEY_256, 11) == Word(0x20, 0x67, 0xfc, 0xde)
    ensures WordAt(KEY_256, 12) == Word(0xa8, 0xb0, 0x9c, 0x1a)
  {
  }

  /** The number of words of an expanded key, for keys of four, six and eight words. */
  lemma KeyLengths()
    ensures KeyLength(4) == 44 && KeyLength(6) == 52 && KeyLength(8) == 60
  {
  }
}
