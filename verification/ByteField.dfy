/** Bytes as the field GF(2^8), and the substitution box of AES. */
module ByteField {

  /** Times x, modulo x^8 + x^4 + x^3 + x + 1. */
  function XTime(b: bv8): bv8 {
    (b << 1) ^ (if b >= 0x80 then 0x1b else 0)
  }

  function Times(a: bv8, b: bv8): bv8 {
    var a1 := XTime(a);
    var a2 := XTime(a1);
    var a3 := XTime(a2);
    var a4 := XTime(a3);
    var a5 := XTime(a4);
    var a6 := XTime(a5);
    var a7 := XTime(a6);
    (if b & 0x01 == 0 then 0 else a) ^ (if b & 0x02 == 0 then 0 else a1) ^
    (if b & 0x04 == 0 then 0 else a2) ^ (if b & 0x08 == 0 then 0 else a3) ^
    (if b & 0x10 == 0 then 0 else a4) ^ (if b & 0x20 == 0 then 0 else a5) ^
    (if b & 0x40 == 0 then 0 else a6) ^ (if b & 0x80 == 0 then 0 else a7)
  }

  function Affine(b: bv8): bv8 {
    b ^ b.RotateLeft(1) ^ b.RotateLeft(2) ^ b.RotateLeft(3) ^ b.RotateLeft(4) ^ 0x63
  }

  function InvAffine(b: bv8): bv8 {
    b.RotateLeft(1) ^ b.RotateLeft(3) ^ b.RotateLeft(6) ^ 0x05
  }

  /** The substitution of FIPS 197, section 5.1.1: the inverse in the field, then an affine map of the bits. */
  function SBox(x: bv8): bv8 {
    Affine(Inverse(x))
  }

  function InvSBox(y: bv8): bv8 {
    Inverse(InvAffine(y))
  }

  lemma XTimeLinear(a: bv8, b: bv8)
    ensures XTime(a ^ b) == XTime(a) ^ XTime(b)
  {
    assert (a ^ b) << 1 == (a << 1) ^ (b << 1);
    assert (a ^ b) >= 0x80 <==> ((a >= 0x80) != (b >= 0x80));
  }

  /** The table of inverses is right: zero stays, and anything else times its inverse is one. */
  lemma InverseIsInverse(x: bv8)
    requires x != 0
    ensures Times(x, Inverse(x)) == 1
  {
  }

  lemma InverseTwice(x: bv8)
    ensures Inverse(Inverse(x)) == x
  {
  }

  lemma AffineInverts(b: bv8)
    ensures InvAffine(Affine(b)) == b
  {
  }

  lemma SBoxInverts(x: bv8)
    ensures InvSBox(SBox(x)) == x
  {
    hide Inverse, Affine, InvAffine;
    AffineInverts(Inverse(x));
    InverseTwice(x);
  }

  // ---------------------------------------------------------------- mixing a column

  /** Addition in the field. */
  function Add(a: bv8, b: bv8): bv8 {
    a ^ b
  }

  predicate Bit(b: bv8, i: nat) {
    if i == 0 then b & 0x01 != 0 else if i == 1 then b & 0x02 != 0 else if i == 2 then b & 0x04 != 0
    else if i == 3 then b & 0x08 != 0 else if i == 4 then b & 0x10 != 0 else if i == 5 then b & 0x20 != 0
    else if i == 6 then b & 0x40 != 0 else b & 0x80 != 0
  }

  /** Addition is bit by bit. */
  lemma AddBits(i: nat)
    ensures forall a, b {:trigger Bit(Add(a, b), i)} :: Bit(Add(a, b), i) == (Bit(a, i) != Bit(b, i))
  {
  }

  lemma SameBits(a: bv8, b: bv8)
    requires forall i: nat :: i < 8 ==> Bit(a, i) == Bit(b, i)
    ensures a == b
  {
    assert Bit(a, 0) == Bit(b, 0) && Bit(a, 1) == Bit(b, 1) && Bit(a, 2) == Bit(b, 2) && Bit(a, 3) == Bit(b, 3);
    assert Bit(a, 4) == Bit(b, 4) && Bit(a, 5) == Bit(b, 5) && Bit(a, 6) == Bit(b, 6) && Bit(a, 7) == Bit(b, 7);
  }

  // Multiplication by the constants of the inverse mixing.

  function Times9(b: bv8): bv8 {
    Add(XTime(XTime(XTime(b))), b)
  }

  function TimesB(b: bv8): bv8 {
    Add(Add(XTime(XTime(XTime(b))), XTime(b)), b)
  }

  function TimesD(b: bv8): bv8 {
    Add(Add(XTime(XTime(XTime(b))), XTime(XTime(b))), b)
  }

  function TimesE(b: bv8): bv8 {
    Add(Add(XTime(XTime(XTime(b))), XTime(XTime(b))), XTime(b))
  }

  /** 2a + 3b + c + d. */
  function MixByte(a: bv8, b: bv8, c: bv8, d: bv8): bv8 {
    Add(Add(XTime(a), Add(XTime(b), b)), Add(c, d))
  }

  /** 14a + 11b + 13c + 9d. */
  function InvMixByte(a: bv8, b: bv8, c: bv8, d: bv8): bv8 {
    Add(Add(TimesE(a), TimesB(b)), Add(TimesD(c), Times9(d)))
  }

  lemma AddSwap(a: bv8, b: bv8, c: bv8, d: bv8)
    ensures Add(Add(a, b), Add(c, d)) == Add(Add(a, c), Add(b, d))
  {
    hide Add, Bit;
    forall i: nat | i < 8 ensures Bit(Add(Add(a, b), Add(c, d)), i) == Bit(Add(Add(a, c), Add(b, d)), i) { AddBits(i); }
    SameBits(Add(Add(a, b), Add(c, d)), Add(Add(a, c), Add(b, d)));
  }

  lemma AddSwapThree(a: bv8, b: bv8, c: bv8, a': bv8, b': bv8, c': bv8)
    ensures Add(Add(Add(a, a'), Add(b, b')), Add(c, c')) == Add(Add(Add(a, b), c), Add(Add(a', b'), c'))
  {
    hide Add;
    AddSwap(a, a', b, b');
    AddSwap(Add(a, b), Add(a', b'), c, c');
  }

  lemma XTimeAdd(a: bv8, b: bv8)
    ensures XTime(Add(a, b)) == Add(XTime(a), XTime(b))
  {
    hide XTime;
    XTimeLinear(a, b);
  }

  lemma ConstantsLinear(a: bv8, b: bv8)
    ensures Times9(Add(a, b)) == Add(Times9(a), Times9(b)) && TimesB(Add(a, b)) == Add(TimesB(a), TimesB(b))
    ensures TimesD(Add(a, b)) == Add(TimesD(a), TimesD(b)) && TimesE(Add(a, b)) == Add(TimesE(a), TimesE(b))
  {
    hide XTime, Add;
    var (a1, b1) := (XTime(a), XTime(b));
    var (a2, b2) := (XTime(a1), XTime(b1));
    var (a3, b3) := (XTime(a2), XTime(b2));
    XTimeAdd(a, b);
    XTimeAdd(a1, b1);
    XTimeAdd(a2, b2);
    AddSwap(a3, b3, a, b);
    AddSwapThree(a3, a1, a, b3, b1, b);
    AddSwapThree(a3, a2, a, b3, b2, b);
    AddSwapThree(a3, a2, a1, b3, b2, b1);
  }

  /** Four sums of four terms, by rows and by columns. */
  lemma AddTranspose(a0: bv8, b0: bv8, c0: bv8, d0: bv8, a1: bv8, b1: bv8, c1: bv8, d1: bv8,
                     a2: bv8, b2: bv8, c2: bv8, d2: bv8, a3: bv8, b3: bv8, c3: bv8, d3: bv8)
    ensures Add(Add(Add(Add(a0, b0), Add(c0, d0)), Add(Add(a1, b1), Add(c1, d1))),
                Add(Add(Add(a2, b2), Add(c2, d2)), Add(Add(a3, b3), Add(c3, d3)))) ==
            Add(Add(Add(Add(a0, a1), Add(a2, a3)), Add(Add(b0, b1), Add(b2, b3))),
                Add(Add(Add(c0, c1), Add(c2, c3)), Add(Add(d0, d1), Add(d2, d3))))
  {
    hide Add;
    AddRows(a0, b0, c0, d0, a1, b1, c1, d1);
    AddRows(a2, b2, c2, d2, a3, b3, c3, d3);
    AddRows(Add(a0, a1), Add(b0, b1), Add(c0, c1), Add(d0, d1), Add(a2, a3), Add(b2, b3), Add(c2, c3), Add(d2, d3));
  }

  lemma AddRows(a: bv8, b: bv8, c: bv8, d: bv8, a': bv8, b': bv8, c': bv8, d': bv8)
    ensures Add(Add(Add(a, b), Add(c, d)), Add(Add(a', b'), Add(c', d'))) ==
            Add(Add(Add(a, a'), Add(b, b')), Add(Add(c, c'), Add(d, d')))
  {
    hide Add;
    AddSwap(Add(a, b), Add(c, d), Add(a', b'), Add(c', d'));
    AddSwap(a, b, a', b');
    AddSwap(c, d, c', d');
  }

  lemma InvMixLinear(a: bv8, b: bv8, c: bv8, d: bv8, a': bv8, b': bv8, c': bv8, d': bv8)
    ensures InvMixByte(Add(a, a'), Add(b, b'), Add(c, c'), Add(d, d')) ==
            Add(InvMixByte(a, b, c, d), InvMixByte(a', b', c', d'))
  {
    hide Add, Times9, TimesB, TimesD, TimesE;
    ConstantsLinear(a, a');
    ConstantsLinear(b, b');
    ConstantsLinear(c, c');
    ConstantsLinear(d, d');
    AddRows(TimesE(a), TimesB(b), TimesD(c), Times9(d), TimesE(a'), TimesB(b'), TimesD(c'), Times9(d'));
  }

  /** A constant of the inverse mixing applied to a mixed byte. */
  lemma ConstantsOfMix(a: bv8, b: bv8, c: bv8, d: bv8)
    ensures TimesE(MixByte(a, b, c, d)) == Add(Add(TimesE(XTime(a)), Add(TimesE(XTime(b)), TimesE(b))), Add(TimesE(c), TimesE(d)))
    ensures TimesB(MixByte(a, b, c, d)) == Add(Add(TimesB(XTime(a)), Add(TimesB(XTime(b)), TimesB(b))), Add(TimesB(c), TimesB(d)))
    ensures TimesD(MixByte(a, b, c, d)) == Add(Add(TimesD(XTime(a)), Add(TimesD(XTime(b)), TimesD(b))), Add(TimesD(c), TimesD(d)))
    ensures Times9(MixByte(a, b, c, d)) == Add(Add(Times9(XTime(a)), Add(Times9(XTime(b)), Times9(b))), Add(Times9(c), Times9(d)))
  {
    hide Times9, TimesB, TimesD, TimesE, XTime, Add;
    ConstantsLinear(Add(XTime(a), Add(XTime(b), b)), Add(c, d));
    ConstantsLinear(XTime(a), Add(XTime(b), b));
    ConstantsLinear(XTime(b), b);
    ConstantsLinear(c, d);
  }

  // The parts of the inverse mixing that a byte of a mixed column takes, its doubles written a1, a2, ...

  lemma OwnPartBit(a0: bv8, a1: bv8, a2: bv8, a3: bv8, a4: bv8, i: nat)
    ensures var e, b, d, n := Add(Add(a3, a2), a1), Add(Add(a3, a1), a0), Add(Add(a3, a2), a0), Add(a3, a0);
      var e', b', d', n' := Add(Add(a4, a3), a2), Add(Add(a4, a2), a1), Add(Add(a4, a3), a1), Add(a4, a1);
      Bit(Add(Add(e', b), Add(d, Add(n', n))), i) == Bit(a0, i)
  {
    hide Add, Bit;
    AddBits(i);
  }

  lemma SecondPartBit(a0: bv8, a1: bv8, a2: bv8, a3: bv8, a4: bv8, i: nat)
    ensures var e, b, d, n := Add(Add(a3, a2), a1), Add(Add(a3, a1), a0), Add(Add(a3, a2), a0), Add(a3, a0);
      var e', b', d', n' := Add(Add(a4, a3), a2), Add(Add(a4, a2), a1), Add(Add(a4, a3), a1), Add(a4, a1);
      !Bit(Add(Add(Add(e', e), b'), Add(d, n)), i)
  {
    hide Add, Bit;
    AddBits(i);
  }

  lemma ThirdPartBit(a0: bv8, a1: bv8, a2: bv8, a3: bv8, a4: bv8, i: nat)
    ensures var e, b, d, n := Add(Add(a3, a2), a1), Add(Add(a3, a1), a0), Add(Add(a3, a2), a0), Add(a3, a0);
      var e', b', d', n' := Add(Add(a4, a3), a2), Add(Add(a4, a2), a1), Add(Add(a4, a3), a1), Add(a4, a1);
      !Bit(Add(Add(e, Add(b', b)), Add(d', n)), i)
  {
    hide Add, Bit;
    AddBits(i);
  }

  lemma LastPartBit(a0: bv8, a1: bv8, a2: bv8, a3: bv8, a4: bv8, i: nat)
    ensures var e, b, d, n := Add(Add(a3, a2), a1), Add(Add(a3, a1), a0), Add(Add(a3, a2), a0), Add(a3, a0);
      var e', b', d', n' := Add(Add(a4, a3), a2), Add(Add(a4, a2), a1), Add(Add(a4, a3), a1), Add(a4, a1);
      !Bit(Add(Add(e, b), Add(Add(d', d), n')), i)
  {
    hide Add, Bit;
    AddBits(i);
  }

  /** Its own byte comes back, the others vanish. */
  lemma PartsCancel(a0: bv8, a1: bv8, a2: bv8, a3: bv8, a4: bv8)
    ensures var e, b, d, n := Add(Add(a3, a2), a1), Add(Add(a3, a1), a0), Add(Add(a3, a2), a0), Add(a3, a0);
      var e', b', d', n' := Add(Add(a4, a3), a2), Add(Add(a4, a2), a1), Add(Add(a4, a3), a1), Add(a4, a1);
      Add(Add(e', b), Add(d, Add(n', n))) == a0 &&
      Add(Add(Add(e', e), b'), Add(d, n)) == 0 &&
      Add(Add(e, Add(b', b)), Add(d', n)) == 0 &&
      Add(Add(e, b), Add(Add(d', d), n')) == 0
  {
    hide Add, Bit;
    var (e, b, d, n) := (Add(Add(a3, a2), a1), Add(Add(a3, a1), a0), Add(Add(a3, a2), a0), Add(a3, a0));
    var (e', b', d', n') := (Add(Add(a4, a3), a2), Add(Add(a4, a2), a1), Add(Add(a4, a3), a1), Add(a4, a1));
    var (p, q, r, s) := (Add(Add(e', b), Add(d, Add(n', n))), Add(Add(Add(e', e), b'), Add(d, n)),
                         Add(Add(e, Add(b', b)), Add(d', n)), Add(Add(e, b), Add(Add(d', d), n')));
    forall i: nat | i < 8 ensures Bit(p, i) == Bit(a0, i) && !Bit(q, i) && !Bit(r, i) && !Bit(s, i) {
      OwnPartBit(a0, a1, a2, a3, a4, i);
      SecondPartBit(a0, a1, a2, a3, a4, i);
      ThirdPartBit(a0, a1, a2, a3, a4, i);
      LastPartBit(a0, a1, a2, a3, a4, i);
    }
    ZeroBits();
    SameBits(p, a0);
    SameBits(q, 0);
    SameBits(r, 0);
    SameBits(s, 0);
  }

  lemma ZeroBits()
    ensures forall i: nat :: !Bit(0, i)
  {
  }

  lemma AddZero(a: bv8)
    ensures Add(a, 0) == a && Add(a, a) == 0 && Add(0, a) == a
  {
  }

  lemma AddSym(a: bv8, b: bv8)
    ensures Add(a, b) == Add(b, a)
  {
    hide Add, Bit;
    forall i: nat | i < 8 ensures Bit(Add(a, b), i) == Bit(Add(b, a), i) { AddBits(i); }
    SameBits(Add(a, b), Add(b, a));
  }

  /** Mixing, then the inverse mixing: the column as it was. */
  lemma InvMixInverts(a: bv8, b: bv8, c: bv8, d: bv8)
    ensures InvMixByte(MixByte(a, b, c, d), MixByte(b, c, d, a), MixByte(c, d, a, b), MixByte(d, a, b, c)) == a
  {
    hide Add, Times9, TimesB, TimesD, TimesE, XTime, MixByte;
    ConstantsOfMix(a, b, c, d);
    ConstantsOfMix(b, c, d, a);
    ConstantsOfMix(c, d, a, b);
    ConstantsOfMix(d, a, b, c);
    Columns(a);
    Columns(b);
    Columns(c);
    Columns(d);
    var (eB, bC, dD, nA) := (Add(TimesE(XTime(b)), TimesE(b)), Add(TimesB(XTime(c)), TimesB(c)),
                             Add(TimesD(XTime(d)), TimesD(d)), Add(Times9(XTime(a)), Times9(a)));
    Turn(TimesB(XTime(b)), bC, TimesB(d), TimesB(a));
    Turn(TimesD(a), TimesD(b), TimesD(XTime(c)), dD);
    Turn(Times9(b), Times9(c), Times9(XTime(d)), nA);
    AddTranspose(TimesE(XTime(a)), eB, TimesE(c), TimesE(d),
                 TimesB(a), TimesB(XTime(b)), bC, TimesB(d),
                 TimesD(a), TimesD(b), TimesD(XTime(c)), dD,
                 nA, Times9(b), Times9(c), Times9(XTime(d)));
    AddZero(a);
    AddZero(0);
  }

  lemma Turn(b: bv8, c: bv8, d: bv8, a: bv8)
    ensures Add(Add(b, c), Add(d, a)) == Add(Add(a, b), Add(c, d))
    ensures Add(Add(d, a), Add(b, c)) == Add(Add(b, c), Add(d, a))
  {
    hide Add;
    AddSym(d, a);
    AddSwap(b, c, a, d);
    AddSym(b, a);
    AddSym(Add(d, a), Add(b, c));
  }

  lemma Columns(a: bv8)
    ensures Add(Add(TimesE(XTime(a)), TimesB(a)), Add(TimesD(a), Add(Times9(XTime(a)), Times9(a)))) == a
    ensures Add(Add(Add(TimesE(XTime(a)), TimesE(a)), TimesB(XTime(a))), Add(TimesD(a), Times9(a))) == 0
    ensures Add(Add(TimesE(a), Add(TimesB(XTime(a)), TimesB(a))), Add(TimesD(XTime(a)), Times9(a))) == 0
    ensures Add(Add(TimesE(a), TimesB(a)), Add(Add(TimesD(XTime(a)), TimesD(a)), Times9(XTime(a)))) == 0
  {
    hide Add, XTime;
    PartsCancel(a, XTime(a), XTime(XTime(a)), XTime(XTime(XTime(a))), XTime(XTime(XTime(XTime(a)))));
  }

  /** Inverses in the field, found by halving the range. */
  function Inverse(x: bv8): bv8 {
    if x < 0x80 then
      if x < 0x40 then
        if x < 0x20 then
          if x < 0x10 then
            if x < 0x08 then
              if x < 0x04 then
                if x < 0x02 then if x < 0x01 then 0x00 else 0x01 else if x < 0x03 then 0x8d else 0xf6
              else
                if x < 0x06 then if x < 0x05 then 0xcb else 0x52 else if x < 0x07 then 0x7b else 0xd1
            else
              if x < 0x0c then
                if x < 0x0a then if x < 0x09 then 0xe8 else 0x4f else if x < 0x0b then 0x29 else 0xc0
              else
                if x < 0x0e then if x < 0x0d then 0xb0 else 0xe1 else if x < 0x0f then 0xe5 else 0xc7
          else
            if x < 0x18 then
              if x < 0x14 then
                if x < 0x12 then if x < 0x11 then 0x74 else 0xb4 else if x < 0x13 then 0xaa else 0x4b
              else
                if x < 0x16 then if x < 0x15 then 0x99 else 0x2b else if x < 0x17 then 0x60 else 0x5f
            else
              if x < 0x1c then
                if x < 0x1a then if x < 0x19 then 0x58 else 0x3f else if x < 0x1b then 0xfd else 0xcc
              else
                if x < 0x1e then if x < 0x1d then 0xff else 0x40 else if x < 0x1f then 0xee else 0xb2
        else
          if x < 0x30 then
            if x < 0x28 then
              if x < 0x24 then
                if x < 0x22 then if x < 0x21 then 0x3a else 0x6e else if x < 0x23 then 0x5a else 0xf1
              else
                if x < 0x26 then if x < 0x25 then 0x55 else 0x4d else if x < 0x27 then 0xa8 else 0xc9
            else
              if x < 0x2c then
                if x < 0x2a then if x < 0x29 then 0xc1 else 0x0a else if x < 0x2b then 0x98 else 0x15
              else
                if x < 0x2e then if x < 0x2d then 0x30 else 0x44 else if x < 0x2f then 0xa2 else 0xc2
          else
            if x < 0x38 then
              if x < 0x34 then
                if x < 0x32 then if x < 0x31 then 0x2c else 0x45 else if x < 0x33 then 0x92 else 0x6c
              else
                if x < 0x36 then if x < 0x35 then 0xf3 else 0x39 else if x < 0x37 then 0x66 else 0x42
            else
              if x < 0x3c then
                if x < 0x3a then if x < 0x39 then 0xf2 else 0x35 else if x < 0x3b then 0x20 else 0x6f
              else
                if x < 0x3e then if x < 0x3d then 0x77 else 0xbb else if x < 0x3f then 0x59 else 0x19
      else
        if x < 0x60 then
          if x < 0x50 then
            if x < 0x48 then
              if x < 0x44 then
                if x < 0x42 then if x < 0x41 then 0x1d else 0xfe else if x < 0x43 then 0x37 else 0x67
              else
                if x < 0x46 then if x < 0x45 then 0x2d else 0x31 else if x < 0x47 then 0xf5 else 0x69
            else
              if x < 0x4c then
                if x < 0x4a then if x < 0x49 then 0xa7 else 0x64 else if x < 0x4b then 0xab else 0x13
              else
                if x < 0x4e then if x < 0x4d then 0x54 else 0x25 else if x < 0x4f then 0xe9 else 0x09
          else
            if x < 0x58 then
              if x < 0x54 then
                if x < 0x52 then if x < 0x51 then 0xed else 0x5c else if x < 0x53 then 0x05 else 0xca
              else
                if x < 0x56 then if x < 0x55 then 0x4c else 0x24 else if x < 0x57 then 0x87 else 0xbf
            else
              if x < 0x5c then
                if x < 0x5a then if x < 0x59 then 0x18 else 0x3e else if x < 0x5b then 0x22 else 0xf0
              else
                if x < 0x5e then if x < 0x5d then 0x51 else 0xec else if x < 0x5f then 0x61 else 0x17
        else
          if x < 0x70 then
            if x < 0x68 then
              if x < 0x64 then
                if x < 0x62 then if x < 0x61 then 0x16 else 0x5e else if x < 0x63 then 0xaf else 0xd3
              else
                if x < 0x66 then if x < 0x65 then 0x49 else 0xa6 else if x < 0x67 then 0x36 else 0x43
            else
              if x < 0x6c then
                if x < 0x6a then if x < 0x69 then 0xf4 else 0x47 else if x < 0x6b then 0x91 else 0xdf
              else
                if x < 0x6e then if x < 0x6d then 0x33 else 0x93 else if x < 0x6f then 0x21 else 0x3b
          else
            if x < 0x78 then
              if x < 0x74 then
                if x < 0x72 then if x < 0x71 then 0x79 else 0xb7 else if x < 0x73 then 0x97 else 0x85
              else
                if x < 0x76 then if x < 0x75 then 0x10 else 0xb5 else if x < 0x77 then 0xba else 0x3c
            else
              if x < 0x7c then
                if x < 0x7a then if x < 0x79 then 0xb6 else 0x70 else if x < 0x7b then 0xd0 else 0x06
              else
                if x < 0x7e then if x < 0x7d then 0xa1 else 0xfa else if x < 0x7f then 0x81 else 0x82
    else
      if x < 0xc0 then
        if x < 0xa0 then
          if x < 0x90 then
            if x < 0x88 then
              if x < 0x84 then
                if x < 0x82 then if x < 0x81 then 0x83 else 0x7e else if x < 0x83 then 0x7f else 0x80
              else
                if x < 0x86 then if x < 0x85 then 0x96 else 0x73 else if x < 0x87 then 0xbe else 0x56
            else
              if x < 0x8c then
                if x < 0x8a then if x < 0x89 then 0x9b else 0x9e else if x < 0x8b then 0x95 else 0xd9
              else
                if x < 0x8e then if x < 0x8d then 0xf7 else 0x02 else if x < 0x8f then 0xb9 else 0xa4
          else
            if x < 0x98 then
              if x < 0x94 then
                if x < 0x92 then if x < 0x91 then 0xde else 0x6a else if x < 0x93 then 0x32 else 0x6d
              else
                if x < 0x96 then if x < 0x95 then 0xd8 else 0x8a else if x < 0x97 then 0x84 else 0x72
            else
              if x < 0x9c then
                if x < 0x9a then if x < 0x99 then 0x2a else 0x14 else if x < 0x9b then 0x9f else 0x88
              else
                if x < 0x9e then if x < 0x9d then 0xf9 else 0xdc else if x < 0x9f then 0x89 else 0x9a
        else
          if x < 0xb0 then
            if x < 0xa8 then
              if x < 0xa4 then
                if x < 0xa2 then if x < 0xa1 then 0xfb else 0x7c else if x < 0xa3 then 0x2e else 0xc3
              else
                if x < 0xa6 then if x < 0xa5 then 0x8f else 0xb8 else if x < 0xa7 then 0x65 else 0x48
            else
              if x < 0xac then
                if x < 0xaa then if x < 0xa9 then 0x26 else 0xc8 else if x < 0xab then 0x12 else 0x4a
              else
                if x < 0xae then if x < 0xad then 0xce else 0xe7 else if x < 0xaf then 0xd2 else 0x62
          else
            if x < 0xb8 then
              if x < 0xb4 then
                if x < 0xb2 then if x < 0xb1 then 0x0c else 0xe0 else if x < 0xb3 then 0x1f else 0xef
              else
                if x < 0xb6 then if x < 0xb5 then 0x11 else 0x75 else if x < 0xb7 then 0x78 else 0x71
            else
              if x < 0xbc then
                if x < 0xba then if x < 0xb9 then 0xa5 else 0x8e else if x < 0xbb then 0x76 else 0x3d
              else
                if x < 0xbe then if x < 0xbd then 0xbd else 0xbc else if x < 0xbf then 0x86 else 0x57
      else
        if x < 0xe0 then
          if x < 0xd0 then
            if x < 0xc8 then
              if x < 0xc4 then
                if x < 0xc2 then if x < 0xc1 then 0x0b else 0x28 else if x < 0xc3 then 0x2f else 0xa3
              else
                if x < 0xc6 then if x < 0xc5 then 0xda else 0xd4 else if x < 0xc7 then 0xe4 else 0x0f
            else
              if x < 0xcc then
                if x < 0xca then if x < 0xc9 then 0xa9 else 0x27 else if x < 0xcb then 0x53 else 0x04
              else
                if x < 0xce then if x < 0xcd then 0x1b else 0xfc else if x < 0xcf then 0xac else 0xe6
          else
            if x < 0xd8 then
              if x < 0xd4 then
                if x < 0xd2 then if x < 0xd1 then 0x7a else 0x07 else if x < 0xd3 then 0xae else 0x63
              else
                if x < 0xd6 then if x < 0xd5 then 0xc5 else 0xdb else if x < 0xd7 then 0xe2 else 0xea
            else
              if x < 0xdc then
                if x < 0xda then if x < 0xd9 then 0x94 else 0x8b else if x < 0xdb then 0xc4 else 0xd5
              else
                if x < 0xde then if x < 0xdd then 0x9d else 0xf8 else if x < 0xdf then 0x90 else 0x6b
        else
          if x < 0xf0 then
            if x < 0xe8 then
              if x < 0xe4 then
                if x < 0xe2 then if x < 0xe1 then 0xb1 else 0x0d else if x < 0xe3 then 0xd6 else 0xeb
              else
                if x < 0xe6 then if x < 0xe5 then 0xc6 else 0x0e else if x < 0xe7 then 0xcf else 0xad
            else
              if x < 0xec then
                if x < 0xea then if x < 0xe9 then 0x08 else 0x4e else if x < 0xeb then 0xd7 else 0xe3
              else
                if x < 0xee then if x < 0xed then 0x5d else 0x50 else if x < 0xef then 0x1e else 0xb3
          else
            if x < 0xf8 then
              if x < 0xf4 then
                if x < 0xf2 then if x < 0xf1 then 0x5b else 0x23 else if x < 0xf3 then 0x38 else 0x34
              else
                if x < 0xf6 then if x < 0xf5 then 0x68 else 0x46 else if x < 0xf7 then 0x03 else 0x8c
            else
              if x < 0xfc then
                if x < 0xfa then if x < 0xf9 then 0xdd else 0x9c else if x < 0xfb then 0x7d else 0xa0
              else
                if x < 0xfe then if x < 0xfd then 0xcd else 0x1a else if x < 0xff then 0x41 else 0x1c
  }
}
