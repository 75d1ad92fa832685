/** Multiplication in GF(2^128), as the GCM code for Arm computes it. */
module Ghash {

  // ---------------------------------------------------------------- polynomials over GF(2)

  /** The exponents whose coefficient is one; bit i of a register is the coefficient of x^i. */
  type Poly = set<nat>

  predicate Below(p: Poly, n: nat) {
    forall i :: i in p ==> i < n
  }

  function Add(p: Poly, q: Poly): Poly {
    (p - q) + (q - p)
  }

  /** p times x^k. */
  function Shift(p: Poly, k: nat): Poly {
    set i | i in p :: i + k
  }

  /** q times the terms of p below x^n. */
  function Mul(p: Poly, q: Poly, n: nat): Poly {
    if n == 0 then {} else Add(Mul(p, q, n - 1), if n - 1 in p then Shift(q, n - 1) else {})
  }

  lemma AddGroup(p: Poly, q: Poly, r: Poly)
    ensures Add(p, q) == Add(q, p)
    ensures Add(Add(p, q), r) == Add(p, Add(q, r))
    ensures Add(p, {}) == p && Add({}, p) == p && Add(p, p) == {}
  {
  }

  /** Four sums in two orders. */
  lemma AddSwap(p: Poly, q: Poly, r: Poly, s: Poly)
    ensures Add(Add(p, q), Add(r, s)) == Add(Add(p, r), Add(q, s))
  {
  }

  lemma InShift(p: Poly, k: nat, i: nat)
    ensures i in Shift(p, k) <==> i >= k && i - k in p
  {
    if i >= k && i - k in p {
      assert (i - k) + k in Shift(p, k);
    }
  }

  lemma ShiftAdd(p: Poly, q: Poly, k: nat)
    ensures Shift(Add(p, q), k) == Add(Shift(p, k), Shift(q, k))
  {
    forall i: nat ensures i in Shift(Add(p, q), k) <==> i in Add(Shift(p, k), Shift(q, k)) {
      InShift(Add(p, q), k, i);
      InShift(p, k, i);
      InShift(q, k, i);
    }
  }

  lemma ShiftShift(p: Poly, j: nat, k: nat)
    ensures Shift(Shift(p, j), k) == Shift(p, j + k) && Shift(p, 0) == p
  {
    forall i: nat ensures i in Shift(Shift(p, j), k) <==> i in Shift(p, j + k) {
      InShift(Shift(p, j), k, i);
      InShift(p, j + k, i);
      if i >= k { InShift(p, j, i - k); }
    }
    forall i: nat ensures i in Shift(p, 0) <==> i in p {
      InShift(p, 0, i);
    }
  }

  lemma {:induction false} MulAddRight(p: Poly, q: Poly, r: Poly, n: nat)
    ensures Mul(p, Add(q, r), n) == Add(Mul(p, q, n), Mul(p, r, n))
  {
    hide Add, Shift;
    if n == 0 {
      AddGroup({}, {}, {});
    } else {
      MulAddRight(p, q, r, n - 1);
      ShiftAdd(q, r, n - 1);
      AddGroup(Mul(p, q, n - 1), Mul(p, r, n - 1), {});
      AddGroup({}, {}, {});
      if n - 1 in p {
        AddSwap(Mul(p, q, n - 1), Mul(p, r, n - 1), Shift(q, n - 1), Shift(r, n - 1));
      } else {
        AddSwap(Mul(p, q, n - 1), Mul(p, r, n - 1), {}, {});
      }
    }
  }

  lemma {:induction false} MulShiftRight(p: Poly, q: Poly, k: nat, n: nat)
    ensures Mul(p, Shift(q, k), n) == Shift(Mul(p, q, n), k)
  {
    hide Add;
    if n == 0 {
    } else {
      MulShiftRight(p, q, k, n - 1);
      ShiftShift(q, k, n - 1);
      ShiftShift(q, n - 1, k);
      ShiftAdd(Mul(p, q, n - 1), if n - 1 in p then Shift(q, n - 1) else {}, k);
      assert Shift({}, k) == {};
    }
  }

  /** Terms of p at x^k and above, as a polynomial of their own. */
  function Upper(p: Poly, k: nat): Poly {
    set i | i in p && i >= k :: (i - k) as nat
  }

  function Lower(p: Poly, k: nat): Poly {
    set i | i in p && i < k
  }

  lemma InUpper(p: Poly, k: nat, i: nat)
    ensures i in Upper(p, k) <==> i + k in p
  {
    if i + k in p {
      assert ((i + k) - k) as nat in Upper(p, k);
    }
  }

  lemma Split(p: Poly, k: nat)
    ensures p == Add(Lower(p, k), Shift(Upper(p, k), k))
  {
    forall i: nat ensures i in p <==> i in Add(Lower(p, k), Shift(Upper(p, k), k)) {
      InShift(Upper(p, k), k, i);
      if i >= k { InUpper(p, k, i - k); }
    }
  }

  /** Multiplying by the upper and the lower half separately. */
  lemma {:induction false} MulSplitLeft(p: Poly, q: Poly, k: nat, n: nat)
    ensures Mul(p, q, k + n) == Add(Mul(Lower(p, k), q, k), Shift(Mul(Upper(p, k), q, n), k))
  {
    hide Add, Shift;
    if n == 0 {
      MulLower(p, q, k, k);
      EmptyShift(k);
      AddGroup(Mul(Lower(p, k), q, k), {}, {});
    } else {
      MulSplitLeft(p, q, k, n - 1);
      var low, high := Mul(Lower(p, k), q, k), Mul(Upper(p, k), q, n - 1);
      var term := if n - 1 in Upper(p, k) then Shift(q, n - 1) else {};
      InUpper(p, k, n - 1);
      ShiftShift(q, n - 1, k);
      EmptyShift(k);
      ShiftAdd(high, term, k);
      AddGroup(low, Shift(high, k), Shift(term, k));
    }
  }

  lemma EmptyShift(k: nat)
    ensures Shift({}, k) == {}
  {
  }

  lemma {:induction false} MulLower(p: Poly, q: Poly, k: nat, n: nat)
    requires n <= k
    ensures Mul(Lower(p, k), q, n) == Mul(p, q, n)
  {
    if n > 0 {
      MulLower(p, q, k, n - 1);
    }
  }

  lemma {:induction false} MulBelow(p: Poly, q: Poly, n: nat, m: nat)
    requires Below(q, m)
    ensures Below(Mul(p, q, n), if n == 0 then 0 else n - 1 + m)
  {
    if n > 0 {
      MulBelow(p, q, n - 1, m);
    }
  }

  // ---------------------------------------------------------------- the field: modulo x^128 + x^7 + x^2 + x + 1

  /** x^128 modulo the field polynomial. */
  const FOLD: Poly := {0, 1, 2, 7}

  /** p times x, reduced. */
  function TimesX(p: Poly): Poly {
    if 127 in p then Add(Shift(p - {127}, 1), FOLD) else Shift(p, 1)
  }

  function TimesXs(p: Poly, k: nat): Poly {
    if k == 0 then p else TimesX(TimesXs(p, k - 1))
  }

  /** The remainder of the terms of p below x^n. */
  function Remainder(p: Poly, n: nat): Poly {
    if n == 0 then {} else Add(Remainder(p, n - 1), if n - 1 in p then TimesXs({0}, n - 1) else {})
  }

  lemma TimesXAdd(p: Poly, q: Poly)
    ensures TimesX(Add(p, q)) == Add(TimesX(p), TimesX(q))
  {
    hide Shift;
    var p0, q0 := p - {127}, q - {127};
    ShiftAdd(p0, q0, 1);
    ShiftAdd(p, q, 1);
    assert Add(p, q) - {127} == Add(p0, q0);
    assert 127 !in p ==> p0 == p;
    assert 127 !in q ==> q0 == q;
    assert 127 in p && 127 in q ==> Add(p, q) == Add(p0, q0);
    ShiftAdd(p0, q0, 1);
  }

  lemma {:induction false} TimesXsAdd(p: Poly, q: Poly, k: nat)
    ensures TimesXs(Add(p, q), k) == Add(TimesXs(p, k), TimesXs(q, k))
  {
    hide Add, TimesX;
    if k > 0 {
      TimesXsAdd(p, q, k - 1);
      TimesXAdd(TimesXs(p, k - 1), TimesXs(q, k - 1));
    }
  }

  lemma {:induction false} TimesXsTwice(p: Poly, j: nat, k: nat)
    ensures TimesXs(TimesXs(p, j), k) == TimesXs(p, j + k)
  {
    hide TimesX;
    if k > 0 {
      TimesXsTwice(p, j, k - 1);
    }
  }

  lemma {:induction false} TimesXsZero(k: nat)
    ensures TimesXs({}, k) == {}
  {
    if k > 0 {
      TimesXsZero(k - 1);
    }
  }

  lemma {:induction false} RemainderAdd(p: Poly, q: Poly, n: nat)
    ensures Remainder(Add(p, q), n) == Add(Remainder(p, n), Remainder(q, n))
  {
    hide TimesXs;
    if n == 0 {
    } else {
      RemainderAdd(p, q, n - 1);
      var t := TimesXs({0}, n - 1);
      RemainderStep(Remainder(p, n - 1), Remainder(q, n - 1), t, n - 1 in p, n - 1 in q);
    }
  }

  lemma RemainderStep(a: Poly, b: Poly, t: Poly, inA: bool, inB: bool)
    ensures Add(Add(a, b), if inA != inB then t else {}) ==
            Add(Add(a, if inA then t else {}), Add(b, if inB then t else {}))
  {
  }

  lemma {:induction false} RemainderWider(p: Poly, n: nat, m: nat)
    requires Below(p, n) && n <= m
    ensures Remainder(p, m) == Remainder(p, n)
  {
    if n < m {
      RemainderWider(p, n, m - 1);
    }
  }

  lemma {:induction false} PowerBelow(k: nat)
    requires k < 128
    ensures TimesXs({0}, k) == {k}
  {
    if k > 0 {
      PowerBelow(k - 1);
      assert Shift({k - 1}, 1) == {k - 1 + 1};
    }
  }

  /** A polynomial of degree below 128 is its own remainder. */
  lemma {:induction false} RemainderSelf(p: Poly, n: nat)
    requires n <= 128
    ensures Remainder(p, n) == Lower(p, n)
  {
    hide TimesXs;
    if n > 0 {
      RemainderSelf(p, n - 1);
      PowerBelow(n - 1);
    }
  }

  lemma {:induction false} RemainderShiftOne(p: Poly, n: nat)
    ensures Remainder(Shift(p, 1), n + 1) == TimesX(Remainder(p, n))
  {
    hide Add, Shift, TimesX;
    if n == 0 {
      InShift(p, 1, 0);
      AddGroup({}, {}, {});
      TimesXsZero(1);
      assert TimesXs({}, 0) == {};
    } else {
      RemainderShiftOne(p, n - 1);
      InShift(p, 1, n);
      var t := if n - 1 in p then TimesXs({0}, n - 1) else {};
      TimesXAdd(Remainder(p, n - 1), t);
      TimesXsZero(1);
      assert TimesXs({}, 0) == {};
    }
  }

  /** Shifting before reducing is multiplying by x after reducing. */
  lemma {:induction false} RemainderShift(p: Poly, k: nat, n: nat)
    ensures Remainder(Shift(p, k), n + k) == TimesXs(Remainder(p, n), k)
  {
    hide Add, Shift, TimesX;
    if k == 0 {
      ShiftShift(p, 0, 0);
    } else {
      RemainderShift(p, k - 1, n);
      ShiftShift(p, k - 1, 1);
      RemainderShiftOne(Shift(p, k - 1), n + k - 1);
    }
  }

  /** Multiplying out: the remainder of a product adds up the remainders of the shifts. */
  function Horner(p: Poly, q: Poly, n: nat): Poly {
    if n == 0 then {} else Add(Horner(p, q, n - 1), if n - 1 in p then TimesXs(q, n - 1) else {})
  }

  lemma {:induction false} RemainderMul(p: Poly, q: Poly, n: nat, m: nat)
    requires Below(q, m)
    ensures Remainder(Mul(p, q, n), n + m) == Horner(p, Remainder(q, m), n)
  {
    hide Add, Shift, TimesXs;
    if n == 0 {
      EmptyRemainder(m);
    } else {
      RemainderMul(p, q, n - 1, m);
      MulBelow(p, q, n - 1, m);
      RemainderWider(Mul(p, q, n - 1), n - 1 + m, n + m);
      var term := if n - 1 in p then Shift(q, n - 1) else {};
      RemainderAdd(Mul(p, q, n - 1), term, n + m);
      EmptyRemainder(n + m);
      if n - 1 in p {
        RemainderShift(q, n - 1, m);
        ShiftBelow(q, n - 1, m);
        RemainderWider(Shift(q, n - 1), n - 1 + m, n + m);
      }
    }
  }

  lemma {:induction false} EmptyRemainder(n: nat)
    ensures Remainder({}, n) == {}
  {
    hide TimesXs;
    if n > 0 {
      EmptyRemainder(n - 1);
    }
  }

  lemma ShiftBelow(p: Poly, k: nat, n: nat)
    requires Below(p, n)
    ensures Below(Shift(p, k), n + k)
  {
  }

  /** x^128 folds into the low terms: reducing p x^128 is multiplying p by the low part of the modulus. */
  lemma FoldIsLow()
    ensures Below(FOLD, 128) && Lower(FOLD, 128) == FOLD
  {
  }

  lemma {:induction false} FoldUpper(p: Poly, n: nat)
    ensures Remainder(Shift(p, 128), n + 128) == Remainder(Mul(p, FOLD, n), n + 128)
  {
    hide TimesXs, Shift, Mul, Remainder, Lower, Upper;
    RemainderShift(p, 128, n);
    PowerOf128();
    FoldTerms(p, n);
    FoldIsLow();
    RemainderMul(p, FOLD, n, 128);
    RemainderSelf(FOLD, 128);
  }

  lemma PowerOf128()
    ensures TimesXs({0}, 128) == FOLD
  {
    PowerBelow(127);
    assert {127} - {127} == {};
    EmptyShift(1);
    AddGroup(FOLD, {}, {});
  }

  lemma {:induction false} FoldTerms(p: Poly, n: nat)
    requires TimesXs({0}, 128) == FOLD
    ensures TimesXs(Remainder(p, n), 128) == Horner(p, FOLD, n)
  {
    hide Add, TimesX;
    if n == 0 {
      TimesXsZero(128);
    } else {
      FoldTerms(p, n - 1);
      var t := if n - 1 in p then TimesXs({0}, n - 1) else {};
      TimesXsAdd(Remainder(p, n - 1), t, 128);
      TimesXsZero(128);
      if n - 1 in p {
        TimesXsTwice({0}, n - 1, 128);
        TimesXsTwice({0}, 128, n - 1);
      }
    }
  }

  // ---------------------------------------------------------------- registers and instructions

  // A register of 128 bits is a polynomial below x^128; its halves are its lower and upper 64 bits.

  function PmullLow(a: Poly, b: Poly): Poly {
    Mul(Lower(a, 64), Lower(b, 64), 64)
  }

  function PmullHigh(a: Poly, b: Poly): Poly {
    Mul(Upper(a, 64), Upper(b, 64), 64)
  }

  /** `vextq_u8(a, b, 8)`: the upper half of a, then the lower half of b. */
  function Ext8(a: Poly, b: Poly): Poly {
    Upper(a, 64) + Shift(Lower(b, 64), 64)
  }

  datatype Triple = Triple(h: Poly, m: Poly, l: Poly)

  function PolyMult128(a: Poly, b: Poly): Triple {
    var c := Ext8(b, b);
    Triple(PmullHigh(a, b), Add(PmullHigh(a, c), PmullLow(a, c)), PmullLow(a, b))
  }

  /** 0x87 in each half. */
  const MODULO: Poly := FOLD + {64, 65, 66, 71}

  function PolyMultReduce(t: Triple): Poly {
    var c := PmullHigh(t.h, MODULO);
    var d := PmullLow(t.h, MODULO);
    var e := Add(c, t.m);
    var f := PmullHigh(e, MODULO);
    var g := Ext8({}, e);
    var n := Add(d, t.l);
    var o := Add(n, f);
    Add(o, g)
  }

  /** The product the three parts stand for. */
  function Value(t: Triple): Poly {
    Add(Add(t.l, Shift(t.m, 64)), Shift(t.h, 128))
  }

  // ---------------------------------------------------------------- the multiplication is the product

  lemma Ext8Swaps(b: Poly)
    requires Below(b, 128)
    ensures Lower(Ext8(b, b), 64) == Upper(b, 64) && Upper(Ext8(b, b), 64) == Lower(b, 64)
  {
    var c := Ext8(b, b);
    forall i: nat ensures i in Lower(c, 64) <==> i in Upper(b, 64) {
      InUpper(b, 64, i);
      InShift(Lower(b, 64), 64, i);
    }
    forall i: nat ensures i in Upper(c, 64) <==> i in Lower(b, 64) {
      InUpper(c, 64, i);
      InUpper(b, 64, i + 64);
      InShift(Lower(b, 64), 64, i + 64);
    }
  }

  /** Four half products, put together: the 256-bit product. */
  lemma PolyMultIsProduct(a: Poly, b: Poly)
    requires Below(a, 128) && Below(b, 128)
    ensures Value(PolyMult128(a, b)) == Mul(a, b, 128)
  {
    hide Add, Shift, Mul, Lower, Upper, Ext8;
    var a0, a1, b0, b1 := Lower(a, 64), Upper(a, 64), Lower(b, 64), Upper(b, 64);
    Ext8Swaps(b);
    MulSplitLeft(a, b, 64, 64);
    Split(b, 64);
    MulAddRight(a0, b0, Shift(b1, 64), 64);
    MulAddRight(a1, b0, Shift(b1, 64), 64);
    MulShiftRight(a0, b1, 64, 64);
    MulShiftRight(a1, b1, 64, 64);
    var d, e, h, l := Mul(a1, b0, 64), Mul(a0, b1, 64), Mul(a1, b1, 64), Mul(a0, b0, 64);
    ShiftAdd(d, Shift(h, 64), 64);
    ShiftShift(h, 64, 64);
    ShiftAdd(d, e, 64);
    Gather(l, Shift(e, 64), Shift(d, 64), Shift(h, 128));
  }

  lemma Gather(l: Poly, e: Poly, d: Poly, h: Poly)
    ensures Add(Add(l, e), Add(d, h)) == Add(Add(l, Add(d, e)), h)
  {
  }

  // ---------------------------------------------------------------- the reduction is the remainder

  /** The remainder of a product of two registers. */
  function Reduced(p: Poly): Poly {
    Remainder(p, 256)
  }

  lemma ReducedSelf(p: Poly)
    requires Below(p, 128)
    ensures Reduced(p) == p
  {
    RemainderWider(p, 128, 256);
    RemainderSelf(p, 128);
    assert Lower(p, 128) == p;
  }

  /** One folding step: 64 bits above x^128 come back as a product below x^71. */
  lemma FoldOnce(p: Poly)
    requires Below(p, 64)
    ensures Reduced(Shift(p, 128)) == Mul(p, FOLD, 64) && Below(Mul(p, FOLD, 64), 71)
  {
    hide Mul, Remainder;
    FoldUpper(p, 64);
    ShiftBelow(p, 128, 64);
    RemainderWider(Shift(p, 128), 192, 256);
    MulBelow(p, FOLD, 64, 8);
    RemainderWider(Mul(p, FOLD, 64), 192, 256);
    ReducedSelf(Mul(p, FOLD, 64));
  }

  /** Bits above x^192 fold once into the middle. */
  lemma FoldTwice(p: Poly)
    requires Below(p, 64)
    ensures Reduced(Shift(p, 192)) == Reduced(Shift(Mul(p, FOLD, 64), 64))
  {
    hide Mul, Remainder;
    FoldUpper(p, 64);
    MulBelow(p, FOLD, 64, 8);
    RemainderShift(Shift(p, 128), 64, 192);
    ShiftShift(p, 128, 64);
    RemainderShift(Mul(p, FOLD, 64), 64, 192);
  }

  lemma ModuloHalves()
    ensures Lower(MODULO, 64) == FOLD && Upper(MODULO, 64) == FOLD
  {
    forall i: nat ensures i in Upper(MODULO, 64) <==> i in FOLD {
      InUpper(MODULO, 64, i);
    }
  }

  lemma HalvesBelow(p: Poly)
    requires Below(p, 128)
    ensures Below(Lower(p, 64), 64) && Below(Upper(p, 64), 64)
  {
  }

  /** Moving the low half up, as the code does with an empty register. */
  lemma ExtMovesUp(e: Poly)
    ensures Ext8({}, e) == Shift(Lower(e, 64), 64) && Below(Ext8({}, e), 128)
  {
  }

  /** The upper 64 bits of a middle part, at x^64, fold as well. */
  lemma FoldMiddle(e: Poly)
    requires Below(e, 128)
    ensures Reduced(Shift(e, 64)) == Add(Ext8({}, e), PmullHigh(e, MODULO)) && Below(PmullHigh(e, MODULO), 71)
  {
    hide Add, Shift, Mul, Remainder, Lower, Upper, Ext8;
    ModuloHalves();
    HalvesBelow(e);
    Split(e, 64);
    ShiftAdd(Lower(e, 64), Shift(Upper(e, 64), 64), 64);
    ShiftShift(Upper(e, 64), 64, 64);
    RemainderAdd(Shift(Lower(e, 64), 64), Shift(Upper(e, 64), 128), 256);
    FoldOnce(Upper(e, 64));
    ExtMovesUp(e);
    ReducedSelf(Ext8({}, e));
  }

  /** The whole high part folds into the middle and the low part. */
  lemma FoldHigh(h: Poly)
    requires Below(h, 128)
    ensures Reduced(Shift(h, 128)) == Add(PmullLow(h, MODULO), Reduced(Shift(PmullHigh(h, MODULO), 64)))
    ensures Below(PmullLow(h, MODULO), 71) && Below(PmullHigh(h, MODULO), 71)
  {
    hide Add, Shift, Mul, Remainder, Lower, Upper;
    ModuloHalves();
    HalvesBelow(h);
    Split(h, 64);
    ShiftAdd(Lower(h, 64), Shift(Upper(h, 64), 64), 128);
    ShiftShift(Upper(h, 64), 64, 128);
    RemainderAdd(Shift(Lower(h, 64), 128), Shift(Upper(h, 64), 192), 256);
    FoldOnce(Lower(h, 64));
    FoldOnce(Upper(h, 64));
    FoldTwice(Upper(h, 64));
  }

  /** `poly_mult_reduce` returns the remainder of the value its three inputs stand for. */
  lemma ReduceIsRemainder(t: Triple)
    requires Below(t.h, 128) && Below(t.m, 128) && Below(t.l, 128)
    ensures PolyMultReduce(t) == Reduced(Value(t)) && Below(PolyMultReduce(t), 128)
  {
    hide Shift, Mul, Remainder, Lower, Upper, Ext8, PmullLow, PmullHigh;
    var c, d := PmullHigh(t.h, MODULO), PmullLow(t.h, MODULO);
    var e := Add(c, t.m);
    FoldHigh(t.h);
    FoldMiddle(e);
    ReducedSelf(t.l);
    RemainderAdd(Add(t.l, Shift(t.m, 64)), Shift(t.h, 128), 256);
    RemainderAdd(t.l, Shift(t.m, 64), 256);
    ShiftAdd(c, t.m, 64);
    RemainderAdd(Shift(c, 64), Shift(t.m, 64), 256);
    ExtMovesUp(e);
    Collect(t.l, Reduced(Shift(t.m, 64)), d, Reduced(Shift(c, 64)), Ext8({}, e), PmullHigh(e, MODULO));
  }

  lemma Collect(l: Poly, m: Poly, d: Poly, c: Poly, g: Poly, f: Poly)
    requires Add(c, m) == Add(g, f)
    ensures Add(Add(l, m), Add(d, c)) == Add(Add(Add(d, l), f), g)
  {
    hide Add;
    AddSwap(l, m, d, c);
    AddGroup(l, d, {});
    AddGroup(m, c, {});
    AddGroup(g, f, {});
    AddGroup(Add(d, l), f, g);
  }

  /** The three parts fit their registers. */
  lemma PartsFit(a: Poly, b: Poly)
    requires Below(a, 128) && Below(b, 128)
    ensures var t := PolyMult128(a, b); Below(t.h, 128) && Below(t.m, 128) && Below(t.l, 128)
  {
    hide Mul, Shift;
    HalvesBelow(a);
    HalvesBelow(b);
    Ext8Swaps(b);
    MulBelow(Lower(a, 64), Lower(b, 64), 64, 64);
    MulBelow(Upper(a, 64), Upper(b, 64), 64, 64);
    MulBelow(Lower(a, 64), Upper(b, 64), 64, 64);
    MulBelow(Upper(a, 64), Lower(b, 64), 64, 64);
  }

  // ---------------------------------------------------------------- NIST SP 800-38D, section 6.3

  /** Steps of the block product: Z takes V for every one bit of the block, and V is multiplied by x. */
  function BlockProduct(x: Poly, y: Poly, n: nat): (zv: (Poly, Poly)) {
    if n == 0 then ({}, y)
    else
      var (z, v) := BlockProduct(x, y, n - 1);
      (if n - 1 in x then Add(z, v) else z, TimesX(v))
  }

  lemma {:induction false} BlockProductIsHorner(x: Poly, y: Poly, n: nat)
    ensures BlockProduct(x, y, n) == (Horner(x, y, n), TimesXs(y, n))
  {
    hide Add, TimesX;
    if n > 0 {
      BlockProductIsHorner(x, y, n - 1);
      AddGroup(Horner(x, y, n - 1), {}, {});
    }
  }

  /** Multiplying and reducing registers is the block product: a product of polynomials modulo the field polynomial. */
  lemma MultIsBlockProduct(a: Poly, b: Poly)
    requires Below(a, 128) && Below(b, 128)
    ensures var c := PolyMultReduce(PolyMult128(a, b));
      Below(c, 128) && c == Reduced(Mul(a, b, 128)) && c == BlockProduct(a, b, 128).0
  {
    hide Mul, Remainder, Horner, BlockProduct, TimesXs, PolyMultReduce, PolyMult128, Value;
    PartsFit(a, b);
    ReduceIsRemainder(PolyMult128(a, b));
    PolyMultIsProduct(a, b);
    RemainderMul(a, b, 128, 128);
    RemainderSelf(b, 128);
    assert Lower(b, 128) == b;
    BlockProductIsHorner(a, b, 128);
  }

  // The same algorithm on bit strings, leftmost bit first.

  type Bits = seq<bool>

  function XorBits(x: Bits, y: Bits): Bits
    requires |x| == |y|
  {
    seq(|x|, i requires 0 <= i < |x| => x[i] != y[i])
  }

  /** 11100001 followed by zeros. */
  function R(): Bits {
    seq(128, i => i in FOLD)
  }

  function NextV(v: Bits): (w: Bits)
    requires |v| == 128
    ensures |w| == 128
  {
    var shifted := [false] + v[..127];
    if v[127] then XorBits(shifted, R()) else shifted
  }

  function NistProduct(x: Bits, y: Bits, n: nat): (zv: (Bits, Bits))
    requires |x| == 128 && |y| == 128 && n <= 128
    ensures |zv.0| == 128 && |zv.1| == 128
  {
    if n == 0 then (seq(128, _ => false), y)
    else
      var (z, v) := NistProduct(x, y, n - 1);
      (if x[n - 1] then XorBits(z, v) else z, NextV(v))
  }

  function PolyOf(x: Bits): Poly {
    set i: nat | i < |x| && x[i]
  }

  lemma XorIsAdd(x: Bits, y: Bits)
    requires |x| == |y|
    ensures PolyOf(XorBits(x, y)) == Add(PolyOf(x), PolyOf(y))
  {
  }

  lemma NextVIsTimesX(v: Bits)
    requires |v| == 128
    ensures PolyOf(NextV(v)) == TimesX(PolyOf(v))
  {
    var shifted := [false] + v[..127];
    var p := PolyOf(v) - {127};
    forall i: nat ensures i in PolyOf(shifted) <==> i in Shift(p, 1) {
      InShift(p, 1, i);
    }
    assert PolyOf(shifted) == Shift(p, 1);
    assert 127 !in PolyOf(v) ==> p == PolyOf(v);
    assert PolyOf(R()) == FOLD;
    XorIsAdd(shifted, R());
  }

  lemma {:induction false} NistIsBlockProduct(x: Bits, y: Bits, n: nat)
    requires |x| == 128 && |y| == 128 && n <= 128
    ensures BlockProduct(PolyOf(x), PolyOf(y), n) ==
      (PolyOf(NistProduct(x, y, n).0), PolyOf(NistProduct(x, y, n).1))
  {
    hide TimesX, NextV, Add, XorBits;
    if n == 0 {
      assert PolyOf(seq(128, _ => false)) == {};
    } else {
      NistIsBlockProduct(x, y, n - 1);
      var (z, v) := NistProduct(x, y, n - 1);
      NextVIsTimesX(v);
      XorIsAdd(z, v);
    }
  }

  // ---------------------------------------------------------------- bytes

  type Block = b: seq<bv8> | |b| == 16 witness [0, 0, 0, 0, 0, 0, 0, 0, 0, 0, 0, 0, 0, 0, 0, 0]

  function Mask(j: nat): bv8 {
    if j == 0 then 0x01 else if j == 1 then 0x02 else if j == 2 then 0x04 else if j == 3 then 0x08
    else if j == 4 then 0x10 else if j == 5 then 0x20 else if j == 6 then 0x40 else 0x80
  }

  /** The bits of a block, the most significant bit of each byte first. */
  function BitsOf(b: Block): (bits: Bits)
    ensures |bits| == 128
  {
    seq(128, i requires 0 <= i < 128 => b[i / 8] & Mask(7 - i % 8) != 0)
  }

  /** A register loaded from memory: the least significant bit of each byte first. */
  function Load(b: Block): Poly {
    set i: nat | i < 128 && b[i / 8] & Mask(i % 8) != 0
  }

  function BitIf(p: Poly, i: nat, j: nat): bv8 {
    if i + j in p then Mask(j) else 0
  }

  function Store(p: Poly): Block {
    seq(16, k requires 0 <= k < 16 =>
      BitIf(p, 8 * k, 0) | BitIf(p, 8 * k, 1) | BitIf(p, 8 * k, 2) | BitIf(p, 8 * k, 3) |
      BitIf(p, 8 * k, 4) | BitIf(p, 8 * k, 5) | BitIf(p, 8 * k, 6) | BitIf(p, 8 * k, 7))
  }

  function Mirror(i: nat): nat {
    8 * (i / 8) + 7 - i % 8
  }

  /** `vrbitq_u8`: the bits of each byte in reverse. */
  function ReverseBits(p: Poly): Poly {
    set i | i in p :: Mirror(i)
  }

  lemma MirrorTwice(i: nat)
    ensures Mirror(Mirror(i)) == i && Mirror(i) / 8 == i / 8 && Mirror(i) % 8 == 7 - i % 8
  {
  }

  lemma MirrorAt(k: nat, r: nat)
    requires r < 8
    ensures Mirror(8 * k + (7 - r)) == 8 * k + r
  {
  }

  lemma InReverse(p: Poly, i: nat)
    ensures i in ReverseBits(p) <==> Mirror(i) in p
  {
    MirrorTwice(i);
    if i in ReverseBits(p) {
      var j :| j in p && Mirror(j) == i;
      MirrorTwice(j);
    }
  }

  /** Loading and reversing the bits gives the block in the bit order of GCM. */
  lemma LoadReversed(b: Block)
    ensures ReverseBits(Load(b)) == PolyOf(BitsOf(b)) && Below(ReverseBits(Load(b)), 128)
  {
    hide Mask;
    forall i: nat ensures i in ReverseBits(Load(b)) <==> i in PolyOf(BitsOf(b)) {
      InReverse(Load(b), i);
      MirrorTwice(i);
      assert Mirror(i) < 128 <==> i < 128;
    }
  }

  lemma ByteBit(p: Poly, k: nat, j: nat)
    requires k < 16 && j < 8
    ensures Store(p)[k] & Mask(j) != 0 <==> 8 * k + j in p
  {
    var b0, b1, b2, b3 := BitIf(p, 8 * k, 0), BitIf(p, 8 * k, 1), BitIf(p, 8 * k, 2), BitIf(p, 8 * k, 3);
    var b4, b5, b6, b7 := BitIf(p, 8 * k, 4), BitIf(p, 8 * k, 5), BitIf(p, 8 * k, 6), BitIf(p, 8 * k, 7);
    assert Store(p)[k] == b0 | b1 | b2 | b3 | b4 | b5 | b6 | b7;
  }

  lemma StoreBit(p: Poly, i: nat)
    requires i < 128
    ensures BitsOf(Store(ReverseBits(p)))[i] <==> i in p
  {
    hide Mask, Store, ReverseBits, Mirror;
    var k, r := i / 8, i % 8;
    ByteBit(ReverseBits(p), k, 7 - r);
    InReverse(p, 8 * k + (7 - r));
    MirrorAt(k, r);
    assert i == 8 * k + r;
  }

  lemma StoreReversed(p: Poly)
    requires Below(p, 128)
    ensures PolyOf(BitsOf(Store(ReverseBits(p)))) == p
  {
    hide Store, ReverseBits, Mask;
    var bits := BitsOf(Store(ReverseBits(p)));
    hide BitsOf;
    forall i: nat ensures i in PolyOf(bits) <==> i in p {
      if i < 128 { StoreBit(p, i); }
    }
  }

  lemma SameBits(x: Bits, y: Bits)
    requires |x| == |y| && PolyOf(x) == PolyOf(y)
    ensures x == y
  {
    forall i | 0 <= i < |x| ensures x[i] == y[i] {
      assert x[i] <==> i in PolyOf(x);
      assert y[i] <==> i in PolyOf(y);
    }
  }

  /** `mbedtls_aesce_gcm_mult` on the contents of its arguments. */
  function GcmMult(a: Block, b: Block): Block {
    Store(ReverseBits(PolyMultReduce(PolyMult128(ReverseBits(Load(a)), ReverseBits(Load(b))))))
  }

  /** The block product of NIST SP 800-38D, section 6.3, bit for bit. */
  lemma GcmMultIsNistProduct(a: Block, b: Block)
    ensures BitsOf(GcmMult(a, b)) == NistProduct(BitsOf(a), BitsOf(b), 128).0
  {
    hide NistProduct, PolyMultReduce, PolyMult128, Store, ReverseBits, Load, Mask, Mul, Remainder, BlockProduct;
    LoadReversed(a);
    LoadReversed(b);
    var x, y := PolyOf(BitsOf(a)), PolyOf(BitsOf(b));
    MultIsBlockProduct(x, y);
    NistIsBlockProduct(BitsOf(a), BitsOf(b), 128);
    StoreReversed(PolyMultReduce(PolyMult128(x, y)));
    SameBits(BitsOf(GcmMult(a, b)), NistProduct(BitsOf(a), BitsOf(b), 128).0);
  }

  /** The output may be either of the inputs. */
  method MbedtlsAesceGcmMult(c: array<bv8>, a: array<bv8>, b: array<bv8>)
    requires a.Length == 16 && b.Length == 16 && c.Length == 16
    modifies c
    ensures BitsOf(c[..]) == NistProduct(BitsOf(old(a[..])), BitsOf(old(b[..])), 128).0
  {
    hide NistProduct, PolyMultReduce, PolyMult128, Store, ReverseBits, Load, BitsOf;
    var va, vb := ReverseBits(Load(a[..])), ReverseBits(Load(b[..]));
    var vc := Store(ReverseBits(PolyMultReduce(PolyMult128(va, vb))));
    GcmMultIsNistProduct(a[..], b[..]);
    forall i | 0 <= i < 16 {
      c[i] := vc[i];
    }
    assert c[..] == vc;
  }

  // ---------------------------------------------------------------- known products

  /** The blocks whose first, second and last bit alone is set. */
  const FIRST_BIT: Block := [0x80, 0, 0, 0, 0, 0, 0, 0, 0, 0, 0, 0, 0, 0, 0, 0]
  const SECOND_BIT: Block := [0x40, 0, 0, 0, 0, 0, 0, 0, 0, 0, 0, 0, 0, 0, 0, 0]
  const LAST_BIT: Block := [0, 0, 0, 0, 0, 0, 0, 0, 0, 0, 0, 0, 0, 0, 0, 0x01]
  const REDUCTION: Block := [0xe1, 0, 0, 0, 0, 0, 0, 0, 0, 0, 0, 0, 0, 0, 0, 0]

  predicate OnlyBit(x: Bits, k: nat) {
    forall i :: 0 <= i < |x| ==> (x[i] <==> i == k)
  }

  lemma {:induction false} OneBitProduct(x: Bits, y: Bits, k: nat, n: nat)
    requires |x| == 128 && |y| == 128 && k < 2 && n <= 128 && OnlyBit(x, k)
    ensures n <= k ==> NistProduct(x, y, n).0 == seq(128, _ => false)
    ensures n > k ==> NistProduct(x, y, n).0 == if k == 0 then y else NextV(y)
    ensures n == 1 ==> NistProduct(x, y, n).1 == NextV(y)
  {
    hide NextV;
    if n > 0 {
      OneBitProduct(x, y, k, n - 1);
      assert XorBits(seq(128, _ => false), if k == 0 then y else NextV(y)) == if k == 0 then y else NextV(y);
    }
  }

  lemma SameByte(a: bv8, b: bv8)
    requires forall j :: 0 <= j < 8 ==> (a & Mask(j) != 0 <==> b & Mask(j) != 0)
    ensures a == b
  {
    assert a & Mask(0) != 0 <==> b & Mask(0) != 0;
    assert a & Mask(1) != 0 <==> b & Mask(1) != 0;
    assert a & Mask(2) != 0 <==> b & Mask(2) != 0;
    assert a & Mask(3) != 0 <==> b & Mask(3) != 0;
    assert a & Mask(4) != 0 <==> b & Mask(4) != 0;
    assert a & Mask(5) != 0 <==> b & Mask(5) != 0;
    assert a & Mask(6) != 0 <==> b & Mask(6) != 0;
    assert a & Mask(7) != 0 <==> b & Mask(7) != 0;
  }

  lemma SameBlock(a: Block, b: Block)
    requires BitsOf(a) == BitsOf(b)
    ensures a == b
  {
    forall k | 0 <= k < 16 ensures a[k] == b[k] {
      forall j | 0 <= j < 8 ensures a[k] & Mask(j) != 0 <==> b[k] & Mask(j) != 0 {
        assert BitsOf(a)[8 * k + (7 - j)] == BitsOf(b)[8 * k + (7 - j)];
      }
      SameByte(a[k], b[k]);
    }
  }

  lemma KnownMasks(j: nat)
    requires j < 8
    ensures 0x00 & Mask(j) == 0 && (0x80 & Mask(j) != 0 <==> j == 7) && (0x40 & Mask(j) != 0 <==> j == 6)
    ensures (0x01 & Mask(j) != 0 <==> j == 0) && (0xe1 & Mask(j) != 0 <==> j in {7, 6, 5, 0})
  {
  }

  lemma KnownBits()
    ensures OnlyBit(BitsOf(FIRST_BIT), 0) && OnlyBit(BitsOf(SECOND_BIT), 1) && OnlyBit(BitsOf(LAST_BIT), 127)
    ensures BitsOf(REDUCTION) == R()
  {
    hide Mask;
    forall i | 0 <= i < 128
      ensures (BitsOf(FIRST_BIT)[i] <==> i == 0) && (BitsOf(SECOND_BIT)[i] <==> i == 1)
      ensures (BitsOf(LAST_BIT)[i] <==> i == 127) && BitsOf(REDUCTION)[i] == R()[i]
    {
      KnownMasks(7 - i % 8);
      KnownBytesAt(i / 8);
    }
  }

  lemma KnownBytesAt(k: nat)
    requires k < 16
    ensures FIRST_BIT[k] == (if k == 0 then 0x80 else 0) && SECOND_BIT[k] == (if k == 0 then 0x40 else 0)
    ensures LAST_BIT[k] == (if k == 15 then 0x01 else 0) && REDUCTION[k] == (if k == 0 then 0xe1 else 0)
  {
  }

  /** In the bit order of the standard the first bit is one, and the last bit times x is the reduction constant. */
  lemma KnownProducts(b: Block)
    ensures GcmMult(FIRST_BIT, b) == b
    ensures GcmMult(SECOND_BIT, LAST_BIT) == REDUCTION
  {
    hide GcmMult, BitsOf, NistProduct, OnlyBit;
    KnownBits();
    GcmMultIsNistProduct(FIRST_BIT, b);
    OneBitProduct(BitsOf(FIRST_BIT), BitsOf(b), 0, 128);
    SameBlock(GcmMult(FIRST_BIT, b), b);
    GcmMultIsNistProduct(SECOND_BIT, LAST_BIT);
    OneBitProduct(BitsOf(SECOND_BIT), BitsOf(LAST_BIT), 1, 128);
    LastBitFolds(BitsOf(LAST_BIT));
    SameBlock(GcmMult(SECOND_BIT, LAST_BIT), REDUCTION);
  }

  lemma LastBitFolds(v: Bits)
    requires |v| == 128 && OnlyBit(v, 127)
    ensures NextV(v) == R()
  {
    assert [false] + v[..127] == seq(128, _ => false);
    assert XorBits(seq(128, _ => false), R()) == R();
  }
}
