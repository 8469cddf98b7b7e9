/** A chunk's holder mask: a 32-bit word with one bit per subscriber slot, changed by
    fetch_and and fetch_add. The lemmas give each word operation its meaning on slot sets. */
module Bitmask {

  type Mask = bv32

  /** `1 << s` */
  function Bit(s: nat): Mask
    requires s < 16
  {
    if s == 0 then 0x1 else if s == 1 then 0x2 else if s == 2 then 0x4 else if s == 3 then 0x8
    else if s == 4 then 0x10 else if s == 5 then 0x20 else if s == 6 then 0x40 else if s == 7 then 0x80
    else if s == 8 then 0x100 else if s == 9 then 0x200 else if s == 10 then 0x400 else if s == 11 then 0x800
    else if s == 12 then 0x1000 else if s == 13 then 0x2000 else if s == 14 then 0x4000 else 0x8000
  }

  function And(m: Mask, n: Mask): Mask { m & n }

  function Or(m: Mask, n: Mask): Mask { m | n }

  /** The new value of `fetch_and(~n)`. */
  function Without(m: Mask, n: Mask): Mask { m & !n }

  /** The new value of `fetch_add(n)`. */
  function Plus(m: Mask, n: Mask): Mask { m + n }

  predicate InRange(m: Mask) { m & 0xFFFF == m }

  predicate Has(m: Mask, s: nat)
    requires s < 16
  {
    And(m, Bit(s)) != 0
  }

  /** The mask and the slot set describe the same holders, and no other bit is set. */
  ghost predicate Means(m: Mask, holders: set<nat>)
  {
    && InRange(m)
    && (forall s | s in holders :: s < 16)
    && (forall s: nat | s < 16 :: Has(m, s) <==> s in holders)
  }

  // Facts about words

  lemma BitsAreDistinct(s: nat, t: nat)
    requires s < 16 && t < 16
    ensures Bit(s) != 0 && InRange(Bit(s))
    ensures And(Bit(s), Bit(t)) == if s == t then Bit(s) else 0
  {
  }

  /** Each slot's bit is the one before it shifted left by one. */
  lemma BitsDouble(s: nat)
    requires s < 16
    ensures Bit(0) == 1 && (s > 0 ==> Bit(s) == Bit(s - 1) << 1)
  {
  }

  lemma WithoutFacts(m: Mask, a: Mask, b: Mask)
    ensures And(a, b) == 0 ==> And(Without(m, a), b) == And(m, b)
    ensures And(Without(m, a), a) == 0
    ensures InRange(m) ==> InRange(Without(m, a))
  {
  }

  lemma OrKeepsOthers(m: Mask, a: Mask, b: Mask)
    requires And(a, b) == 0
    ensures And(Or(m, a), b) == And(m, b)
  {
  }

  lemma OrSets(m: Mask, a: Mask)
    ensures And(Or(m, a), a) == a
  {
  }

  lemma OrStaysInRange(m: Mask, a: Mask)
    requires InRange(m) && InRange(a)
    ensures InRange(Or(m, a))
  {
  }

  lemma AddIsOr(m: bv32, a: bv32)
    requires m & a == 0
    ensures m + a == m | a
  {
  }

  lemma PlusIsOr(m: Mask, a: Mask)
    requires And(m, a) == 0
    ensures Plus(m, a) == Or(m, a)
  {
    AddIsOr(m, a);
  }

  lemma BitIsAllOrNothing(m: Mask, s: nat)
    requires s < 16
    ensures And(m, Bit(s)) == 0 || And(m, Bit(s)) == Bit(s)
  {
  }

  lemma TableOfBits()
    ensures Bit(0) == 0x1 && Bit(1) == 0x2 && Bit(2) == 0x4 && Bit(3) == 0x8
    ensures Bit(4) == 0x10 && Bit(5) == 0x20 && Bit(6) == 0x40 && Bit(7) == 0x80
    ensures Bit(8) == 0x100 && Bit(9) == 0x200 && Bit(10) == 0x400 && Bit(11) == 0x800
    ensures Bit(12) == 0x1000 && Bit(13) == 0x2000 && Bit(14) == 0x4000 && Bit(15) == 0x8000
  {
  }

  lemma WordIsItsBits(m: Mask, n: Mask)
    requires InRange(m) && InRange(n)
    requires And(m, 0x1) == And(n, 0x1) && And(m, 0x2) == And(n, 0x2) && And(m, 0x4) == And(n, 0x4)
      && And(m, 0x8) == And(n, 0x8)
    requires And(m, 0x10) == And(n, 0x10) && And(m, 0x20) == And(n, 0x20) && And(m, 0x40) == And(n, 0x40)
      && And(m, 0x80) == And(n, 0x80)
    requires And(m, 0x100) == And(n, 0x100) && And(m, 0x200) == And(n, 0x200) && And(m, 0x400) == And(n, 0x400)
      && And(m, 0x800) == And(n, 0x800)
    requires And(m, 0x1000) == And(n, 0x1000) && And(m, 0x2000) == And(n, 0x2000) && And(m, 0x4000) == And(n, 0x4000)
      && And(m, 0x8000) == And(n, 0x8000)
    ensures m == n
  {
  }

  lemma SameBits(m: Mask, n: Mask)
    requires InRange(m) && InRange(n)
    requires forall s: nat | s < 16 :: And(m, Bit(s)) == And(n, Bit(s))
    ensures m == n
  {
    hide Bit, And, InRange;
    TableOfBits();
    WordIsItsBits(m, n);
  }

  // Facts about slot sets

  /** fetch_and(~bit) takes one slot out and leaves the others. */
  lemma FetchAnd(m: Mask, holders: set<nat>, t: nat)
    requires t < 16 && Means(m, holders)
    ensures Means(Without(m, Bit(t)), holders - {t})
  {
    hide Bit, And, Without, InRange;
    WithoutFacts(m, Bit(t), Bit(t));
    forall s: nat | s < 16
      ensures Has(Without(m, Bit(t)), s) <==> s in holders - {t}
    {
      BitsAreDistinct(t, s);
      WithoutFacts(m, Bit(t), Bit(s));
      assert Has(m, s) <==> s in holders;
    }
  }

  /** fetch_add(bit) of a slot that is not yet in the mask adds exactly that slot: no carry. */
  lemma FetchAdd(m: Mask, holders: set<nat>, t: nat)
    requires t < 16 && t !in holders && Means(m, holders)
    ensures Means(Plus(m, Bit(t)), holders + {t})
  {
    hide Bit, And, Or, Plus, InRange;
    BitsAreDistinct(t, t);
    assert !Has(m, t);
    PlusIsOr(m, Bit(t));
    OrStaysInRange(m, Bit(t));
    OrSets(m, Bit(t));
    forall s: nat | s < 16
      ensures Has(Or(m, Bit(t)), s) <==> s in holders + {t}
    {
      BitsAreDistinct(t, s);
      if s != t {
        OrKeepsOthers(m, Bit(t), Bit(s));
      }
      assert Has(m, s) <==> s in holders;
    }
  }

  /** fetch_add of a whole mask onto an empty word stores that mask. */
  lemma FetchAddToEmpty(m: Mask, n: Mask)
    requires Means(m, {})
    ensures Plus(m, n) == n
  {
    EmptyMask();
    MeansIsInjective(m, 0, {});
  }

  lemma EmptyMask()
    ensures Means(0, {})
  {
    hide Bit;
  }

  /** Two words that mean the same holders are equal. */
  lemma MeansIsInjective(m: Mask, n: Mask, holders: set<nat>)
    requires Means(m, holders) && Means(n, holders)
    ensures m == n
  {
    hide Bit, And, InRange;
    forall s: nat | s < 16
      ensures And(m, Bit(s)) == And(n, Bit(s))
    {
      assert Has(m, s) <==> Has(n, s);
      BitIsAllOrNothing(m, s);
      BitIsAllOrNothing(n, s);
    }
    SameBits(m, n);
  }

  lemma MeansIsFunctional(m: Mask, a: set<nat>, b: set<nat>)
    requires Means(m, a) && Means(m, b)
    ensures a == b
  {
    hide Has;
    assert forall s: nat | s < 16 :: s in a <==> Has(m, s);
    assert forall s: nat | s < 16 :: s in b <==> Has(m, s);
  }

  lemma BitMeansOneSlot(t: nat)
    requires t < 16
    ensures Means(Bit(t), {t})
  {
    hide Bit, And, InRange;
    forall s: nat | s < 16
      ensures Has(Bit(t), s) <==> s in {t}
    {
      BitsAreDistinct(t, s);
    }
    BitsAreDistinct(t, t);
  }

  /** The test `previous == bit` asks whether the slot was the only holder. */
  lemma OnlyHolder(m: Mask, holders: set<nat>, t: nat)
    requires t < 16 && Means(m, holders)
    ensures m == Bit(t) <==> holders == {t}
  {
    hide Bit, Has;
    BitMeansOneSlot(t);
    if holders == {t} {
      MeansIsInjective(m, Bit(t), holders);
    }
    if m == Bit(t) {
      MeansIsFunctional(m, holders, {t});
    }
  }
}
