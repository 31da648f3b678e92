/** Bitwise operators on unsigned words, given by their bits, and how they act on fields of a word: a word
with the field `h` above its `k` low bits `a` is h * Pow2(k) + a. */
module Bits {
  function Pow2(k: nat): (p: nat)
    ensures p > 0
  {
    if k == 0 then 1 else 2 * Pow2(k - 1)
  }

  function Or(x: nat, y: nat): nat
    decreases x + y
  {
    if x == 0 && y == 0 then 0 else 2 * Or(x / 2, y / 2) + (if x % 2 == 1 || y % 2 == 1 then 1 else 0)
  }

  function And(x: nat, y: nat): nat
    decreases x + y
  {
    if x == 0 && y == 0 then 0 else 2 * And(x / 2, y / 2) + (if x % 2 == 1 && y % 2 == 1 then 1 else 0)
  }

  function Shr(x: nat, k: nat): nat
    decreases k
  {
    if k == 0 then x else Shr(x / 2, k - 1)
  }

  lemma {:induction false} OrZero(x: nat)
    ensures Or(x, 0) == x && Or(0, x) == x
  {
    if x > 0 { OrZero(x / 2); }
  }

  lemma {:induction false} AndZero(x: nat)
    ensures And(x, 0) == 0
    decreases x
  {
    if x > 0 { AndZero(x / 2); }
  }

  lemma OrHalf(x: nat, y: nat)
    ensures Or(x, y) == 2 * Or(x / 2, y / 2) + (if x % 2 == 1 || y % 2 == 1 then 1 else 0)
  {
  }

  lemma AndHalf(x: nat, y: nat)
    ensures And(x, y) == 2 * And(x / 2, y / 2) + (if x % 2 == 1 && y % 2 == 1 then 1 else 0)
  {
  }

  /** The word with field `h` above the `k` low bits `a`. */
  function Field(h: nat, a: nat, k: nat): nat { h * Pow2(k) + a }

  lemma HalfField(h: nat, a: nat, k: nat)
    requires k > 0 && a < Pow2(k)
    ensures Field(h, a, k) == 2 * Field(h, a / 2, k - 1) + a % 2 && a / 2 < Pow2(k - 1)
  {
    assert h * Pow2(k) == 2 * (h * Pow2(k - 1));
  }

  /** Or acts on a high field and on the bits below it separately. */
  lemma {:induction false} OrFields(h: nat, i: nat, a: nat, b: nat, k: nat)
    requires a < Pow2(k) && b < Pow2(k)
    ensures Or(a, b) < Pow2(k) && Or(Field(h, a, k), Field(i, b, k)) == Field(Or(h, i), Or(a, b), k)
    decreases k
  {
    if k == 0 {
      assert a == 0 && b == 0;
    } else {
      OrFields(h, i, a / 2, b / 2, k - 1);
      hide Or, Field;
      HalfField(h, a, k);
      HalfField(i, b, k);
      OrHalf(Field(h, a, k), Field(i, b, k));
      OrHalf(a, b);
      HalfField(Or(h, i), Or(a, b), k);
    }
  }

  /** A mask shifted up cuts out the high field. */
  lemma {:induction false} AndField(h: nat, a: nat, m: nat, k: nat)
    requires a < Pow2(k)
    ensures And(Field(h, a, k), Field(m, 0, k)) == Field(And(h, m), 0, k)
    decreases k
  {
    hide And;
    if k == 0 {
      assert Field(h, a, 0) == h && Field(m, 0, 0) == m && Field(And(h, m), 0, 0) == And(h, m);
    } else {
      hide Field;
      AndField(h, a / 2, m, k - 1);
      HalfField(h, a, k);
      HalfField(m, 0, k);
      AndHalf(Field(h, a, k), Field(m, 0, k));
      HalfField(And(h, m), 0, k);
    }
  }

  /** A mask of low bits leaves the bits below the field. */
  lemma {:induction false} AndMask(h: nat, a: nat, k: nat)
    requires a < Pow2(k)
    ensures And(Field(h, a, k), Pow2(k) - 1) == a
    decreases k
  {
    hide And;
    if k == 0 {
      AndZero(Field(h, a, k));
    } else {
      hide Field;
      AndMask(h, a / 2, k - 1);
      assert Pow2(k) - 1 == 2 * (Pow2(k - 1) - 1) + 1;
      HalfField(h, a, k);
      AndHalf(Field(h, a, k), Pow2(k) - 1);
    }
  }

  lemma {:induction false} ShrField(h: nat, a: nat, k: nat)
    requires a < Pow2(k)
    ensures Shr(Field(h, a, k), k) == h
    decreases k
  {
    if k == 0 {
      assert a == 0;
    } else {
      HalfField(h, a, k);
      hide Field;
      ShrField(h, a / 2, k - 1);
    }
  }
}
