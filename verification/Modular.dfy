/** Quotients and remainders of machine-word arithmetic. */
module Modular {

  lemma Scale(p: int, d: int)
    requires d > 0
    ensures p >= 1 ==> p * d >= d
    ensures p <= -1 ==> p * d <= 0 - d
  {
    if p >= 1 { assert (p - 1) * d >= 0; }
    if p <= -1 { assert (p + 1) * d <= 0; }
  }

  lemma DivideBy(x: int, d: int, q: int, r: int)
    requires d > 0 && x == q * d + r && 0 <= r < d
    ensures x / d == q && x % d == r
  {
    var p := x / d - q;
    assert x == (x / d) * d + x % d;
    assert p * d == r - x % d by { assert p * d == (x / d) * d - q * d; }
    Scale(p, d);
    assert p == 0;
  }

  lemma ModuloShift(z: int, q: int, modulus: int)
    requires modulus > 0
    ensures (z + q * modulus) % modulus == z % modulus
  {
    var p := z / modulus + q;
    assert z == (z / modulus) * modulus + z % modulus;
    assert p * modulus == (z / modulus) * modulus + q * modulus;
    DivideBy(z + q * modulus, modulus, p, z % modulus);
  }

  lemma SmallModulo(x: nat, modulus: nat)
    requires x < modulus
    ensures x % modulus == x
  {
  }

  /** The lowest digit of v to the base `word`, and what is left after shifting it out. */
  function Low(v: nat, word: nat): (l: nat)
    requires word > 0
    ensures l < word
  { v % word }

  lemma QuotientIsNat(v: nat, word: nat)
    requires word > 0
    ensures v / word >= 0
  {
    var q := v / word;
    assert v == q * word + v % word;
    Scale(q, word);
  }

  function High(v: nat, word: nat): nat
    requires word > 0
  {
    QuotientIsNat(v, word);
    v / word
  }

  lemma HighLow(v: nat, word: nat)
    requires word > 0
    ensures v == High(v, word) * word + Low(v, word)
  {
  }

  /** Division by repeated subtraction, which keeps proofs about regions and counts linear. */
  function Quotient(v: nat, d: nat): nat
    requires d > 0
    decreases v
  {
    if v < d then 0 else 1 + Quotient(v - d, d)
  }

  function Remainder(v: nat, d: nat): (r: nat)
    requires d > 0
    ensures r < d
    decreases v
  {
    if v < d then v else Remainder(v - d, d)
  }

  lemma {:induction false} QuotientAndRemainder(v: nat, d: nat)
    requires d > 0
    ensures v == Quotient(v, d) * d + Remainder(v, d)
    ensures Quotient(v, d) == v / d && Remainder(v, d) == v % d
    decreases v
  {
    if v >= d { QuotientAndRemainder(v - d, d); }
    assert v == Quotient(v, d) * d + Remainder(v, d);
    DivideBy(v, d, Quotient(v, d), Remainder(v, d));
  }

  lemma QuotientIs(v: nat, d: nat, q: nat, r: nat)
    requires d > 0 && v == q * d + r && r < d
    ensures Quotient(v, d) == q && Remainder(v, d) == r
  {
    QuotientAndRemainder(v, d);
    DivideBy(v, d, q, r);
  }

  lemma {:induction false} QuotientMonotone(x: nat, y: nat, d: nat)
    requires d > 0 && x <= y
    ensures Quotient(x, d) <= Quotient(y, d)
    decreases x
  {
    if x >= d { QuotientMonotone(x - d, y - d, d); }
  }

  /** Adding to a multiple of d. */
  lemma {:induction false} QuotientOfSum(x: nat, y: nat, d: nat)
    requires d > 0 && Remainder(x, d) == 0
    ensures Quotient(x + y, d) == Quotient(x, d) + Quotient(y, d)
    decreases x
  {
    if x >= d { QuotientOfSum(x - d, y, d); }
  }

  /** Adding without carry. */
  lemma {:induction false} QuotientWithoutCarry(x: nat, y: nat, d: nat)
    requires d > 0 && Remainder(x, d) + y < d
    ensures Quotient(x + y, d) == Quotient(x, d)
    decreases x
  {
    if x >= d { QuotientWithoutCarry(x - d, y, d); }
  }

  /** Addition in machine words. */
  function AddWord(x: int, y: int, modulus: int): nat
    requires modulus > 0
  {
    (x + y) % modulus
  }

  lemma ProductNonNegative(x: int, y: int)
    requires x >= 0 && y >= 0
    ensures x * y >= 0
  {
  }

  lemma ProductMonotone(n: int, x: int, y: int)
    requires n >= 0 && x <= y
    ensures n * x <= n * y
  {
    ProductNonNegative(n, y - x);
    assert n * (y - x) == n * y - n * x;
  }
}
