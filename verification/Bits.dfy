/** Unsigned machine words as natural numbers: the bitwise operators the repository
    applies to its 64-bit words, defined bit by bit, and the laws that turn a mask or a
    shift into arithmetic. */
module Bits {

  /** x << k, before truncation to the width of the word. */
  function Shl(x: nat, k: nat): nat {
    if k == 0 then x else 2 * Shl(x, k - 1)
  }

  /** x >> k */
  function Shr(x: nat, k: nat): nat {
    if k == 0 then x else Shr(x / 2, k - 1)
  }

  function Pow2(k: nat): (p: nat)
    ensures p > 0
  {
    if k == 0 then 1 else 2 * Pow2(k - 1)
  }

  lemma {:induction false} Pow2Add(a: nat, b: nat)
    ensures Pow2(a + b) == Pow2(a) * Pow2(b)
  {
    if a > 0 { Pow2Add(a - 1, b); }
  }

  /** x & y */
  function And(x: nat, y: nat): nat {
    if x == 0 || y == 0 then 0 else 2 * And(x / 2, y / 2) + (if x % 2 == 1 && y % 2 == 1 then 1 else 0)
  }

  /** x | y */
  function Or(x: nat, y: nat): nat {
    if x == 0 && y == 0 then 0
    else 2 * Or(x / 2, y / 2) + (if x % 2 == 1 || y % 2 == 1 then 1 else 0)
  }

  /** Bit j of x. */
  predicate Bit(x: nat, j: nat) { Shr(x, j) % 2 == 1 }

  lemma {:induction false} MulPos(a: nat, d: nat)
    ensures (a + 1) * d >= d
  {}

  lemma {:induction false} MulStep(a: nat, b: nat, d: nat)
    requires a < b
    ensures a * d + d <= b * d
  {
    assert (b - a) * d >= d by { MulPos(b - a - 1, d); }
    assert (b - a) * d == b * d - a * d;
  }

  lemma {:induction false} DivUnique(x: nat, d: nat, q: nat, r: nat)
    requires r < d && x == q * d + r
    ensures x / d == q && x % d == r
  {
    var q', r' := x / d, x % d;
    if q < q' { MulStep(q, q', d); }
    if q' < q { MulStep(q', q, d); }
  }

  lemma {:induction false} Halve(x: nat, p: nat)
    requires p > 0
    ensures x / (2 * p) == x / 2 / p
    ensures x % (2 * p) == 2 * (x / 2 % p) + x % 2
  {
    var q, r := x / 2 / p, x / 2 % p;
    assert x / 2 == q * p + r;
    DivUnique(x, 2 * p, q, 2 * r + x % 2);
  }

  lemma {:induction false} ShrIsDiv(x: nat, k: nat)
    ensures Shr(x, k) == x / Pow2(k)
  {
    if k > 0 {
      ShrIsDiv(x / 2, k - 1);
      Halve(x, Pow2(k - 1));
    }
  }

  lemma {:induction false} AndLowMask(x: nat, k: nat)
    ensures And(x, Pow2(k) - 1) == x % Pow2(k)
  {
    if x == 0 {
      DivUnique(0, Pow2(k), 0, 0);
    } else if k > 0 {
      var p := Pow2(k - 1);
      AndLowMask(x / 2, k - 1);
      Halve(x, p);
      assert (2 * p - 1) / 2 == p - 1 && (2 * p - 1) % 2 == 1;
    }
  }

  /** Masking a field in place is shifting it down, masking it and shifting it back. */
  lemma {:induction false} AndShifted(x: nat, y: nat, j: nat)
    ensures And(x, Shl(y, j)) == Shl(And(Shr(x, j), y), j)
  {
    if j > 0 {
      AndShifted(x / 2, y, j - 1);
      ShlZero(j - 1);
    }
  }

  lemma {:induction false} ShlZero(j: nat)
    ensures Shl(0, j) == 0
  {
    if j > 0 { ShlZero(j - 1); }
  }

  lemma {:induction false} AndBit(x: nat, j: nat)
    ensures And(x, Shl(1, j)) == if Bit(x, j) then Shl(1, j) else 0
  {
    AndShifted(x, 1, j);
    ShlZero(j);
    var h := Shr(x, j);
    if h > 0 { assert And(h / 2, 0) == 0; }
  }

  lemma {:induction false} OrZero(x: nat)
    ensures Or(x, 0) == x
  {
    if x > 0 { OrZero(x / 2); }
  }

  lemma {:induction false} OrBit(x: nat, j: nat)
    ensures Or(x, Shl(1, j)) == if Bit(x, j) then x else x + Shl(1, j)
  {
    if j == 0 {
      OrZero(x / 2);
    } else {
      OrBit(x / 2, j - 1);
    }
  }

  lemma {:induction false} ShlOne(j: nat)
    ensures Shl(1, j) == Pow2(j)
  {
    if j > 0 { ShlOne(j - 1); }
  }

  lemma {:induction false} BitBelow(x: nat, j: nat)
    requires Bit(x, j)
    ensures Shl(1, j) <= x
  {
    if j > 0 { BitBelow(x / 2, j - 1); }
  }

  lemma {:induction false} AndNotOne(x: nat, n: nat)
    requires 0 < n && x < Pow2(n)
    ensures And(x, Pow2(n) - 2) == x - x % 2
  {
    var h := Pow2(n - 1);
    AndLowMask(x / 2, n - 1);
    DivUnique(x / 2, h, 0, x / 2);
    assert (2 * h - 2) / 2 == h - 1 && (2 * h - 2) % 2 == 0;
  }

  /** Clearing bit j of an n-bit word with its complement mask. */
  lemma {:induction false} AndNotBit(x: nat, j: nat, n: nat)
    requires j < n && x < Pow2(n)
    ensures Shl(1, j) <= Pow2(n) - 1
    ensures And(x, Pow2(n) - 1 - Shl(1, j)) == if Bit(x, j) then x - Shl(1, j) else x
    ensures Bit(x, j) ==> Shl(1, j) <= x
  {
    if Bit(x, j) { BitBelow(x, j); }
    var h := Pow2(n - 1);
    if j == 0 {
      AndNotOne(x, n);
    } else {
      AndNotBit(x / 2, j - 1, n - 1);
      var m := h - 1 - Shl(1, j - 1);
      assert Pow2(n) - 1 - Shl(1, j) == 2 * m + 1;
      assert (2 * m + 1) / 2 == m && (2 * m + 1) % 2 == 1;
    }
  }

  // ---- Exclusive or, complement and disjoint or ----

  type Byte = x: nat | x < 0x100

  type Word32 = x: nat | x < 0x1_0000_0000

  /** x ^ y */
  function Xor(x: nat, y: nat): nat {
    if x == 0 && y == 0 then 0 else 2 * Xor(x / 2, y / 2) + (if x % 2 == y % 2 then 0 else 1)
  }

  /** ~x, for a word of n bits */
  function Complement(x: nat, n: nat): nat
    requires x < Pow2(n)
  {
    Pow2(n) - 1 - x
  }

  lemma {:induction false} NotHalf(x: nat, n: nat)
    requires 0 < n && x < Pow2(n)
    ensures x / 2 < Pow2(n - 1) && Complement(x, n) / 2 == Complement(x / 2, n - 1) && Complement(x, n) % 2 == 1 - x % 2
  {}

  lemma {:induction false} WithinWord(x: nat, y: nat, n: nat)
    requires x < Pow2(n) && y < Pow2(n)
    ensures And(x, y) < Pow2(n) && Or(x, y) < Pow2(n) && Xor(x, y) < Pow2(n)
  {
    if n > 0 {
      WithinWord(x / 2, y / 2, n - 1);
    }
  }

  lemma {:induction false} ShlIsMul(x: nat, k: nat)
    ensures Shl(x, k) == x * Pow2(k)
  {
    if k > 0 {
      ShlIsMul(x, k - 1);
    }
  }

  /** Where no bit is set in both, or is addition. */
  lemma {:induction false} OrAdds(x: nat, k: nat, y: nat)
    requires y < Pow2(k)
    ensures Or(Shl(x, k), y) == Shl(x, k) + y
  {
    if k == 0 {
      OrZero(x);
    } else {
      OrAdds(x, k - 1, y / 2);
    }
  }

  /** A word of p * q values scaled by q: the high part is lost, the low part moves up. */
  lemma ScaleWord(x: nat, p: nat, q: nat)
    requires p > 0 && q > 0 && x < p * q
    ensures x / p < q && x * q % (p * q) == x % p * q
  {
    HighPart(x, p, q);
    ScaleParts(x / p, x % p, p, q);
    MulStep(x % p, p, q);
    DivUnique(x * q, p * q, x / p, x % p * q);
  }

  lemma HighPart(x: nat, p: nat, q: nat)
    requires p > 0 && x < p * q
    ensures x / p < q && x == x / p * p + x % p
  {
    if x / p >= q {
      MulMono(q, x / p, p);
    }
  }

  lemma MulMono(a: nat, b: nat, d: nat)
    requires a <= b
    ensures a * d <= b * d
  {
    assert b * d == a * d + (b - a) * d;
  }

  lemma ScaleParts(h: nat, l: nat, p: nat, q: nat)
    ensures (h * p + l) * q == h * (p * q) + l * q
  {}
}
