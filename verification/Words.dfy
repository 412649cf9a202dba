/**
 The unsigned 32-bit longwords of the allocation bitmap, bit 0 the least
 significant. The bitwise operations are written as arithmetic on the halves of
 a number, so that everything about them is a short induction.
 */
module Words {

  type Word = w: nat | w < 0x1_0000_0000

  const ALL_ONES: Word := 0xFFFF_FFFF

  /** `w >> k & 1 != 0`. */
  predicate Bit(w: nat, k: nat) {
    if k == 0 then w % 2 == 1 else Bit(w / 2, k - 1)
  }

  function Pow2(k: nat): (p: nat)
    ensures p > 0
  {
    if k == 0 then 1 else 2 * Pow2(k - 1)
  }

  /** `a & b`. */
  function And(a: nat, b: nat): (r: nat)
    ensures r <= a && r <= b
  {
    if a == 0 || b == 0 then 0
    else 2 * And(a / 2, b / 2) + if a % 2 == 1 && b % 2 == 1 then 1 else 0
  }

  /** `a | b`. */
  function Or(a: nat, b: nat): nat {
    if a == 0 then b
    else 2 * Or(a / 2, b / 2) + if a % 2 == 1 || b % 2 == 1 then 1 else 0
  }

  /** `!w` on 32 bits. */
  function Not(w: Word): Word {
    ALL_ONES - w
  }

  /** `1 << k`. */
  function One(k: nat): (w: Word)
    requires k < 32
  {
    PowerBound(k);
    Pow2(k)
  }

  /** `u32::MAX << k`: what is left after `k` ones are shifted out at the top. */
  function OnesFrom(k: nat): Word
    requires k < 32
  {
    PowerBound(k);
    ALL_ONES - (Pow2(k) - 1)
  }

  /** `(1 << k) - 1`. */
  function OnesBelow(k: nat): Word
    requires k < 32
  {
    PowerBound(k);
    Pow2(k) - 1
  }

  /** `u32::trailing_zeros` of a non-zero word: the index of its least set bit. */
  function TrailingZeros(w: nat): (j: nat)
    requires w != 0
    ensures Bit(w, j) && forall i: nat :: i < j ==> !Bit(w, i)
  {
    if w % 2 == 1 then 0 else 1 + TrailingZeros(w / 2)
  }

  /** `u32::count_ones`. */
  function CountOnes(w: nat): nat {
    if w == 0 then 0 else w % 2 + CountOnes(w / 2)
  }

  // ---- What the operations do to single bits --------------------------------

  lemma {:induction false} PowerMonotone(j: nat, k: nat)
    requires j <= k
    ensures Pow2(j) <= Pow2(k)
  {
    if j < k { PowerMonotone(j, k - 1); }
  }

  lemma PowerBound(j: nat)
    requires j <= 31
    ensures Pow2(j) <= 0x8000_0000
  {
    PowerMonotone(j, 31);
    PowerTable();
  }

  lemma PowerTable()
    ensures Pow2(31) == 0x8000_0000 && Pow2(32) == 0x1_0000_0000
  {
    assert Pow2(8) == 0x100;
    assert Pow2(16) == 0x1_0000;
    assert Pow2(24) == 0x100_0000;
  }

  lemma {:induction false} ZeroBit(k: nat)
    ensures !Bit(0, k)
  {
    if k > 0 { ZeroBit(k - 1); }
  }

  lemma {:induction false} BitBound(w: nat, n: nat, k: nat)
    requires w < Pow2(n) && Bit(w, k)
    ensures k < n
  {
    if n == 0 {
      ZeroBit(k);
    } else if k > 0 {
      BitBound(w / 2, n - 1, k - 1);
    }
  }

  lemma {:induction false} AndBit(a: nat, b: nat, k: nat)
    ensures Bit(And(a, b), k) <==> Bit(a, k) && Bit(b, k)
  {
    if a == 0 || b == 0 {
      ZeroBit(k);
    } else if k > 0 {
      AndBit(a / 2, b / 2, k - 1);
    }
  }

  lemma {:induction false} OrBit(a: nat, b: nat, k: nat)
    ensures Bit(Or(a, b), k) <==> Bit(a, k) || Bit(b, k)
  {
    if a == 0 {
      ZeroBit(k);
    } else if k > 0 {
      OrBit(a / 2, b / 2, k - 1);
    }
  }

  lemma {:induction false} OrBound(a: nat, b: nat, n: nat)
    requires a < Pow2(n) && b < Pow2(n)
    ensures Or(a, b) < Pow2(n)
  {
    if a != 0 { OrBound(a / 2, b / 2, n - 1); }
  }

  lemma {:induction false} PowerBit(j: nat, k: nat)
    ensures Bit(Pow2(j), k) <==> j == k
  {
    if j == 0 {
      if k > 0 { ZeroBit(k - 1); }
    } else if k > 0 {
      PowerBit(j - 1, k - 1);
    }
  }

  lemma {:induction false} ComplementBit(w: nat, n: nat, k: nat)
    requires w < Pow2(n) && k < n
    ensures Bit(Pow2(n) - 1 - w, k) <==> !Bit(w, k)
  {
    if k > 0 {
      assert (Pow2(n) - 1 - w) / 2 == Pow2(n - 1) - 1 - w / 2;
      ComplementBit(w / 2, n - 1, k - 1);
    }
  }

  lemma NotBit(w: Word, k: nat)
    requires k < 32
    ensures Bit(Not(w), k) <==> !Bit(w, k)
  {
    PowerTable();
    ComplementBit(w, 32, k);
  }

  lemma {:induction false} BelowBit(n: nat, k: nat)
    ensures Bit(Pow2(n) - 1, k) <==> k < n
  {
    if n == 0 {
      ZeroBit(k);
    } else if k > 0 {
      assert (Pow2(n) - 1) / 2 == Pow2(n - 1) - 1;
      BelowBit(n - 1, k - 1);
    }
  }

  /** Masking the first word of a range drops the bits below `n`. */
  lemma MaskFrom(w: Word, n: nat, k: nat)
    requires n < 32 && k < 32
    ensures Bit(And(w, OnesFrom(n)), k) <==> Bit(w, k) && n <= k
  {
    PowerBound(n);
    AndBit(w, OnesFrom(n), k);
    NotBit(Pow2(n) - 1, k);
    BelowBit(n, k);
  }

  /** Masking the last word of a range drops the bits from `n` up. */
  lemma MaskBelow(w: Word, n: nat, k: nat)
    requires n < 32
    ensures Bit(And(w, OnesBelow(n)), k) <==> Bit(w, k) && k < n
  {
    AndBit(w, OnesBelow(n), k);
    BelowBit(n, k);
  }

  /** `w &= !(1 << j)`, which marks a block allocated. */
  lemma ClearedBit(w: Word, j: nat, k: nat)
    requires j < 32 && k < 32
    ensures Bit(And(w, Not(One(j))), k) <==> Bit(w, k) && k != j
  {
    AndBit(w, Not(One(j)), k);
    NotBit(One(j), k);
    PowerBit(j, k);
  }

  /** `w |= 1 << j`, which marks a block free. */
  lemma SetBit(w: Word, j: nat, k: nat)
    requires j < 32
    ensures Bit(Or(w, One(j)), k) <==> Bit(w, k) || k == j
    ensures Or(w, One(j)) <= ALL_ONES
  {
    PowerTable();
    OrBit(w, One(j), k);
    PowerBit(j, k);
    OrBound(w, One(j), 32);
  }

  // ---- Division by a number that is not a constant ------------------------------

  /** `w / d`. */
  function Quotient(w: nat, d: nat): (q: nat)
    requires d > 0
    ensures q * d <= w < q * d + d
  {
    if w < d then 0 else 1 + Quotient(w - d, d)
  }

  lemma MulMonotone(a: nat, b: nat, d: nat)
    requires a <= b
    ensures a * d <= b * d
    ensures (a + 1) * d == a * d + d
  {}

  lemma QuotientIs(w: nat, d: nat, i: nat)
    requires d > 0
    requires i * d <= w < i * d + d
    ensures Quotient(w, d) == i
  {
    var q := Quotient(w, d);
    if q < i {
      MulMonotone(q + 1, i, d);
      MulMonotone(q, i, d);
      assert false;
    }
    if i < q {
      MulMonotone(i + 1, q, d);
      MulMonotone(i, q, d);
      assert false;
    }
  }

  /** The quotient is the one number the remainder fits. */
  lemma DivIs(n: int, d: nat, q: int, r: nat)
    requires d > 0 && n == q * d + r && r < d
    ensures n / d == q && n % d == r
  {
    var k := n / d;
    if k < q { Monotone(k + 1, q, d); }
    if k > q { Monotone(q + 1, k, d); }
  }

  lemma Monotone(a: int, b: int, d: nat)
    requires a <= b
    ensures a * d <= b * d
  {}
}
