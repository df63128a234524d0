/** The ready bitmask: one bit for each priority level, and counting leading zeros. */
module Bitmasks {

  function And(x: bv32, y: bv32): bv32 { x & y }

  function Or(x: bv32, y: bv32): bv32 { x | y }

  function AndNot(x: bv32, y: bv32): bv32 { x & !y }

  function Twice(x: bv32): bv32 { x << 1 }

  /** `x` shifted left by `k` places. */
  function Shl(x: bv32, k: nat): bv32 {
    if k == 0 then x else Twice(Shl(x, k - 1))
  }

  predicate Has(mask: bv32, p: nat) {
    And(mask, Shl(1, p)) != 0
  }

  function With(mask: bv32, p: nat): bv32 {
    Or(mask, Shl(1, p))
  }

  function WithoutBit(mask: bv32, p: nat): bv32 {
    AndNot(mask, Shl(1, p))
  }

  /** The leading zeros of `mask`, counted from bit 31 - `k` downwards. */
  function LeadingZeros(mask: bv32, k: nat): (r: nat)
    requires k <= 32
    ensures k <= r <= 32
    ensures r < 32 ==> Has(mask, 31 - r)
    ensures forall p :: 31 - r < p <= 31 - k ==> !Has(mask, p)
    decreases 32 - k
  {
    if k == 32 then 32 else if Has(mask, 31 - k) then k else LeadingZeros(mask, k + 1)
  }

  function Clz(mask: bv32): nat {
    LeadingZeros(mask, 0)
  }

  // ---------------------------------------------------------------- single bits

  lemma {:induction false} ShlZero(k: nat)
    ensures Shl(0, k) == 0
  {
    if k > 0 { ShlZero(k - 1); }
  }

  lemma {:induction false} ShlAdd(x: bv32, a: nat, b: nat)
    ensures Shl(Shl(x, a), b) == Shl(x, a + b)
  {
    hide Twice;
    if b > 0 { ShlAdd(x, a, b - 1); }
  }

  lemma ShlFour(x: bv32, k: nat)
    ensures Shl(x, k + 4) == Twice(Twice(Twice(Twice(Shl(x, k)))))
  {
    hide Twice;
    assert Shl(x, k + 1) == Twice(Shl(x, k));
    assert Shl(x, k + 2) == Twice(Shl(x, k + 1));
    assert Shl(x, k + 3) == Twice(Shl(x, k + 2));
  }

  lemma TopBit()
    ensures Shl(1, 31) == 0x8000_0000 && Shl(1, 32) == 0
  {
    ShlFour(1, 0);
    ShlFour(1, 4);
    ShlFour(1, 8);
    ShlFour(1, 12);
    ShlFour(1, 16);
    ShlFour(1, 20);
    ShlFour(1, 24);
    assert Shl(1, 28) == 0x1000_0000;
    assert Shl(1, 29) == 0x2000_0000;
    assert Shl(1, 30) == 0x4000_0000;
  }

  lemma BitNonZero(p: nat)
    requires p < 32
    ensures Shl(1, p) != 0
  {
    hide Twice;
    ShlAdd(1, p, 31 - p);
    ShlZero(31 - p);
    TopBit();
  }

  lemma {:induction false} BitsApart(p: nat, q: nat)
    requires p != q
    ensures And(Shl(1, p), Shl(1, q)) == 0
  {
    hide And, Twice;
    if p == 0 {
      OddApart(Shl(1, q - 1));
    } else if q == 0 {
      OddApart(Shl(1, p - 1));
    } else {
      BitsApart(p - 1, q - 1);
      TwiceApart(Shl(1, p - 1), Shl(1, q - 1));
    }
  }

  lemma OddApart(y: bv32)
    ensures And(1, Twice(y)) == 0 && And(Twice(y), 1) == 0
  {
  }

  lemma TwiceApart(x: bv32, y: bv32)
    requires And(x, y) == 0
    ensures And(Twice(x), Twice(y)) == 0
  {
  }

  // ---------------------------------------------------------------- setting and clearing

  lemma WithHas(mask: bv32, p: nat, q: nat)
    requires p < 32 && q < 32
    ensures Has(With(mask, p), q) <==> q == p || Has(mask, q)
  {
    hide Shl, And, Or;
    if p == q {
      BitNonZero(p);
      OrSame(mask, Shl(1, p));
    } else {
      BitsApart(p, q);
      OrApart(mask, Shl(1, p), Shl(1, q));
    }
  }

  lemma WithoutHas(mask: bv32, p: nat, q: nat)
    requires p < 32 && q < 32
    ensures Has(WithoutBit(mask, p), q) <==> q != p && Has(mask, q)
  {
    hide Shl, And, AndNot;
    if p == q {
      OrSame(mask, Shl(1, p));
    } else {
      BitsApart(p, q);
      OrApart(mask, Shl(1, p), Shl(1, q));
    }
  }

  lemma OrSame(m: bv32, x: bv32)
    ensures And(Or(m, x), x) == x && And(AndNot(m, x), x) == 0
  {
  }

  lemma OrApart(m: bv32, x: bv32, y: bv32)
    requires And(x, y) == 0
    ensures And(Or(m, x), y) == And(m, y) && And(AndNot(m, x), y) == And(m, y)
  {
    hide And, Or, AndNot;
    AndOr(m, x, y);
    AndAndNot(m, x, y);
    Nothing(And(m, y));
  }

  lemma AndOr(m: bv32, x: bv32, y: bv32)
    ensures And(Or(m, x), y) == Or(And(m, y), And(x, y))
  {
  }

  lemma AndAndNot(m: bv32, x: bv32, y: bv32)
    ensures And(AndNot(m, x), y) == AndNot(And(m, y), And(x, y))
  {
  }

  lemma Nothing(m: bv32)
    ensures Or(m, 0) == m && AndNot(m, 0) == m
  {
  }

  // ---------------------------------------------------------------- no bit, highest bit

  /** The bits below the single bit `x`. */
  function Below(x: bv32): bv32 { x - 1 }

  lemma {:induction false} LowBits(n: nat)
    ensures And(Shl(1, n), Below(Shl(1, n))) == 0
  {
    if n > 0 {
      hide And, Twice, Below;
      LowBits(n - 1);
      TwiceBelow(Shl(1, n - 1));
    }
  }

  lemma TwiceBelow(x: bv32)
    requires And(x, Below(x)) == 0
    ensures And(Twice(x), Below(Twice(x))) == 0 && Below(Twice(x)) == Or(x, Below(x))
  {
  }

  lemma {:induction false} NoneBelow(mask: bv32, n: nat)
    requires forall p :: 0 <= p < n ==> !Has(mask, p)
    ensures And(mask, Below(Shl(1, n))) == 0
  {
    if n > 0 {
      hide And, Twice, Below, Or;
      NoneBelow(mask, n - 1);
      LowBits(n - 1);
      TwiceBelow(Shl(1, n - 1));
      assert !Has(mask, n - 1);
      OrZero(mask, Shl(1, n - 1), Below(Shl(1, n - 1)));
    }
  }

  lemma OrZero(m: bv32, x: bv32, y: bv32)
    requires And(m, x) == 0 && And(m, y) == 0
    ensures And(m, Or(x, y)) == 0
  {
  }

  lemma AllBits(m: bv32)
    requires And(m, Below(0)) == 0
    ensures m == 0
  {
  }

  /** The mask is zero exactly when no bit is set. */
  lemma ZeroIsEmpty(mask: bv32)
    ensures mask == 0 <==> forall p :: 0 <= p < 32 ==> !Has(mask, p)
  {
    if forall p :: 0 <= p < 32 ==> !Has(mask, p) {
      NoneBelow(mask, 32);
      TopBit();
      AllBits(mask);
    }
  }

  /** 31 - clz is the highest bit that is set. */
  lemma ClzIsHighest(mask: bv32)
    requires mask != 0
    ensures Clz(mask) < 32 && Has(mask, 31 - Clz(mask))
    ensures forall p :: 31 - Clz(mask) < p < 32 ==> !Has(mask, p)
  {
    ZeroIsEmpty(mask);
  }
}
