/** Event bits one by one: what ANY and ALL mean, and what setting and clearing leave. */
module EventBits {
  import opened Model
  import opened Bitmasks

  /** ALL: every bit of the mask is set. ANY: some bit of the mask is. */
  ghost predicate Met(bits: bv32, mask: bv32, all: bool) {
    if all then forall i :: 0 <= i < 32 && Has(mask, i) ==> Has(bits, i)
    else exists i :: 0 <= i < 32 && Has(mask, i) && Has(bits, i)
  }

  // ---------------------------------------------------------------- bits of a union, an intersection, a difference

  lemma OneBit(u: bv32, x: bv32)
    requires And(x, Below(x)) == 0
    ensures And(u, x) == 0 || And(u, x) == x
  {
  }

  lemma BitOf(u: bv32, i: nat)
    requires i < 32
    ensures And(u, Shl(1, i)) == if Has(u, i) then Shl(1, i) else 0
    ensures Shl(1, i) != 0
  {
    hide And, Below, Shl;
    LowBits(i);
    OneBit(u, Shl(1, i));
    BitNonZero(i);
  }

  lemma Alone(x: bv32)
    ensures Or(0, 0) == 0 && Or(x, 0) == x && Or(0, x) == x && Or(x, x) == x
    ensures AndNot(0, 0) == 0 && AndNot(x, 0) == x && AndNot(0, x) == 0 && AndNot(x, x) == 0
    ensures And(0, 0) == 0 && And(x, 0) == 0 && And(0, x) == 0 && And(x, x) == x
  {
  }

  lemma AndAnd(u: bv32, v: bv32, x: bv32)
    ensures And(And(u, v), x) == And(And(u, x), And(v, x))
  {
  }

  lemma OrHas(u: bv32, v: bv32, i: nat)
    requires i < 32
    ensures Has(Or(u, v), i) <==> Has(u, i) || Has(v, i)
  {
    hide And, Or, AndNot, Shl;
    BitOf(u, i);
    BitOf(v, i);
    AndOr(u, v, Shl(1, i));
    Alone(Shl(1, i));
  }

  lemma AndHas(u: bv32, v: bv32, i: nat)
    requires i < 32
    ensures Has(And(u, v), i) <==> Has(u, i) && Has(v, i)
  {
    hide And, Or, AndNot, Shl;
    BitOf(u, i);
    BitOf(v, i);
    AndAnd(u, v, Shl(1, i));
    Alone(Shl(1, i));
  }

  lemma NotHas(u: bv32, v: bv32, i: nat)
    requires i < 32
    ensures Has(AndNot(u, v), i) <==> Has(u, i) && !Has(v, i)
  {
    hide And, Or, AndNot, Shl;
    BitOf(u, i);
    BitOf(v, i);
    AndAndNot(u, v, Shl(1, i));
    Alone(Shl(1, i));
  }

  lemma Split(u: bv32, v: bv32)
    ensures Or(And(u, v), AndNot(v, u)) == v
  {
  }

  lemma Within(u: bv32, v: bv32)
    ensures AndNot(And(u, v), u) == 0
  {
  }

  lemma Swap(u: bv32, v: bv32)
    ensures And(u, v) == And(v, u)
  {
  }

  lemma NothingLeft(u: bv32, v: bv32)
    ensures And(u, v) == v <==> AndNot(v, u) == 0
    ensures AndNot(u, v) == 0 && AndNot(v, u) == 0 ==> u == v
  {
    hide And, Or, AndNot;
    Split(u, v);
    Split(v, u);
    Within(u, v);
    Swap(u, v);
    Nothing(And(u, v));
  }

  /** Every bit of `v` is a bit of `u`. */
  lemma Covers(u: bv32, v: bv32)
    ensures AndNot(v, u) == 0 <==> forall i :: 0 <= i < 32 && Has(v, i) ==> Has(u, i)
  {
    hide AndNot, Has;
    ZeroIsEmpty(AndNot(v, u));
    forall i | 0 <= i < 32 ensures Has(AndNot(v, u), i) <==> Has(v, i) && !Has(u, i) { NotHas(v, u, i); }
  }

  /** Words with the same bits are the same. */
  lemma SameBits(u: bv32, v: bv32)
    requires forall i :: 0 <= i < 32 ==> (Has(u, i) <==> Has(v, i))
    ensures u == v
  {
    hide AndNot, Has;
    Covers(u, v);
    Covers(v, u);
    NothingLeft(u, v);
  }

  // ---------------------------------------------------------------- conditions

  /** The test of the code is the condition on bits. */
  lemma MetBits(bits: bv32, mask: bv32, all: bool)
    ensures Satisfies(bits, mask, all) <==> Met(bits, mask, all)
  {
    hide Has, AndNot;
    if all {
      NothingLeft(bits, mask);
      Covers(bits, mask);
    } else {
      ZeroIsEmpty(And(bits, mask));
      forall i | 0 <= i < 32 ensures Has(And(bits, mask), i) <==> Has(bits, i) && Has(mask, i) { AndHas(bits, mask, i); }
    }
  }

  /** `bits` is `before` with the bits of `mask` added. */
  ghost predicate Added(before: bv32, mask: bv32, bits: bv32) {
    forall i :: 0 <= i < 32 ==> (Has(bits, i) <==> Has(before, i) || Has(mask, i))
  }

  /** `bits` is `before` with the bits of `mask` taken out. */
  ghost predicate Cleared(before: bv32, mask: bv32, bits: bv32) {
    forall i :: 0 <= i < 32 ==> (Has(bits, i) <==> Has(before, i) && !Has(mask, i))
  }

  lemma PlusBits(b: bv32, mask: bv32, r: bv32)
    ensures Added(b, mask, r) <==> r == Plus(b, mask)
  {
    hide Has;
    assert Plus(b, mask) == Or(b, mask);
    forall i | 0 <= i < 32 ensures Has(Plus(b, mask), i) <==> Has(b, i) || Has(mask, i) { OrHas(b, mask, i); }
    if Added(b, mask, r) { SameBits(r, Plus(b, mask)); }
  }

  lemma MinusBits(b: bv32, mask: bv32, r: bv32)
    ensures Cleared(b, mask, r) <==> r == Minus(b, mask)
  {
    hide Has;
    assert Minus(b, mask) == AndNot(b, mask);
    forall i | 0 <= i < 32 ensures Has(Minus(b, mask), i) <==> Has(b, i) && !Has(mask, i) { NotHas(b, mask, i); }
    if Cleared(b, mask, r) { SameBits(r, Minus(b, mask)); }
  }

  // ---------------------------------------------------------------- calls that do not park

  /** wait_bits() answered at once takes the bits of its mask out, if it was met and asked for
      that, and changes nothing else. */
  lemma WaitAtOnce(s: State, e: nat, mask: bv32, all: bool, clear: bool, ms: nat, left: bv32)
    requires e in s.events && Cleared(s.events[e], mask, left)
    requires mask == 0 || ms == 0 || Met(s.events[e], mask, all)
    ensures EventWait(s, e, mask, all, clear, ms)
      == if mask != 0 && Met(s.events[e], mask, all) && clear then s.(events := s.events[e := left]) else s
  {
    hide Met, Cleared, Satisfies, Minus, Park;
    MetBits(s.events[e], mask, all);
    MinusBits(s.events[e], mask, left);
  }

  /** clear_bits() takes the bits of its mask out and changes nothing else. */
  lemma ClearTakesOut(s: State, e: nat, mask: bv32, left: bv32)
    requires e in s.events && Cleared(s.events[e], mask, left)
    ensures EventClear(s, e, mask) == s.(events := s.events[e := left])
  {
    hide Cleared, Minus;
    MinusBits(s.events[e], mask, left);
  }
}
