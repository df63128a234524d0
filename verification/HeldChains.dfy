/** The chain of mutexes a task holds, linked through the mutexes themselves. */
module HeldChains {
  import opened Lists

  class HeldMutex {
    var nextHeld: HeldMutex?

    constructor ()
      ensures nextHeld == null
    {
      nextHeld := null;
    }
  }

  ghost function Link(l: seq<HeldMutex>, i: int): HeldMutex? {
    if 0 <= i < |l| then l[i] else null
  }

  /** `l` is what is met when following the links from `head`. */
  ghost predicate Hung(l: seq<HeldMutex>, head: HeldMutex?)
    reads l
  {
    head == Link(l, 0) && forall i {:trigger l[i].nextHeld} :: 0 <= i < |l| ==> l[i].nextHeld == Link(l, i + 1)
  }

  lemma BypassedHung(l: seq<HeldMutex>, i: nat, head: HeldMutex?)
    requires i < |l| && head == (if i == 0 then Link(l, 1) else l[0])
    requires forall j {:trigger l[j].nextHeld} :: 0 <= j < |l| && j != i ==> l[j].nextHeld == Link(l, if j + 1 == i then i + 1 else j + 1)
    ensures Hung(l[..i] + l[i + 1..], head)
  {
    var r := l[..i] + l[i + 1..];
    forall j | 0 <= j < |r| ensures r[j].nextHeld == Link(r, j + 1) {
      assert r[j] == l[if j < i then j else j + 1];
    }
  }

  /** The owner's side of the chain. */
  class Holder {
    var heldMutexes: HeldMutex?
    ghost var chain: seq<HeldMutex>

    ghost predicate Valid()
      reads this, chain
    {
      NoDup(chain) && Hung(chain, heldMutexes)
    }

    constructor ()
      ensures Valid() && chain == []
    {
      heldMutexes, chain := null, [];
    }

    method AddHeld(m: HeldMutex)
      requires Valid() && m !in chain
      modifies this, m
      ensures Valid() && chain == [m] + old(chain)
    {
      m.nextHeld := heldMutexes;
      heldMutexes := m;
      chain := [m] + chain;
    }

    /** The walk of remove_held(): the link that points at `m`, which is that of `prev` or the head. */
    method FindLink(m: HeldMutex) returns (prev: HeldMutex?, cur: HeldMutex?, ghost i: nat)
      requires Valid()
      ensures i <= |chain| && cur == Link(chain, i) && prev == Link(chain, i - 1)
      ensures cur == null || cur == m
      ensures cur == null ==> m !in chain
    {
      prev, cur, i := null, heldMutexes, 0;
      while cur != null && cur != m
        invariant i <= |chain| && cur == Link(chain, i) && prev == Link(chain, i - 1)
        invariant forall j :: 0 <= j < i ==> chain[j] != m
        decreases |chain| - i
      {
        assert chain[i].nextHeld == Link(chain, i + 1);
        prev, cur := cur, cur.nextHeld;
        i := i + 1;
      }
    }

    /** Lets the link that points at `m`, wherever it is in the chain, bypass `m`. */
    method RemoveHeld(m: HeldMutex)
      requires Valid()
      modifies this, chain, m
      ensures Valid() && chain == Without(old(chain), m) && m.nextHeld == null
    {
      ghost var i;
      var prev, cur;
      prev, cur, i := FindLink(m);
      if cur == null {
        m.nextHeld := null;
        return;
      }
      assert chain[i].nextHeld == Link(chain, i + 1);
      if prev == null { heldMutexes := m.nextHeld; } else { prev.nextHeld := m.nextHeld; }
      m.nextHeld := null;
      BypassedHung(chain, i, heldMutexes);
      WithoutAt(chain, i);
      chain := Without(chain, m);
    }
  }
}
