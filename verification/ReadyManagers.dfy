/** The ready lists of the scheduler with their bitmask, on the linked lists. */
module ReadyManagers {
  import opened Lists
  import opened Model
  import opened TaskLists
  import opened Bitmasks
  import opened Scheduling

  class ReadyManager {
    const lists: seq<TaskList>
    var mask: bv32
    /** The static task table. */
    ghost const table: set<Task>

    /** Bit p is set exactly when list p is not empty. */
    ghost predicate MaskAgrees()
      requires |lists| == MAX_PRIORITIES
      reads this, lists
    {
      forall p :: 0 <= p < MAX_PRIORITIES ==> (Has(mask, p) <==> lists[p].nodes != [])
    }

    ghost predicate ListOk(p: int)
      requires 0 <= p < |lists|
      reads lists, table`prio, table`prev, table`next
    {
      (forall x :: x in lists[p].nodes ==> x in table && x.prio == p) && lists[p].Valid()
    }

    ghost predicate AllOk()
      requires |lists| == MAX_PRIORITIES
      reads lists, table`prio, table`prev, table`next
    {
      forall p :: 0 <= p < MAX_PRIORITIES ==> ListOk(p)
    }

    ghost predicate Separate() {
      |lists| == MAX_PRIORITIES && forall p, q :: 0 <= p < q < MAX_PRIORITIES ==> lists[p] != lists[q]
    }

    ghost predicate Valid()
      reads this, lists, table`prio, table`prev, table`next
    {
      Separate() && AllOk() && MaskAgrees()
    }

    /** The tasks of level `p`, oldest first. */
    ghost function Level(p: int): seq<Task>
      reads lists
    {
      if 0 <= p < |lists| then lists[p].nodes else []
    }

    constructor (ghost table: set<Task>)
      ensures Valid() && this.table == table && forall p :: Level(p) == []
    {
      var ls: seq<TaskList> := [];
      while |ls| < MAX_PRIORITIES
        invariant |ls| <= MAX_PRIORITIES
        invariant forall i :: 0 <= i < |ls| ==> fresh(ls[i]) && ls[i].Valid() && ls[i].nodes == []
        invariant forall i, j :: 0 <= i < j < |ls| ==> ls[i] != ls[j]
        decreases MAX_PRIORITIES - |ls|
      {
        var l := new TaskList();
        ls := ls + [l];
      }
      ZeroIsEmpty(0);
      lists, mask, this.table := ls, 0, table;
    }

    /** Work on one list leaves the other lists alone: no task is in two of them. */
    method PushBackAt(prio: nat, t: Task)
      requires Separate() && AllOk() && prio < MAX_PRIORITIES && t in table && t.prio == prio
      requires forall p :: 0 <= p < MAX_PRIORITIES ==> t !in lists[p].nodes
      modifies lists[prio], t`prev, t`next, lists[prio].nodes`next
      ensures AllOk() && lists[prio].nodes == old(lists[prio].nodes) + [t]
    {
      hide NoDup;
      assert ListOk(prio);
      lists[prio].PushBack(t);
      forall p | 0 <= p < MAX_PRIORITIES && p != prio ensures ListOk(p) {
        assert old(ListOk(p));
        var l := lists[p].nodes;
        forall j | 0 <= j < |l| ensures l[j].prev == old(l[j].prev) && l[j].next == old(l[j].next) { assert l[j] in l; }
      }
    }

    method RemoveAt(prio: nat, t: Task)
      requires Separate() && AllOk() && prio < MAX_PRIORITIES && t in lists[prio].nodes
      modifies lists[prio], lists[prio].nodes`prev, lists[prio].nodes`next
      ensures AllOk() && lists[prio].nodes == Without(old(lists[prio].nodes), t)
    {
      hide NoDup;
      assert ListOk(prio);
      lists[prio].Remove(t);
      forall p | 0 <= p < MAX_PRIORITIES && p != prio ensures ListOk(p) {
        assert old(ListOk(p));
        var l := lists[p].nodes;
        forall j | 0 <= j < |l| ensures l[j].prev == old(l[j].prev) && l[j].next == old(l[j].next) { assert l[j] in l; }
      }
    }

    method PopFrontAt(prio: nat) returns (t: Task?)
      requires Separate() && AllOk() && prio < MAX_PRIORITIES && lists[prio].nodes != []
      modifies lists[prio], lists[prio].nodes`prev, lists[prio].nodes`next
      ensures AllOk() && t == old(lists[prio].nodes)[0] && lists[prio].nodes == old(lists[prio].nodes)[1..]
    {
      hide NoDup;
      assert ListOk(prio);
      t := lists[prio].PopFront();
      forall p | 0 <= p < MAX_PRIORITIES && p != prio ensures ListOk(p) {
        assert old(ListOk(p));
        var l := lists[p].nodes;
        forall j | 0 <= j < |l| ensures l[j].prev == old(l[j].prev) && l[j].next == old(l[j].next) { assert l[j] in l; }
      }
    }

    method Add(t: Task)
      requires Valid() && t in table && t.prio < MAX_PRIORITIES && forall p :: t !in Level(p)
      modifies this`mask, lists, t`prev, t`next, Level(t.prio)`next
      ensures Valid() && Level(t.prio) == old(Level(t.prio)) + [t]
      ensures forall p :: p != t.prio ==> Level(p) == old(Level(p))
    {
      hide ListOk, AllOk;
      var prio := t.prio;
      assert forall p :: 0 <= p < MAX_PRIORITIES ==> Level(p) == lists[p].nodes;
      PushBackAt(prio, t);
      mask := With(mask, prio);
      forall p | 0 <= p < MAX_PRIORITIES ensures Has(mask, p) <==> lists[p].nodes != [] {
        WithHas(old(mask), prio, p);
      }
    }

    method Remove(t: Task)
      requires Valid() && t in Level(t.prio)
      modifies this`mask, lists, Level(t.prio)`prev, Level(t.prio)`next
      ensures Valid() && Level(t.prio) == Without(old(Level(t.prio)), t)
      ensures forall p :: p != t.prio ==> Level(p) == old(Level(p))
    {
      hide ListOk, AllOk;
      RemoveAt(t.prio, t);
      UnmarkIfEmpty(t.prio);
    }

    lemma InTable(p: int)
      requires Valid()
      ensures forall x :: x in Level(p) ==> x in table
    {
      if 0 <= p < MAX_PRIORITIES { assert ListOk(p); }
    }

    /** A task is in the level of its priority only. */
    lemma ApartLevels(p: int, t: Task)
      requires Valid() && t in Level(p)
      ensures p == t.prio && t in table && forall q :: q != p ==> t !in Level(q)
    {
      assert ListOk(p);
      forall q | q != p ensures t !in Level(q) {
        if 0 <= q < MAX_PRIORITIES { assert ListOk(q); }
      }
    }

    /** The bit of a level that may have become empty is brought up to date. */
    method UnmarkIfEmpty(prio: nat)
      requires |lists| == MAX_PRIORITIES && prio < MAX_PRIORITIES && AllOk() && Has(mask, prio)
      requires forall p :: 0 <= p < MAX_PRIORITIES && p != prio ==> (Has(mask, p) <==> lists[p].nodes != [])
      modifies this`mask
      ensures MaskAgrees()
    {
      assert ListOk(prio);
      var empty := lists[prio].IsEmpty();
      if empty {
        mask := WithoutBit(mask, prio);
        forall p | 0 <= p < MAX_PRIORITIES ensures Has(mask, p) <==> lists[p].nodes != [] {
          WithoutHas(old(mask), prio, p);
        }
      }
    }

    lemma MaskZero()
      requires Separate() && MaskAgrees()
      ensures mask == 0 <==> forall p :: Level(p) == []
    {
      ZeroIsEmpty(mask);
      assert forall p :: 0 <= p < MAX_PRIORITIES ==> Level(p) == lists[p].nodes;
    }

    method IsEmpty() returns (r: bool)
      requires Valid()
      ensures r <==> forall p :: Level(p) == []
    {
      MaskZero();
      return mask == 0;
    }

    /** 31 - clz is the highest level with a ready task. */
    lemma HighestLevel()
      requires Separate() && MaskAgrees() && mask != 0
      ensures var p := 31 - Clz(mask); 0 <= p < MAX_PRIORITIES && Level(p) != [] && forall q :: q > p ==> Level(q) == []
    {
      ClzIsHighest(mask);
    }

    method PeekHighestPriority() returns (p: nat)
      requires Valid() && mask != 0
      ensures p < MAX_PRIORITIES && Level(p) != [] && forall q :: q > p ==> Level(q) == []
    {
      HighestLevel();
      return 31 - Clz(mask);
    }

    /** The oldest task of level `prio` leaves its list. */
    method TakeFrom(prio: nat) returns (t: Task)
      requires Valid() && prio < MAX_PRIORITIES && Level(prio) != []
      modifies this`mask, lists, Level(prio)`prev, Level(prio)`next
      ensures Valid() && t.prio == prio && old(Level(prio)) == [t] + Level(prio)
      ensures forall p :: p != prio ==> Level(p) == old(Level(p))
    {
      hide Has, ListOk, AllOk;
      ApartLevels(prio, Level(prio)[0]);
      t := PopFrontAt(prio);
      UnmarkIfEmpty(prio);
    }

    /** The oldest task of the highest level leaves its list. */
    method GetHighestPriorityTask() returns (t: Task?)
      requires Valid()
      modifies this`mask, lists, table`prev, table`next
      ensures Valid()
      ensures forall x :: x in table && (forall p :: x !in old(Level(p))) ==> x.prev == old(x.prev) && x.next == old(x.next)
      ensures t == null <==> forall p :: old(Level(p)) == []
      ensures t == null ==> forall p :: Level(p) == []
      ensures t != null ==> var top := t.prio;
        && old(Level(top)) == [t] + Level(top)
        && (forall q :: q > top ==> old(Level(q)) == [])
        && (forall p :: p != top ==> Level(p) == old(Level(p)))
    {
      hide Has, Clz, ListOk, AllOk, Level;
      MaskZero();
      if mask == 0 { return null; }
      HighestLevel();
      InTable(31 - Clz(mask));
      t := TakeFrom(31 - Clz(mask));
    }

    /** The priority of a task that is in no list may be changed freely. */
    method Relabel(t: Task, p: nat)
      requires Valid() && forall q :: t !in Level(q)
      modifies t`prio
      ensures Valid() && t.prio == p
    {
      hide MaskAgrees, NoDup;
      t.prio := p;
      forall q | 0 <= q < MAX_PRIORITIES ensures ListOk(q) {
        assert old(ListOk(q)) && t !in Level(q);
      }
    }

    lemma DistinctLevel(p: int)
      requires Valid()
      ensures NoDup(Level(p))
    {
      if 0 <= p < MAX_PRIORITIES { assert ListOk(p); }
    }
  }

  /** The bitmask search finds the same level as the linear scan of the state machine. */
  lemma TopAgrees(r: ReadyManager, s: State)
    requires r.Valid()
    requires forall p :: 0 <= p < MAX_PRIORITIES ==> L(s, ReadyKey(p)) == Ids(r.Level(p))
    ensures TopReady(s, MAX_PRIORITIES) == if r.mask == 0 then None else Some(31 - Clz(r.mask))
  {
    hide Has, Clz;
    r.MaskZero();
    if r.mask != 0 {
      var top := 31 - Clz(r.mask);
      ClzIsHighest(r.mask);
      assert r.Level(top) == r.lists[top].nodes;
      forall p | top < p < MAX_PRIORITIES ensures r.Level(p) == [] { assert r.Level(p) == r.lists[p].nodes; }
      TopUnique(s, MAX_PRIORITIES, top);
    }
  }
}
