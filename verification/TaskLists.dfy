/** The intrusive doubly linked lists behind the ready and wait lists: one pair of links
    per task, so a task can be in one list at a time. */
module TaskLists {
  import opened Lists
  import opened Model

  newtype Ticks = x: int | 0 <= x < 0x1_0000_0000

  class Task {
    const id: Tid
    var state: TaskState
    var prio: nat
    var prev: Task?
    var next: Task?
    var delayPrev: Task?
    var delayNext: Task?
    var delayTicks: Ticks
    var inDelayList: bool
    var waitList: TaskList?
    var expired: bool

    constructor (id: Tid, prio: nat)
      ensures this.id == id && this.prio == prio && !inDelayList && waitList == null
    {
      this.id, this.prio := id, prio;
      state, waitList, expired := Suspended, null, false;
      prev, next, delayPrev, delayNext := null, null, null, null;
      delayTicks, inDelayList := 0, false;
    }
  }

  ghost function At(l: seq<Task>, i: int): Task? {
    if 0 <= i < |l| then l[i] else null
  }

  ghost function Levels(l: seq<Task>): (r: seq<nat>)
    reads l`prio
    ensures |r| == |l| && forall i :: 0 <= i < |l| ==> r[i] == l[i].prio
  {
    if l == [] then [] else [l[0].prio] + Levels(l[1..])
  }

  /** `l` is what is met when walking from `head` to `tail`, forwards and backwards. */
  ghost predicate Chained(l: seq<Task>, head: Task?, tail: Task?)
    reads l`prev, l`next
  {
    && head == At(l, 0) && tail == At(l, |l| - 1)
    && (forall j {:trigger l[j].next} :: 0 <= j < |l| ==> l[j].next == At(l, j + 1))
    && (forall j {:trigger l[j].prev} :: 0 <= j < |l| ==> l[j].prev == At(l, j - 1))
  }

  /** Member `i` of `l` is preceded by `t`. */
  lemma SplicedChained(l: seq<Task>, i: nat, t: Task, head: Task?, tail: Task?)
    requires i < |l| && t.next == l[i] && t.prev == At(l, i - 1) && head == (if i == 0 then t else l[0]) && tail == l[|l| - 1]
    requires forall j {:trigger l[j].next} :: 0 <= j < |l| ==> l[j].next == if j + 1 == i then t else At(l, j + 1)
    requires forall j {:trigger l[j].prev} :: 0 <= j < |l| ==> l[j].prev == if j == i then t else At(l, j - 1)
    ensures Chained(Splice(l, i, t), head, tail)
  {
    var r := Splice(l, i, t);
    forall j | 0 <= j < |r| ensures r[j].next == At(r, j + 1) && r[j].prev == At(r, j - 1) {
      if j != i { assert r[j] == l[if j < i then j else j - 1]; }
    }
  }

  /** Member `i` of `l` is bypassed by its neighbours. */
  lemma BypassedChained(l: seq<Task>, i: nat, head: Task?, tail: Task?)
    requires i < |l| && head == (if i == 0 then At(l, 1) else l[0]) && tail == (if i == |l| - 1 then At(l, i - 1) else l[|l| - 1])
    requires forall j {:trigger l[j].next} :: 0 <= j < |l| && j != i ==> l[j].next == At(l, if j + 1 == i then i + 1 else j + 1)
    requires forall j {:trigger l[j].prev} :: 0 <= j < |l| && j != i ==> l[j].prev == At(l, if j == i + 1 then i - 1 else j - 1)
    ensures Chained(l[..i] + l[i + 1..], head, tail)
  {
    var r := l[..i] + l[i + 1..];
    forall j | 0 <= j < |r| ensures r[j].next == At(r, j + 1) && r[j].prev == At(r, j - 1) {
      assert r[j] == l[if j < i then j else j + 1];
    }
  }

  class TaskList {
    var head: Task?
    var tail: Task?
    ghost var nodes: seq<Task>

    ghost predicate Valid()
      reads this, nodes`prev, nodes`next
    {
      NoDup(nodes) && Chained(nodes, head, tail)
    }

    constructor ()
      ensures Valid() && nodes == []
    {
      head, tail, nodes := null, null, [];
    }

    method IsEmpty() returns (r: bool)
      requires Valid()
      ensures r <==> nodes == []
    {
      return head == null;
    }

    method PushBack(t: Task)
      requires Valid() && t !in nodes
      modifies this, t`prev, t`next, nodes`next
      ensures Valid() && nodes == old(nodes) + [t]
    {
      t.next := null;
      if tail == null {
        t.prev := null;
        head := t;
        tail := t;
      } else {
        t.prev := tail;
        tail.next := t;
        tail := t;
      }
      nodes := nodes + [t];
    }

    /** The first member of lower priority than `p`, and its place. */
    method FindLower(p: nat) returns (current: Task?, ghost i: nat)
      requires Valid()
      ensures i == InsertPos(Levels(nodes), p) && current == At(nodes, i)
    {
      ghost var ps := Levels(nodes);
      current, i := head, 0;
      while current != null && current.prio >= p
        invariant 0 <= i <= |nodes| && current == At(nodes, i)
        invariant forall j :: 0 <= j < i ==> ps[j] >= p
        decreases |nodes| - i
      {
        assert i < |nodes| - 1 ==> nodes[i].next == nodes[i + 1];
        current := current.next;
        i := i + 1;
      }
      InsertPosUnique(ps, p, i);
    }

    /** The pointer work of insert_by_priority(): `t` goes in front of member `i`. */
    method LinkBefore(t: Task, current: Task, ghost i: nat)
      requires Valid() && t !in nodes && i < |nodes| && nodes[i] == current
      modifies this`head, t`prev, t`next, nodes`prev, nodes`next
      ensures Chained(Splice(nodes, i, t), head, tail)
    {
      t.next := current;
      t.prev := current.prev;
      if current.prev != null {
        current.prev.next := t;
      } else {
        head := t;
      }
      current.prev := t;
      SplicedChained(nodes, i, t, head, tail);
    }

    method InsertByPriority(t: Task)
      requires Valid() && t !in nodes
      modifies this, t`prev, t`next, nodes`prev, nodes`next
      ensures Valid() && nodes == Splice(old(nodes), InsertPos(Levels(old(nodes)), t.prio), t)
    {
      hide NoDup, Chained, Levels, InsertPos;
      var empty := IsEmpty();
      if empty {
        PushBack(t);
        return;
      }
      ghost var i;
      var current;
      current, i := FindLower(t.prio);
      if current == null {
        PushBack(t);
        return;
      }
      LinkBefore(t, current, i);
      SpliceNoDup(nodes, i, t);
      nodes := Splice(nodes, i, t);
    }

    method PopFront() returns (t: Task?)
      requires Valid()
      modifies this, nodes`prev, nodes`next
      ensures Valid() && if old(nodes) == [] then t == null && nodes == [] else t == old(nodes)[0] && nodes == old(nodes)[1..]
    {
      if head == null { return null; }
      t := head;
      head := head.next;
      if head != null {
        head.prev := null;
      } else {
        tail := null;
      }
      t.next := null;
      t.prev := null;
      nodes := nodes[1..];
    }

    /** The pointer work of remove(): the neighbours of member `i` bypass it. */
    method Unhook(t: Task, ghost i: nat)
      requires Valid() && i < |nodes| && nodes[i] == t
      modifies this`head, this`tail, nodes`prev, nodes`next
      ensures Chained(nodes[..i] + nodes[i + 1..], head, tail)
    {
      if t.prev != null {
        t.prev.next := t.next;
      } else {
        head := t.next;
      }
      if t.next != null {
        t.next.prev := t.prev;
      } else {
        tail := t.prev;
      }
      t.next := null;
      t.prev := null;
      BypassedChained(nodes, i, head, tail);
    }

    method Remove(t: Task)
      requires Valid() && t in nodes
      modifies this, nodes`prev, nodes`next
      ensures Valid() && nodes == Without(old(nodes), t)
    {
      ghost var i :| 0 <= i < |nodes| && nodes[i] == t;
      Unhook(t, i);
      WithoutAt(nodes, i);
      nodes := Without(nodes, t);
    }
  }

  // ---------------------------------------------------------------- what the lists stand for

  ghost function Ids(l: seq<Task>): (r: seq<Tid>)
    ensures |r| == |l| && forall i :: 0 <= i < |l| ==> r[i] == l[i].id
  {
    seq(|l|, i requires 0 <= i < |l| => l[i].id)
  }

  /** No two control blocks of the list have the same id. */
  ghost predicate OneEach(l: seq<Task>) {
    forall i, j :: 0 <= i < j < |l| ==> l[i].id != l[j].id
  }

  /** Inserting the control block is inserting the task in the state machine's list. */
  lemma InsertIds(l: seq<Task>, t: Task, tasks: map<Tid, Tcb>)
    requires forall x :: x in l ==> x.id in tasks && tasks[x.id].prio == x.prio
    ensures Ids(Splice(l, InsertPos(Levels(l), t.prio), t)) == InsertByPriority(tasks, Ids(l), t.id, t.prio)
  {
    assert Levels(l) == Prios(tasks, Ids(l));
    var i := InsertPos(Levels(l), t.prio);
    assert Ids(Splice(l, i, t)) == Splice(Ids(l), i, t.id);
  }

  lemma {:induction false} WithoutIds(l: seq<Task>, t: Task)
    requires t in l && OneEach(l)
    ensures Ids(Without(l, t)) == Without(Ids(l), t.id)
  {
    assert Ids(l)[1..] == Ids(l[1..]);
    if l[0] == t {
    } else {
      assert Ids(l)[0] != t.id;
      WithoutIds(l[1..], t);
      assert Ids([l[0]] + Without(l[1..], t)) == [l[0].id] + Ids(Without(l[1..], t));
    }
  }
}
