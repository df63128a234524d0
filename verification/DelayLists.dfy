/** The delta-encoded sleep list: each task stores the ticks that remain after the one before
    it. Its links are its own, so a sleeping task can also be in a wait list. */
module DelayLists {
  import opened Lists
  import opened Model
  import opened Delays
  import opened TaskLists

  ghost predicate Ascending(l: seq<nat>) {
    forall i, j :: 0 <= i < j < |l| ==> l[i] <= l[j]
  }

  ghost predicate AllPositive(l: seq<nat>) {
    forall i :: 0 <= i < |l| ==> l[i] > 0
  }

  /** Each task once, in order of remaining time, every time within 32 bits. */
  ghost predicate Sorted(l: seq<Task>, lefts: seq<nat>) {
    && |lefts| == |l| && NoDup(l) && OneEach(l) && Ascending(lefts)
    && (forall i :: 0 <= i < |lefts| ==> lefts[i] <= UINT32_MAX)
  }

  lemma InsertSorted(l: seq<Task>, lefts: seq<nat>, t: Task, n: nat)
    requires Sorted(l, lefts) && t !in l && (forall x :: x in l ==> x.id != t.id) && n <= UINT32_MAX
    ensures var i := Later(lefts, n);
      && Sorted(Splice(l, i, t), Splice(lefts, i, n))
      && (AllPositive(lefts) && n > 0 ==> AllPositive(Splice(lefts, i, n)))
      && Entries(Splice(l, i, t), Splice(lefts, i, n)) == DelayInsert(Entries(l, lefts), t.id, n)
  {
    var i := Later(lefts, n);
    SpliceNoDup(l, i, t);
    SpliceNoDup(Ids(l), i, t.id);
    assert Ids(Splice(l, i, t)) == Splice(Ids(l), i, t.id);
    IdsOneEach(Splice(l, i, t));
    InsertAscending(lefts, n);
    InsertIsSplice(Entries(l, lefts), t.id, n, i);
  }

  lemma IdsOneEach(l: seq<Task>)
    requires NoDup(Ids(l))
    ensures OneEach(l)
  {
    forall i, j | 0 <= i < j < |l| ensures l[i].id != l[j].id { assert Ids(l)[i] != Ids(l)[j]; }
  }

  lemma InsertAscending(lefts: seq<nat>, n: nat)
    requires Ascending(lefts)
    ensures Ascending(Splice(lefts, Later(lefts, n), n))
  {
  }

  lemma CutSorted(l: seq<Task>, lefts: seq<nat>, i: nat)
    requires Sorted(l, lefts) && i < |l|
    ensures var r, ls := l[..i] + l[i + 1..], lefts[..i] + lefts[i + 1..];
      && Sorted(r, ls) && (AllPositive(lefts) ==> AllPositive(ls))
      && Entries(r, ls) == DelayWithout(Entries(l, lefts), l[i].id)
      && r == Without(l, l[i]) && l[i] !in r
  {
    hide NoDup, Ascending, OneEach, AllPositive, Without, DelayWithout;
    WithoutAt(l, i);
    CutOneEach(l, i);
    CutLefts(lefts, i);
    CutEntries(l, lefts, i);
  }

  lemma CutEntries(l: seq<Task>, lefts: seq<nat>, i: nat)
    requires |lefts| == |l| && OneEach(l) && i < |l|
    ensures Entries(l[..i] + l[i + 1..], lefts[..i] + lefts[i + 1..]) == DelayWithout(Entries(l, lefts), l[i].id)
  {
    var d, d' := Entries(l, lefts), Entries(l[..i] + l[i + 1..], lefts[..i] + lefts[i + 1..]);
    WithoutIsCut(d, l[i].id, i);
    assert d' == d[..i] + d[i + 1..];
  }

  lemma CutOneEach(l: seq<Task>, i: nat)
    requires OneEach(l) && i < |l|
    ensures OneEach(l[..i] + l[i + 1..])
  {
    var r := l[..i] + l[i + 1..];
    forall j, k | 0 <= j < k < |r| ensures r[j].id != r[k].id {
      assert r[j] == l[if j < i then j else j + 1] && r[k] == l[if k < i then k else k + 1];
    }
  }

  lemma CutLefts(lefts: seq<nat>, i: nat)
    requires Ascending(lefts) && i < |lefts| && (forall j :: 0 <= j < |lefts| ==> lefts[j] <= UINT32_MAX)
    ensures var r := lefts[..i] + lefts[i + 1..];
      && Ascending(r) && (forall j :: 0 <= j < |r| ==> r[j] <= UINT32_MAX) && (AllPositive(lefts) ==> AllPositive(r))
  {
    var r := lefts[..i] + lefts[i + 1..];
    forall j, k | 0 <= j < k < |r| ensures r[j] <= r[k] {
      assert r[j] == lefts[if j < i then j else j + 1] && r[k] == lefts[if k < i then k else k + 1];
    }
  }

  /** What member `i` stores: the difference to the remaining time of its predecessor. */
  ghost function Delta(lefts: seq<nat>, i: nat): int
    requires i < |lefts|
  {
    lefts[i] as int - if i == 0 then 0 else lefts[i - 1]
  }

  /** The deltas of neighbours add up to less than 32 bits. */
  lemma DeltaSum(lefts: seq<nat>, i: nat)
    requires Ascending(lefts) && i + 1 < |lefts| && lefts[i + 1] <= UINT32_MAX
    ensures Delta(lefts, i) + Delta(lefts, i + 1) <= UINT32_MAX
  {
  }

  ghost function Entries(l: seq<Task>, lefts: seq<nat>): (r: seq<Entry>)
    requires |lefts| == |l|
    ensures |r| == |l| && forall i :: 0 <= i < |l| ==> r[i] == Entry(l[i].id, lefts[i])
  {
    seq(|l|, i requires 0 <= i < |l| => Entry(l[i].id, lefts[i]))
  }

  /** How many leading entries come due no later than `n`. */
  ghost function Later(lefts: seq<nat>, n: nat): (i: nat)
    ensures i <= |lefts|
    ensures forall j :: 0 <= j < i ==> lefts[j] <= n
    ensures i < |lefts| ==> lefts[i] > n
  {
    if lefts == [] || lefts[0] > n then 0 else 1 + Later(lefts[1..], n)
  }

  lemma LaterUnique(lefts: seq<nat>, n: nat, i: nat)
    requires i <= |lefts|
    requires forall j :: 0 <= j < i ==> lefts[j] <= n
    requires i < |lefts| ==> lefts[i] > n
    ensures i == Later(lefts, n)
  {
  }

  lemma {:induction false} InsertIsSplice(d: seq<Entry>, t: Tid, n: nat, i: nat)
    requires i <= |d|
    requires forall j :: 0 <= j < i ==> d[j].left <= n
    requires i < |d| ==> d[i].left > n
    ensures DelayInsert(d, t, n) == Splice(d, i, Entry(t, n))
  {
    if i > 0 {
      InsertIsSplice(d[1..], t, n, i - 1);
      assert Splice(d, i, Entry(t, n)) == [d[0]] + Splice(d[1..], i - 1, Entry(t, n));
    }
  }

  lemma {:induction false} WithoutIsCut(d: seq<Entry>, t: Tid, i: nat)
    requires i < |d| && d[i].task == t && forall j :: 0 <= j < i ==> d[j].task != t
    ensures DelayWithout(d, t) == d[..i] + d[i + 1..]
  {
    if i > 0 {
      WithoutIsCut(d[1..], t, i - 1);
      assert d[..i] == [d[0]] + d[1..][..i - 1];
    }
  }

  /** With everyone's time left positive, a tick takes one off each. */
  lemma {:induction false} DownIsLess(l: seq<Task>, lefts: seq<nat>)
    requires |lefts| == |l| && forall i :: 0 <= i < |l| ==> lefts[i] > 0
    ensures DelayDown(Entries(l, lefts)) == Entries(l, Less(lefts))
  {
    if l != [] {
      assert Entries(l, lefts)[1..] == Entries(l[1..], lefts[1..]);
      DownIsLess(l[1..], lefts[1..]);
      assert Less(lefts)[1..] == Less(lefts[1..]);
      assert Entries(l, Less(lefts)) == [Entry(l[0].id, lefts[0] - 1)] + Entries(l[1..], Less(lefts[1..]));
    }
  }

  lemma LessSorted(l: seq<Task>, lefts: seq<nat>)
    requires Sorted(l, lefts) && AllPositive(lefts)
    ensures Sorted(l, Less(lefts))
  {
  }

  /** The first member has left; it had no time left, so the deltas of the others stand. */
  lemma TailStrung(l: seq<Task>, lefts: seq<nat>, head: Task?)
    requires |lefts| == |l| > 0 && lefts[0] == 0 && head == At(l, 1)
    requires forall j {:trigger l[j].delayNext} :: 0 < j < |l| ==> l[j].delayNext == At(l, j + 1)
    requires forall j {:trigger l[j].delayPrev} :: 0 < j < |l| ==> l[j].delayPrev == if j == 1 then null else At(l, j - 1)
    requires forall j {:trigger l[j].delayTicks} :: 0 < j < |l| ==> l[j].delayTicks as int == Delta(lefts, j)
    requires forall j {:trigger l[j].inDelayList} :: 0 < j < |l| ==> l[j].inDelayList
    ensures Strung(l[1..], lefts[1..], head)
  {
    var r, ls := l[1..], lefts[1..];
    forall j | 0 <= j < |r|
      ensures r[j].delayNext == At(r, j + 1) && r[j].delayPrev == At(r, j - 1)
      ensures r[j].delayTicks as int == Delta(ls, j) && r[j].inDelayList
    {
      assert r[j] == l[j + 1];
    }
  }

  lemma TailSorted(l: seq<Task>, lefts: seq<nat>)
    requires Sorted(l, lefts) && l != []
    ensures Sorted(l[1..], lefts[1..])
  {
  }

  ghost function Less(lefts: seq<nat>): (r: seq<nat>)
    requires forall i :: 0 <= i < |lefts| ==> lefts[i] > 0
    ensures |r| == |lefts| && forall i :: 0 <= i < |lefts| ==> r[i] == lefts[i] - 1
  {
    seq(|lefts|, i requires 0 <= i < |lefts| => lefts[i] - 1)
  }

  /** `l` is what is met when walking from `head`, each member storing its delta. */
  ghost predicate Strung(l: seq<Task>, lefts: seq<nat>, head: Task?)
    requires |lefts| == |l|
    reads l`delayPrev, l`delayNext, l`delayTicks, l`inDelayList
  {
    && head == At(l, 0)
    && (forall j {:trigger l[j].delayNext} :: 0 <= j < |l| ==> l[j].delayNext == At(l, j + 1))
    && (forall j {:trigger l[j].delayPrev} :: 0 <= j < |l| ==> l[j].delayPrev == At(l, j - 1))
    && (forall j {:trigger l[j].delayTicks} :: 0 <= j < |l| ==> l[j].delayTicks as int == Delta(lefts, j))
    && (forall j {:trigger l[j].inDelayList} :: 0 <= j < |l| ==> l[j].inDelayList)
  }

  /** `t`, due after `n` ticks, has been put in front of place `i`. */
  lemma SplicedStrung(l: seq<Task>, lefts: seq<nat>, i: nat, t: Task, n: nat, head: Task?)
    requires |lefts| == |l| && i <= |l|
    requires t.delayNext == At(l, i) && t.delayPrev == At(l, i - 1) && head == (if i == 0 then t else At(l, 0))
    requires t.inDelayList && t.delayTicks as int == n as int - if i == 0 then 0 else lefts[i - 1]
    requires forall j {:trigger l[j].delayNext} :: 0 <= j < |l| ==> l[j].delayNext == if j + 1 == i then t else At(l, j + 1)
    requires forall j {:trigger l[j].delayPrev} :: 0 <= j < |l| ==> l[j].delayPrev == if j == i then t else At(l, j - 1)
    requires forall j {:trigger l[j].delayTicks} :: 0 <= j < |l| ==>
      l[j].delayTicks as int == if j == i then lefts[i] as int - n else Delta(lefts, j)
    requires forall j {:trigger l[j].inDelayList} :: 0 <= j < |l| ==> l[j].inDelayList
    ensures Strung(Splice(l, i, t), Splice(lefts, i, n), head)
  {
    var r, ls := Splice(l, i, t), Splice(lefts, i, n);
    forall j | 0 <= j < |r|
      ensures r[j].delayNext == At(r, j + 1) && r[j].delayPrev == At(r, j - 1)
      ensures r[j].delayTicks as int == Delta(ls, j) && r[j].inDelayList
    {
      if j != i { assert r[j] == l[if j < i then j else j - 1]; }
    }
  }

  /** Member `i` has been bypassed, and its successor charged with its time. */
  lemma BypassedStrung(l: seq<Task>, lefts: seq<nat>, i: nat, head: Task?)
    requires |lefts| == |l| && i < |l| && head == (if i == 0 then At(l, 1) else l[0])
    requires forall j {:trigger l[j].delayNext} :: 0 <= j < |l| && j != i ==> l[j].delayNext == At(l, if j + 1 == i then i + 1 else j + 1)
    requires forall j {:trigger l[j].delayPrev} :: 0 <= j < |l| && j != i ==> l[j].delayPrev == At(l, if j == i + 1 then i - 1 else j - 1)
    requires forall j {:trigger l[j].delayTicks} :: 0 <= j < |l| && j != i ==>
      l[j].delayTicks as int == if j == i + 1 then Delta(lefts, j) + Delta(lefts, i) else Delta(lefts, j)
    requires forall j {:trigger l[j].inDelayList} :: 0 <= j < |l| && j != i ==> l[j].inDelayList
    ensures Strung(l[..i] + l[i + 1..], lefts[..i] + lefts[i + 1..], head)
  {
    var r, ls := l[..i] + l[i + 1..], lefts[..i] + lefts[i + 1..];
    forall j | 0 <= j < |r|
      ensures r[j].delayNext == At(r, j + 1) && r[j].delayPrev == At(r, j - 1)
      ensures r[j].delayTicks as int == Delta(ls, j) && r[j].inDelayList
    {
      assert r[j] == l[if j < i then j else j + 1];
    }
  }

  class DelayList {
    var head: Task?
    ghost var nodes: seq<Task>
    ghost var lefts: seq<nat>

    ghost predicate Linked()
      reads this, nodes`delayPrev, nodes`delayNext, nodes`delayTicks, nodes`inDelayList
    {
      Sorted(nodes, lefts) && Strung(nodes, lefts, head)
    }

    /** Between operations nobody is overdue. */
    ghost predicate Valid()
      reads this, nodes`delayPrev, nodes`delayNext, nodes`delayTicks, nodes`inDelayList
    {
      Linked() && AllPositive(lefts)
    }

    ghost function View(): seq<Entry>
      requires |lefts| == |nodes|
      reads this
    {
      Entries(nodes, lefts)
    }

    constructor ()
      ensures Valid() && View() == []
    {
      head, nodes, lefts := null, [], [];
    }

    /** The walk of insert(): the first entry due after `ticks`, and what is left of `ticks` there. */
    method FindPlace(ticks: Ticks) returns (prev: Task?, current: Task?, rest: Ticks, ghost i: nat)
      requires Linked()
      ensures i == Later(lefts, ticks as nat) && prev == At(nodes, i - 1) && current == At(nodes, i)
      ensures rest as int == ticks as int - if i == 0 then 0 else lefts[i - 1]
    {
      prev, current, rest, i := null, head, ticks, 0;
      while current != null && rest >= current.delayTicks
        invariant 0 <= i <= |nodes| && prev == At(nodes, i - 1) && current == At(nodes, i)
        invariant rest as int == ticks as int - if i == 0 then 0 else lefts[i - 1]
        invariant i > 0 ==> lefts[i - 1] <= ticks as int
        decreases |nodes| - i
      {
        assert nodes[i].delayTicks as int == Delta(lefts, i);
        rest := rest - current.delayTicks;
        prev := current;
        current := current.delayNext;
        i := i + 1;
      }
      assert i < |nodes| ==> nodes[i].delayTicks as int == Delta(lefts, i);
      LaterUnique(lefts, ticks as nat, i);
    }

    /** The pointer work of insert(); the subtraction does not wrap. */
    method LinkAt(t: Task, prev: Task?, current: Task?, rest: Ticks, n: Ticks, ghost i: nat)
      requires Linked() && t !in nodes && i == Later(lefts, n as nat) && prev == At(nodes, i - 1) && current == At(nodes, i)
      requires rest as int == n as int - if i == 0 then 0 else lefts[i - 1]
      modifies this`head, t`delayPrev, t`delayNext, t`delayTicks, t`inDelayList, nodes`delayPrev, nodes`delayNext, nodes`delayTicks
      ensures Strung(Splice(nodes, i, t), Splice(lefts, i, n as nat), head) && t.inDelayList
    {
      hide OneEach, Ascending, Later;
      assert current != null ==> nodes[i].delayTicks as int == Delta(lefts, i);
      t.delayTicks := rest;
      t.delayPrev := prev;
      t.delayNext := current;
      if prev != null { prev.delayNext := t; } else { head := t; }
      if current != null {
        current.delayPrev := t;
        current.delayTicks := current.delayTicks - rest;
      }
      t.inDelayList := true;
      SplicedStrung(nodes, lefts, i, t, n as nat, head);
    }

    method Insert(t: Task, ticks: Ticks)
      requires Valid() && t !in nodes && (forall x :: x in nodes ==> x.id != t.id) && ticks > 0
      modifies this, t`delayPrev, t`delayNext, t`delayTicks, t`inDelayList, nodes`delayPrev, nodes`delayNext, nodes`delayTicks
      ensures Valid() && View() == DelayInsert(old(View()), t.id, ticks as nat)
      ensures t.inDelayList && nodes == Splice(old(nodes), Later(old(lefts), ticks as nat), t)
    {
      hide Strung, NoDup, OneEach, Ascending, AllPositive, DelayInsert;
      ghost var i;
      var prev, current, rest;
      prev, current, rest, i := FindPlace(ticks);
      LinkAt(t, prev, current, rest, ticks, i);
      InsertSorted(nodes, lefts, t, ticks as nat);
      nodes, lefts := Splice(nodes, i, t), Splice(lefts, i, ticks as nat);
    }

    /** The pointer work of remove(); the addition does not wrap. */
    method Unhook(t: Task, ghost i: nat)
      requires Linked() && i < |nodes| && nodes[i] == t
      modifies this`head, nodes`delayPrev, nodes`delayNext, nodes`delayTicks, t`inDelayList
      ensures Strung(nodes[..i] + nodes[i + 1..], lefts[..i] + lefts[i + 1..], head) && !t.inDelayList
    {
      hide OneEach, Ascending, Delta;
      if i + 1 < |nodes| { DeltaSum(lefts, i); }
      assert t.delayTicks as int == Delta(lefts, i);
      if t.delayNext != null {
        assert nodes[i + 1].delayTicks as int == Delta(lefts, i + 1);
        t.delayNext.delayTicks := t.delayNext.delayTicks + t.delayTicks;
        t.delayNext.delayPrev := t.delayPrev;
      }
      if t.delayPrev != null {
        t.delayPrev.delayNext := t.delayNext;
      } else {
        head := t.delayNext;
      }
      t.delayNext := null;
      t.delayPrev := null;
      t.delayTicks := 0;
      t.inDelayList := false;
      BypassedStrung(nodes, lefts, i, head);
    }

    /** A task that is not in the list is left alone. */
    method Remove(t: Task)
      requires Valid() && (t.inDelayList <==> t in nodes) && (forall x :: x in nodes && x != t ==> x.id != t.id)
      modifies this, nodes`delayPrev, nodes`delayNext, nodes`delayTicks, t`inDelayList
      ensures Valid() && View() == DelayWithout(old(View()), t.id) && nodes == Without(old(nodes), t) && !t.inDelayList
    {
      hide Strung, NoDup, OneEach, Ascending, AllPositive, DelayWithout;
      if !t.inDelayList {
        AbsentStays(View(), t.id);
        return;
      }
      ghost var i :| 0 <= i < |nodes| && nodes[i] == t;
      Unhook(t, i);
      CutSorted(nodes, lefts, i);
      nodes, lefts := Without(nodes, t), lefts[..i] + lefts[i + 1..];
    }

    /** One tick less for the head is one tick less for everybody. */
    method Decrement()
      requires Valid()
      modifies this, nodes`delayTicks
      ensures Linked() && nodes == old(nodes) && View() == DelayDown(old(View()))
    {
      hide DelayDown, OneEach, Ascending;
      DownIsLess(nodes, lefts);
      LessSorted(nodes, lefts);
      DecrementHead();
      lefts := Less(lefts);
    }

    method DecrementHead()
      requires Valid()
      modifies nodes`delayTicks
      ensures Strung(nodes, Less(lefts), head)
    {
      hide OneEach;
      if head == null { return; }
      assert nodes[0].delayTicks as int == Delta(lefts, 0);
      if head.delayTicks > 0 { head.delayTicks := head.delayTicks - 1; }
      forall j | 0 <= j < |nodes| ensures nodes[j].delayTicks as int == Delta(Less(lefts), j) {
        assert old(nodes[j].delayTicks) as int == Delta(lefts, j);
      }
    }

    /** The pointer work of one round of the loop in tick(). */
    method UnhookFront(ghost all: seq<Task>) returns (t: Task)
      requires Linked() && nodes != [] && lefts[0] == 0 && forall x :: x in nodes ==> x in all
      modifies this`head, all`delayPrev, all`delayNext, all`inDelayList
      ensures t == nodes[0] && !t.inDelayList && Strung(nodes[1..], lefts[1..], head)
      ensures forall x :: x in all && x != t ==> x.inDelayList == old(x.inDelayList)
    {
      hide OneEach, Ascending;
      t := head;
      assert t in nodes && (|nodes| > 1 ==> nodes[1] in nodes);
      head := t.delayNext;
      if head != null { head.delayPrev := null; }
      t.delayNext := null;
      t.delayPrev := null;
      t.inDelayList := false;
      TailStrung(nodes, lefts, head);
    }

    /** An entry that has come due leaves the front. */
    method PopDue(ghost all: seq<Task>) returns (t: Task)
      requires Linked() && nodes != [] && lefts[0] == 0 && forall x :: x in nodes ==> x in all
      modifies this, all`delayPrev, all`delayNext, all`inDelayList
      ensures Linked() && |lefts| == |nodes| && |old(lefts)| == |old(nodes)|
      ensures old(nodes) == [t] + nodes && old(View()) == [Entry(t.id, 0)] + View() && !t.inDelayList
      ensures forall x :: x in all && x != t ==> x.inDelayList == old(x.inDelayList)
    {
      hide OneEach, Ascending, NoDup, Strung;
      t := UnhookFront(all);
      TailSorted(nodes, lefts);
      nodes, lefts := nodes[1..], lefts[1..];
    }

    lemma FrontIsLeft()
      requires Linked()
      ensures |lefts| == |nodes| && NoDup(nodes) && (head == null <==> nodes == [])
      ensures nodes != [] ==> head.delayTicks as int == lefts[0]
    {
      assert nodes != [] ==> nodes[0].delayTicks as int == Delta(lefts, 0);
    }

    lemma FrontPositive()
      requires Linked() && (head == null || head.delayTicks != 0)
      ensures Valid()
    {
      FrontIsLeft();
    }
  }

  lemma {:induction false} AbsentStays(d: seq<Entry>, t: Tid)
    requires forall j :: 0 <= j < |d| ==> d[j].task != t
    ensures DelayWithout(d, t) == d
  {
    if d != [] { AbsentStays(d[1..], t); }
  }
}
