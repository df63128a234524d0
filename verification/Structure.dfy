/** Where every task is linked: the list invariant, and that moving one task keeps it. */
module Structure {
  import opened Lists
  import opened Model

  // ---------------------------------------------------------------- ready and wait lists

  ghost predicate Belongs(s: State, t: Tid, k: Key) {
    t in s.tasks && Where(s.tasks[t]) == Some(k)
  }

  /** A task is linked exactly where its control block says. */
  ghost predicate Placed(s: State) {
    forall k: Key, t: Tid :: t in L(s, k) <==> Belongs(s, t, k)
  }

  ghost predicate Distinct(s: State) {
    forall k: Key :: NoDup(L(s, k))
  }

  /** Wait lists are in non-increasing order of the waiters' current priorities. */
  ghost predicate Ordered(s: State) {
    forall k: Key :: !k.ReadyKey? ==> Descending(Prios(s.tasks, L(s, k)))
  }

  ghost predicate Linked(s: State) {
    Placed(s) && Distinct(s) && Ordered(s)
  }

  lemma {:induction false} WithoutDescending(tasks: map<Tid, Tcb>, l: seq<Tid>, t: Tid)
    requires NoDup(l) && Descending(Prios(tasks, l))
    ensures Descending(Prios(tasks, Without(l, t)))
  {
    hide Without, NoDup;
    if t in l {
      var i :| 0 <= i < |l| && l[i] == t;
      WithoutAt(l, i);
      var r := l[..i] + l[i + 1..];
      var ps, rs := Prios(tasks, l), Prios(tasks, r);
      forall a, b | 0 <= a < b < |rs| ensures rs[a] >= rs[b] {
        var a', b' := if a < i then a else a + 1, if b < i then b else b + 1;
        assert r[a] == l[a'] && r[b] == l[b'];
        assert ps[a'] >= ps[b'];
      }
    }
  }

  lemma InsertDescending(tasks: map<Tid, Tcb>, l: seq<Tid>, t: Tid, p: nat)
    requires t in tasks && tasks[t].prio == p && Descending(Prios(tasks, l))
    ensures Descending(Prios(tasks, InsertByPriority(tasks, l, t, p)))
  {
    var ps := Prios(tasks, l);
    var i := InsertPos(ps, p);
    SpliceDescending(ps, p);
    assert Prios(tasks, Splice(l, i, t)) == Splice(ps, i, p);
  }

  /** A list `l` without duplicates that, if it is a wait list, is in priority order. */
  ghost predicate GoodList(tasks: map<Tid, Tcb>, k: Key, l: seq<Tid>) {
    NoDup(l) && (!k.ReadyKey? ==> Descending(Prios(tasks, l)))
  }

  /** Priorities of tasks outside a list do not matter to it. */
  lemma PriosFrame(tasks: map<Tid, Tcb>, t: Tid, c: Tcb, l: seq<Tid>)
    requires t !in l
    ensures Prios(tasks[t := c], l) == Prios(tasks, l)
  {
  }

  lemma UnlinkList(s: State, t: Tid, k: Key)
    ensures L(s.(lists := Unlinked(s, t)), k) == if Where(T(s, t)) == Some(k) then Without(L(s, k), t) else L(s, k)
  {
    hide Without;
  }

  lemma UnlinkAt(s: State, t: Tid, k: Key)
    requires Linked(s)
    ensures var l := L(s.(lists := Unlinked(s, t)), k);
      GoodList(s.tasks, k, l) && forall x :: x in l <==> x != t && x in L(s, k)
  {
    hide Unlinked;
    UnlinkList(s, t, k);
    assert t in L(s, k) <==> Belongs(s, t, k);
    if !k.ReadyKey? { WithoutDescending(s.tasks, L(s, k), t); }
  }

  lemma EnlistGood(tasks: map<Tid, Tcb>, k: Key, l: seq<Tid>, t: Tid, c: Tcb)
    requires t !in l && GoodList(tasks, k, l)
    ensures var r := Enlist(tasks, k, l, t, c.prio);
      GoodList(tasks[t := c], k, r) && forall x :: x in r <==> x in l || x == t
  {
    if !k.ReadyKey? {
      var i := InsertPos(Prios(tasks, l), c.prio);
      PriosFrame(tasks, t, c, l);
      InsertDescending(tasks[t := c], l, t, c.prio);
      SpliceNoDup(l, i, t);
      SpliceMembers(l, i, t);
    }
  }

  lemma PutList(s: State, t: Tid, c: Tcb, k: Key)
    ensures var l := L(s.(lists := Unlinked(s, t)), k);
      L(Put(s, t, c), k) == if Where(c) == Some(k) then Enlist(s.tasks, k, l, t, c.prio) else l
  {
  }

  lemma PutAt(s: State, t: Tid, c: Tcb, k: Key)
    requires Linked(s)
    ensures var l := L(Put(s, t, c), k);
      && GoodList(s.tasks[t := c], k, l)
      && forall x :: x in l <==> (x != t && x in L(s, k)) || (x == t && Where(c) == Some(k))
  {
    UnlinkAt(s, t, k);
    PutList(s, t, c, k);
    var l := L(s.(lists := Unlinked(s, t)), k);
    if Where(c) == Some(k) {
      EnlistGood(s.tasks, k, l, t, c);
    } else {
      PriosFrame(s.tasks, t, c, l);
    }
  }

  /** Moving a task keeps every list right. */
  lemma PutLinked(s: State, t: Tid, c: Tcb)
    requires Linked(s)
    ensures Linked(Put(s, t, c))
  {
    var s2 := Put(s, t, c);
    forall k: Key ensures GoodList(s2.tasks, k, L(s2, k)) { PutAt(s, t, c, k); }
    forall k: Key, x: Tid ensures x in L(s2, k) <==> Belongs(s2, x, k) {
      PutAt(s, t, c, k);
      assert x in L(s, k) <==> Belongs(s, x, k);
    }
  }

  /** Editing fields that do not decide the place of a task keeps every list right. */
  lemma EditLinked(s: State, t: Tid, c: Tcb)
    requires Linked(s) && t in s.tasks
    requires Where(c) == Where(s.tasks[t]) && c.prio == s.tasks[t].prio
    ensures Linked(Edit(s, t, c))
  {
    var s2 := Edit(s, t, c);
    forall k: Key ensures GoodList(s2.tasks, k, L(s2, k)) {
      assert Prios(s2.tasks, L(s2, k)) == Prios(s.tasks, L(s, k));
    }
    forall k: Key, x: Tid ensures x in L(s2, k) <==> Belongs(s2, x, k) {
      assert x in L(s, k) <==> Belongs(s, x, k);
    }
  }

  /** Nothing else matters to the lists. */
  lemma LinkedFrame(s: State, s': State)
    requires Linked(s) && s'.tasks == s.tasks && s'.lists == s.lists
    ensures Linked(s')
  {
    forall k: Key, x: Tid ensures x in L(s', k) <==> Belongs(s', x, k) {
      assert x in L(s, k) <==> Belongs(s, x, k);
    }
    forall k: Key ensures L(s', k) == L(s, k) {}
  }
}
