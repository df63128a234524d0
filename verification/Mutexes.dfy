/** Lock and unlock keep the invariant: ownership, held chains and inherited priorities. */
module Mutexes {
  import opened Lists
  import opened Model
  import opened Structure
  import opened Delays
  import opened Invariant
  import opened Preservation

  // ---------------------------------------------------------------- changing a priority

  /** A task that holds a mutex may run at any priority not below its own. */
  lemma PriorityTasks(s: State, t: Tid, p: nat, ex: set<Tid>)
    requires TasksBut(s, ex) && t in s.tasks && t !in ex && p < MAX_PRIORITIES
    requires s.tasks[t].base <= p && s.tasks[t].held != []
    ensures TasksBut(SetPriority(s, t, p), ex)
  {
    var c := s.tasks[t].(prio := p);
    assert TaskOk(s, t, s.tasks[t]);
    if s.tasks[t].prio != p {
      forall x | x in s.tasks && x != t && x !in ex ensures ReasonIn(s, s.tasks[x]) { assert TaskOk(s, x, s.tasks[x]); }
      assert TasksBut(s, ex + {t});
      TasksChange(s, SetPriority(s, t, p), t, c, ex);
    }
  }

  lemma PriorityRest(s: State, t: Tid, p: nat)
    requires Rest(s) && t in s.tasks
    ensures Rest(SetPriority(s, t, p))
  {
    OwnFrame(s.tasks, s.owners, t, s.tasks[t].(prio := p));
  }

  lemma PriorityLinked(s: State, t: Tid, p: nat)
    requires Linked(s)
    ensures Linked(SetPriority(s, t, p))
  {
    PutLinked(s, t, T(s, t).(prio := p));
  }

  // ---------------------------------------------------------------- lock

  /** Taking a free mutex. */
  lemma HoldOwn(s: State, m: nat, t: Tid)
    requires t in s.tasks
    requires forall x: nat, y: Tid :: x != m ==> OwnAt(s.tasks, s.owners, x, y)
    requires forall y: Tid :: y in s.tasks ==> m !in s.tasks[y].held
    ensures Own(Hold(s, m, t).tasks, Hold(s, m, t).owners)
  {
    var s' := Hold(s, m, t);
    forall x: nat, y: Tid ensures OwnAt(s'.tasks, s'.owners, x, y) {
      if x != m { assert OwnAt(s.tasks, s.owners, x, y); }
    }
  }

  lemma LockFree(s: State, m: nat)
    requires Inv(s) && TaskCalls(s) && m in s.owners && s.owners[m] == None
    ensures Inv(Hold(s, m, Cur(s)))
  {
    var t := Cur(s);
    var s' := Hold(s, m, t);
    var c := s.tasks[t].(held := [m] + s.tasks[t].held);
    forall y: Tid | y in s.tasks ensures m !in s.tasks[y].held { assert OwnAt(s.tasks, s.owners, m, y); }
    HoldOwn(s, m, t);
    LockFreeTasks(s, m);
    EditLinked(s, t, c);
    LinkedFrame(Edit(s, t, c), s');
  }

  lemma LockFreeTasks(s: State, m: nat)
    requires TasksOk(s) && Own(s.tasks, s.owners) && TaskCalls(s) && m in s.owners && s.owners[m] == None
    ensures TasksOk(Hold(s, m, Cur(s)))
  {
    var t := Cur(s);
    var s' := Hold(s, m, t);
    var c := s.tasks[t].(held := [m] + s.tasks[t].held);
    assert TaskOk(s, t, s.tasks[t]);
    assert OwnAt(s.tasks, s.owners, m, t);
    forall x | x in s.tasks && x != t ensures ReasonIn(s', s.tasks[x]) { assert TaskOk(s, x, s.tasks[x]); }
    TasksChange(s, s', t, c, {});
  }

  /** Blocking on a mutex that somebody else holds, after lending the owner the caller's priority. */
  lemma LockBusy(s: State, m: nat, o: Tid)
    requires Inv(s) && TaskCalls(s) && m in s.owners && s.owners[m] == Some(o) && o != Cur(s)
    ensures Inv(Lock(s, m))
  {
    hide Linked, TasksBut, Rest, Positive, Preemptive, SetPriority, Park;
    var t := Cur(s);
    LockFacts(s, m, o);
    var s1 := if s.tasks[t].prio > s.tasks[o].prio then SetPriority(s, o, s.tasks[t].prio) else s;
    if s.tasks[t].prio > s.tasks[o].prio {
      PriorityTasks(s, o, s.tasks[t].prio, {});
      PriorityRest(s, o, s.tasks[t].prio);
      PriorityLinked(s, o, s.tasks[t].prio);
    }
    ParkInv(s1, s.tasks[t], MutexKey(m), WAIT_FOREVER);
  }

  lemma LockFacts(s: State, m: nat, o: Tid)
    requires Inv(s) && TaskCalls(s) && m in s.owners && s.owners[m] == Some(o) && o != Cur(s)
    ensures o in s.tasks && m in s.tasks[o].held && m !in s.tasks[Cur(s)].held
    ensures TcbOk(s.tasks[o]) && TcbOk(s.tasks[Cur(s)])
  {
    assert OwnAt(s.tasks, s.owners, m, o);
    assert OwnAt(s.tasks, s.owners, m, Cur(s));
    assert TaskOk(s, o, s.tasks[o]);
    assert TaskOk(s, Cur(s), s.tasks[Cur(s)]);
  }

  lemma LockInv(s: State, m: nat)
    requires Inv(s) && Enabled(s, ALock(m))
    ensures Inv(Lock(s, m))
  {
    hide Inv, Hold, SetPriority, Park;
    match s.owners[m]
    case None => LockFree(s, m);
    case Some(o) => if o != Cur(s) { LockBusy(s, m, o); }
  }

  // ---------------------------------------------------------------- unlock

  /** The mutexes of `held` have good waiters, so the priority they lend is in range. */
  lemma {:induction false} InheritRange(s: State, held: seq<nat>, p: nat)
    requires Linked(s) && p < MAX_PRIORITIES
    requires forall m, x :: m in held && x in L(s, MutexKey(m)) ==> T(s, x).prio < MAX_PRIORITIES
    ensures p <= Inherit(s, held, p) < MAX_PRIORITIES
    decreases |held|
  {
    if held != [] {
      var l := L(s, MutexKey(held[0]));
      assert l != [] ==> l[0] in l && held[0] in held;
      InheritRange(s, held[1..], if l != [] && T(s, l[0]).prio > p then T(s, l[0]).prio else p);
    }
  }

  /** The control block of a task that has given up a mutex and not yet settled its priority. */
  ghost predicate Unsettled(c: Tcb) {
    && c.state == Running && c.wait == None && c.call == None
    && c.base <= c.prio < MAX_PRIORITIES && NoDup(c.held)
  }

  /** The middle of unlock(): all is well but for the caller's priority. */
  ghost predicate Settling(s: State, t: Tid) {
    && Linked(s) && TasksBut(s, {t}) && Rest(s) && Positive(s.delay) && Preemptive(s)
    && t in s.tasks && Unsettled(s.tasks[t]) && s.current == Some(t) && t !in Due(s.delay)
  }

  /** Without its last mutex a task is back at its base priority. */
  lemma SettledOk(s: State, t: Tid)
    requires Settling(s, t)
    ensures var p := Recompute(s, t); s.tasks[t].base <= p < MAX_PRIORITIES && TcbOk(s.tasks[t].(prio := p))
  {
    forall m, x | m in s.tasks[t].held && x in L(s, MutexKey(m)) ensures T(s, x).prio < MAX_PRIORITIES {
      assert Belongs(s, x, MutexKey(m));
      assert x != t ==> TaskOk(s, x, s.tasks[x]);
    }
    InheritRange(s, s.tasks[t].held, s.tasks[t].base);
  }

  lemma SettleTasks(s: State, t: Tid, p: nat)
    requires Settling(s, t) && TcbOk(s.tasks[t].(prio := p))
    ensures TasksOk(SetPriority(s, t, p))
  {
    var c := s.tasks[t].(prio := p);
    var s' := SetPriority(s, t, p);
    forall x | x in s.tasks && x != t ensures ReasonIn(s, s.tasks[x]) { assert TaskOk(s, x, s.tasks[x]); }
    assert s'.tasks == s.tasks[t := c];
    TasksChange(s, s', t, c, {});
  }

  lemma SettleInv(s: State, t: Tid)
    requires Settling(s, t)
    ensures Inv(Settle(s, t))
  {
    hide Linked, TasksBut, Rest, Positive, Put, Recompute, TcbOk;
    var p := Recompute(s, t);
    var s' := SetPriority(s, t, p);
    SettledOk(s, t);
    SettleTasks(s, t, p);
    PriorityRest(s, t, p);
    PriorityLinked(s, t, p);
    Irrelevant(s', s'.(yieldDue := true), {});
    LinkedFrame(s', s'.(yieldDue := true));
  }

  /** The caller has dropped `m` from its chain; the owner field still names it. */
  ghost predicate Dropped(s: State, m: nat, t: Tid) {
    && Linked(s) && TasksBut(s, {t}) && Positive(s.delay) && Preemptive(s)
    && Objects(s.sems, s.queues) && Present(s.tasks, s.current, s.idle, s.started) && Clock(s.tasks, s.delay, s.tick)
    && t in s.tasks && Unsettled(s.tasks[t]) && s.current == Some(t) && t !in Due(s.delay)
    && m in s.owners
    && (forall x: nat, y: Tid :: x != m ==> OwnAt(s.tasks, s.owners, x, y))
    && (forall y :: y in s.tasks ==> m !in s.tasks[y].held)
  }

  lemma DropOwn(s: State, m: nat, t: Tid)
    requires Own(s.tasks, s.owners) && t in s.tasks && Owner(s, m) == Some(t) && NoDup(s.tasks[t].held)
    ensures var s' := Edit(s, t, s.tasks[t].(held := Without(s.tasks[t].held, m)));
      && (forall x: nat, y: Tid :: x != m ==> OwnAt(s'.tasks, s'.owners, x, y))
      && (forall y :: y in s'.tasks ==> m !in s'.tasks[y].held)
  {
    var s' := Edit(s, t, s.tasks[t].(held := Without(s.tasks[t].held, m)));
    forall x: nat, y: Tid | x != m ensures OwnAt(s'.tasks, s'.owners, x, y) { assert OwnAt(s.tasks, s.owners, x, y); }
    forall y | y in s'.tasks ensures m !in s'.tasks[y].held { assert OwnAt(s.tasks, s.owners, m, y); }
  }

  lemma DropInv(s: State, m: nat)
    requires Inv(s) && TaskCalls(s) && Owner(s, m) == Some(Cur(s))
    ensures Dropped(Edit(s, Cur(s), T(s, Cur(s)).(held := Without(T(s, Cur(s)).held, m))), m, Cur(s))
  {
    var t := Cur(s);
    var c := s.tasks[t].(held := Without(s.tasks[t].held, m));
    assert TaskOk(s, t, s.tasks[t]);
    DropOwn(s, m, t);
    EditLinked(s, t, c);
    var s' := Edit(s, t, c);
    forall x | x in s'.tasks && x !in {t} ensures TaskOk(s', x, s'.tasks[x]) { assert TaskOk(s, x, s.tasks[x]); }
  }

  /** Nobody waits: the mutex becomes free. */
  lemma PassNobody(s: State, m: nat, t: Tid)
    requires Dropped(s, m, t) && L(s, MutexKey(m)) == []
    ensures Settling(PassOn(s, m), t)
  {
    var s' := s.(owners := s.owners[m := None]);
    forall x: nat, y: Tid ensures OwnAt(s'.tasks, s'.owners, x, y) {
      assert x != m ==> OwnAt(s.tasks, s.owners, x, y);
    }
    forall x | x in s.tasks && x !in {t} ensures ReasonIn(s', s.tasks[x]) {
      assert TaskOk(s, x, s.tasks[x]);
      assert x in L(s, MutexKey(m)) <==> Belongs(s, x, MutexKey(m));
    }
    TasksObjects(s, s', {t});
    LinkedFrame(s, s');
  }

  /** The waiter `n` becomes the owner; it is then out of order until it is woken. */
  lemma GrantTasks(s: State, m: nat, t: Tid, n: Tid)
    requires TasksBut(s, {t}) && m in s.owners && n in s.tasks
    ensures TasksBut(Hold(s, m, n), {t} + {n})
  {
    var s' := Hold(s, m, n);
    forall x | x in s'.tasks && x !in {t} + {n} ensures TaskOk(s', x, s'.tasks[x]) { assert TaskOk(s, x, s.tasks[x]); }
  }

  lemma GrantLinked(s: State, m: nat, n: Tid)
    requires Linked(s) && n in s.tasks
    ensures Linked(Hold(s, m, n))
  {
    var c := s.tasks[n].(held := [m] + s.tasks[n].held);
    EditLinked(s, n, c);
    LinkedFrame(Edit(s, n, c), Hold(s, m, n));
  }

  lemma GrantWoken(s: State, m: nat, t: Tid)
    requires Dropped(s, m, t) && L(s, MutexKey(m)) != []
    ensures var n := L(s, MutexKey(m))[0];
      && n in s.tasks && n != t && s.tasks[n].state == Blocked && s.tasks[n].wait == Some(MutexKey(m))
      && TcbOk(Woken(Hold(s, m, n).tasks[n], Handoff)) && Ticket(s.queues, Woken(Hold(s, m, n).tasks[n], Handoff))
  {
    Head(s, MutexKey(m));
    var n := L(s, MutexKey(m))[0];
    assert TaskOk(s, n, s.tasks[n]);
    hide Linked, TasksBut;
    var c, c' := s.tasks[n], Woken(Hold(s, m, n).tasks[n], Handoff);
    assert c'.held == [m] + c.held;
  }

  lemma GrantRest(s: State, m: nat, t: Tid, n: Tid)
    requires Dropped(s, m, t) && n in s.tasks && n != t && s.tasks[n].state == Blocked
    ensures Rest(Hold(s, m, n)) && Preemptive(Hold(s, m, n))
  {
    hide Linked, TasksBut, Positive;
    HoldOwn(s, m, n);
  }

  /** Ownership goes straight to the highest waiter. */
  lemma PassHead(s: State, m: nat, t: Tid)
    requires Dropped(s, m, t) && L(s, MutexKey(m)) != []
    ensures Settling(PassOn(s, m), t)
  {
    hide Wake, TasksBut, Linked, Rest, Positive, Preemptive, Clock, Objects, Present, TcbOk, Hold;
    var n := L(s, MutexKey(m))[0];
    var s1 := Hold(s, m, n);
    GrantWoken(s, m, t);
    GrantTasks(s, m, t, n);
    GrantLinked(s, m, n);
    GrantRest(s, m, t, n);
    WakeNotifyRest(s1, n, Handoff, {t});
    WakeLinked(s1, n, Handoff);
    WakePreemptive(s1, n, Handoff);
    GoodClock(s);
    WithoutDue(s.delay, n);
    WakePositive(s1, n, Handoff);
  }

  lemma GoodClock(s: State)
    requires Clock(s.tasks, s.delay, s.tick)
    ensures GoodDelay(s.delay)
  {
  }

  lemma UnlockInv(s: State, m: nat)
    requires Inv(s) && Enabled(s, AUnlock(m))
    ensures Inv(Unlock(s, m))
  {
    hide Inv, Settle, PassOn, Dropped, Settling;
    var t := Cur(s);
    if Owner(s, m) == Some(t) {
      var s0 := Edit(s, t, T(s, t).(held := Without(T(s, t).held, m)));
      DropInv(s, m);
      if L(s0, MutexKey(m)) == [] { PassNobody(s0, m, t); } else { PassHead(s0, m, t); }
      SettleInv(PassOn(s0, m), t);
    }
  }
}
