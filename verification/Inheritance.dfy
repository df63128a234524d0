/** Priority inheritance over runs: a task runs at the highest of its own priority and
    its waiters', exactly, from below or from above, according to how mutexes are used. */
module Inheritance {
  import opened Lists
  import opened Model
  import opened Structure
  import opened Invariant
  import opened Preservation
  import opened Mutexes
  import opened Evolution
  import opened Runs

  // ---------------------------------------------------------------- recompute_priority

  /** The head of a wait list has the highest priority in it. */
  lemma HeadIsHighest(s: State, k: Key, x: Tid)
    requires Ordered(s) && !k.ReadyKey? && x in L(s, k)
    ensures T(s, x).prio <= T(s, L(s, k)[0]).prio
  {
    var l := L(s, k);
    var i :| 0 <= i < |l| && l[i] == x;
    assert Descending(Prios(s.tasks, l));
    assert Prios(s.tasks, l)[0] >= Prios(s.tasks, l)[i];
  }

  /** No waiter of a mutex in `held` is above what recompute_priority computes. */
  lemma {:induction false} InheritCovers(s: State, held: seq<nat>, p: nat)
    requires Ordered(s)
    ensures p <= Inherit(s, held, p)
    ensures forall m, x :: m in held && x in L(s, MutexKey(m)) ==> T(s, x).prio <= Inherit(s, held, p)
    decreases |held|
  {
    hide Ordered;
    if held != [] {
      var l := L(s, MutexKey(held[0]));
      var q := if l != [] && T(s, l[0]).prio > p then T(s, l[0]).prio else p;
      InheritCovers(s, held[1..], q);
      forall m, x | m in held && x in L(s, MutexKey(m)) ensures T(s, x).prio <= Inherit(s, held, p) {
        if m == held[0] { HeadIsHighest(s, MutexKey(m), x); } else { assert m in held[1..]; }
      }
    }
  }

  /** What recompute_priority computes is the starting value or some waiter's priority. */
  lemma {:induction false} InheritAttained(s: State, held: seq<nat>, p: nat) returns (m: nat, x: Tid)
    ensures Inherit(s, held, p) == p || (m in held && x in L(s, MutexKey(m)) && T(s, x).prio == Inherit(s, held, p))
    decreases |held|
  {
    m, x := 0, 0;
    if held != [] {
      var l := L(s, MutexKey(held[0]));
      var q := if l != [] && T(s, l[0]).prio > p then T(s, l[0]).prio else p;
      m, x := InheritAttained(s, held[1..], q);
      if Inherit(s, held, p) == q && q != p { m, x := held[0], l[0]; }
    }
  }

  // ---------------------------------------------------------------- the two halves

  /** No owner runs below one of its waiters; if locks are not nested (`flat`), a waiter holds nothing. */
  ghost predicate NotBelow(tasks: map<Tid, Tcb>, owners: map<nat, Option<Tid>>, flat: bool) {
    forall w :: w in tasks && MutexWait(tasks[w]) ==> Lent(tasks, owners, tasks[w], flat)
  }

  ghost predicate Lent(tasks: map<Tid, Tcb>, owners: map<nat, Option<Tid>>, c: Tcb, flat: bool)
    requires MutexWait(c)
  {
    var m := c.wait.value.mutex;
    && (flat ==> c.held == [])
    && m in owners && owners[m].Some? && owners[m].value in tasks && c.prio <= tasks[owners[m].value].prio
  }

  /** A task above its own priority owes that to a waiter of a mutex it holds. */
  ghost predicate NotAbove(tasks: map<Tid, Tcb>) {
    forall t :: t in tasks ==> tasks[t].prio == tasks[t].base || exists w :: Lends(tasks, t, w)
  }

  ghost predicate Lends(tasks: map<Tid, Tcb>, t: Tid, w: Tid) {
    && t in tasks && w in tasks && MutexWait(tasks[w])
    && tasks[w].wait.value.mutex in tasks[t].held && tasks[t].prio <= tasks[w].prio
  }

  // ---------------------------------------------------------------- gentle actions

  lemma GentleBelow(s: State, s': State, keep: bool, flat: bool)
    requires NotBelow(s.tasks, s.owners, flat) && GentleStep(s, s', keep)
    ensures NotBelow(s'.tasks, s'.owners, flat)
  {
    forall w | w in s'.tasks && MutexWait(s'.tasks[w]) ensures Lent(s'.tasks, s'.owners, s'.tasks[w], flat) {
      assert w in s.tasks && Gentle(s.tasks[w], s'.tasks[w], keep);
      assert Lent(s.tasks, s.owners, s.tasks[w], flat);
    }
  }

  lemma GentleAbove(s: State, s': State)
    requires NotAbove(s.tasks) && GentleStep(s, s', true)
    ensures NotAbove(s'.tasks)
  {
    forall t | t in s'.tasks && s'.tasks[t].prio != s'.tasks[t].base ensures exists w :: Lends(s'.tasks, t, w) {
      assert t in s.tasks && Gentle(s.tasks[t], s'.tasks[t], true);
      var w :| Lends(s.tasks, t, w);
      assert Gentle(s.tasks[w], s'.tasks[w], true);
      assert Lends(s'.tasks, t, w);
    }
  }

  // ---------------------------------------------------------------- lock

  lemma FreeBelow(s: State, m: nat, flat: bool)
    requires Inv(s) && Enabled(s, ALock(m)) && Owner(s, m) == None && NotBelow(s.tasks, s.owners, flat)
    ensures NotBelow(Hold(s, m, Cur(s)).tasks, Hold(s, m, Cur(s)).owners, flat)
  {
    hide Inv, Hold;
    var s' := Hold(s, m, Cur(s));
    Available(s);
    Calling(s);
    forall w | w in s'.tasks && MutexWait(s'.tasks[w]) ensures Lent(s'.tasks, s'.owners, s'.tasks[w], flat) {
      assert Lent(s.tasks, s.owners, s.tasks[w], flat);
    }
  }

  lemma FreeAbove(s: State, m: nat)
    requires Inv(s) && Enabled(s, ALock(m)) && NotAbove(s.tasks)
    ensures NotAbove(Hold(s, m, Cur(s)).tasks)
  {
    hide Inv, Hold;
    var s' := Hold(s, m, Cur(s));
    forall t | t in s'.tasks && s'.tasks[t].prio != s'.tasks[t].base ensures exists w :: Lends(s'.tasks, t, w) {
      var w :| Lends(s.tasks, t, w);
      assert Lends(s'.tasks, t, w);
    }
  }

  /** The tasks after a lock() that blocks: the owner `o` raised to the caller if need be. */
  lemma BusyEffect(s: State, m: nat, o: Tid)
    requires Inv(s) && Enabled(s, ALock(m)) && Owner(s, m) == Some(o) && o != Cur(s)
    ensures o in s.tasks && m in s.tasks[o].held
    ensures Lock(s, m).owners == s.owners
    ensures var p := if T(s, Cur(s)).prio > T(s, o).prio then T(s, Cur(s)).prio else T(s, o).prio;
      Lock(s, m).tasks == s.tasks[o := T(s, o).(prio := p)][Cur(s) := Parked(T(s, Cur(s)), MutexKey(m))]
  {
    hide Inv, Park, SetPriority;
    LockFacts(s, m, o);
    assert s.tasks == s.tasks[o := s.tasks[o].(prio := s.tasks[o].prio)];
  }

  /** The caller of lock() lifts an owner that itself waits, above the owner it waits for. */
  ghost predicate Chains(s: State, m: nat) {
    var o, p := Owner(s, m), T(s, Cur(s)).prio;
    && o.Some? && o != s.current && p > T(s, o.value).prio && MutexWait(T(s, o.value))
    && var o2 := Owner(s, T(s, o.value).wait.value.mutex);
    o2.Some? && p > T(s, o2.value).prio
  }

  /** Inheritance is not transitive: blocking in lock() keeps owners above their waiters
      exactly when it does not lift a waiter over the next owner. */
  lemma BusyBelow(s: State, m: nat, o: Tid, flat: bool)
    requires Inv(s) && Enabled(s, ALock(m)) && Owner(s, m) == Some(o) && o != Cur(s)
    requires NotBelow(s.tasks, s.owners, flat) && (flat ==> s.tasks[Cur(s)].held == [])
    ensures NotBelow(Lock(s, m).tasks, Lock(s, m).owners, flat) <==> !Chains(s, m)
  {
    hide Inv, Lock;
    var s' := Lock(s, m);
    BusyEffect(s, m, o);
    Calling(s);
    NotOwnWaiter(s, o);
    if Chains(s, m) {
      assert !Lent(s'.tasks, s'.owners, s'.tasks[o], flat);
    } else {
      forall w | w in s'.tasks && MutexWait(s'.tasks[w]) ensures Lent(s'.tasks, s'.owners, s'.tasks[w], flat) {
        if w != Cur(s) { assert Lent(s.tasks, s.owners, s.tasks[w], flat); }
      }
    }
  }

  lemma NotOwnWaiter(s: State, o: Tid)
    requires Inv(s) && o in s.tasks
    ensures MutexWait(s.tasks[o]) ==> Owner(s, s.tasks[o].wait.value.mutex) != Some(o)
  {
    hide Linked, Positive, Preemptive;
    assert TaskOk(s, o, s.tasks[o]);
    if MutexWait(s.tasks[o]) { assert OwnAt(s.tasks, s.owners, s.tasks[o].wait.value.mutex, o); }
  }

  /** Without nesting an owner never waits, so there is no chain. */
  lemma FlatNoChain(s: State, m: nat)
    requires Inv(s) && Enabled(s, ALock(m)) && NotBelow(s.tasks, s.owners, true)
    ensures !Chains(s, m)
  {
    hide Inv;
    if Owner(s, m).Some? && Owner(s, m) != s.current {
      var o := Owner(s, m).value;
      LockFacts(s, m, o);
      assert MutexWait(s.tasks[o]) ==> Lent(s.tasks, s.owners, s.tasks[o], true);
    }
  }

  lemma BusyAbove(s: State, m: nat, o: Tid)
    requires Inv(s) && Enabled(s, ALock(m)) && Owner(s, m) == Some(o) && o != Cur(s)
    requires NotAbove(s.tasks)
    ensures NotAbove(Lock(s, m).tasks)
  {
    hide Inv, Lock;
    var s' := Lock(s, m);
    BusyEffect(s, m, o);
    Calling(s);
    forall t | t in s'.tasks && s'.tasks[t].prio != s'.tasks[t].base ensures exists w :: Lends(s'.tasks, t, w) {
      if t == o && s.tasks[Cur(s)].prio > s.tasks[o].prio {
        assert Lends(s'.tasks, t, Cur(s));
      } else {
        var w :| Lends(s.tasks, t, w);
        assert Lends(s'.tasks, t, w);
      }
    }
  }

  // ---------------------------------------------------------------- unlock

  /** Who waits for a mutex is in its wait list. */
  lemma InList(s: State, w: Tid)
    requires Linked(s) && w in s.tasks && MutexWait(s.tasks[w]) && s.tasks[w].state == Blocked
    ensures w in L(s, MutexKey(s.tasks[w].wait.value.mutex))
  {
    assert Belongs(s, w, MutexKey(s.tasks[w].wait.value.mutex));
  }

  lemma SettleBelow(s: State, t: Tid, flat: bool)
    requires Settling(s, t) && NotBelowBut(s.tasks, s.owners, t, flat) && Own(s.tasks, s.owners)
    ensures NotBelow(Settle(s, t).tasks, Settle(s, t).owners, flat)
  {
    hide SetPriority, Rest, Positive, Preemptive;
    var s', p := Settle(s, t), Recompute(s, t);
    assert s'.tasks == s.tasks[t := s.tasks[t].(prio := p)];
    InheritCovers(s, s.tasks[t].held, s.tasks[t].base);
    forall w | w in s'.tasks && MutexWait(s'.tasks[w]) ensures Lent(s'.tasks, s'.owners, s'.tasks[w], flat) {
      assert w != t;
      assert TaskOk(s, w, s.tasks[w]) && LentBut(s.tasks, s.owners, s.tasks[w], t, flat);
      InList(s, w);
      var m := s.tasks[w].wait.value.mutex;
      assert OwnAt(s.tasks, s.owners, m, t);
      if s.owners[m] == Some(t) { assert T(s, w).prio <= Inherit(s, s.tasks[t].held, s.tasks[t].base); }
    }
  }

  /** NotBelow, the owner `t` perhaps excepted. */
  ghost predicate NotBelowBut(tasks: map<Tid, Tcb>, owners: map<nat, Option<Tid>>, t: Tid, flat: bool) {
    forall w :: w in tasks && MutexWait(tasks[w]) ==> LentBut(tasks, owners, tasks[w], t, flat)
  }

  ghost predicate LentBut(tasks: map<Tid, Tcb>, owners: map<nat, Option<Tid>>, c: Tcb, t: Tid, flat: bool)
    requires MutexWait(c)
  {
    var m := c.wait.value.mutex;
    && (flat ==> c.held == [])
    && m in owners && owners[m].Some? && owners[m].value in tasks
    && (owners[m] == Some(t) || c.prio <= tasks[owners[m].value].prio)
  }

  /** NotAbove, the task `t` perhaps excepted. */
  ghost predicate NotAboveBut(tasks: map<Tid, Tcb>, t: Tid) {
    forall x :: x in tasks && x != t ==> tasks[x].prio == tasks[x].base || exists w :: Lends(tasks, x, w)
  }

  lemma SettleAbove(s: State, t: Tid)
    requires Settling(s, t) && NotAboveBut(s.tasks, t)
    ensures NotAbove(Settle(s, t).tasks)
  {
    hide SetPriority, Rest, Positive, Preemptive, TasksBut;
    var s', p := Settle(s, t), Recompute(s, t);
    assert s'.tasks == s.tasks[t := s.tasks[t].(prio := p)];
    var m, x := InheritAttained(s, s.tasks[t].held, s.tasks[t].base);
    forall y | y in s'.tasks && s'.tasks[y].prio != s'.tasks[y].base ensures exists w :: Lends(s'.tasks, y, w) {
      if y == t {
        assert Belongs(s, x, MutexKey(m));
        assert Lends(s'.tasks, t, x);
      } else {
        var w :| Lends(s.tasks, y, w);
        assert Lends(s'.tasks, y, w);
      }
    }
  }

  /** The new owner outranks those who go on waiting. */
  lemma PassBelow(s: State, m: nat, t: Tid, flat: bool)
    requires Dropped(s, m, t) && NotBelowBut(s.tasks, s.owners, t, flat) && Owner(s, m) == Some(t)
    ensures NotBelowBut(PassOn(s, m).tasks, PassOn(s, m).owners, t, flat)
  {
    hide Hold, Wake, Objects, Present, Clock, Positive, Preemptive, Placed, Distinct, Ordered, Ticket, Sited;
    var s', l := PassOn(s, m), L(s, MutexKey(m));
    if l != [] {
      GrantWoken(s, m, t);
      assert s'.tasks == s.tasks[l[0] := Woken(s.tasks[l[0]].(held := [m] + s.tasks[l[0]].held), Handoff)];
    }
    forall w | w in s'.tasks && MutexWait(s'.tasks[w]) ensures LentBut(s'.tasks, s'.owners, s'.tasks[w], t, flat) {
      assert w in s.tasks && s.tasks[w] == s'.tasks[w] && LentBut(s.tasks, s.owners, s.tasks[w], t, flat);
      assert w != t && TaskOk(s, w, s.tasks[w]);
      InList(s, w);
      if s.tasks[w].wait == Some(MutexKey(m)) { HeadIsHighest(s, MutexKey(m), w); }
    }
  }

  /** No task but the caller owed its priority to the waiter that leaves. */
  lemma PassAbove(s: State, m: nat, t: Tid)
    requires Dropped(s, m, t) && NotAboveBut(s.tasks, t)
    ensures NotAboveBut(PassOn(s, m).tasks, t)
  {
    hide Hold, Wake, Objects, Present, Clock, Positive, Preemptive, TasksBut, Linked;
    var s', l := PassOn(s, m), L(s, MutexKey(m));
    if l != [] {
      GrantWoken(s, m, t);
      assert s'.tasks == s.tasks[l[0] := Woken(s.tasks[l[0]].(held := [m] + s.tasks[l[0]].held), Handoff)];
    }
    forall x | x in s'.tasks && x != t && s'.tasks[x].prio != s'.tasks[x].base ensures exists w :: Lends(s'.tasks, x, w) {
      var w :| Lends(s.tasks, x, w);
      assert Lends(s'.tasks, x, w);
    }
  }

  /** The caller lets go of `m`: only what it owes itself is affected. */
  lemma DropBoth(s: State, m: nat, flat: bool)
    requires Inv(s) && Enabled(s, AUnlock(m)) && Owner(s, m) == Some(Cur(s))
    ensures var s' := Edit(s, Cur(s), T(s, Cur(s)).(held := Without(T(s, Cur(s)).held, m)));
      && (NotBelow(s.tasks, s.owners, flat) ==> NotBelowBut(s'.tasks, s'.owners, Cur(s), flat))
      && (NotAbove(s.tasks) ==> NotAboveBut(s'.tasks, Cur(s)))
  {
    hide Inv;
    var t := Cur(s);
    var s' := Edit(s, t, T(s, t).(held := Without(T(s, t).held, m)));
    Calling(s);
    if NotBelow(s.tasks, s.owners, flat) {
      forall w | w in s'.tasks && MutexWait(s'.tasks[w]) ensures LentBut(s'.tasks, s'.owners, s'.tasks[w], t, flat) {
        assert Lent(s.tasks, s.owners, s.tasks[w], flat);
      }
    }
    if NotAbove(s.tasks) {
      forall x | x in s'.tasks && x != t && s'.tasks[x].prio != s'.tasks[x].base ensures exists w :: Lends(s'.tasks, x, w) {
        var w :| Lends(s.tasks, x, w);
        assert Lends(s'.tasks, x, w);
      }
    }
  }

  lemma UnlockBoth(s: State, m: nat, flat: bool)
    requires Inv(s) && Enabled(s, AUnlock(m))
    ensures NotBelow(s.tasks, s.owners, flat) ==> NotBelow(Unlock(s, m).tasks, Unlock(s, m).owners, flat)
    ensures NotAbove(s.tasks) ==> NotAbove(Unlock(s, m).tasks)
  {
    hide Inv, PassOn, Settle, Dropped, NotBelow, NotAbove, NotBelowBut, NotAboveBut, Linked, TasksBut, Objects, Present, Clock;
    var t := Cur(s);
    if Owner(s, m) == Some(t) {
      var s0 := Edit(s, t, T(s, t).(held := Without(T(s, t).held, m)));
      DropInv(s, m);
      DropBoth(s, m, flat);
      if L(s0, MutexKey(m)) == [] { PassNobody(s0, m, t); } else { PassHead(s0, m, t); }
      if NotBelow(s.tasks, s.owners, flat) { PassBelow(s0, m, t, flat); SettleBelow(PassOn(s0, m), t, flat); }
      if NotAbove(s.tasks) { PassAbove(s0, m, t); SettleAbove(PassOn(s0, m), t); }
    }
  }

  // ---------------------------------------------------------------- runs

  /** No task that holds a mutex blocks in lock(). */
  ghost predicate NestFree(s: State, a: Action) {
    a.ALock? ==> Owner(s, a.m) == None || Owner(s, a.m) == s.current || T(s, Cur(s)).held == []
  }

  lemma LockBoth(s: State, m: nat, flat: bool)
    requires Inv(s) && Enabled(s, ALock(m))
    ensures NotBelow(s.tasks, s.owners, flat) && (flat ==> NestFree(s, ALock(m))) ==>
      (NotBelow(Lock(s, m).tasks, Lock(s, m).owners, flat) <==> !Chains(s, m))
    ensures NotAbove(s.tasks) ==> NotAbove(Lock(s, m).tasks)
  {
    hide Inv, NotBelow, NotAbove, Park, Hold, SetPriority;
    match s.owners[m]
    case None =>
      if NotBelow(s.tasks, s.owners, flat) { FreeBelow(s, m, flat); }
      if NotAbove(s.tasks) { FreeAbove(s, m); }
    case Some(o) =>
      if o != Cur(s) {
        if NotBelow(s.tasks, s.owners, flat) && (flat ==> NestFree(s, ALock(m))) { BusyBelow(s, m, o, flat); }
        if NotAbove(s.tasks) { BusyAbove(s, m, o); }
      }
  }

  lemma ReturnBoth(s: State, flat: bool)
    requires Inv(s) && Enabled(s, AReturn)
    ensures GentleStep(s, Return(s).(tasks := s.tasks), true)
    ensures NotBelow(s.tasks, s.owners, flat) ==> NotBelow(Return(s).tasks, Return(s).owners, flat)
    ensures NotAbove(s.tasks) ==> NotAbove(Return(s).tasks)
  {
    hide Inv;
    var s' := Return(s);
    if NotBelow(s.tasks, s.owners, flat) {
      forall w | w in s'.tasks && MutexWait(s'.tasks[w]) ensures Lent(s'.tasks, s'.owners, s'.tasks[w], flat) {
        assert Lent(s.tasks, s.owners, s.tasks[w], flat);
      }
    }
    if NotAbove(s.tasks) {
      forall t | t in s'.tasks && s'.tasks[t].prio != s'.tasks[t].base ensures exists w :: Lends(s'.tasks, t, w) {
        var w :| Lends(s.tasks, t, w);
        assert Lends(s'.tasks, t, w);
      }
    }
  }

  /** One step of either half of the inheritance invariant. */
  lemma StepBoth(s: State, a: Action)
    requires Inv(s) && Enabled(s, a)
    ensures NotBelow(s.tasks, s.owners, true) && NestFree(s, a) ==> NotBelow(Step(s, a).tasks, Step(s, a).owners, true)
    ensures NotAbove(s.tasks) && !Cancels(s, a) ==> NotAbove(Step(s, a).tasks)
  {
    hide Inv, NotBelow, NotAbove, NestFree, GentleStep, Lock, Unlock, Chains;
    if a.ALock? {
      LockBoth(s, a.m, true);
      if NotBelow(s.tasks, s.owners, true) { FlatNoChain(s, a.m); }
    } else if a.AUnlock? {
      UnlockBoth(s, a.m, true);
    } else if a.AReturn? {
      ReturnBoth(s, true);
    } else {
      StepGentle(s, a);
      if NotBelow(s.tasks, s.owners, true) { GentleBelow(s, Step(s, a), !Cancels(s, a), true); }
      if NotAbove(s.tasks) && !Cancels(s, a) { GentleAbove(s, Step(s, a)); }
    }
  }

  /** Along the whole run no holder of a mutex blocks in lock() (`nest`), no waiter of a
      mutex is suspended or deleted (`cancel`), as far as these are asked for. */
  ghost predicate Disciplined(s: State, acts: seq<Action>, nest: bool, cancel: bool)
    decreases |acts|
  {
    acts == [] ||
    (&& (nest ==> NestFree(s, acts[0])) && (cancel ==> !Cancels(s, acts[0]))
     && Disciplined(Step(s, acts[0]), acts[1..], nest, cancel))
  }

  ghost predicate ReachableUnder(s: State, nest: bool, cancel: bool) {
    exists s0, acts :: Init(s0) && Run(s0, acts) && Disciplined(s0, acts, nest, cancel) && s == Exec(s0, acts)
  }

  lemma {:induction false} RunBoth(s: State, acts: seq<Action>, nest: bool, cancel: bool)
    requires Inv(s) && Run(s, acts) && Disciplined(s, acts, nest, cancel)
    requires nest ==> NotBelow(s.tasks, s.owners, true)
    requires cancel ==> NotAbove(s.tasks)
    ensures var s' := Exec(s, acts); Inv(s') && (nest ==> NotBelow(s'.tasks, s'.owners, true)) && (cancel ==> NotAbove(s'.tasks))
    decreases |acts|
  {
    hide Inv, Step, NotBelow, NotAbove, NestFree, Cancels, Enabled;
    if acts != [] {
      StepInv(s, acts[0]);
      StepBoth(s, acts[0]);
      RunBoth(Step(s, acts[0]), acts[1..], nest, cancel);
    }
  }

  lemma ReachableBoth(s: State, nest: bool, cancel: bool)
    requires ReachableUnder(s, nest, cancel)
    ensures Inv(s) && (nest ==> NotBelow(s.tasks, s.owners, true)) && (cancel ==> NotAbove(s.tasks))
  {
    hide Inv;
    var s0, acts :| Init(s0) && Run(s0, acts) && Disciplined(s0, acts, nest, cancel) && s == Exec(s0, acts);
    InitInv(s0);
    RunBoth(s0, acts, nest, cancel);
  }

  // ---------------------------------------------------------------- the results

  /** With nested locking but no cancelled mutex wait, priorities stay between the base
      and what recompute_priority would give. */
  lemma NestedBounds(s: State, t: Tid)
    requires ReachableUnder(s, false, true) && t in s.tasks
    ensures s.tasks[t].base <= s.tasks[t].prio <= Recompute(s, t)
  {
    ReachableBoth(s, false, true);
    BoundFromAbove(s, t);
  }

  lemma BoundFromAbove(s: State, t: Tid)
    requires Inv(s) && NotAbove(s.tasks) && t in s.tasks
    ensures s.tasks[t].base <= s.tasks[t].prio <= Recompute(s, t)
  {
    hide Rest, Positive, Preemptive;
    assert TaskOk(s, t, s.tasks[t]);
    InheritCovers(s, s.tasks[t].held, s.tasks[t].base);
    if s.tasks[t].prio != s.tasks[t].base {
      var w :| Lends(s.tasks, t, w);
      assert TaskOk(s, w, s.tasks[w]);
      InList(s, w);
      assert T(s, w).prio <= Inherit(s, s.tasks[t].held, s.tasks[t].base);
    }
  }

  /** Without nesting, even if waiters are suspended or deleted, no owner runs below its
      base or below a waiter of any mutex it holds. */
  lemma FlatLowerBound(s: State, t: Tid)
    requires ReachableUnder(s, true, false) && t in s.tasks
    ensures Recompute(s, t) <= s.tasks[t].prio
    ensures forall m, w :: m in s.tasks[t].held && w in L(s, MutexKey(m)) ==> T(s, w).prio <= s.tasks[t].prio
  {
    ReachableBoth(s, true, false);
    BoundFromBelow(s, t, true);
  }

  lemma BoundFromBelow(s: State, t: Tid, flat: bool)
    requires Inv(s) && NotBelow(s.tasks, s.owners, flat) && t in s.tasks
    ensures Recompute(s, t) <= s.tasks[t].prio
    ensures forall m, w :: m in s.tasks[t].held && w in L(s, MutexKey(m)) ==> T(s, w).prio <= s.tasks[t].prio
  {
    hide Positive, Preemptive, Reason, Sited;
    assert TaskOk(s, t, s.tasks[t]);
    forall m, w | m in s.tasks[t].held && w in L(s, MutexKey(m)) ensures T(s, w).prio <= s.tasks[t].prio {
      assert Belongs(s, w, MutexKey(m));
      assert Lent(s.tasks, s.owners, s.tasks[w], flat);
      assert OwnAt(s.tasks, s.owners, m, t);
    }
    var m, x := InheritAttained(s, s.tasks[t].held, s.tasks[t].base);
  }

  /** With neither nesting nor cancelled waits every task runs at exactly the highest of
      its base and its waiters. */
  lemma FlatExact(s: State, t: Tid)
    requires ReachableUnder(s, true, true) && t in s.tasks
    ensures s.tasks[t].prio == Recompute(s, t)
  {
    ReachableBoth(s, true, true);
    BoundFromAbove(s, t);
    BoundFromBelow(s, t, true);
  }

  predicate CanRun(c: Tcb) {
    c.state == Ready || c.state == Running
  }

  /** No unbounded inversion: while the owner `o` of a mutex can run, nobody below its
      waiter `h` keeps the CPU. (That some task runs then is Properties.NoMissedPreemption.) */
  lemma NoInversion(s: State, h: Tid, m: nat, o: Tid)
    requires ReachableUnder(s, true, false) && s.started && !s.yieldDue
    requires T(s, h).wait == Some(MutexKey(m)) && Owner(s, m) == Some(o) && CanRun(T(s, o))
    ensures T(s, h).prio <= T(s, Cur(s)).prio
  {
    ReachableBoth(s, true, false);
    hide Linked, Rest, Positive;
    assert Lent(s.tasks, s.owners, s.tasks[h], true);
    assert TaskOk(s, o, s.tasks[o]);
  }
}
