/** What users of the kernel rely on, in every reachable state and along every run. */
module Properties {
  import opened Lists
  import opened Model
  import opened Structure
  import opened Delays
  import opened Invariant
  import opened Preservation
  import opened EventScan
  import opened EventBits
  import opened Mutexes
  import opened Scheduling
  import opened Evolution
  import opened Runs

  // ---------------------------------------------------------------- where tasks are

  /** How often `t` is linked into list `k`. */
  ghost function Links(s: State, t: Tid, k: Key): nat {
    multiset(L(s, k))[t]
  }

  ghost predicate OnlyIn(s: State, t: Tid, k: Key) {
    forall j :: Links(s, t, j) == if j == k then 1 else 0
  }

  ghost predicate Nowhere(s: State, t: Tid) {
    forall j :: Links(s, t, j) == 0
  }

  /** Each state of a task says exactly which lists it is linked into, and how often. */
  ghost predicate Located(s: State, t: Tid) {
    var c, sleeps := T(s, t), t in Due(s.delay);
    match c.state
    case Ready => OnlyIn(s, t, ReadyKey(c.prio)) && !sleeps && c.wait == None
    case Running => s.current == Some(t) && Nowhere(s, t) && !sleeps && c.wait == None
    case Blocked => if c.wait.Some? then OnlyIn(s, t, c.wait.value) && !c.wait.value.ReadyKey? else Nowhere(s, t) && sleeps
    case Suspended => Nowhere(s, t) && !sleeps && c.wait == None
    case Deleted => Nowhere(s, t) && !sleeps && c.wait == None
  }

  lemma {:induction false} CountNoDup(l: seq<Tid>, t: Tid)
    requires NoDup(l)
    ensures multiset(l)[t] == if t in l then 1 else 0
  {
    if l != [] {
      assert l == [l[0]] + l[1..];
      CountNoDup(l[1..], t);
    }
  }

  lemma LinksAre(s: State, t: Tid, k: Key)
    requires Linked(s)
    ensures Links(s, t, k) == if t in s.tasks && Where(s.tasks[t]) == Some(k) then 1 else 0
  {
    CountNoDup(L(s, k), t);
    assert t in L(s, k) <==> Belongs(s, t, k);
  }

  /** Between critical sections each task is exactly where its state says, under every
      interleaving, so list links never clash. (Inside them, that nothing is added twice and
      only members are removed are preconditions of the list operations of `Kernel`.) */
  lemma TasksLocated(s: State, t: Tid)
    requires Reachable(s) && t in s.tasks
    ensures Located(s, t)
  {
    hide Rest, Positive, Preemptive, Reason, Ticket;
    ReachableInv(s);
    assert TaskOk(s, t, s.tasks[t]);
    forall k ensures Links(s, t, k) == if Where(s.tasks[t]) == Some(k) then 1 else 0 { LinksAre(s, t, k); }
  }

  /** Every wait list is in non-increasing order of current priority, so its head is a
      true maximum although inheritance changes priorities of parked tasks. */
  lemma WaitListsOrdered(s: State, k: Key)
    requires Reachable(s) && !k.ReadyKey?
    ensures forall i, j :: 0 <= i < j < |L(s, k)| ==> T(s, L(s, k)[i]).prio >= T(s, L(s, k)[j]).prio
  {
    ReachableInv(s);
    var l := L(s, k);
    var ps := Prios(s.tasks, l);
    assert Descending(ps);
    forall i, j | 0 <= i < j < |l| ensures T(s, l[i]).prio >= T(s, l[j]).prio { assert ps[i] >= ps[j]; }
  }

  // ---------------------------------------------------------------- preemption

  /** No missed preemption: after start a yield is due or the running task has at least
      the priority of every ready one. */
  lemma NoMissedPreemption(s: State)
    requires Reachable(s) && s.started && !s.yieldDue
    ensures s.current.Some? && T(s, Cur(s)).state == Running
    ensures forall t :: t in s.tasks && s.tasks[t].state == Ready ==> s.tasks[t].prio <= T(s, Cur(s)).prio
  {
    hide Linked, Rest, Positive;
    ReachableInv(s);
  }

  /** A switch after start always finds a task: the idle task never blocks. */
  lemma SwitchFindsTask(s: State)
    requires Reachable(s) && s.started
    ensures TopReady(Vacate(s), MAX_PRIORITIES).Some?
  {
    hide Linked, TasksBut, Positive, Vacate, Own, Objects, Clock;
    ReachableInv(s);
    VacateVacant(s);
    TopIsHighest(Vacate(s));
    assert Vacate(s).tasks[Vacate(s).idle.value].state == Ready;
  }

  /** The task it picks outranks every task left ready. */
  lemma SwitchPicksHighest(s: State, t: Tid)
    requires Reachable(s) && s.started && t in Switch(s).tasks && Switch(s).tasks[t].state == Ready
    ensures Switch(s).tasks[t].prio <= T(Switch(s), Cur(Switch(s))).prio
  {
    hide Linked, TasksBut, Positive, Switch, Own, Objects, Clock;
    ReachableInv(s);
    SwitchInv(s);
    SwitchClears(s);
  }

  lemma SwitchClears(s: State)
    ensures !Switch(s).yieldDue && Switch(s).started == s.started
  {
    hide Put, TopReady, T;
  }

  // ---------------------------------------------------------------- blocking calls

  /** What a blocking take, lock, send or receive answers when it resumes after parking. */
  predicate Answer(s: State) {
    !T(s, Cur(s)).expired
  }

  /** The call answers true exactly when it ended by a handoff. Then a lock() owns its
      mutex, a send() has its item in the queue's log, a receive() has a delivered item,
      and a wait_bits() has bits that met its condition. */
  lemma CallAnswers(s: State)
    requires Reachable(s) && Enabled(s, AReturn)
    ensures var c := T(s, Cur(s));
      && c.cause.Some? && (Answer(s) <==> c.cause == Some(Handoff))
      && (Answer(s) ==> match c.call.value
          case MutexKey(m) => Owner(s, m) == Some(Cur(s))
          case RecvKey(q) => At(TheQueue(s, q).delivered, c.ticket, c.item)
          case SendKey(q) => At(TheQueue(s, q).accepted, c.ticket, c.item)
          case EventKey(e) => Met(c.bits, c.mask, c.all)
          case _ => true)
  {
    hide Linked, Positive, Preemptive, Reason, Objects, Clock, Satisfies, Met;
    ReachableInv(s);
    var t := Cur(s);
    MetBits(T(s, t).bits, T(s, t).mask, T(s, t).all);
    assert TaskOk(s, t, s.tasks[t]);
    if T(s, t).call.value.MutexKey? { assert OwnAt(s.tasks, s.owners, T(s, t).call.value.mutex, t); }
  }

  /** Once the wait of a call has ended, no action but its own return changes the answer:
      not even being suspended and resumed before the flag is read. */
  lemma {:induction false} AnswerStands(s: State, acts: seq<Action>, t: Tid)
    requires Inv(s) && Run(s, acts) && t in s.tasks && s.tasks[t].call.Some? && s.tasks[t].wait == None
    requires NoReturn(s, acts, t)
    ensures var c, c' := s.tasks[t], T(Exec(s, acts), t);
      c'.call == c.call && c'.cause == c.cause && c'.expired == c.expired && c'.item == c.item && c'.bits == c.bits
    decreases |acts|
  {
    hide Inv, Step, Enabled;
    if acts != [] {
      StepInv(s, acts[0]);
      StepLater(s, acts[0], t);
      AnswerStands(Step(s, acts[0]), acts[1..], t);
    }
  }

  /** Deleted is terminal. */
  lemma {:induction false} DeletedForGood(s: State, acts: seq<Action>, t: Tid)
    requires Inv(s) && Run(s, acts) && t in s.tasks && s.tasks[t].state == Deleted
    ensures T(Exec(s, acts), t).state == Deleted
    decreases |acts|
  {
    hide Inv, Step, Enabled;
    if acts != [] {
      StepInv(s, acts[0]);
      if acts[0] == AReturn && s.current == Some(t) { ReturnRuns(s); }
      else { StepLater(s, acts[0], t); }
      DeletedForGood(Step(s, acts[0]), acts[1..], t);
    }
  }

  lemma ReturnRuns(s: State)
    requires Enabled(s, AReturn)
    ensures T(s, Cur(s)).state == Running
  {
  }

  // ---------------------------------------------------------------- mutexes

  /** `t` owns `m` exactly when `m` occurs once in its chain, and never twice; so chains are disjoint. */
  lemma HeldIffOwned(s: State, m: nat, t: Tid)
    requires Reachable(s)
    ensures multiset(T(s, t).held)[m] == if Owner(s, m) == Some(t) then 1 else 0
  {
    hide Linked, Positive, Preemptive, Objects, Present, Clock, Sited, Ticket;
    ReachableInv(s);
    assert OwnAt(s.tasks, s.owners, m, t);
    if t in s.tasks {
      assert TaskOk(s, t, s.tasks[t]);
      CountNoDup(s.tasks[t].held, m);
    }
  }

  /** A free mutex has no waiters. */
  lemma FreeUnwaited(s: State, m: nat)
    requires Reachable(s) && L(s, MutexKey(m)) != []
    ensures Owner(s, m).Some?
  {
    hide Positive, Preemptive, Objects, Present, Clock, Sited, Ticket;
    ReachableInv(s);
    Head(s, MutexKey(m));
    assert TaskOk(s, L(s, MutexKey(m))[0], s.tasks[L(s, MutexKey(m))[0]]);
  }

  /** Nobody waits for a mutex it owns. */
  lemma NoSelfWait(s: State, m: nat, t: Tid)
    requires Reachable(s) && Owner(s, m) == Some(t)
    ensures T(s, t).wait != Some(MutexKey(m))
  {
    hide Linked, Positive, Preemptive, Objects, Present, Clock, Sited, Ticket;
    ReachableInv(s);
    assert OwnAt(s.tasks, s.owners, m, t);
    assert TaskOk(s, t, s.tasks[t]);
  }

  /** A task that holds no mutex runs at exactly its base priority, nesting, suspends and
      deletes allowed. */
  lemma BoostNeverLeaks(s: State, t: Tid)
    requires Reachable(s) && t in s.tasks
    ensures s.tasks[t].base <= s.tasks[t].prio
    ensures s.tasks[t].held == [] ==> s.tasks[t].prio == s.tasks[t].base
  {
    ReachableInv(s);
    assert TaskOk(s, t, s.tasks[t]);
  }

  /** Nobody but the owner itself, by unlock(), takes a mutex from its owner. */
  lemma OwnerUntilUnlock(s: State, a: Action, m: nat, t: Tid)
    requires Inv(s) && Enabled(s, a) && Owner(s, m) == Some(t)
    ensures Owner(Step(s, a), m) == Some(t) || (a == AUnlock(m) && s.current == Some(t))
  {
    hide Inv, GentleStep, Gentle, Newborn;
    if a.ALock? {
      LockOwner(s, a.m, m);
    } else if a.AUnlock? {
      if Owner(Unlock(s, a.m), m) != Some(t) { UnlockOwner(s, a.m, m); }
    } else if !a.AReturn? {
      StepGentle(s, a);
      SameOwners(s, Step(s, a), !Cancels(s, a));
    }
  }

  lemma SameOwners(s: State, s': State, keep: bool)
    requires GentleStep(s, s', keep)
    ensures s'.owners == s.owners
  {
  }

  lemma LockOwner(s: State, m: nat, x: nat)
    requires Inv(s) && Enabled(s, ALock(m)) && Owner(s, x).Some?
    ensures Owner(Lock(s, m), x) == Owner(s, x)
  {
    hide Inv, Park, SetPriority, Hold;
    if Owner(s, m).Some? && Owner(s, m) != Some(Cur(s)) { LockFacts(s, m, Owner(s, m).value); }
  }

  lemma UnlockOwner(s: State, m: nat, x: nat)
    requires Inv(s) && Enabled(s, AUnlock(m)) && Owner(Unlock(s, m), x) != Owner(s, x)
    ensures x == m && Owner(s, m) == s.current
  {
    hide Inv, PassOn, Settle;
    if Owner(s, m) == s.current {
      var s0 := Edit(s, Cur(s), T(s, Cur(s)).(held := Without(T(s, Cur(s)).held, m)));
      PassOwners(s0, m);
      PassTasks(s0, m);
      SettleOwners(PassOn(s0, m), Cur(s));
      assert Unlock(s, m) == Settle(PassOn(s0, m), Cur(s));
      assert Owner(PassOn(s0, m), x) == Owner(Unlock(s, m), x);
      assert x != m ==> Owner(PassOn(s0, m), x) == Owner(s0, x);
    }
  }

  /** An unlock() by the owner gives the mutex to the first waiter, or frees it. */
  lemma UnlockPasses(s: State, m: nat)
    requires Inv(s) && Enabled(s, AUnlock(m)) && Owner(s, m) == s.current
    ensures Owner(Unlock(s, m), m) == if L(s, MutexKey(m)) == [] then None else Some(L(s, MutexKey(m))[0])
  {
    hide Inv, PassOn, Settle;
    var s0 := Edit(s, Cur(s), T(s, Cur(s)).(held := Without(T(s, Cur(s)).held, m)));
    PassOwners(s0, m);
    PassTasks(s0, m);
    SettleOwners(PassOn(s0, m), Cur(s));
    assert Unlock(s, m) == Settle(PassOn(s0, m), Cur(s));
  }

  lemma PassOwners(s: State, m: nat)
    ensures PassOn(s, m).owners == s.owners[m := if L(s, MutexKey(m)) == [] then None else Some(L(s, MutexKey(m))[0])]
  {
    hide Wake, Preempts, T;
  }

  lemma PassTasks(s: State, m: nat)
    ensures Cur(s) in s.tasks ==> Cur(s) in PassOn(s, m).tasks
  {
    hide Wake, Notify, T, Woken;
    if L(s, MutexKey(m)) != [] { WakeTasks(Hold(s, m, L(s, MutexKey(m))[0]), L(s, MutexKey(m))[0]); }
  }

  lemma WakeTasks(s: State, t: Tid)
    ensures s.tasks.Keys <= Notify(Wake(s, t, Handoff), t).tasks.Keys
  {
    hide Wake, Woken, T, Preempts;
  }

  lemma SettleOwners(s: State, t: Tid)
    requires t in s.tasks
    ensures Settle(s, t).owners == s.owners
  {
    hide SetPriority, Recompute;
  }

  // ---------------------------------------------------------------- queues, semaphores, events

  /** Deliveries followed by the ring are what was accepted, in order; receivers wait only
      on an empty queue and senders only on a full one, so never both. */
  lemma QueueFifo(s: State, q: nat)
    requires Reachable(s) && q in s.queues
    ensures var b := s.queues[q];
      && b.accepted == b.delivered + b.ring && |b.ring| <= b.capacity
      && (L(s, RecvKey(q)) != [] ==> b.ring == []) && (L(s, SendKey(q)) != [] ==> |b.ring| == b.capacity)
      && (L(s, RecvKey(q)) == [] || L(s, SendKey(q)) == [])
  {
    hide Positive, Preemptive, Own, Present, Clock, TcbOk, Sited, Ticket;
    ReachableInv(s);
    assert QueueOk(s.queues[q]);
    if L(s, RecvKey(q)) != [] {
      Head(s, RecvKey(q));
      assert TaskOk(s, L(s, RecvKey(q))[0], s.tasks[L(s, RecvKey(q))[0]]);
    }
    if L(s, SendKey(q)) != [] {
      Head(s, SendKey(q));
      assert TaskOk(s, L(s, SendKey(q))[0], s.tasks[L(s, SendKey(q))[0]]);
    }
  }

  /** Tokens are conserved, and a token is never available while a task waits for one. */
  lemma SemaphoreConserves(s: State, i: nat)
    requires Reachable(s) && i in s.sems
    ensures var m := s.sems[i];
      && m.initial + m.gives - m.dropped == m.granted + m.count && m.count <= UINT32_MAX
      && (m.count > 0 ==> L(s, SemKey(i)) == [])
  {
    hide Positive, Preemptive, Own, Present, Clock, TcbOk, Sited, Ticket;
    ReachableInv(s);
    assert SemOk(s.sems[i]);
    if L(s, SemKey(i)) != [] {
      Head(s, SemKey(i));
      assert TaskOk(s, L(s, SemKey(i))[0], s.tasks[L(s, SemKey(i))[0]]);
    }
  }

  /** No waiter of an event group is stranded: its condition is not met by the bits. */
  lemma EventNeverStrands(s: State, e: nat, t: Tid)
    requires Reachable(s) && t in L(s, EventKey(e))
    ensures !Met(Bits(s, e), T(s, t).mask, T(s, t).all)
  {
    hide Positive, Preemptive, Rest, TcbOk, Sited, Ticket, Satisfies, Met;
    ReachableInv(s);
    MetBits(Bits(s, e), T(s, t).mask, T(s, t).all);
    assert Belongs(s, t, EventKey(e));
    assert TaskOk(s, t, s.tasks[t]);
  }
}
