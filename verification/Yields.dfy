/** When a yield is requested: exactly when there is cause, told by states and priorities. */
module Yields {
  import opened Lists
  import opened Model
  import opened Structure
  import opened Delays
  import opened Invariant
  import opened Preservation
  import opened EventScan
  import opened Mutexes
  import opened Scheduling
  import opened Evolution
  import opened Runs
  import opened EventFold
  import opened Fairness

  /** The current task holds the CPU. */
  predicate OnCpu(s: State) {
    s.current.Some? && T(s, Cur(s)).state == Running
  }

  /** `t` has become ready, at a higher priority than the current task's. */
  ghost predicate Outranker(s: State, s': State, t: Tid) {
    t in s'.tasks && s'.tasks[t].state == Ready && T(s, t).state != Ready && s'.tasks[t].prio > T(s', Cur(s')).prio
  }

  ghost predicate ReadyPeer(s: State, t: Tid) {
    t in s.tasks && s.tasks[t].state == Ready && s.tasks[t].prio >= T(s, Cur(s)).prio
  }

  /** What a yield is for: the scheduler starts, the current task has stopped running, a task
      that outranks it has become ready, its time slice is over and an equal waits, or it has
      changed its own priority by an unlock(). */
  ghost predicate Warranted(s: State, a: Action, s': State) {
    || a.AStart?
    || (s'.started && !OnCpu(s'))
    || (s'.started && exists t: Tid :: Outranker(s, s', t))
    || (a == ATick && exists t: Tid :: ReadyPeer(s', t))
    || (a.AUnlock? && T(s', Cur(s)).prio != T(s, Cur(s)).prio)
  }

  /** A yield is requested only for a task that has become ready and outranks the current one. */
  ghost predicate Calm(s: State, s': State) {
    s'.yieldDue ==> s.yieldDue || (s'.started && exists t: Tid :: Outranker(s, s', t))
  }

  lemma CalmSame(s: State, s': State)
    requires s'.yieldDue == s.yieldDue
    ensures Calm(s, s')
  {
  }

  lemma CalmNotify(s: State, s1: State, t: Tid)
    requires s1.yieldDue == s.yieldDue && t in s1.tasks && s1.tasks[t].state == Ready && T(s, t).state != Ready
    ensures Calm(s, Notify(s1, t))
  {
    var s' := Notify(s1, t);
    if Preempts(s1, t) { assert Outranker(s, s', t); }
  }

  /** Handing over to a task that is not ready, its control block being `c` by then. */
  lemma CalmHand(s: State, s1: State, t: Tid)
    requires s1.yieldDue == s.yieldDue && T(s, t).state == Blocked
    ensures Calm(s, Notify(Wake(s1, t, Handoff), t))
  {
    hide Wake, Notify, Calm;
    CalmNotify(s, Wake(s1, t, Handoff), t);
  }

  // ---------------------------------------------------------------- objects

  lemma GiveCalm(s: State, i: nat)
    requires Inv(s)
    ensures Calm(s, SemGive(s, i))
  {
    hide Inv, Wake, Notify, SemGive, Calm, TaskOk;
    var l, m := L(s, SemKey(i)), TheSem(s, i);
    GiveShape(s, i);
    if l == [] {
      CalmSame(s, SemGive(s, i));
    } else {
      Waiting(s, SemKey(i));
      CalmHand(s, s.(sems := s.sems[i := m.(gives := m.gives + 1, granted := m.granted + 1)]), l[0]);
    }
  }

  lemma SendCalm(s: State, q: nat, x: Bytes, ms: nat)
    requires Inv(s) && (ms == 0 || CanSend(s, q))
    ensures Calm(s, QueueSend(s, q, x, ms))
  {
    hide Inv, Wake, Notify, Park, QueueSend, Calm, TaskOk;
    var l, b := L(s, RecvKey(q)), TheQueue(s, q);
    SendShape(s, q, x, ms);
    if l != [] {
      Waiting(s, RecvKey(q));
      var c := T(s, l[0]).(item := x, ticket := |b.delivered|);
      var b1 := b.(accepted := b.accepted + [x], delivered := b.delivered + [x]);
      CalmHand(s, Edit(s, l[0], c).(queues := s.queues[q := b1]), l[0]);
    } else {
      CalmSame(s, QueueSend(s, q, x, ms));
    }
  }

  lemma ReceiveCalm(s: State, q: nat, ms: nat)
    requires Inv(s) && (ms == 0 || CanReceive(s, q))
    ensures Calm(s, QueueReceive(s, q, ms))
  {
    hide Inv, Wake, Notify, Park, QueueReceive, Calm, TaskOk;
    var l, b := L(s, SendKey(q)), TheQueue(s, q);
    ReceiveShape(s, q, ms);
    if b.ring != [] && l != [] {
      Waiting(s, SendKey(q));
      CalmHand(s, Edit(s, l[0], T(s, l[0]).(ticket := |b.accepted|)).(queues := QueueReceive(s, q, ms).queues), l[0]);
    } else {
      CalmSame(s, QueueReceive(s, q, ms));
    }
  }

  lemma FirstBlocked(s: State, e: nat, l: seq<Tid>)
    requires Scanning(s, e, l) && l != []
    ensures T(s, l[0]).state == Blocked && l[0] !in l[1..]
    ensures OnCpu(s) ==> Cur(s) !in l
  {
    hide Rest, Linked, Positive, Preemptive, TasksBut;
    forall x | x in l ensures T(s, x).state == Blocked { assert Unvisited(s, e, x, s.tasks[x]); }
  }

  /** What serving the first waiter does to it, and that the current task runs on. */
  lemma Served(s: State, e: nat, l: seq<Tid>)
    requires Scanning(s, e, l) && l != [] && (s.current == None || OnCpu(s))
    ensures var s1, t := Serve(s, e, l[0]), l[0];
      && T(s, t).state == Blocked && t in s1.tasks && s1.tasks[t].state == Ready && t !in l[1..]
      && (s1.yieldDue ==> s.yieldDue || (s1.started && s1.current.Some? && s1.tasks[t].prio > T(s1, Cur(s1)).prio))
      && (forall x :: x != t ==> T(s1, x) == T(s, x))
      && s1.current == s.current && s1.started == s.started && (s1.current.Some? ==> Cur(s1) !in l)
  {
    hide Scanning, Wake, Mark;
    FirstBlocked(s, e, l);
    FirstWaits(s, e, l);
    ServeOne(s, e, l[0]);
  }

  lemma ScanStarted(s: State, e: nat, l: seq<Tid>)
    ensures Scan(s, e, l).started == s.started
    decreases |l|
  {
    hide Wake, Satisfies, Mark;
    if l != [] {
      ScanStarted(Serve(s, e, l[0]), e, l[1..]);
      ScanStarted(s, e, l[1..]);
    }
  }

  lemma {:induction false} ScanCalm(s: State, e: nat, l: seq<Tid>)
    requires Scanning(s, e, l) && (s.current == None || OnCpu(s))
    ensures Calm(s, Scan(s, e, l))
    decreases |l|
  {
    hide Scanning, Serve, Satisfies, Calm;
    if l == [] {
      CalmSame(s, s);
    } else if Satisfies(Bits(s, e), T(s, l[0]).mask, T(s, l[0]).all) {
      Served(s, e, l);
      ServeScanning(s, e, l);
      ScanCalm(Serve(s, e, l[0]), e, l[1..]);
      ServeCalm(s, e, l);
    } else {
      SkipScanning(s, e, l);
      ScanCalm(s, e, l[1..]);
    }
  }

  lemma ServeCalm(s: State, e: nat, l: seq<Tid>)
    requires Scanning(s, e, l) && l != [] && (s.current == None || OnCpu(s))
    requires var s1 := Serve(s, e, l[0]); Scanning(s1, e, l[1..]) && Calm(s1, Scan(s1, e, l[1..]))
    ensures Calm(s, Scan(Serve(s, e, l[0]), e, l[1..]))
  {
    hide Scanning, Serve, Scan;
    var s1 := Serve(s, e, l[0]);
    var s2 := Scan(s1, e, l[1..]);
    Served(s, e, l);
    ScanStarted(s1, e, l[1..]);
    ScanOthers(s1, e, l[1..], l[0]);
    if s1.current.Some? { ScanOthers(s1, e, l[1..], Cur(s1)); }
    if s2.yieldDue && !s.yieldDue {
      if s1.yieldDue {
        StillThere(s1, s2, l[0]);
        assert Outranker(s, s2, l[0]);
      } else {
        var t: Tid :| Outranker(s1, s2, t);
        assert Outranker(s, s2, t);
      }
    }
  }

  /** Blank control blocks are not ready. */
  lemma StillThere(s: State, s1: State, t: Tid)
    requires T(s1, t) == T(s, t) && T(s, t).state == Ready
    ensures t in s1.tasks && s1.tasks[t] == T(s, t)
  {
  }

  lemma EventCalm(s: State, e: nat, mask: bv32)
    requires Inv(s) && e in s.events && (s.current == None || OnCpu(s))
    ensures Calm(s, EventSet(s, e, mask))
  {
    hide Inv, Scanning, Scan;
    var s1 := SetBits(s, e, Plus(Bits(s, e), mask));
    StartScanning(s, e, Plus(Bits(s, e), mask));
    ScanCalm(s1, e, L(s, EventKey(e)));
    if EventSet(s, e, mask).yieldDue && !s.yieldDue {
      var t: Tid :| Outranker(s1, EventSet(s, e, mask), t);
      assert Outranker(s, EventSet(s, e, mask), t);
    }
  }

  lemma PassCalm(s: State, s0: State, m: nat)
    requires s0.yieldDue == s.yieldDue && (L(s0, MutexKey(m)) != [] ==> T(s, L(s0, MutexKey(m))[0]).state == Blocked)
    ensures Calm(s, PassOn(s0, m))
  {
    hide Wake, Notify, Calm, T;
    var l := L(s0, MutexKey(m));
    if l == [] { CalmSame(s, PassOn(s0, m)); } else { CalmHand(s, Hold(s0, m, l[0]), l[0]); }
  }

  /** An unlock() that leaves the caller's priority as it was only yields to an outranker. */
  lemma UnlockCalm(s: State, m: nat)
    requires Inv(s) && Enabled(s, AUnlock(m))
    ensures Calm(s, Unlock(s, m)) || T(Unlock(s, m), Cur(s)).prio != T(s, Cur(s)).prio
    ensures T(Unlock(s, m), Cur(s)).prio != T(s, Cur(s)).prio ==> Unlock(s, m).yieldDue
  {
    hide Inv, PassOn, Settle, Calm, Dropped, Recompute;
    var t := Cur(s);
    if Owner(s, m) != Some(t) {
      CalmSame(s, s);
    } else {
      var s0 := Edit(s, t, s.tasks[t].(held := Without(s.tasks[t].held, m)));
      if L(s, MutexKey(m)) != [] { Waiting(s, MutexKey(m)); }
      PassCalm(s, s0, m);
      DropInv(s, m);
      PassCaller(s0, m, t);
      SettleChange(PassOn(s0, m), t);
    }
  }

  /** The new owner is another task. */
  lemma PassCaller(s: State, m: nat, t: Tid)
    requires Dropped(s, m, t)
    ensures T(PassOn(s, m), t).prio == T(s, t).prio && t in PassOn(s, m).tasks
  {
    hide Wake, Linked, TasksBut, Objects, Present, Clock, Positive, Preemptive;
    if L(s, MutexKey(m)) != [] { GrantWoken(s, m, t); }
  }

  lemma SettleChange(s: State, t: Tid)
    requires t in s.tasks
    ensures T(Settle(s, t), t).prio == T(s, t).prio ==> Settle(s, t) == s
    ensures T(Settle(s, t), t).prio != T(s, t).prio ==> Settle(s, t).yieldDue
  {
    hide SetPriority, Recompute;
  }

  // ---------------------------------------------------------------- the caller blocks or stops

  /** After this step somebody else has to run. */
  ghost predicate GivesUp(s': State) {
    s'.started && !OnCpu(s')
  }

  lemma ParkGivesUp(s: State, c: Tcb, k: Key, ms: nat)
    requires s.started && s.current.Some?
    ensures GivesUp(Park(s, c, k, ms))
  {
    hide Park, Put;
    assert Park(s, c, k, ms).tasks[Cur(s)] == Parked(c, k);
    ParkSame(s, c, k, ms);
  }

  lemma ParkSame(s: State, c: Tcb, k: Key, ms: nat)
    ensures Park(s, c, k, ms).started == s.started && Park(s, c, k, ms).current == s.current
  {
    hide Put;
  }

  lemma CallerStarted(s: State)
    requires Inv(s) && TaskCalls(s)
    ensures s.started && s.current.Some?
  {
  }

  lemma LockYields(s: State, m: nat)
    requires Inv(s) && Enabled(s, ALock(m))
    ensures Calm(s, Lock(s, m)) || GivesUp(Lock(s, m))
  {
    hide Inv, Park, SetPriority, Hold, Calm, GivesUp, Put;
    CallerStarted(s);
    match s.owners[m]
    case None => CalmSame(s, Lock(s, m));
    case Some(o) =>
      if o == Cur(s) {
        CalmSame(s, s);
      } else {
        LockFacts(s, m, o);
        var s1 := if T(s, Cur(s)).prio > T(s, o).prio then SetPriority(s, o, T(s, Cur(s)).prio) else s;
        ParkGivesUp(s1, T(s1, Cur(s)), MutexKey(m), WAIT_FOREVER);
      }
  }

  lemma QueueYields(s: State, a: Action)
    requires Inv(s) && Enabled(s, a) && (a.AQueueSend? || a.AQueueReceive?)
    ensures Calm(s, Step(s, a)) || GivesUp(Step(s, a))
  {
    hide Inv, Park, QueueSend, QueueReceive, Calm, GivesUp;
    match a
    case AQueueSend(q, x, ms) =>
      if ms == 0 || CanSend(s, q) {
        SendCalm(s, q, x, ms);
      } else {
        CallerStarted(s);
        SendShape(s, q, x, ms);
        ParkGivesUp(s, T(s, Cur(s)).(item := x), SendKey(q), ms);
      }
    case AQueueReceive(q, ms) =>
      if ms == 0 || CanReceive(s, q) {
        ReceiveCalm(s, q, ms);
      } else {
        CallerStarted(s);
        ReceiveShape(s, q, ms);
        ParkGivesUp(s, T(s, Cur(s)), RecvKey(q), ms);
      }
  }

  lemma TakeYields(s: State, i: nat, ms: nat)
    requires Inv(s) && Enabled(s, ASemTake(i, ms))
    ensures Calm(s, SemTake(s, i, ms)) || GivesUp(SemTake(s, i, ms))
    ensures Calm(s, SemTryTake(s, i))
  {
    hide Inv, Park, Calm, GivesUp;
    CalmSame(s, SemTryTake(s, i));
    if ms > 0 && TheSem(s, i).count == 0 {
      CallerStarted(s);
      ParkGivesUp(s, T(s, Cur(s)), SemKey(i), ms);
    }
  }

  lemma WaitYields(s: State, e: nat, mask: bv32, all: bool, clear: bool, ms: nat)
    requires Inv(s) && Enabled(s, AEventWait(e, mask, all, clear, ms))
    ensures Calm(s, EventWait(s, e, mask, all, clear, ms)) || GivesUp(EventWait(s, e, mask, all, clear, ms))
  {
    hide Inv, Park, Satisfies, Calm, GivesUp, Minus;
    CallerStarted(s);
    if mask == 0 || Satisfies(Bits(s, e), mask, all) || ms == 0 {
      CalmSame(s, EventWait(s, e, mask, all, clear, ms));
    } else {
      ParkGivesUp(s, T(s, Cur(s)).(mask := mask, all := all, clear := clear), EventKey(e), ms);
    }
  }

  lemma ObjectYields(s: State, a: Action)
    requires Inv(s) && Enabled(s, a) && OnObjects(a) && (s.current == None || OnCpu(s))
    ensures Calm(s, Step(s, a)) || GivesUp(Step(s, a)) || (a.AUnlock? && T(Step(s, a), Cur(s)).prio != T(s, Cur(s)).prio)
  {
    hide Inv, Calm, GivesUp, SemTake, SemTryTake, SemGive, Lock, Unlock, QueueSend, QueueReceive, EventWait, EventSet;
    match a
    case ASemTake(i, ms) => TakeYields(s, i, ms);
    case ASemTryTake(i) => TakeYields(s, i, 0);
    case ASemGive(i) => GiveCalm(s, i);
    case ALock(m) => LockYields(s, m);
    case AUnlock(m) => UnlockCalm(s, m);
    case AQueueSend(q, x, ms) => QueueYields(s, a);
    case AQueueReceive(q, ms) => QueueYields(s, a);
    case AEventWait(e, mask, all, clear, ms) => WaitYields(s, e, mask, all, clear, ms);
    case AEventSet(e, mask) => EventCalm(s, e, mask);
    case AEventClear(e, mask) => CalmSame(s, EventClear(s, e, mask));
  }

  // ---------------------------------------------------------------- scheduler

  lemma CreateCalm(s: State, t: Tid, p: nat)
    requires t !in s.tasks
    ensures Calm(s, Create(s, t, p))
  {
    hide Put, Notify, Calm;
    if |s.tasks| >= s.maxTasks {
      CalmSame(s, s);
    } else {
      CalmNotify(s, Put(Edit(s, t, FreshTcb(p)), t, FreshTcb(p).(state := Ready)), t);
    }
  }

  lemma ResumeCalm(s: State, t: Tid)
    ensures Calm(s, ResumeTask(s, t))
  {
    hide Put, Notify, Calm;
    if T(s, t).state != Suspended {
      CalmSame(s, s);
    } else {
      CalmNotify(s, Put(s, t, T(s, t).(state := Ready)), t);
    }
  }

  lemma HaltYields(s: State, t: Tid, st: TaskState)
    requires st == Suspended || st == Deleted
    ensures Calm(s, Halt(s, t, st)) || GivesUp(Halt(s, t, st))
  {
    hide Put, DelayWithout, Calm;
    if s.current == Some(t) && s.started {
      assert Halt(s, t, st).tasks[t] == Stopped(T(s, t), st);
    } else {
      CalmSame(s, Halt(s, t, st));
    }
  }

  lemma SleepGivesUp(s: State, n: nat)
    requires Inv(s) && TaskCalls(s)
    ensures GivesUp(Sleep(s, n))
  {
    hide Put, DelayInsert;
    assert Sleep(s, n).tasks[Cur(s)] == T(s, Cur(s)).(state := Blocked);
  }

  /** After a tick a yield is due exactly when some ready task has the current one's priority or more. */
  lemma TickYields(s: State)
    requires Inv(s) && s.started && !s.yieldDue
    ensures Tick(s).yieldDue <==> exists t: Tid :: ReadyPeer(Tick(s), t)
  {
    hide Linked, TasksBut, Rest, Positive, ReleaseDue, DelayDown, TopReady;
    var s0 := s.(tick := (s.tick + 1) % TWO_32, delay := DelayDown(s.delay));
    var s1, s' := ReleaseDue(s0), Tick(s);
    TickInv(s);
    ReleaseFlag(s0);
    SameTop(s1, s', MAX_PRIORITIES);
    TopIsHighest(s');
    CurrentThere(s);
    PeerIsTop(s');
  }

  lemma CurrentThere(s: State)
    requires Inv(s) && s.started && !s.yieldDue
    ensures s.current.Some? && Cur(s) in s.tasks && OnCpu(s)
  {
    hide Linked, TasksBut, Rest, Positive;
  }

  lemma {:induction false} ReleaseFlag(s: State)
    ensures ReleaseDue(s).yieldDue == s.yieldDue && ReleaseDue(s).current == s.current && ReleaseDue(s).started == s.started
    decreases |s.delay|
  {
    hide Wake;
    if s.delay != [] && s.delay[0].left == 0 {
      Shorter(s.delay);
      ReleaseFlag(Wake(s, s.delay[0].task, Timeout));
    }
  }

  lemma PeerIsTop(s: State)
    requires s.current.Some?
    requires var top := TopReady(s, MAX_PRIORITIES);
      && (forall t :: t in s.tasks && s.tasks[t].state == Ready ==> top.Some? && s.tasks[t].prio <= top.value)
      && (top.Some? ==> var t := L(s, ReadyKey(top.value))[0];
                        t in s.tasks && s.tasks[t].state == Ready && s.tasks[t].prio == top.value)
    ensures NeedsPreemption(s) <==> exists t: Tid :: ReadyPeer(s, t)
  {
    hide TopReady;
    var top := TopReady(s, MAX_PRIORITIES);
    if NeedsPreemption(s) { assert ReadyPeer(s, L(s, ReadyKey(top.value))[0]); }
  }

  // ---------------------------------------------------------------- any action

  /** A yield always has a cause. */
  lemma YieldHasCause(s: State, a: Action)
    requires Inv(s) && Enabled(s, a) && !s.yieldDue && Step(s, a).yieldDue
    ensures Warranted(s, a, Step(s, a))
  {
    hide Inv, Create, Start, Switch, Tick, Sleep, Halt, ResumeTask;
    if s.started { CurrentThere(s); } else { NobodyYet(s); }
    if OnObjects(a) {
      ObjectYields(s, a);
      return;
    }
    match a
    case ACreate(t, p) => CreateCalm(s, t, p);
    case AStart(t) =>
    case ASwitch => SwitchDone(s);
    case ATick => TickYields(s);
    case ADelayMs(ms) => SleepGivesUp(s, MsToTicks(ms));
    case ADelayUntil(wake) => if Remaining(wake, s.tick) > 0 { SleepGivesUp(s, Remaining(wake, s.tick)); }
    case ASuspend(t) => HaltYields(s, t, Suspended);
    case AResume(t) => ResumeCalm(s, t);
    case ADelete(t) => HaltYields(s, t, Deleted);
    case AReturn =>
  }

  lemma NobodyYet(s: State)
    requires Inv(s) && !s.started
    ensures s.current == None
  {
  }

  lemma SwitchDone(s: State)
    ensures !Switch(s).yieldDue
  {
    hide Put, TopReady, Vacate, T;
  }

  /** And a cause always leads to a yield. */
  lemma CauseYields(s: State, a: Action)
    requires Inv(s) && Enabled(s, a) && !s.yieldDue && a != ASwitch && Warranted(s, a, Step(s, a))
    ensures Step(s, a).yieldDue
  {
    hide Inv, Create, Switch, Tick, Unlock;
    StepInv(s, a);
    if Step(s, a).started && !Step(s, a).yieldDue { ClearMeansBest(Step(s, a)); }
    if a.AStart? {
    } else if a == ATick {
      TickYields(s);
    } else if a.AUnlock? {
      UnlockCalm(s, a.m);
    }
  }

  lemma ClearMeansBest(s: State)
    requires Inv(s) && s.started && !s.yieldDue
    ensures OnCpu(s) && forall t :: t in s.tasks && s.tasks[t].state == Ready ==> s.tasks[t].prio <= T(s, Cur(s)).prio
  {
    hide Linked, TasksBut, Rest, Positive;
  }

  /** With no yield pending, any action but the switch requests one if and only if there is
      cause: never for a task of equal priority, except when the tick ends a time slice. */
  lemma YieldExactly(s: State, a: Action)
    requires Inv(s) && Enabled(s, a) && !s.yieldDue && a != ASwitch
    ensures Step(s, a).yieldDue <==> Warranted(s, a, Step(s, a))
  {
    hide Inv, Step, Enabled, Warranted;
    if Step(s, a).yieldDue { YieldHasCause(s, a); } else if Warranted(s, a, Step(s, a)) { CauseYields(s, a); }
  }
}
