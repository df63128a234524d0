/** What one action may do to a task: how waits end, what stays as it was. */
module Evolution {
  import opened Lists
  import opened Model
  import opened Structure
  import opened Delays
  import opened Invariant
  import opened Preservation
  import opened EventScan
  import opened Mutexes
  import opened Scheduling

  ghost predicate MutexWait(c: Tcb) {
    c.wait.Some? && c.wait.value.MutexKey?
  }

  /** A wait goes on or ends, with a cause; once it has ended, the outcome of the call
      (cause, flag, item, bits, ticket) stands until the call returns, and all along what the
      call asked for: the condition, and the item of a sender. Deleted is for ever. */
  ghost predicate Later(c: Tcb, c': Tcb) {
    && c'.base == c.base
    && (c.state == Deleted ==> c'.state == Deleted)
    && (c.wait.Some? && c.call.Some? ==> c'.call == c.call && (c'.wait == c.wait || (c'.wait == None && c'.cause.Some?)))
    && (c.call.Some? && c.wait == None ==>
        c'.call == c.call && c'.wait == None && c'.cause == c.cause && c'.expired == c.expired
        && c'.item == c.item && c'.bits == c.bits && c'.ticket == c.ticket)
    && (c.call.Some? ==> Asked(c, c'))
  }

  /** What a blocking call asked for: a condition on bits, an item to send. */
  ghost predicate Asked(c: Tcb, c': Tcb)
    requires c.call.Some?
  {
    c'.mask == c.mask && c'.all == c.all && c'.clear == c.clear && (c.call.value.RecvKey? || c'.item == c.item)
  }

  /** Later, with priority and held mutexes untouched and no new wait for a mutex. */
  ghost predicate Gentle(c: Tcb, c': Tcb, keep: bool) {
    && Later(c, c') && c'.prio == c.prio && c'.held == c.held
    && (MutexWait(c') ==> c'.wait == c.wait)
    && (keep && MutexWait(c) ==> c'.wait == c.wait)
  }

  ghost predicate Evolves(s: State, s': State) {
    forall t :: t in s.tasks ==> t in s'.tasks && Later(s.tasks[t], s'.tasks[t])
  }

  /** Owners stay, every task changes gently, a new task holds nothing. */
  ghost predicate GentleStep(s: State, s': State, keep: bool) {
    && s'.owners == s.owners
    && (forall t :: t in s.tasks ==> t in s'.tasks && Gentle(s.tasks[t], s'.tasks[t], keep))
    && (forall t :: t in s'.tasks && t !in s.tasks ==> Newborn(s'.tasks[t]))
  }

  ghost predicate Newborn(c: Tcb) {
    c.prio == c.base && c.held == [] && c.wait == None
  }

  lemma GentleTrans(s: State, s1: State, s2: State)
    requires GentleStep(s, s1, true) && GentleStep(s1, s2, true) && s1.tasks.Keys == s.tasks.Keys
    ensures GentleStep(s, s2, true)
  {
    forall t | t in s.tasks ensures t in s2.tasks && Gentle(s.tasks[t], s2.tasks[t], true) {
      assert Gentle(s.tasks[t], s1.tasks[t], true);
      assert Gentle(s1.tasks[t], s2.tasks[t], true);
    }
  }

  /** One task changes. */
  lemma GentleOne(s: State, s': State, t: Tid, c: Tcb, keep: bool)
    requires s'.tasks == s.tasks[t := c] && s'.owners == s.owners
    requires if t in s.tasks then Gentle(s.tasks[t], c, keep) else Newborn(c)
    ensures GentleStep(s, s', keep)
  {
  }

  lemma GentleSame(s: State, s': State)
    requires s'.tasks == s.tasks && s'.owners == s.owners
    ensures GentleStep(s, s', true)
  {
  }

  // ---------------------------------------------------------------- control blocks

  /** A blocked task that is woken by a handoff that concerns no mutex, or by a timeout. */
  lemma WokenGentle(c: Tcb, x: Bytes, n: nat, b: bv32, cause: Cause)
    requires TcbOk(c) && c.state == Blocked && !MutexWait(c)
    requires c.wait == None ==> x == c.item && n == c.ticket && b == c.bits
    requires c.wait.Some? && !c.wait.value.RecvKey? ==> x == c.item
    ensures Gentle(c, Woken(c.(item := x, ticket := n, bits := b), cause), true)
  {
  }

  lemma StoppedGentle(c: Tcb, st: TaskState)
    requires TcbOk(c) && c.state != Deleted && (st == Suspended || st == Deleted)
    ensures Gentle(c, Stopped(c, st), !MutexWait(c))
  {
  }

  /** The task that runs is inside no wait, and parks on something else than a mutex. */
  lemma ParkedGentle(c: Tcb, c1: Tcb, k: Key)
    requires TcbOk(c) && c.state == Running && c.call == None && !k.MutexKey?
    requires c1.prio == c.prio && c1.held == c.held && c1.base == c.base
    ensures Gentle(c, Parked(c1, k), true)
  {
  }

  // ---------------------------------------------------------------- actions

  lemma ParkGentle(s: State, c: Tcb, k: Key, ms: nat)
    requires Inv(s) && TaskCalls(s) && !k.MutexKey?
    requires c.prio == T(s, Cur(s)).prio && c.held == T(s, Cur(s)).held && c.base == T(s, Cur(s)).base
    ensures GentleStep(s, Park(s, c, k, ms), true)
  {
    hide Inv, Park;
    Calling(s);
    ParkedGentle(s.tasks[Cur(s)], c, k);
    GentleOne(s, Park(s, c, k, ms), Cur(s), Parked(c, k), true);
  }

  lemma HandGentle(s: State, s1: State, t: Tid, x: Bytes, n: nat, b: bv32, cause: Cause)
    requires t in s.tasks && TcbOk(s.tasks[t]) && s.tasks[t].state == Blocked && !MutexWait(s.tasks[t])
    requires s.tasks[t].wait == None ==> x == s.tasks[t].item && n == s.tasks[t].ticket && b == s.tasks[t].bits
    requires s.tasks[t].wait.Some? && !s.tasks[t].wait.value.RecvKey? ==> x == s.tasks[t].item
    requires s1.tasks == s.tasks[t := s.tasks[t].(item := x, ticket := n, bits := b)] && s1.owners == s.owners
    ensures GentleStep(s, Wake(s1, t, cause), true) && GentleStep(s, Notify(Wake(s1, t, cause), t), true)
  {
    hide Wake;
    var c := Woken(s.tasks[t].(item := x, ticket := n, bits := b), cause);
    WokenGentle(s.tasks[t], x, n, b, cause);
    GentleOne(s, Wake(s1, t, cause), t, c, true);
    GentleOne(s, Notify(Wake(s1, t, cause), t), t, c, true);
  }

  /** Waking without writing anything into the task. */
  lemma WakeGentle(s: State, s1: State, t: Tid, cause: Cause)
    requires t in s.tasks && TcbOk(s.tasks[t]) && s.tasks[t].state == Blocked && !MutexWait(s.tasks[t])
    requires s1.tasks == s.tasks && s1.owners == s.owners
    ensures GentleStep(s, Wake(s1, t, cause), true) && GentleStep(s, Notify(Wake(s1, t, cause), t), true)
  {
    hide Wake, GentleStep;
    var c := s.tasks[t];
    assert s.tasks == s.tasks[t := c.(item := c.item, ticket := c.ticket, bits := c.bits)];
    HandGentle(s, s1, t, c.item, c.ticket, c.bits, cause);
  }

  lemma TakeGentle(s: State, i: nat, ms: nat)
    requires Inv(s) && i in s.sems && (TaskCalls(s) || ms == 0 || s.sems[i].count > 0)
    ensures GentleStep(s, SemTake(s, i, ms), true)
  {
    hide Inv, Park, GentleStep;
    if ms == 0 || s.sems[i].count > 0 {
      GentleSame(s, SemTryTake(s, i));
    } else {
      ParkGentle(s, T(s, Cur(s)), SemKey(i), ms);
    }
  }

  /** A give either hands over, or changes nothing but the semaphore. */
  lemma GiveShape(s: State, i: nat)
    ensures var l, m := L(s, SemKey(i)), TheSem(s, i);
      SemGive(s, i)
      == if l != [] then Notify(Wake(s.(sems := s.sems[i := m.(gives := m.gives + 1, granted := m.granted + 1)]), l[0], Handoff), l[0])
         else s.(sems := SemGive(s, i).sems)
  {
    hide Wake, Notify;
  }

  /** A send hands over, or changes nothing but the queue, or parks. */
  lemma SendShape(s: State, q: nat, x: Bytes, ms: nat)
    ensures var b, l := TheQueue(s, q), L(s, RecvKey(q));
      QueueSend(s, q, x, ms)
      == if l != [] then
           Notify(Wake(Edit(s, l[0], T(s, l[0]).(item := x, ticket := |b.delivered|))
             .(queues := s.queues[q := b.(accepted := b.accepted + [x], delivered := b.delivered + [x])]), l[0], Handoff), l[0])
         else if |b.ring| < b.capacity || ms == 0 then s.(queues := QueueSend(s, q, x, ms).queues)
         else Park(s, T(s, Cur(s)).(item := x), SendKey(q), ms)
  {
    hide Wake, Notify, Park;
  }

  lemma ReceiveShape(s: State, q: nat, ms: nat)
    ensures var b, l := TheQueue(s, q), L(s, SendKey(q));
      QueueReceive(s, q, ms)
      == if b.ring != [] && l != [] then
           Notify(Wake(Edit(s, l[0], T(s, l[0]).(ticket := |b.accepted|)).(queues := QueueReceive(s, q, ms).queues), l[0], Handoff), l[0])
         else if b.ring != [] || ms == 0 then s.(queues := QueueReceive(s, q, ms).queues)
         else Park(s, T(s, Cur(s)), RecvKey(q), ms)
  {
    hide Park, Put;
  }

  lemma GiveGentle(s: State, i: nat)
    requires Inv(s) && i in s.sems
    ensures GentleStep(s, SemGive(s, i), true)
  {
    hide Inv, Wake, Notify, GentleStep, TcbOk, ReasonIn, Sited, SemGive;
    var l, m := L(s, SemKey(i)), s.sems[i];
    GiveShape(s, i);
    if l != [] {
      Waiting(s, SemKey(i));
      WakeGentle(s, s.(sems := s.sems[i := m.(gives := m.gives + 1, granted := m.granted + 1)]), l[0], Handoff);
    } else {
      GentleSame(s, SemGive(s, i));
    }
  }

  lemma SendGentle(s: State, q: nat, x: Bytes, ms: nat)
    requires Inv(s) && q in s.queues && (ms == 0 || TaskCalls(s) || CanSend(s, q))
    ensures GentleStep(s, QueueSend(s, q, x, ms), true)
  {
    hide Inv, Wake, Notify, Park, GentleStep, TcbOk, ReasonIn, Sited, QueueSend;
    var b, l := s.queues[q], L(s, RecvKey(q));
    SendShape(s, q, x, ms);
    if l != [] {
      Waiting(s, RecvKey(q));
      var c := s.tasks[l[0]];
      var b1 := b.(accepted := b.accepted + [x], delivered := b.delivered + [x]);
      var s1 := Edit(s, l[0], c.(item := x, ticket := |b.delivered|)).(queues := s.queues[q := b1]);
      HandGentle(s, s1, l[0], x, |b.delivered|, c.bits, Handoff);
    } else if |b.ring| < b.capacity || ms == 0 {
      GentleSame(s, QueueSend(s, q, x, ms));
    } else {
      ParkGentle(s, T(s, Cur(s)).(item := x), SendKey(q), ms);
    }
  }

  lemma ReceiveGentle(s: State, q: nat, ms: nat)
    requires Inv(s) && q in s.queues && (ms == 0 || TaskCalls(s) || CanReceive(s, q))
    ensures GentleStep(s, QueueReceive(s, q, ms), true)
  {
    hide Inv, Wake, Notify, Park, GentleStep, TcbOk, ReasonIn, Sited, QueueReceive;
    var b, l := s.queues[q], L(s, SendKey(q));
    ReceiveShape(s, q, ms);
    if b.ring != [] && l != [] {
      Waiting(s, SendKey(q));
      var c := s.tasks[l[0]];
      var s1 := Edit(s, l[0], c.(ticket := |b.accepted|)).(queues := QueueReceive(s, q, ms).queues);
      HandGentle(s, s1, l[0], c.item, |b.accepted|, c.bits, Handoff);
    } else if b.ring != [] || ms == 0 {
      GentleSame(s, QueueReceive(s, q, ms));
    } else {
      ParkGentle(s, T(s, Cur(s)), RecvKey(q), ms);
    }
  }

  // ---------------------------------------------------------------- event group

  lemma ServeGentle(s: State, e: nat, l: seq<Tid>)
    requires Scanning(s, e, l) && l != []
    ensures GentleStep(s, Serve(s, e, l[0]), true) && Serve(s, e, l[0]).tasks.Keys == s.tasks.Keys
  {
    hide Wake, Mark, TasksBut, Linked, Rest, Positive, Preemptive, GentleStep;
    var t := l[0];
    assert Unvisited(s, e, t, s.tasks[t]);
    HandGentle(s, Mark(s, e, t), t, s.tasks[t].item, s.tasks[t].ticket, Bits(s, e), Handoff);
  }

  lemma {:induction false} ScanGentle(s: State, e: nat, l: seq<Tid>)
    requires Scanning(s, e, l)
    ensures GentleStep(s, Scan(s, e, l), true)
    decreases |l|
  {
    hide Scanning, GentleStep, Serve, Satisfies;
    if l == [] {
      GentleSame(s, s);
    } else if Satisfies(Bits(s, e), T(s, l[0]).mask, T(s, l[0]).all) {
      ServeScanning(s, e, l);
      ServeGentle(s, e, l);
      ScanGentle(Serve(s, e, l[0]), e, l[1..]);
      GentleTrans(s, Serve(s, e, l[0]), Scan(s, e, l));
    } else {
      SkipScanning(s, e, l);
      ScanGentle(s, e, l[1..]);
    }
  }

  lemma EventGentle(s: State, e: nat, mask: bv32)
    requires Inv(s) && e in s.events
    ensures GentleStep(s, EventSet(s, e, mask), true) && GentleStep(s, EventClear(s, e, mask), true)
  {
    hide Inv, Scanning, Scan, Gentle, Newborn;
    var s1 := SetBits(s, e, Plus(Bits(s, e), mask));
    StartScanning(s, e, Plus(Bits(s, e), mask));
    ScanGentle(s1, e, L(s, EventKey(e)));
    GentleSame(s, EventClear(s, e, mask));
  }

  lemma EventWaitGentle(s: State, e: nat, mask: bv32, all: bool, clear: bool, ms: nat)
    requires Inv(s) && Enabled(s, AEventWait(e, mask, all, clear, ms))
    ensures GentleStep(s, EventWait(s, e, mask, all, clear, ms), true)
  {
    hide Inv, Park, Satisfies, GentleStep;
    if mask == 0 || Satisfies(Bits(s, e), mask, all) || ms == 0 {
      GentleSame(s, EventWait(s, e, mask, all, clear, ms));
    } else {
      ParkGentle(s, T(s, Cur(s)).(mask := mask, all := all, clear := clear), EventKey(e), ms);
    }
  }

  // ---------------------------------------------------------------- scheduler

  lemma StateGentle(s: State, s': State, t: Tid, st: TaskState)
    requires t in s.tasks && s.tasks[t].state != Deleted
    requires TcbOk(s.tasks[t]) && s'.tasks == s.tasks[t := s.tasks[t].(state := st)] && s'.owners == s.owners
    ensures GentleStep(s, s', true)
  {
    hide GentleStep;
    GentleOne(s, s', t, s.tasks[t].(state := st), true);
  }

  lemma SleepGentle(s: State, n: nat)
    requires Inv(s) && TaskCalls(s)
    ensures GentleStep(s, Sleep(s, n), true)
  {
    hide Inv, Put, GentleStep;
    Calling(s);
    StateGentle(s, Sleep(s, n), Cur(s), Blocked);
  }

  lemma HaltGentle(s: State, t: Tid, st: TaskState)
    requires Inv(s) && t in s.tasks && s.tasks[t].state != Deleted && (st == Suspended || st == Deleted)
    ensures GentleStep(s, Halt(s, t, st), !MutexWait(s.tasks[t]))
  {
    hide Linked, Rest, Positive, Preemptive, Put, GentleStep;
    assert TaskOk(s, t, s.tasks[t]);
    StoppedGentle(s.tasks[t], st);
    GentleOne(s, Halt(s, t, st), t, Stopped(s.tasks[t], st), !MutexWait(s.tasks[t]));
  }

  lemma ResumeGentle(s: State, t: Tid)
    requires Inv(s) && t in s.tasks
    ensures GentleStep(s, ResumeTask(s, t), true)
  {
    hide Linked, Rest, Positive, Preemptive, Put, GentleStep;
    assert TaskOk(s, t, s.tasks[t]);
    if s.tasks[t].state == Suspended {
      StateGentle(s, ResumeTask(s, t), t, Ready);
    } else {
      GentleSame(s, s);
    }
  }

  lemma CreateGentle(s: State, t: Tid, p: nat)
    requires t !in s.tasks
    ensures GentleStep(s, Create(s, t, p), true)
  {
    hide Create, GentleStep;
    BornGentle(s, Create(s, t, p), t, p);
  }

  lemma StartGentle(s: State, t: Tid)
    requires t !in s.tasks
    ensures GentleStep(s, Start(s, t), true)
  {
    hide Create, GentleStep;
    BornGentle(s, Start(s, t), t, 0);
  }

  lemma BornGentle(s: State, s': State, t: Tid, p: nat)
    requires t !in s.tasks && s'.owners == s.owners
    requires s'.tasks == s.tasks || s'.tasks == s.tasks[t := FreshTcb(p).(state := Ready)]
    ensures GentleStep(s, s', true)
  {
    hide GentleStep;
    if s'.tasks == s.tasks {
      GentleSame(s, s');
    } else {
      GentleOne(s, s', t, FreshTcb(p).(state := Ready), true);
    }
  }

  lemma SwitchGentle(s: State)
    requires Inv(s) && s.started
    ensures GentleStep(s, Switch(s), true)
  {
    hide Inv, Put, Vacate, GentleStep, Linked, Positive;
    var s1 := Vacate(s);
    VacateVacant(s);
    VacateGentle(s);
    TopIsHighest(s1);
    var top := TopReady(s1, MAX_PRIORITIES);
    if top.Some? {
      var t := L(s1, ReadyKey(top.value))[0];
      assert TaskOk(s1, t, s1.tasks[t]);
      StateGentle(s1, Switch(s), t, Running);
      GentleTrans(s, s1, Switch(s));
    } else {
      GentleSame(s1, Switch(s));
      GentleTrans(s, s1, Switch(s));
    }
  }

  lemma VacateGentle(s: State)
    requires Inv(s) && s.started
    ensures GentleStep(s, Vacate(s), true) && Vacate(s).tasks.Keys == s.tasks.Keys
  {
    hide Linked, Rest, Positive, Preemptive, Put, GentleStep;
    if s.current.Some? && T(s, Cur(s)).state == Running && Cur(s) in s.tasks {
      assert TaskOk(s, Cur(s), s.tasks[Cur(s)]);
      StateGentle(s, Vacate(s), Cur(s), Ready);
    } else {
      GentleSame(s, s);
    }
  }

  lemma ReleaseGentle(s: State)
    requires Releasing(s) && s.delay != []
    ensures GentleStep(s, Wake(s, s.delay[0].task, Timeout), true)
    ensures Wake(s, s.delay[0].task, Timeout).tasks.Keys == s.tasks.Keys
  {
    hide Wake, Linked, Own, Objects, GentleStep;
    var t := s.delay[0].task;
    FrontDue(s.delay);
    assert TaskOk(s, t, s.tasks[t]);
    WakeGentle(s, s, t, Timeout);
  }

  lemma {:induction false} ReleaseAllGentle(s: State)
    requires Releasing(s)
    ensures GentleStep(s, ReleaseDue(s), true)
    decreases |s.delay|
  {
    hide Wake, Releasing, GentleStep;
    if s.delay != [] && s.delay[0].left == 0 {
      var s1 := Wake(s, s.delay[0].task, Timeout);
      ReleaseOne(s);
      ReleaseGentle(s);
      Shorter(s.delay);
      ReleaseAllGentle(s1);
      GentleTrans(s, s1, ReleaseDue(s));
    } else {
      GentleSame(s, s);
    }
  }

  lemma TickGentle(s: State)
    requires Inv(s) && s.started
    ensures GentleStep(s, Tick(s), true)
  {
    hide Inv, Releasing, ReleaseDue, DelayDown, NeedsPreemption;
    var s1 := s.(tick := (s.tick + 1) % TWO_32, delay := DelayDown(s.delay));
    DownReleasing(s);
    ReleaseAllGentle(s1);
  }

  /** The actions that change no priority and no owner, and cancel no wait for a mutex. */
  ghost predicate Cancels(s: State, a: Action) {
    (a.ASuspend? || a.ADelete?) && MutexWait(T(s, a.t))
  }

  /** Every action but lock, unlock and the return from a call changes tasks gently. */
  lemma StepGentle(s: State, a: Action)
    requires Inv(s) && Enabled(s, a) && !a.ALock? && !a.AUnlock? && !a.AReturn?
    ensures GentleStep(s, Step(s, a), !Cancels(s, a))
  {
    hide Inv, GentleStep;
    match a
    case ACreate(t, p) => CreateGentle(s, t, p);
    case AStart(t) => StartGentle(s, t);
    case ASwitch => SwitchGentle(s);
    case ATick => TickGentle(s);
    case ADelayMs(ms) => GentleSame(s, s); SleepGentle(s, MsToTicks(ms));
    case ADelayUntil(wake) => GentleSame(s, s); SleepGentle(s, if Remaining(wake, s.tick) > 0 then Remaining(wake, s.tick) else 1);
    case ASuspend(t) => StopGentle(s, t);
    case AResume(t) => ResumeGentle(s, t);
    case ADelete(t) => StopGentle(s, t);
    case ASemTake(i, ms) => TakeGentle(s, i, ms);
    case ASemTryTake(i) => TakeGentle(s, i, 0);
    case ASemGive(i) => GiveGentle(s, i);
    case AQueueSend(q, x, ms) => SendGentle(s, q, x, ms);
    case AQueueReceive(q, ms) => ReceiveGentle(s, q, ms);
    case AEventWait(e, mask, all, clear, ms) => EventWaitGentle(s, e, mask, all, clear, ms);
    case AEventSet(e, mask) => EventGentle(s, e, mask);
    case AEventClear(e, mask) => EventGentle(s, e, mask);
  }

  lemma StillGentle(s: State, keep: bool)
    ensures GentleStep(s, s, keep)
  {
  }

  lemma StopGentle(s: State, t: Tid)
    requires Inv(s) && t in s.tasks
    ensures GentleStep(s, SuspendTask(s, t), !MutexWait(s.tasks[t]))
    ensures GentleStep(s, DeleteTask(s, t), !MutexWait(s.tasks[t]))
  {
    hide Inv, Halt, GentleStep;
    StillGentle(s, !MutexWait(s.tasks[t]));
    if s.tasks[t].state != Deleted {
      HaltGentle(s, t, Deleted);
      HaltGentle(s, t, Suspended);
    }
  }

  // ---------------------------------------------------------------- lock, unlock, return

  lemma GentleLater(s: State, s': State, keep: bool)
    requires GentleStep(s, s', keep)
    ensures Evolves(s, s')
  {
    forall t | t in s.tasks ensures Later(s.tasks[t], s'.tasks[t]) { assert Gentle(s.tasks[t], s'.tasks[t], keep); }
  }

  lemma LaterOne(s: State, s': State, t: Tid, c: Tcb)
    requires t in s.tasks && s'.tasks == s.tasks[t := c] && Later(s.tasks[t], c)
    ensures Evolves(s, s')
  {
  }

  lemma LaterTrans(s: State, s1: State, s2: State)
    requires Evolves(s, s1) && Evolves(s1, s2)
    ensures Evolves(s, s2)
  {
    forall t | t in s.tasks ensures t in s2.tasks && Later(s.tasks[t], s2.tasks[t]) {
      assert Later(s.tasks[t], s1.tasks[t]) && Later(s1.tasks[t], s2.tasks[t]);
    }
  }

  /** A task that runs outside any call may be edited at will; so may priorities and held chains. */
  lemma EditLater(c: Tcb, p: nat, held: seq<nat>)
    ensures Later(c, c.(prio := p, held := held))
  {
  }

  lemma GrantLater(c: Tcb, m: nat)
    requires c.wait.Some? && c.state == Blocked
    ensures Later(c, Woken(c.(held := [m] + c.held), Handoff))
  {
  }

  lemma PriorityLater(s: State, t: Tid, p: nat)
    requires t in s.tasks
    ensures Evolves(s, SetPriority(s, t, p))
  {
    hide SetPriority, Evolves, Later;
    EditLater(s.tasks[t], p, s.tasks[t].held);
    LaterOne(s, SetPriority(s, t, p), t, s.tasks[t].(prio := p));
  }

  lemma ParkLater(s: State, c: Tcb, k: Key, ms: nat)
    requires Cur(s) in s.tasks && s.tasks[Cur(s)].state == Running && s.tasks[Cur(s)].call == None
    requires s.tasks[Cur(s)].wait == None && c.base == s.tasks[Cur(s)].base
    ensures Evolves(s, Park(s, c, k, ms))
  {
    hide Park, Evolves;
    LaterOne(s, Park(s, c, k, ms), Cur(s), Parked(c, k));
  }

  lemma LockLater(s: State, m: nat)
    requires Inv(s) && Enabled(s, ALock(m))
    ensures Evolves(s, Lock(s, m))
  {
    hide Inv, Park, SetPriority, Hold, Evolves, Later, ReasonIn;
    var t := Cur(s);
    Calling(s);
    match s.owners[m]
    case None =>
      EditLater(s.tasks[t], s.tasks[t].prio, [m] + s.tasks[t].held);
      LaterOne(s, Hold(s, m, t), t, s.tasks[t].(held := [m] + s.tasks[t].held));
    case Some(o) =>
      StillLater(s);
      if o != t {
        LockFacts(s, m, o);
        var s1 := if s.tasks[t].prio > s.tasks[o].prio then SetPriority(s, o, s.tasks[t].prio) else s;
        PriorityLater(s, o, s.tasks[t].prio);
        ParkLater(s1, s.tasks[t], MutexKey(m), WAIT_FOREVER);
        LaterTrans(s, s1, Lock(s, m));
      }
  }

  lemma StillLater(s: State)
    ensures Evolves(s, s)
  {
  }

  lemma PassLater(s: State, m: nat, t: Tid)
    requires Dropped(s, m, t)
    ensures Evolves(s, PassOn(s, m)) && t in PassOn(s, m).tasks
  {
    hide Wake, Hold, Evolves, Later, Linked, TasksBut, Objects, Present, Clock;
    var l := L(s, MutexKey(m));
    if l == [] {
      StillLater(s);
      LaterOne(s, PassOn(s, m), t, s.tasks[t]) by { SelfLater(s, s, t); }
    } else {
      GrantWoken(s, m, t);
      var c := Woken(s.tasks[l[0]].(held := [m] + s.tasks[l[0]].held), Handoff);
      GrantLater(s.tasks[l[0]], m);
      LaterOne(s, PassOn(s, m), l[0], c);
    }
  }

  lemma SettleLater(s: State, t: Tid)
    requires t in s.tasks
    ensures Evolves(s, Settle(s, t))
  {
    hide SetPriority, Recompute, Later;
    StillLater(s);
    PriorityLater(s, t, Recompute(s, t));
  }

  lemma UnlockLater(s: State, m: nat)
    requires Inv(s) && Enabled(s, AUnlock(m))
    ensures Evolves(s, Unlock(s, m))
  {
    hide Inv, PassOn, Settle, Dropped, Evolves, Later;
    var t := Cur(s);
    if Owner(s, m) == Some(t) {
      var held := Without(s.tasks[t].held, m);
      var s0 := Edit(s, t, s.tasks[t].(held := held));
      DropInv(s, m);
      EditLater(s.tasks[t], s.tasks[t].prio, held);
      LaterOne(s, s0, t, s.tasks[t].(held := held));
      PassLater(s0, m, t);
      SettleLater(PassOn(s0, m), t);
      LaterTrans(s, s0, PassOn(s0, m));
      LaterTrans(s, PassOn(s0, m), Unlock(s, m));
    } else {
      StillLater(s);
    }
  }

  /** Each parked wait ends at most once and by one cause; Deleted is terminal; the
      outcome of a wait stands until the call returns, whatever happens to the task. */
  lemma StepLater(s: State, a: Action, t: Tid)
    requires Inv(s) && Enabled(s, a) && t in s.tasks
    requires !(a == AReturn && s.current == Some(t))
    ensures t in Step(s, a).tasks && Later(s.tasks[t], Step(s, a).tasks[t])
  {
    hide Inv, Later, Lock, Unlock, Switch, Tick, EventSet, Gentle;
    if a.ALock? {
      LockLater(s, a.m);
    } else if a.AUnlock? {
      UnlockLater(s, a.m);
    } else if a.AReturn? {
      SelfLater(s, Step(s, a), t);
    } else {
      StepGentle(s, a);
      GentleLater(s, Step(s, a), !Cancels(s, a));
    }
  }

  lemma SelfLater(s: State, s': State, t: Tid)
    requires t in s.tasks && t in s'.tasks && s'.tasks[t] == s.tasks[t]
    ensures Later(s.tasks[t], s'.tasks[t])
  {
  }
}
