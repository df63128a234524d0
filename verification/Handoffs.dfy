/** What an action brings about in which task: who is handed a token or an item, whose wait
    ends and by what, who becomes active after having been suspended. */
module Handoffs {
  import opened Lists
  import opened Model
  import opened Structure
  import opened Delays
  import opened Invariant
  import opened Preservation
  import opened EventScan
  import opened Mutexes
  import opened Scheduling
  import opened Evolution
  import opened Runs

  /** The wait lists on which something countable is handed over. */
  predicate Counted(k: Key) {
    k.SemKey? || k.SendKey? || k.RecvKey?
  }

  /** Inside a call on `k` whose wait ended by a handoff. */
  predicate Pends(c: Tcb, k: Key) {
    c.call == Some(k) && c.cause == Some(Handoff)
  }

  ghost function Pending(s: State, k: Key): set<Tid> {
    set t | t in s.tasks && Pends(s.tasks[t], k)
  }

  /** The waiter on `k` that action `a` hands a token, an item or a mutex to: the first one. */
  function HandsTo(s: State, a: Action, k: Key): Option<Tid> {
    var l := L(s, k);
    if l == [] then None
    else match k
      case SemKey(i) => if a == ASemGive(i) then Some(l[0]) else None
      case RecvKey(q) => if a.AQueueSend? && a.q == q then Some(l[0]) else None
      case SendKey(q) => if a.AQueueReceive? && a.q == q && CanReceive(s, q) then Some(l[0]) else None
      case MutexKey(m) => if a == AUnlock(m) && Owner(s, m) == s.current then Some(l[0]) else None
      case _ => None
  }

  /** What a control block may show: a handoff on a list, the end of a wait, not being suspended. */
  datatype Sign = PendsOn(key: Key) | EndedBy(why: Cause) | Active

  predicate Shows(c: Tcb, w: Sign) {
    match w
    case PendsOn(k) => Pends(c, k)
    case EndedBy(why) => c.cause == Some(why)
    case Active => c.state != Suspended
  }

  /** Nobody but `h` comes to show `w`. */
  ghost predicate NoNew(s: State, s': State, w: Sign, h: Option<Tid>) {
    forall t: Tid :: Shows(T(s', t), w) ==> Shows(T(s, t), w) || h == Some(t)
  }

  lemma NoNewSame(s: State, s': State, w: Sign, h: Option<Tid>)
    requires s'.tasks == s.tasks
    ensures NoNew(s, s', w, h)
  {
  }

  lemma NoNewOne(s: State, s': State, t: Tid, c: Tcb, w: Sign, h: Option<Tid>)
    requires s'.tasks == s.tasks[t := c]
    requires Shows(c, w) ==> Shows(T(s, t), w) || h == Some(t)
    ensures NoNew(s, s', w, h)
  {
  }

  lemma NoNewTrans(s: State, s1: State, s2: State, w: Sign, h: Option<Tid>)
    requires NoNew(s, s1, w, h) && NoNew(s1, s2, w, h)
    ensures NoNew(s, s2, w, h)
  {
    forall t: Tid | Shows(T(s2, t), w) ensures Shows(T(s, t), w) || h == Some(t) { assert h == Some(t) || Shows(T(s1, t), w); }
  }

  // ---------------------------------------------------------------- scheduler

  lemma CreateNew(s: State, t: Tid, p: nat, w: Sign, h: Option<Tid>)
    requires t !in s.tasks && (w.Active? ==> h == Some(t))
    ensures NoNew(s, Create(s, t, p), w, h) && NoNew(s, Start(s, t), w, h)
  {
    hide Create, NoNew;
    NoNewSame(s, s, w, h);
    if |s.tasks| >= s.maxTasks {
      NoNewSame(s, Create(s, t, p), w, h);
      NoNewSame(s, Start(s, t), w, h);
    } else {
      NoNewOne(s, Create(s, t, p), t, FreshTcb(p).(state := Ready), w, h);
      NoNewOne(s, Start(s, t), t, FreshTcb(0).(state := Ready), w, h);
    }
  }

  /** Changing the state of a task. */
  lemma StateNew(s: State, t: Tid, st: TaskState, w: Sign, h: Option<Tid>)
    requires w.Active? ==> T(s, t).state != Suspended
    ensures NoNew(s, Put(s, t, T(s, t).(state := st)), w, h)
  {
    hide Put, NoNew;
    NoNewOne(s, Put(s, t, T(s, t).(state := st)), t, T(s, t).(state := st), w, h);
  }

  lemma VacateNew(s: State, w: Sign, h: Option<Tid>)
    ensures NoNew(s, Vacate(s), w, h)
  {
    hide Put, NoNew;
    NoNewSame(s, s, w, h);
    if T(s, Cur(s)).state == Running { StateNew(s, Cur(s), Ready, w, h); }
  }

  lemma DispatchNew(s: State, s': State, t: Tid, w: Sign, h: Option<Tid>)
    requires s'.tasks == s.tasks[t := T(s, t).(state := Running)] && (w.Active? ==> T(s, t).state != Suspended)
    ensures NoNew(s, s', w, h)
  {
    hide NoNew;
    NoNewOne(s, s', t, T(s, t).(state := Running), w, h);
  }

  /** The task taken from the topmost list is ready. */
  lemma TopState(s: State)
    requires Inv(s) && s.started
    ensures var s1 := Vacate(s); var top := TopReady(s1, MAX_PRIORITIES);
      top.Some? ==> T(s1, L(s1, ReadyKey(top.value))[0]).state == Ready
  {
    hide Inv, Vacate, TopReady, Linked, TasksBut, Rest, Positive;
    VacateVacant(s);
    TopIsHighest(Vacate(s));
  }

  lemma SwitchNew(s: State, w: Sign, h: Option<Tid>)
    requires Inv(s) && s.started
    ensures NoNew(s, Switch(s), w, h)
  {
    hide Inv, Put, TopReady, NoNew, Vacate, T;
    var s1 := Vacate(s);
    VacateNew(s, w, h);
    TopState(s);
    var top := TopReady(s1, MAX_PRIORITIES);
    if top.Some? {
      DispatchNew(s1, Switch(s), L(s1, ReadyKey(top.value))[0], w, h);
    } else {
      NoNewSame(s1, Switch(s), w, h);
    }
    NoNewTrans(s, s1, Switch(s), w, h);
  }

  lemma SleepNew(s: State, n: nat, w: Sign, h: Option<Tid>)
    requires T(s, Cur(s)).state == Running
    ensures NoNew(s, Sleep(s, n), w, h)
  {
    hide Put, DelayInsert, NoNew;
    NoNewOne(s, Sleep(s, n), Cur(s), T(s, Cur(s)).(state := Blocked), w, h);
  }

  lemma HaltNew(s: State, t: Tid, st: TaskState, w: Sign, h: Option<Tid>)
    requires w == EndedBy(Cancelled) || (w.Active? && st == Deleted) ==> h == Some(t)
    requires st == Suspended || st == Deleted
    ensures NoNew(s, Halt(s, t, st), w, h)
  {
    hide Put, DelayWithout, NoNew;
    NoNewOne(s, Halt(s, t, st), t, Stopped(T(s, t), st), w, h);
  }

  lemma ResumeNew(s: State, t: Tid, w: Sign, h: Option<Tid>)
    requires w.Active? ==> h == Some(t)
    ensures NoNew(s, ResumeTask(s, t), w, h)
  {
    hide Put, NoNew;
    NoNewSame(s, s, w, h);
    if T(s, t).state == Suspended { NoNewOne(s, ResumeTask(s, t), t, T(s, t).(state := Ready), w, h); }
  }

  lemma {:induction false} ReleaseNew(s: State, w: Sign, h: Option<Tid>)
    requires Releasing(s) && w != EndedBy(Timeout)
    ensures NoNew(s, ReleaseDue(s), w, h)
    decreases |s.delay|
  {
    hide Wake, NoNew, Releasing;
    if s.delay != [] && s.delay[0].left == 0 {
      var t := s.delay[0].task;
      var s1 := Wake(s, t, Timeout);
      FrontBlocked(s);
      ReleaseOne(s);
      Shorter(s.delay);
      NoNewOne(s, s1, t, Woken(T(s, t), Timeout), w, h);
      ReleaseNew(s1, w, h);
      NoNewTrans(s, s1, ReleaseDue(s), w, h);
    } else {
      NoNewSame(s, s, w, h);
    }
  }

  lemma FrontBlocked(s: State)
    requires Releasing(s) && s.delay != []
    ensures T(s, s.delay[0].task).state == Blocked
  {
    hide Linked, Own, Objects, ReasonIn, TcbOk;
    FrontDue(s.delay);
    assert TaskOk(s, s.delay[0].task, s.tasks[s.delay[0].task]);
  }

  lemma TickNew(s: State, w: Sign, h: Option<Tid>)
    requires Inv(s) && s.started && w != EndedBy(Timeout)
    ensures NoNew(s, Tick(s), w, h)
  {
    hide Inv, Releasing, ReleaseDue, DelayDown, NeedsPreemption, NoNew;
    var s1 := s.(tick := (s.tick + 1) % TWO_32, delay := DelayDown(s.delay));
    DownReleasing(s);
    NoNewSame(s, s1, w, h);
    ReleaseNew(s1, w, h);
    NoNewSame(ReleaseDue(s1), Tick(s), w, h);
    NoNewTrans(s, s1, ReleaseDue(s1), w, h);
    NoNewTrans(s, ReleaseDue(s1), Tick(s), w, h);
  }

  // ---------------------------------------------------------------- parking, handing over

  lemma ParkNew(s: State, c: Tcb, j: Key, ms: nat, w: Sign, h: Option<Tid>)
    requires w.Active? ==> T(s, Cur(s)).state != Suspended
    ensures NoNew(s, Park(s, c, j, ms), w, h)
  {
    hide Park, NoNew;
    NoNewOne(s, Park(s, c, j, ms), Cur(s), Parked(c, j), w, h);
  }

  /** The head of the wait list `j` is inside the call that waits. */
  lemma HeadCalls(s: State, j: Key)
    requires Inv(s) && !j.ReadyKey? && L(s, j) != []
    ensures var t := L(s, j)[0];
      t in s.tasks && s.tasks[t].state == Blocked && s.tasks[t].wait == Some(j) && s.tasks[t].call == Some(j) && s.tasks[t].cause == None
  {
    hide Inv, ReasonIn, Sited;
    Waiting(s, j);
  }

  /** What a handoff on `j` to `h` may bring about. */
  predicate HandedOn(w: Sign, j: Key, t: Tid, h: Option<Tid>) {
    (w == PendsOn(j) ==> h == Some(t)) && w != EndedBy(Handoff)
  }

  /** Handing over on `j`, the control block being `c` by then: only on `j` does somebody start to pend. */
  lemma HandNew(s: State, s1: State, j: Key, t: Tid, c: Tcb, w: Sign, h: Option<Tid>)
    requires s1.tasks == s.tasks[t := c] && c.call == Some(j) && c.wait.Some? && T(s, t).state == Blocked && HandedOn(w, j, t, h)
    ensures NoNew(s, Notify(Wake(s1, t, Handoff), t), w, h)
  {
    hide Wake, NoNew;
    var s2 := Notify(Wake(s1, t, Handoff), t);
    assert s2.tasks == s.tasks[t := Woken(c, Handoff)];
    NoNewOne(s, s2, t, Woken(c, Handoff), w, h);
  }

  lemma TakeNew(s: State, i: nat, ms: nat, w: Sign, h: Option<Tid>)
    requires ms == 0 || TheSem(s, i).count > 0 || TaskCalls(s)
    ensures NoNew(s, SemTake(s, i, ms), w, h) && NoNew(s, SemTryTake(s, i), w, h)
  {
    hide Park, NoNew;
    NoNewSame(s, SemTryTake(s, i), w, h);
    if TaskCalls(s) { ParkNew(s, T(s, Cur(s)), SemKey(i), ms, w, h); }
  }

  lemma GiveNew(s: State, i: nat, w: Sign, h: Option<Tid>)
    requires Inv(s) && (L(s, SemKey(i)) != [] ==> HandedOn(w, SemKey(i), L(s, SemKey(i))[0], h))
    ensures NoNew(s, SemGive(s, i), w, h)
  {
    hide Inv, Wake, Notify, SemGive, NoNew;
    var l, m := L(s, SemKey(i)), TheSem(s, i);
    GiveShape(s, i);
    if l == [] {
      NoNewSame(s, SemGive(s, i), w, h);
    } else {
      HeadCalls(s, SemKey(i));
      assert s.tasks[l[0] := s.tasks[l[0]]] == s.tasks;
      HandNew(s, s.(sems := s.sems[i := m.(gives := m.gives + 1, granted := m.granted + 1)]), SemKey(i), l[0], s.tasks[l[0]], w, h);
    }
  }

  lemma SendNew(s: State, q: nat, x: Bytes, ms: nat, w: Sign, h: Option<Tid>)
    requires Inv(s) && (ms == 0 || CanSend(s, q) || TaskCalls(s))
    requires L(s, RecvKey(q)) != [] ==> HandedOn(w, RecvKey(q), L(s, RecvKey(q))[0], h)
    ensures NoNew(s, QueueSend(s, q, x, ms), w, h)
  {
    hide Inv, Wake, Notify, Park, QueueSend, NoNew;
    var l, b := L(s, RecvKey(q)), TheQueue(s, q);
    SendShape(s, q, x, ms);
    if l != [] {
      HeadCalls(s, RecvKey(q));
      var c := s.tasks[l[0]].(item := x, ticket := |b.delivered|);
      var b1 := b.(accepted := b.accepted + [x], delivered := b.delivered + [x]);
      HandNew(s, Edit(s, l[0], c).(queues := s.queues[q := b1]), RecvKey(q), l[0], c, w, h);
    } else if |b.ring| < b.capacity || ms == 0 {
      NoNewSame(s, QueueSend(s, q, x, ms), w, h);
    } else {
      ParkNew(s, T(s, Cur(s)).(item := x), SendKey(q), ms, w, h);
    }
  }

  lemma ReceiveNew(s: State, q: nat, ms: nat, w: Sign, h: Option<Tid>)
    requires Inv(s) && (ms == 0 || CanReceive(s, q) || TaskCalls(s))
    requires CanReceive(s, q) && L(s, SendKey(q)) != [] ==> HandedOn(w, SendKey(q), L(s, SendKey(q))[0], h)
    ensures NoNew(s, QueueReceive(s, q, ms), w, h)
  {
    hide Inv, Wake, Notify, Park, QueueReceive, NoNew;
    var l, b := L(s, SendKey(q)), TheQueue(s, q);
    ReceiveShape(s, q, ms);
    if b.ring != [] && l != [] {
      HeadCalls(s, SendKey(q));
      var c := s.tasks[l[0]].(ticket := |b.accepted|);
      HandNew(s, Edit(s, l[0], c).(queues := QueueReceive(s, q, ms).queues), SendKey(q), l[0], c, w, h);
    } else if b.ring != [] || ms == 0 {
      NoNewSame(s, QueueReceive(s, q, ms), w, h);
    } else {
      ParkNew(s, T(s, Cur(s)), RecvKey(q), ms, w, h);
    }
  }

  // ---------------------------------------------------------------- mutexes, events

  lemma PriorityNew(s: State, t: Tid, p: nat, w: Sign, h: Option<Tid>)
    requires t in s.tasks
    ensures NoNew(s, SetPriority(s, t, p), w, h)
  {
    hide SetPriority, NoNew;
    NoNewOne(s, SetPriority(s, t, p), t, T(s, t).(prio := p), w, h);
  }

  lemma LockNew(s: State, m: nat, w: Sign, h: Option<Tid>)
    requires Inv(s) && Enabled(s, ALock(m))
    ensures NoNew(s, Lock(s, m), w, h)
  {
    hide Inv, Park, SetPriority, Hold, NoNew, TaskOk;
    var t := Cur(s);
    Calling(s);
    NoNewSame(s, s, w, h);
    match s.owners[m]
    case None => NoNewOne(s, Hold(s, m, t), t, s.tasks[t].(held := [m] + s.tasks[t].held), w, h);
    case Some(o) =>
      if o != t {
        LockFacts(s, m, o);
        BusyNew(s, m, o, w, h);
      }
  }

  lemma BusyNew(s: State, m: nat, o: Tid, w: Sign, h: Option<Tid>)
    requires Owner(s, m) == Some(o) && o != Cur(s) && o in s.tasks && TaskCalls(s)
    ensures NoNew(s, Lock(s, m), w, h)
  {
    hide Park, SetPriority, NoNew;
    var t := Cur(s);
    var s1 := if s.tasks[t].prio > s.tasks[o].prio then SetPriority(s, o, s.tasks[t].prio) else s;
    NoNewSame(s, s, w, h);
    PriorityNew(s, o, s.tasks[t].prio, w, h);
    ParkNew(s1, s.tasks[t], MutexKey(m), WAIT_FOREVER, w, h);
    NoNewTrans(s, s1, Lock(s, m), w, h);
  }

  lemma PassNew(s: State, m: nat, w: Sign, h: Option<Tid>)
    requires L(s, MutexKey(m)) != [] ==>
      var t := L(s, MutexKey(m))[0];
      T(s, t).call == Some(MutexKey(m)) && T(s, t).wait.Some? && T(s, t).state == Blocked && HandedOn(w, MutexKey(m), t, h)
    ensures NoNew(s, PassOn(s, m), w, h)
  {
    hide Wake, Notify, NoNew;
    var l := L(s, MutexKey(m));
    if l == [] {
      NoNewSame(s, PassOn(s, m), w, h);
    } else {
      HandNew(s, Hold(s, m, l[0]), MutexKey(m), l[0], T(s, l[0]).(held := [m] + T(s, l[0]).held), w, h);
    }
  }

  lemma SettleNew(s: State, t: Tid, w: Sign, h: Option<Tid>)
    requires t in s.tasks
    ensures NoNew(s, Settle(s, t), w, h)
  {
    hide SetPriority, Recompute, NoNew;
    NoNewSame(s, s, w, h);
    NoNewOne(s, Settle(s, t), t, T(s, t).(prio := Recompute(s, t)), w, h) by { SettleTcb(s, t); }
  }

  lemma SettleTcb(s: State, t: Tid)
    requires t in s.tasks
    ensures Settle(s, t).tasks == s.tasks[t := s.tasks[t].(prio := Recompute(s, t))]
  {
    hide SetPriority, Recompute;
    assert s.tasks[t := s.tasks[t]] == s.tasks;
  }

  lemma UnlockNew(s: State, m: nat, w: Sign, h: Option<Tid>)
    requires Inv(s) && Enabled(s, AUnlock(m))
    requires Owner(s, m) == s.current && L(s, MutexKey(m)) != [] ==> HandedOn(w, MutexKey(m), L(s, MutexKey(m))[0], h)
    ensures NoNew(s, Unlock(s, m), w, h)
  {
    hide Inv, PassOn, Settle, Dropped, NoNew;
    var t := Cur(s);
    NoNewSame(s, s, w, h);
    if Owner(s, m) == Some(t) {
      var c := s.tasks[t].(held := Without(s.tasks[t].held, m));
      var s0 := Edit(s, t, c);
      if L(s, MutexKey(m)) != [] { HeadCalls(s, MutexKey(m)); }
      NoNewOne(s, s0, t, c, w, h);
      PassNew(s0, m, w, h);
      DropInv(s, m);
      PassLater(s0, m, t);
      SettleNew(PassOn(s0, m), t, w, h);
      NoNewTrans(s, s0, PassOn(s0, m), w, h);
      NoNewTrans(s, PassOn(s0, m), Unlock(s, m), w, h);
    }
  }

  lemma ServeNew(s: State, e: nat, l: seq<Tid>, w: Sign, h: Option<Tid>)
    requires Scanning(s, e, l) && l != [] && w != PendsOn(EventKey(e)) && w != EndedBy(Handoff)
    ensures NoNew(s, Serve(s, e, l[0]), w, h)
  {
    hide Wake, Mark, TasksBut, Linked, Rest, Positive, Preemptive, NoNew;
    var t := l[0];
    assert Unvisited(s, e, t, s.tasks[t]);
    HandNew(s, Mark(s, e, t), EventKey(e), t, s.tasks[t].(bits := Bits(s, e)), w, h);
  }

  lemma {:induction false} ScanNew(s: State, e: nat, l: seq<Tid>, w: Sign, h: Option<Tid>)
    requires Scanning(s, e, l) && w != PendsOn(EventKey(e)) && w != EndedBy(Handoff)
    ensures NoNew(s, Scan(s, e, l), w, h)
    decreases |l|
  {
    hide Scanning, NoNew, Serve, Satisfies;
    if l == [] {
      NoNewSame(s, s, w, h);
    } else if Satisfies(Bits(s, e), T(s, l[0]).mask, T(s, l[0]).all) {
      ServeScanning(s, e, l);
      ServeNew(s, e, l, w, h);
      ScanNew(Serve(s, e, l[0]), e, l[1..], w, h);
      NoNewTrans(s, Serve(s, e, l[0]), Scan(s, e, l), w, h);
    } else {
      SkipScanning(s, e, l);
      ScanNew(s, e, l[1..], w, h);
    }
  }

  lemma EventNew(s: State, e: nat, mask: bv32, w: Sign, h: Option<Tid>)
    requires Inv(s) && e in s.events && w != PendsOn(EventKey(e)) && w != EndedBy(Handoff)
    ensures NoNew(s, EventSet(s, e, mask), w, h)
  {
    hide Inv, Scanning, Scan, NoNew;
    var s1 := SetBits(s, e, Plus(Bits(s, e), mask));
    StartScanning(s, e, Plus(Bits(s, e), mask));
    ScanNew(s1, e, L(s, EventKey(e)), w, h);
    NoNewSame(s, s1, w, h);
    NoNewTrans(s, s1, EventSet(s, e, mask), w, h);
  }

  lemma EventWaitNew(s: State, e: nat, mask: bv32, all: bool, clear: bool, ms: nat, w: Sign, h: Option<Tid>)
    requires TaskCalls(s)
    ensures NoNew(s, EventWait(s, e, mask, all, clear, ms), w, h)
  {
    hide Park, Satisfies, NoNew, Minus;
    if mask == 0 || Satisfies(Bits(s, e), mask, all) || ms == 0 {
      NoNewSame(s, EventWait(s, e, mask, all, clear, ms), w, h);
    } else {
      ParkNew(s, T(s, Cur(s)).(mask := mask, all := all, clear := clear), EventKey(e), ms, w, h);
    }
  }

  // ---------------------------------------------------------------- one step

  /** Who comes to show `w` by action `a`, if anybody. */
  predicate Explains(s: State, a: Action, w: Sign, h: Option<Tid>) {
    match w
    case PendsOn(k) => h == HandsTo(s, a, k) && !(k.EventKey? && a.AEventSet? && a.e == k.event)
    case EndedBy(Handoff) => false
    case EndedBy(Timeout) => a != ATick
    case EndedBy(Cancelled) => a.ASuspend? || a.ADelete? ==> h == Some(a.t)
    case Active => a.ACreate? || a.AStart? || a.AResume? || a.ADelete? ==> h == Some(a.t)
  }

  lemma HandingNew(s: State, a: Action, w: Sign, h: Option<Tid>)
    requires Inv(s) && Enabled(s, a) && Explains(s, a, w, h) && (a.ASemGive? || a.AQueueSend? || a.AQueueReceive?)
    ensures NoNew(s, Step(s, a), w, h)
  {
    hide Inv, NoNew, SemGive, QueueSend, QueueReceive;
    match a
    case ASemGive(i) => GiveNew(s, i, w, h);
    case AQueueSend(q, x, ms) => SendNew(s, q, x, ms, w, h);
    case AQueueReceive(q, ms) => ReceiveNew(s, q, ms, w, h);
  }

  lemma UnlocksNew(s: State, m: nat, w: Sign, h: Option<Tid>)
    requires Inv(s) && Enabled(s, AUnlock(m)) && Explains(s, AUnlock(m), w, h)
    ensures NoNew(s, Unlock(s, m), w, h)
  {
    hide Inv, NoNew, Unlock;
    UnlockNew(s, m, w, h);
  }

  lemma ObjectNew(s: State, a: Action, w: Sign, h: Option<Tid>)
    requires Inv(s) && Enabled(s, a) && Explains(s, a, w, h) && OnObjects(a)
    ensures NoNew(s, Step(s, a), w, h)
  {
    hide Inv, NoNew, SemTake, SemTryTake, SemGive, Lock, Unlock, QueueSend, QueueReceive, EventWait, EventSet, HandsTo;
    match a
    case ASemTake(i, ms) => TakeNew(s, i, ms, w, h);
    case ASemTryTake(i) => TakeNew(s, i, 0, w, h);
    case ASemGive(i) => HandingNew(s, a, w, h);
    case ALock(m) => LockNew(s, m, w, h);
    case AUnlock(m) => UnlocksNew(s, m, w, h);
    case AQueueSend(q, x, ms) => HandingNew(s, a, w, h);
    case AQueueReceive(q, ms) => HandingNew(s, a, w, h);
    case AEventWait(e, mask, all, clear, ms) => EventWaitNew(s, e, mask, all, clear, ms, w, h);
    case AEventSet(e, mask) => EventNew(s, e, mask, w, h);
    case AEventClear(e, mask) => NoNewSame(s, EventClear(s, e, mask), w, h);
  }

  lemma StepShows(s: State, a: Action, w: Sign, h: Option<Tid>)
    requires Inv(s) && Enabled(s, a) && Explains(s, a, w, h)
    ensures NoNew(s, Step(s, a), w, h)
  {
    hide Inv, NoNew, Create, Start, Switch, Tick, Sleep, Halt, HandsTo;
    NoNewSame(s, s, w, h);
    if OnObjects(a) {
      ObjectNew(s, a, w, h);
      return;
    }
    match a
    case ACreate(t, p) => CreateNew(s, t, p, w, h);
    case AStart(t) => CreateNew(s, t, 0, w, h);
    case ASwitch => SwitchNew(s, w, h);
    case ATick => TickNew(s, w, h);
    case ADelayMs(ms) => SleepNew(s, MsToTicks(ms), w, h);
    case ADelayUntil(wake) => if Remaining(wake, s.tick) > 0 { SleepNew(s, Remaining(wake, s.tick), w, h); }
    case ASuspend(t) => HaltNew(s, t, Suspended, w, h);
    case AResume(t) => ResumeNew(s, t, w, h);
    case ADelete(t) => HaltNew(s, t, Deleted, w, h);
    case AReturn => NoNewOne(s, Return(s), Cur(s), T(s, Cur(s)).(call := None), w, h);
  }

  /** An action makes nobody pend on a counted list but the waiter it hands something to. */
  lemma StepNew(s: State, a: Action, k: Key, t: Tid)
    requires Inv(s) && Enabled(s, a) && Counted(k)
    ensures Pends(T(Step(s, a), t), k) ==> Pends(T(s, t), k) || HandsTo(s, a, k) == Some(t)
  {
    hide Inv, Step, Enabled, HandsTo, Pends;
    StepShows(s, a, PendsOn(k), HandsTo(s, a, k));
    assert Shows(T(Step(s, a), t), PendsOn(k)) ==> Shows(T(s, t), PendsOn(k)) || HandsTo(s, a, k) == Some(t);
  }
}
