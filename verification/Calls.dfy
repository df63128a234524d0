/** Blocking calls from their arguments to their answers. */
module Calls {
  import opened Lists
  import opened Model
  import opened Structure
  import opened Delays
  import opened Invariant
  import opened Preservation
  import opened EventScan
  import opened Mutexes
  import opened Scheduling
  import opened Fields
  import opened Evolution
  import opened Runs
  import opened Timing
  import opened Properties
  import opened EventBits
  import opened EventFold

  /** The wait list the caller is parked on, if the call cannot be answered at once. */
  ghost function ParksOn(s: State, a: Action): Option<Key> {
    match a
    case ASemTake(i, ms) => if ms > 0 && TheSem(s, i).count == 0 then Some(SemKey(i)) else None
    case ALock(m) => if Owner(s, m) != None && Owner(s, m) != s.current then Some(MutexKey(m)) else None
    case AQueueSend(q, x, ms) => if ms > 0 && !CanSend(s, q) then Some(SendKey(q)) else None
    case AQueueReceive(q, ms) => if ms > 0 && !CanReceive(s, q) then Some(RecvKey(q)) else None
    case AEventWait(e, mask, all, clear, ms) =>
      if mask != 0 && ms > 0 && !Met(Bits(s, e), mask, all) then Some(EventKey(e)) else None
    case _ => None
  }

  /** The timeout the caller passed. */
  function Limit(a: Action): nat {
    match a
    case ASemTake(i, ms) => ms
    case AQueueSend(q, x, ms) => ms
    case AQueueReceive(q, ms) => ms
    case AEventWait(e, mask, all, clear, ms) => ms
    case _ => WAIT_FOREVER
  }

  /** The control block of a task that has just been parked by `a` on `k`. */
  ghost predicate ParkedBy(c: Tcb, a: Action, k: Key) {
    && c.state == Blocked && c.wait == Some(k) && c.call == Some(k) && c.cause == None && !c.expired
    && (a.AQueueSend? ==> c.item == a.x)
    && (a.AEventWait? ==> c.mask == a.emask && c.all == a.all && c.clear == a.clear)
  }

  ghost predicate Armed(due: map<Tid, nat>, t: Tid, ms: nat) {
    if ms == WAIT_FOREVER then t !in due else t in due && due[t] == MsToTicks(ms)
  }

  lemma ParkArms(s: State, c: Tcb, k: Key, ms: nat)
    requires Inv(s) && TaskCalls(s) && 0 < ms <= UINT32_MAX
    ensures T(Park(s, c, k, ms), Cur(s)) == Parked(c, k) && Armed(Due(Park(s, c, k, ms).delay), Cur(s), ms)
  {
    hide Inv, Put;
    Calling(s);
    ClockOf(s);
    ParkDelay(s, c, k, ms);
  }

  lemma LockParks(s: State, m: nat)
    requires Inv(s) && Enabled(s, ALock(m)) && ParksOn(s, ALock(m)).Some?
    ensures ParkedBy(T(Lock(s, m), Cur(s)), ALock(m), MutexKey(m)) && Armed(Due(Lock(s, m).delay), Cur(s), WAIT_FOREVER)
  {
    hide Inv, Put, SetPriority;
    Calling(s);
    LockFactsOf(s, m);
  }

  lemma LockFactsOf(s: State, m: nat)
    requires Inv(s) && Owner(s, m).Some?
    ensures Owner(s, m).value in s.tasks
  {
    hide Linked, TasksBut, Positive, Preemptive;
    assert OwnAt(s.tasks, s.owners, m, Owner(s, m).value);
  }

  /** A call that parks leaves the caller waiting with its own arguments, and with exactly its
      own timeout armed. */
  lemma CallParks(s: State, a: Action)
    requires Inv(s) && Enabled(s, a) && ParksOn(s, a).Some?
    ensures TaskCalls(s) && 0 < Limit(a) <= UINT32_MAX
    ensures ParkedBy(T(Step(s, a), Cur(s)), a, ParksOn(s, a).value)
    ensures Armed(Due(Step(s, a).delay), Cur(s), Limit(a))
  {
    hide Inv, Park, Lock, Satisfies, Met, Due;
    if a.AEventWait? { MetBits(Bits(s, a.e), a.emask, a.all); }
    match a
    case ASemTake(i, ms) => ParkArms(s, T(s, Cur(s)), SemKey(i), ms);
    case ALock(m) => LockParks(s, m);
    case AQueueSend(q, x, ms) => ParkArms(s, T(s, Cur(s)).(item := x), SendKey(q), ms);
    case AQueueReceive(q, ms) => ParkArms(s, T(s, Cur(s)), RecvKey(q), ms);
    case AEventWait(e, mask, all, clear, ms) =>
      ParkArms(s, T(s, Cur(s)).(mask := mask, all := all, clear := clear), EventKey(e), ms);
  }

  /** The caller runs on, outside any call. */
  ghost predicate RunsOn(s: State, s': State) {
    s'.current == s.current && T(s', Cur(s)).state == Running && T(s', Cur(s)).call == None
  }

  lemma SameRunsOn(s: State, s': State)
    requires TaskCalls(s) && s'.tasks == s.tasks && s'.current == s.current
    ensures RunsOn(s, s')
  {
  }

  lemma HandRunsOn(s: State, s1: State, t: Tid)
    requires TaskCalls(s) && t != Cur(s) && T(s1, Cur(s)) == T(s, Cur(s)) && s1.current == s.current
    ensures RunsOn(s, Notify(Wake(s1, t, Handoff), t))
  {
    hide Wake, Preempts;
  }

  lemma GiveRunsOn(s: State, i: nat)
    requires Inv(s) && TaskCalls(s)
    ensures RunsOn(s, SemGive(s, i))
  {
    hide Inv, Wake, Notify, SemGive, RunsOn, TaskOk;
    GiveShape(s, i);
    if L(s, SemKey(i)) == [] {
      SameRunsOn(s, SemGive(s, i));
    } else {
      Waiting(s, SemKey(i));
      var m := TheSem(s, i);
      HandRunsOn(s, s.(sems := s.sems[i := m.(gives := m.gives + 1, granted := m.granted + 1)]), L(s, SemKey(i))[0]);
    }
  }

  lemma SendRunsOn(s: State, q: nat, x: Bytes, ms: nat)
    requires Inv(s) && TaskCalls(s) && (ms == 0 || CanSend(s, q))
    ensures RunsOn(s, QueueSend(s, q, x, ms))
  {
    hide Inv, Wake, Notify, Park, QueueSend, RunsOn, TaskOk;
    SendShape(s, q, x, ms);
    if L(s, RecvKey(q)) == [] {
      SameRunsOn(s, QueueSend(s, q, x, ms));
    } else {
      Waiting(s, RecvKey(q));
      var t, b := L(s, RecvKey(q))[0], TheQueue(s, q);
      var b1 := b.(accepted := b.accepted + [x], delivered := b.delivered + [x]);
      HandRunsOn(s, Edit(s, t, T(s, t).(item := x, ticket := |b.delivered|)).(queues := s.queues[q := b1]), t);
    }
  }

  lemma ReceiveRunsOn(s: State, q: nat, ms: nat)
    requires Inv(s) && TaskCalls(s) && (ms == 0 || CanReceive(s, q))
    ensures RunsOn(s, QueueReceive(s, q, ms))
  {
    hide Inv, Wake, Notify, Park, QueueReceive, RunsOn, TaskOk;
    ReceiveShape(s, q, ms);
    if L(s, SendKey(q)) == [] || !CanReceive(s, q) {
      SameRunsOn(s, QueueReceive(s, q, ms));
    } else {
      Waiting(s, SendKey(q));
      var t, b := L(s, SendKey(q))[0], TheQueue(s, q);
      HandRunsOn(s, Edit(s, t, T(s, t).(ticket := |b.accepted|)).(queues := QueueReceive(s, q, ms).queues), t);
    }
  }

  lemma UnlockRunsOn(s: State, m: nat)
    requires Inv(s) && Enabled(s, AUnlock(m))
    ensures RunsOn(s, Unlock(s, m))
  {
    hide Inv, PassOn, Settle, Dropped;
    var t := Cur(s);
    if Owner(s, m) != Some(t) {
      SameRunsOn(s, s);
    } else {
      var s0 := Edit(s, t, s.tasks[t].(held := Without(s.tasks[t].held, m)));
      DropInv(s, m);
      PassRunsOn(s0, m, t);
      SettleRunsOn(PassOn(s0, m), t);
    }
  }

  lemma PassRunsOn(s: State, m: nat, t: Tid)
    requires Dropped(s, m, t)
    ensures t in PassOn(s, m).tasks && PassOn(s, m).tasks[t] == s.tasks[t] && PassOn(s, m).current == s.current
  {
    hide Wake, Linked, TasksBut, Objects, Present, Clock, Positive, Preemptive;
    if L(s, MutexKey(m)) != [] { GrantWoken(s, m, t); }
  }

  lemma SettleRunsOn(s: State, t: Tid)
    requires t in s.tasks
    ensures var c := T(Settle(s, t), t); c.state == s.tasks[t].state && c.call == s.tasks[t].call && Settle(s, t).current == s.current
  {
    hide SetPriority, Recompute;
  }

  lemma EventRunsOn(s: State, a: Action)
    requires Inv(s) && Enabled(s, a) && TaskCalls(s) && ParksOn(s, a) == None && (a.AEventWait? || a.AEventSet? || a.AEventClear?)
    ensures RunsOn(s, Step(s, a))
  {
    hide Inv, Satisfies, Met, Park, Minus, EventSet;
    match a
    case AEventWait(e, mask, all, clear, ms) => MetBits(Bits(s, e), mask, all);
    case AEventSet(e, mask) => ScanRunsOn(s, e, mask);
    case AEventClear(e, mask) =>
  }

  lemma ScanRunsOn(s: State, e: nat, mask: bv32)
    requires Inv(s) && e in s.events && TaskCalls(s)
    ensures RunsOn(s, EventSet(s, e, mask))
  {
    hide Inv, Scanning, Scan, Linked, TasksBut, Plus;
    StartScanning(s, e, Plus(Bits(s, e), mask));
    NotWaiting(s, EventKey(e));
    ScanOthers(SetBits(s, e, Plus(Bits(s, e), mask)), e, L(s, EventKey(e)), Cur(s));
  }

  lemma NotWaiting(s: State, k: Key)
    requires Inv(s) && TaskCalls(s) && !k.ReadyKey?
    ensures Cur(s) !in L(s, k)
  {
    hide TasksBut, Rest, Positive, Preemptive;
    assert Cur(s) in L(s, k) <==> Belongs(s, Cur(s), k);
  }

  /** A call that need not park leaves its caller running, outside any call. */
  lemma AnswersAtOnce(s: State, a: Action)
    requires Inv(s) && Enabled(s, a) && OnObjects(a) && TaskCalls(s) && ParksOn(s, a) == None
    ensures RunsOn(s, Step(s, a))
  {
    hide Inv, RunsOn, SemGive, QueueSend, QueueReceive, Lock, Unlock, EventWait, EventSet, EventClear, Park, Met, T;
    match a
    case ASemTake(i, ms) => SameRunsOn(s, SemTryTake(s, i));
    case ASemTryTake(i) => SameRunsOn(s, SemTryTake(s, i));
    case ALock(m) => LockRunsOn(s, m);
    case AUnlock(m) => UnlockRunsOn(s, m);
    case AEventWait(e, mask, all, clear, ms) => EventRunsOn(s, a);
    case AEventSet(e, mask) => EventRunsOn(s, a);
    case AEventClear(e, mask) => EventRunsOn(s, a);
    case ASemGive(i) => GiveRunsOn(s, i);
    case AQueueSend(q, x, ms) => SendRunsOn(s, q, x, ms);
    case AQueueReceive(q, ms) => ReceiveRunsOn(s, q, ms);
  }

  lemma LockRunsOn(s: State, m: nat)
    requires Enabled(s, ALock(m)) && (Owner(s, m) == None || Owner(s, m) == s.current)
    ensures RunsOn(s, Lock(s, m))
  {
    hide Park, SetPriority;
  }

  /** `l1` is `l` with `t` behind the members of at least its priority and before the others. */
  ghost predicate Behind(s: State, l: seq<Tid>, l1: seq<Tid>, t: Tid) {
    exists i: nat :: BehindAt(s, l, l1, t, i)
  }

  ghost predicate BehindAt(s: State, l: seq<Tid>, l1: seq<Tid>, t: Tid, i: nat) {
    && i <= |l| && l1 == l[..i] + [t] + l[i..]
    && (forall j :: 0 <= j < i ==> T(s, l[j]).prio >= T(s, t).prio)
    && (forall j :: i <= j < |l| ==> T(s, l[j]).prio < T(s, t).prio)
  }

  lemma InsertBehind(s: State, tasks: map<Tid, Tcb>, l: seq<Tid>, t: Tid)
    requires forall x :: x in l ==> (if x in tasks then tasks[x].prio else 0) == T(s, x).prio
    requires Descending(Prios(s.tasks, l))
    ensures Behind(s, l, InsertByPriority(tasks, l, t, T(s, t).prio), t)
  {
    var ps := Prios(tasks, l);
    var i := InsertPos(ps, T(s, t).prio);
    forall j | 0 <= j < |l| ensures ps[j] == T(s, l[j]).prio == Prios(s.tasks, l)[j] { assert l[j] in l; }
    assert BehindAt(s, l, InsertByPriority(tasks, l, t, T(s, t).prio), t, i);
  }

  lemma ListDescends(s: State, k: Key)
    requires Linked(s) && !k.ReadyKey?
    ensures Descending(Prios(s.tasks, L(s, k)))
  {
  }

  lemma ParkBehind(s: State, c: Tcb, k: Key, ms: nat)
    requires Linked(s) && TaskCalls(s) && !k.ReadyKey? && c.prio == T(s, Cur(s)).prio
    ensures Behind(s, L(s, k), L(Park(s, c, k, ms), k), Cur(s))
  {
    hide Behind, InsertByPriority, Linked, Park;
    ParkFields(s, c, k, ms);
    var tasks' := s.tasks[Cur(s) := Parked(c, k)];
    assert Park(s, c, k, ms).lists == PutIn(tasks', s.lists, k, Cur(s));
    assert L(Park(s, c, k, ms), k) == InsertByPriority(tasks', L(s, k), Cur(s), T(s, Cur(s)).prio);
    ListDescends(s, k);
    InsertBehind(s, tasks', L(s, k), Cur(s));
  }

  /** Lifting an owner does not touch the list of its mutex. */
  lemma LiftKeepsList(s: State, o: Tid, p: nat, k: Key)
    requires Linked(s) && o in s.tasks && s.tasks[o].wait != Some(k) && !k.ReadyKey?
    requires s.tasks[o].wait.Some? ==> !s.tasks[o].wait.value.ReadyKey?
    ensures L(SetPriority(s, o, p), k) == L(s, k) && forall x :: x != o ==> T(SetPriority(s, o, p), x) == T(s, x)
  {
    hide Linked, InsertByPriority, Put;
    if s.tasks[o].prio != p { PriorityFields(s, o, p); }
  }

  lemma SameBehind(s: State, s1: State, l: seq<Tid>, l1: seq<Tid>, t: Tid)
    requires Behind(s1, l, l1, t) && T(s1, t) == T(s, t) && forall x :: x in l ==> T(s1, x) == T(s, x)
    ensures Behind(s, l, l1, t)
  {
    hide T;
    var i: nat :| BehindAt(s1, l, l1, t, i);
    forall j | 0 <= j < |l| ensures T(s1, l[j]) == T(s, l[j]) { assert l[j] in l; }
    assert BehindAt(s, l, l1, t, i);
  }

  lemma LockBehind(s: State, m: nat)
    requires Inv(s) && Enabled(s, ALock(m)) && ParksOn(s, ALock(m)).Some?
    ensures Behind(s, L(s, MutexKey(m)), L(Lock(s, m), MutexKey(m)), Cur(s))
  {
    hide Inv, Linked, Behind, Park, SetPriority, TcbOk;
    var t, o, k := Cur(s), Owner(s, m).value, MutexKey(m);
    LockFacts(s, m, o);
    LinksOf(s);
    OwnerElsewhere(s, m, o);
    Calling(s);
    if s.tasks[t].prio > s.tasks[o].prio {
      var s1 := SetPriority(s, o, s.tasks[t].prio);
      PriorityLinked(s, o, s.tasks[t].prio);
      LiftKeepsList(s, o, s.tasks[t].prio, k);
      ParkBehind(s1, T(s1, t), k, WAIT_FOREVER);
      SameBehind(s, s1, L(s, k), L(Lock(s, m), k), t);
    } else {
      ParkBehind(s, T(s, t), k, WAIT_FOREVER);
    }
  }

  lemma OwnerElsewhere(s: State, m: nat, o: Tid)
    requires Inv(s) && Owner(s, m) == Some(o)
    ensures o in s.tasks && s.tasks[o].wait != Some(MutexKey(m)) && o !in L(s, MutexKey(m))
    ensures s.tasks[o].wait.Some? ==> !s.tasks[o].wait.value.ReadyKey?
  {
    hide Positive, Preemptive, Objects, Present, Clock, Sited, Ticket;
    assert OwnAt(s.tasks, s.owners, m, o);
    assert TaskOk(s, o, s.tasks[o]);
    assert o in L(s, MutexKey(m)) <==> Belongs(s, o, MutexKey(m));
  }

  /** Who parks goes behind the waiters of at least its priority and before the others: among
      equals first come, first served. */
  lemma JoinsBehind(s: State, a: Action)
    requires Inv(s) && Enabled(s, a) && ParksOn(s, a).Some?
    ensures var k := ParksOn(s, a).value; Behind(s, L(s, k), L(Step(s, a), k), Cur(s))
  {
    hide Inv, Linked, Park, Lock, Satisfies, Met, Behind;
    LinksOf(s);
    if a.AEventWait? { MetBits(Bits(s, a.e), a.emask, a.all); }
    match a
    case ASemTake(i, ms) => ParkBehind(s, T(s, Cur(s)), SemKey(i), ms);
    case ALock(m) => LockBehind(s, m);
    case AQueueSend(q, x, ms) => ParkBehind(s, T(s, Cur(s)).(item := x), SendKey(q), ms);
    case AQueueReceive(q, ms) => ParkBehind(s, T(s, Cur(s)), RecvKey(q), ms);
    case AEventWait(e, mask, all, clear, ms) =>
      ParkBehind(s, T(s, Cur(s)).(mask := mask, all := all, clear := clear), EventKey(e), ms);
  }

  // ---------------------------------------------------------------- until the return

  /** Until it returns, a task stays inside its call and the call keeps its arguments. */
  lemma {:induction false} CallStands(s: State, acts: seq<Action>, t: Tid)
    requires Inv(s) && Run(s, acts) && t in s.tasks && s.tasks[t].call.Some? && NoReturn(s, acts, t)
    ensures var c, c' := s.tasks[t], T(Exec(s, acts), t); c'.call == c.call && Asked(c, c')
    ensures s.tasks[t].wait == None ==> T(Exec(s, acts), t).wait == None
    decreases |acts|
  {
    hide Inv, Step, Enabled;
    if acts != [] {
      StepInv(s, acts[0]);
      StepLater(s, acts[0], t);
      CallKept(s, t);
      CallStands(Step(s, acts[0]), acts[1..], t);
    }
  }

  /** A task that waits is inside the call that waits. */
  lemma CallKept(s: State, t: Tid)
    requires Inv(s) && t in s.tasks
    ensures s.tasks[t].wait.Some? ==> s.tasks[t].call == s.tasks[t].wait && s.tasks[t].cause == None
  {
    hide Linked, Rest, Positive, Preemptive;
    assert TaskOk(s, t, s.tasks[t]);
  }

  lemma AfterPark(s: State, a: Action, acts: seq<Action>)
    requires Inv(s) && Enabled(s, a) && ParksOn(s, a).Some?
    requires Run(Step(s, a), acts) && NoReturn(Step(s, a), acts, Cur(s))
    ensures var s1, s', t := Step(s, a), Exec(Step(s, a), acts), Cur(s);
      && Inv(s1) && Inv(s') && t in s1.tasks && t in s'.tasks && ParkedBy(s1.tasks[t], a, ParksOn(s, a).value)
      && s'.tasks[t].call == ParksOn(s, a) && Asked(s1.tasks[t], s'.tasks[t])
      && (s'.tasks[t].wait.Some? ==> s'.tasks[t].wait == ParksOn(s, a))
  {
    hide Inv, Step, Enabled, ParksOn, Armed;
    var s1, t := Step(s, a), Cur(s);
    CallParks(s, a);
    StepInv(s, a);
    assert t in s1.tasks;
    CallStands(s1, acts, t);
    RunInv(s1, acts);
    CallKept(Exec(s1, acts), t);
  }

  /** What the flag says once the wait has ended: the answer of take, lock, send and receive. */
  predicate SaysTrue(c: Tcb) {
    c.wait == None && !c.expired
  }

  /** A blocking send(): from the call until its return the item offered is the caller's. A
      true answer means that this very item stands in the log of accepted items. */
  lemma SendArrives(s: State, q: nat, x: Bytes, ms: nat, acts: seq<Action>)
    requires Inv(s) && Enabled(s, AQueueSend(q, x, ms)) && ParksOn(s, AQueueSend(q, x, ms)).Some?
    requires Run(QueueSend(s, q, x, ms), acts) && NoReturn(QueueSend(s, q, x, ms), acts, Cur(s))
    ensures var s' := Exec(QueueSend(s, q, x, ms), acts); var c := T(s', Cur(s));
      c.call == Some(SendKey(q)) && c.item == x && (SaysTrue(c) ==> At(TheQueue(s', q).accepted, c.ticket, x))
  {
    hide Inv, Enabled, QueueSend, At;
    var a := AQueueSend(q, x, ms);
    AfterPark(s, a, acts);
    HandedItem(Exec(Step(s, a), acts), Cur(s));
  }

  /** A blocking receive(): a true answer means that the item in the caller's buffer stands in
      the log of delivered items at the place of this call. */
  lemma ReceiveArrives(s: State, q: nat, ms: nat, acts: seq<Action>)
    requires Inv(s) && Enabled(s, AQueueReceive(q, ms)) && ParksOn(s, AQueueReceive(q, ms)).Some?
    requires Run(QueueReceive(s, q, ms), acts) && NoReturn(QueueReceive(s, q, ms), acts, Cur(s))
    ensures var s' := Exec(QueueReceive(s, q, ms), acts); var c := T(s', Cur(s));
      c.call == Some(RecvKey(q)) && (SaysTrue(c) ==> At(TheQueue(s', q).delivered, c.ticket, c.item))
  {
    hide Inv, Enabled, QueueReceive, At;
    var a := AQueueReceive(q, ms);
    AfterPark(s, a, acts);
    HandedItem(Exec(Step(s, a), acts), Cur(s));
  }

  lemma HandedItem(s: State, t: Tid)
    requires Inv(s) && t in s.tasks && s.tasks[t].call.Some?
    ensures SaysTrue(s.tasks[t]) ==> match s.tasks[t].call
      case Some(SendKey(q)) => At(TheQueue(s, q).accepted, s.tasks[t].ticket, s.tasks[t].item)
      case Some(RecvKey(q)) => At(TheQueue(s, q).delivered, s.tasks[t].ticket, s.tasks[t].item)
      case _ => true
  {
    hide Linked, Rest, Positive, Preemptive, Sited, Reason;
    assert TaskOk(s, t, s.tasks[t]);
  }

  /** A blocking wait_bits(): until the call returns the stored condition is the caller's; while
      it is parked no reachable bits meet it; and unless it was cut short the bits it was given do. */
  lemma WaitMeets(s: State, e: nat, mask: bv32, all: bool, clear: bool, ms: nat, acts: seq<Action>)
    requires Inv(s) && Enabled(s, AEventWait(e, mask, all, clear, ms)) && ParksOn(s, AEventWait(e, mask, all, clear, ms)).Some?
    requires Run(EventWait(s, e, mask, all, clear, ms), acts)
    requires NoReturn(EventWait(s, e, mask, all, clear, ms), acts, Cur(s))
    ensures var s' := Exec(EventWait(s, e, mask, all, clear, ms), acts); var c := T(s', Cur(s));
      && c.call == Some(EventKey(e)) && c.mask == mask && c.all == all && c.clear == clear
      && (c.wait.Some? ==> !Met(Bits(s', e), mask, all))
      && (SaysTrue(c) ==> Met(c.bits, mask, all))
  {
    hide Inv, Enabled, EventWait, Met;
    var a := AEventWait(e, mask, all, clear, ms);
    AfterPark(s, a, acts);
    MetOrWaiting(Exec(Step(s, a), acts), Cur(s), e);
  }

  lemma MetOrWaiting(s: State, t: Tid, e: nat)
    requires Inv(s) && t in s.tasks && s.tasks[t].call == Some(EventKey(e))
    ensures var c := s.tasks[t];
      && (c.wait == Some(EventKey(e)) ==> !Met(Bits(s, e), c.mask, c.all))
      && (SaysTrue(c) ==> Met(c.bits, c.mask, c.all))
  {
    hide Linked, Rest, Positive, Preemptive, Sited, Ticket, Satisfies, Met;
    MetBits(Bits(s, e), s.tasks[t].mask, s.tasks[t].all);
    MetBits(s.tasks[t].bits, s.tasks[t].mask, s.tasks[t].all);
    assert TaskOk(s, t, s.tasks[t]);
  }

  // ---------------------------------------------------------------- mutual exclusion

  /** This action answers a lock() of `m` true: at once, or on returning from its wait. */
  predicate LockTrue(s: State, a: Action, m: nat) {
    || (a == ALock(m) && Owner(s, m) == None)
    || (a == AReturn && T(s, Cur(s)).call == Some(MutexKey(m)) && SaysTrue(T(s, Cur(s))))
  }

  lemma LockOwns(s: State, a: Action, m: nat)
    requires Inv(s) && Enabled(s, a) && LockTrue(s, a, m)
    ensures s.current.Some? && Owner(Step(s, a), m) == s.current
  {
    hide Linked, Positive, Preemptive, Objects, Present, Clock, ReasonIn, Sited;
    if a == AReturn {
      assert TaskOk(s, Cur(s), s.tasks[Cur(s)]);
      assert OwnAt(s.tasks, s.owners, m, Cur(s));
    }
  }

  /** Task `t` does not call unlock() on `m`. */
  ghost predicate NoUnlock(s: State, acts: seq<Action>, m: nat, t: Tid)
    decreases |acts|
  {
    acts == [] || (!(acts[0] == AUnlock(m) && s.current == Some(t)) && NoUnlock(Step(s, acts[0]), acts[1..], m, t))
  }

  /** Until it calls unlock() itself a task keeps its mutex, whatever is done to it: blocked,
      suspended, even deleted. */
  lemma {:induction false} OwnsUntilUnlock(s: State, acts: seq<Action>, m: nat, t: Tid)
    requires Inv(s) && Run(s, acts) && Owner(s, m) == Some(t) && NoUnlock(s, acts, m, t)
    ensures Owner(Exec(s, acts), m) == Some(t)
    decreases |acts|
  {
    hide Inv, Step, Enabled, Owner;
    if acts != [] {
      StepInv(s, acts[0]);
      OwnerUntilUnlock(s, acts[0], m, t);
      OwnsUntilUnlock(Step(s, acts[0]), acts[1..], m, t);
    }
  }

  /** Mutual exclusion: from a lock() answered true until the unlock() of the same task, it is
      the owner and no lock() of the mutex by another task is answered true. */
  lemma MutualExclusion(s: State, a: Action, m: nat, acts: seq<Action>)
    requires Inv(s) && Enabled(s, a) && LockTrue(s, a, m)
    requires Run(Step(s, a), acts) && NoUnlock(Step(s, a), acts, m, Cur(s))
    ensures var s' := Exec(Step(s, a), acts);
      Owner(s', m) == Some(Cur(s)) && forall b :: Enabled(s', b) && LockTrue(s', b, m) ==> s'.current == Some(Cur(s))
  {
    hide Inv, Step, Enabled, Owner, LockTrue;
    var s1, s' := Step(s, a), Exec(Step(s, a), acts);
    LockOwns(s, a, m);
    StepInv(s, a);
    OwnsUntilUnlock(s1, acts, m, Cur(s));
    RunInv(s1, acts);
    forall b | Enabled(s', b) && LockTrue(s', b, m) ensures s'.current == Some(Cur(s)) { LockByOwner(s', b, m); }
  }

  lemma LockByOwner(s: State, b: Action, m: nat)
    requires Inv(s) && Enabled(s, b) && LockTrue(s, b, m) && Owner(s, m).Some?
    ensures Owner(s, m) == s.current
  {
    hide Inv;
    LockOwns(s, b, m);
  }

  // ---------------------------------------------------------------- timeouts

  /** A wait with a timeout that goes on has been asleep all the while. */
  lemma {:induction false} WaitsAsleep(s: State, acts: seq<Action>, t: Tid)
    requires Inv(s) && Run(s, acts) && t in Due(s.delay) && T(s, t).wait.Some? && NoReturn(s, acts, t)
    ensures T(Exec(s, acts), t).wait.Some? ==> Asleep(s, acts, t) && t in Due(Exec(s, acts).delay)
    decreases |acts|
  {
    hide Inv, Step, Enabled, Due;
    if acts != [] {
      var s1 := Step(s, acts[0]);
      SleeperThere(s, t);
      CallKept(s, t);
      StepInv(s, acts[0]);
      FirstStep(s, acts[0], t);
      StepLater(s, acts[0], t);
      if t in Due(s1.delay) { WaitsAsleep(s1, acts[1..], t); } else { CallStands(s1, acts[1..], t); }
    }
  }

  lemma SleeperThere(s: State, t: Tid)
    requires Inv(s) && t in Due(s.delay)
    ensures t in s.tasks
  {
  }

  /** Timeouts of take(), send(), receive() and wait_bits(): as long as the wait goes on fewer
      ticks have passed than the caller's milliseconds rounded up; if the next action is a
      tick, it ends the wait exactly when it is the last of them, with a false answer. */
  lemma TimeoutExact(s: State, a: Action, acts: seq<Action>)
    requires Inv(s) && Enabled(s, a) && ParksOn(s, a).Some? && Limit(a) != WAIT_FOREVER
    requires Run(Step(s, a), acts + [ATick]) && NoReturn(Step(s, a), acts, Cur(s))
    requires T(Exec(Step(s, a), acts), Cur(s)).wait.Some?
    ensures Ticks(acts) < MsToTicks(Limit(a))
    ensures var c := T(Exec(Step(s, a), acts + [ATick]), Cur(s));
      if Ticks(acts) + 1 == MsToTicks(Limit(a)) then TimedOut(c, ParksOn(s, a)) else c.wait == ParksOn(s, a)
  {
    hide Inv, Step, Enabled, Due, ParksOn;
    var s1, t := Step(s, a), Cur(s);
    RunSplit(s1, acts, [ATick]);
    CallParks(s, a);
    AfterPark(s, a, acts);
    WaitsAsleep(s1, acts, t);
    OnTime(s1, acts, t);
    LastTickOf(Exec(s1, acts), t);
  }

  /** Ready after a timeout: what the call reads makes it answer false. */
  ghost predicate TimedOut(c: Tcb, k: Option<Key>) {
    c.state == Ready && c.wait == None && c.call == k && c.cause == Some(Timeout) && c.expired
  }

  lemma LastTickOf(s: State, t: Tid)
    requires Inv(s) && t in Due(s.delay) && T(s, t).wait.Some? && Run(s, [ATick])
    ensures var s', c := Exec(s, [ATick]), T(Exec(s, [ATick]), t);
      if Due(s.delay)[t] == 1 then TimedOut(c, T(s, t).wait) else c.wait == T(s, t).wait
  {
    hide Inv, Tick, Due;
    SleeperThere(s, t);
    CallKept(s, t);
    TickSleeper(s, t);
    assert Exec(s, [ATick]) == Step(s, ATick);
  }
}
