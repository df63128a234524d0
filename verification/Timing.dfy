/** Time: sleepers and timeouts are released at exactly the tick they asked for. */
module Timing {
  import opened Lists
  import opened Model
  import opened Structure
  import opened Delays
  import opened Invariant
  import opened Preservation
  import opened EventScan
  import opened Mutexes
  import opened Scheduling
  import opened Evolution
  import opened Runs

  /** How many ticks a run contains. */
  function Ticks(acts: seq<Action>): nat {
    if acts == [] then 0 else (if acts[0] == ATick then 1 else 0) + Ticks(acts[1..])
  }

  // ---------------------------------------------------------------- one step

  /** Nothing but time happens to the sleeper `t`: while it sleeps, it has the same time left
      and waits for the same thing; if it only sleeps, it goes on sleeping; if it stops
      sleeping, it no longer waits. */
  ghost predicate Undisturbed(s: State, s': State, t: Tid) {
    t in Due(s.delay) && t in s.tasks ==>
      && (t in Due(s'.delay) ==> Due(s'.delay)[t] == Due(s.delay)[t] && T(s', t).wait == T(s, t).wait)
      && (T(s, t).wait == None ==> t in Due(s'.delay))
      && (t !in Due(s'.delay) ==> T(s', t).wait == None)
  }

  lemma DelaySame(s: State, s': State, t: Tid)
    requires s'.delay == s.delay && (t in s.tasks ==> t in s'.tasks && s'.tasks[t].wait == s.tasks[t].wait)
    ensures Undisturbed(s, s', t)
  {
  }

  /** Waking another task, or one that was waiting for something. */
  lemma WakeUndisturbed(s: State, s1: State, x: Tid, cause: Cause, t: Tid)
    requires GoodDelay(s.delay) && s1.delay == s.delay && (x == t ==> T(s, t).wait.Some?)
    requires x != t && t in s.tasks ==> t in s1.tasks && s1.tasks[t] == s.tasks[t]
    ensures Undisturbed(s, Notify(Wake(s1, x, cause), x), t)
  {
    hide Wake;
    WithoutDue(s.delay, x);
  }

  lemma ParkUndisturbed(s: State, c: Tcb, k: Key, ms: nat, t: Tid)
    requires Inv(s) && TaskCalls(s) && 0 < ms <= UINT32_MAX
    ensures Undisturbed(s, Park(s, c, k, ms), t)
  {
    hide Inv, Put;
    Calling(s);
    GoodClock(s) by { ClockOf(s); }
    ParkDelay(s, c, k, ms);
  }

  lemma ClockOf(s: State)
    requires Inv(s)
    ensures Clock(s.tasks, s.delay, s.tick) && Positive(s.delay)
  {
  }

  lemma SleepUndisturbed(s: State, n: nat, t: Tid)
    requires Inv(s) && TaskCalls(s) && 0 < n <= UINT32_MAX
    ensures Undisturbed(s, Sleep(s, n), t)
  {
    hide Inv, Put;
    Calling(s);
    ClockOf(s);
    InsertDue(s.delay, Cur(s), n);
  }

  lemma HaltUndisturbed(s: State, x: Tid, st: TaskState, t: Tid)
    requires GoodDelay(s.delay) && x != t
    ensures Undisturbed(s, Halt(s, x, st), t)
  {
    hide Put;
    WithoutDue(s.delay, x);
  }

  lemma SemUndisturbed(s: State, i: nat, ms: nat, t: Tid)
    requires Inv(s) && i in s.sems && ms <= UINT32_MAX && (ms == 0 || TaskCalls(s) || s.sems[i].count > 0)
    ensures Undisturbed(s, SemTryTake(s, i), t) && Undisturbed(s, SemTake(s, i, ms), t)
  {
    hide Inv, Park, Undisturbed;
    DelaySame(s, SemTryTake(s, i), t);
    if TaskCalls(s) && ms != 0 { ParkUndisturbed(s, T(s, Cur(s)), SemKey(i), ms, t); }
  }

  lemma GiveUndisturbed(s: State, i: nat, t: Tid)
    requires Inv(s) && i in s.sems
    ensures Undisturbed(s, SemGive(s, i), t)
  {
    hide Inv, Wake, Notify, Undisturbed, TaskOk, SemGive;
    var l, m := L(s, SemKey(i)), s.sems[i];
    ClockOf(s);
    GiveShape(s, i);
    if l != [] {
      Waiting(s, SemKey(i));
      WakeUndisturbed(s, s.(sems := s.sems[i := m.(gives := m.gives + 1, granted := m.granted + 1)]), l[0], Handoff, t);
    } else {
      DelaySame(s, SemGive(s, i), t);
    }
  }

  lemma LockUndisturbed(s: State, m: nat, t: Tid)
    requires Inv(s) && Enabled(s, ALock(m))
    ensures Undisturbed(s, Lock(s, m), t)
  {
    hide Inv, SetPriority, Hold, TaskOk, Put, Park, Undisturbed;
    Calling(s);
    match s.owners[m]
    case None => DelaySame(s, Lock(s, m), t);
    case Some(o) =>
      DelaySame(s, s, t);
      if o != Cur(s) {
        LockFacts(s, m, o);
        LentUndisturbed(s, m, o, t);
      }
  }

  /** Blocking without a timeout leaves the delay list alone, and the caller was not in it. */
  lemma LentUndisturbed(s: State, m: nat, o: Tid, t: Tid)
    requires TaskCalls(s) && Owner(s, m) == Some(o) && o != Cur(s) && o in s.tasks && Cur(s) !in Due(s.delay)
    ensures Undisturbed(s, Lock(s, m), t)
  {
    hide Put, SetPriority;
  }

  lemma UnlockUndisturbed(s: State, m: nat, t: Tid)
    requires Inv(s) && Enabled(s, AUnlock(m))
    ensures Undisturbed(s, Unlock(s, m), t)
  {
    hide Inv, PassOn, Settle, Dropped, Undisturbed, TaskOk;
    var x := Cur(s);
    Calling(s);
    DelaySame(s, s, t);
    if Owner(s, m) == Some(x) {
      var s0 := Edit(s, x, T(s, x).(held := Without(T(s, x).held, m)));
      DropInv(s, m);
      DelaySame(s, s0, t);
      PassUndisturbed(s0, m, x, t);
      SettleUndisturbed(PassOn(s0, m), x, t);
      PassDelay(s0, m, x, t);
      UndisturbedTrans(s, s0, PassOn(s0, m), t);
      UndisturbedTrans(s, PassOn(s0, m), Settle(PassOn(s0, m), x), t);
    }
  }

  ghost predicate SameWait(s: State, s': State, t: Tid) {
    s'.delay == s.delay && T(s', t).wait == T(s, t).wait
  }

  /** Passing a mutex on only takes sleepers out, settling a priority none. */
  lemma PassDelay(s: State, m: nat, x: Tid, t: Tid)
    requires Dropped(s, m, x)
    ensures t in Due(PassOn(s, m).delay) ==> t in Due(s.delay)
    ensures x in PassOn(s, m).tasks ==> SameWait(PassOn(s, m), Settle(PassOn(s, m), x), t)
  {
    hide Hold, Linked, TasksBut, Objects, Present, Positive, Preemptive, Settle, Put;
    if L(s, MutexKey(m)) != [] { WithoutDue(s.delay, L(s, MutexKey(m))[0]); }
    if x in PassOn(s, m).tasks { SettleSame(PassOn(s, m), x, t); }
  }

  lemma SettleSame(s: State, x: Tid, t: Tid)
    requires x in s.tasks
    ensures SameWait(s, Settle(s, x), t)
  {
    hide SetPriority, Recompute;
  }

  lemma PassUndisturbed(s: State, m: nat, x: Tid, t: Tid)
    requires Dropped(s, m, x)
    ensures Undisturbed(s, PassOn(s, m), t) && x in PassOn(s, m).tasks && s.tasks.Keys <= PassOn(s, m).tasks.Keys
  {
    hide Wake, Hold, Linked, TasksBut, Objects, Present, Positive, Preemptive, Undisturbed;
    var l := L(s, MutexKey(m));
    if l == [] {
      DelaySame(s, PassOn(s, m), t);
    } else {
      GrantWoken(s, m, x);
      WakeUndisturbed(s, Hold(s, m, l[0]), l[0], Handoff, t);
    }
  }

  lemma SettleUndisturbed(s: State, x: Tid, t: Tid)
    requires x in s.tasks
    ensures Undisturbed(s, Settle(s, x), t)
  {
    hide SetPriority, Recompute, Undisturbed;
    DelaySame(s, Settle(s, x), t);
  }

  /** A handover to the head of a wait list, whatever is written to its control block and to the queues. */
  lemma HandUndisturbed(s: State, s1: State, k: Key, c: Tcb, t: Tid)
    requires Inv(s) && !k.ReadyKey? && L(s, k) != []
    requires s1 == s.(tasks := s.tasks[L(s, k)[0] := c], queues := s1.queues)
    ensures Undisturbed(s, Notify(Wake(s1, L(s, k)[0], Handoff), L(s, k)[0]), t)
  {
    hide Inv, Wake, Notify, Undisturbed, TaskOk;
    ClockOf(s);
    Waiting(s, k);
    WakeUndisturbed(s, s1, L(s, k)[0], Handoff, t);
  }

  lemma SendUndisturbed(s: State, q: nat, x: Bytes, ms: nat, t: Tid)
    requires Inv(s) && q in s.queues && ms <= UINT32_MAX && (ms == 0 || TaskCalls(s) || CanSend(s, q))
    ensures Undisturbed(s, QueueSend(s, q, x, ms), t)
  {
    hide Inv, Wake, Notify, Park, Undisturbed, TaskOk, QueueSend;
    var b, l := s.queues[q], L(s, RecvKey(q));
    SendShape(s, q, x, ms);
    if l != [] {
      var b1 := b.(accepted := b.accepted + [x], delivered := b.delivered + [x]);
      var c := T(s, l[0]).(item := x, ticket := |b.delivered|);
      HandUndisturbed(s, Edit(s, l[0], c).(queues := s.queues[q := b1]), RecvKey(q), c, t);
    } else if |b.ring| < b.capacity || ms == 0 {
      DelaySame(s, QueueSend(s, q, x, ms), t);
    } else {
      ParkUndisturbed(s, T(s, Cur(s)).(item := x), SendKey(q), ms, t);
    }
  }

  lemma ReceiveUndisturbed(s: State, q: nat, ms: nat, t: Tid)
    requires Inv(s) && q in s.queues && ms <= UINT32_MAX && (ms == 0 || TaskCalls(s) || CanReceive(s, q))
    ensures Undisturbed(s, QueueReceive(s, q, ms), t)
  {
    hide Inv, Wake, Notify, Park, Undisturbed, TaskOk, QueueReceive;
    var b, l := s.queues[q], L(s, SendKey(q));
    ReceiveShape(s, q, ms);
    if b.ring != [] && l != [] {
      var c := T(s, l[0]).(ticket := |b.accepted|);
      HandUndisturbed(s, Edit(s, l[0], c).(queues := QueueReceive(s, q, ms).queues), SendKey(q), c, t);
    } else if b.ring != [] || ms == 0 {
      DelaySame(s, QueueReceive(s, q, ms), t);
    } else {
      ParkUndisturbed(s, T(s, Cur(s)), RecvKey(q), ms, t);
    }
  }

  lemma UndisturbedTrans(s: State, s1: State, s2: State, t: Tid)
    requires Undisturbed(s, s1, t) && Undisturbed(s1, s2, t)
    requires (t in s.tasks ==> t in s1.tasks) && (t in Due(s2.delay) ==> t in Due(s1.delay))
    requires t in Due(s.delay) && t !in Due(s1.delay) && T(s1, t).wait == None ==> T(s2, t).wait == None
    ensures Undisturbed(s, s2, t)
  {
  }

  lemma {:induction false} ScanUndisturbed(s: State, e: nat, l: seq<Tid>, t: Tid)
    requires Scanning(s, e, l)
    ensures Undisturbed(s, Scan(s, e, l), t)
    ensures t in Due(Scan(s, e, l).delay) ==> t in Due(s.delay)
    ensures T(s, t).wait == None ==> T(Scan(s, e, l), t).wait == None
    decreases |l|
  {
    hide Scanning, Serve, Satisfies, Undisturbed;
    if l == [] {
      DelaySame(s, s, t);
    } else if Satisfies(Bits(s, e), T(s, l[0]).mask, T(s, l[0]).all) {
      var s1 := Serve(s, e, l[0]);
      ServeUndisturbed(s, e, l, t);
      ServeScanning(s, e, l);
      ScanUndisturbed(s1, e, l[1..], t);
      UndisturbedTrans(s, s1, Scan(s, e, l), t);
    } else {
      SkipScanning(s, e, l);
      ScanUndisturbed(s, e, l[1..], t);
    }
  }

  lemma ServeUndisturbed(s: State, e: nat, l: seq<Tid>, t: Tid)
    requires Scanning(s, e, l) && l != []
    ensures var s1 := Serve(s, e, l[0]);
      && Undisturbed(s, s1, t) && (t in s.tasks ==> t in s1.tasks)
      && (t in Due(s1.delay) ==> t in Due(s.delay))
      && (T(s, t).wait == None ==> T(s1, t).wait == None)
  {
    hide Scanning, Wake, Undisturbed, Due, Mark, Woken;
    FirstVisited(s, e, l);
    WithoutDue(s.delay, l[0]);
    MarkOthers(s, e, l[0], t);
    WakeUndisturbed(s, Mark(s, e, l[0]), l[0], Handoff, t);
    ServedWait(s, e, l[0], t);
  }

  lemma MarkOthers(s: State, e: nat, x: Tid, t: Tid)
    ensures var s1 := Mark(s, e, x);
      s1.delay == s.delay && (x != t && t in s.tasks ==> t in s1.tasks && s1.tasks[t] == s.tasks[t])
  {
  }

  lemma ServedWait(s: State, e: nat, x: Tid, t: Tid)
    ensures var s1 := Serve(s, e, x);
      && (t in s.tasks ==> t in s1.tasks) && s1.delay == DelayWithout(s.delay, x)
      && (T(s, t).wait == None ==> T(s1, t).wait == None)
  {
    hide Wake, Mark, Preempts;
  }

  lemma FirstVisited(s: State, e: nat, l: seq<Tid>)
    requires Scanning(s, e, l) && l != []
    ensures GoodDelay(s.delay) && l[0] in s.tasks && s.tasks[l[0]].wait == Some(EventKey(e))
  {
  }

  lemma EventUndisturbed(s: State, e: nat, mask: bv32, t: Tid)
    requires Inv(s) && e in s.events
    ensures Undisturbed(s, EventSet(s, e, mask), t)
  {
    hide Inv, Scanning, Scan;
    StartScanning(s, e, Plus(Bits(s, e), mask));
    ScanUndisturbed(SetBits(s, e, Plus(Bits(s, e), mask)), e, L(s, EventKey(e)), t);
  }

  lemma EventWaitUndisturbed(s: State, e: nat, mask: bv32, all: bool, clear: bool, ms: nat, t: Tid)
    requires Inv(s) && Enabled(s, AEventWait(e, mask, all, clear, ms))
    ensures Undisturbed(s, EventWait(s, e, mask, all, clear, ms), t)
  {
    hide Inv, Park, Satisfies, Undisturbed;
    if mask == 0 || Satisfies(Bits(s, e), mask, all) || ms == 0 {
      DelaySame(s, EventWait(s, e, mask, all, clear, ms), t);
    } else {
      ParkUndisturbed(s, T(s, Cur(s)).(mask := mask, all := all, clear := clear), EventKey(e), ms, t);
    }
  }

  /** Moving a task between lists without touching what it waits for. */
  lemma PutSame(s: State, x: Tid, st: TaskState, t: Tid)
    ensures var s' := Put(s, x, T(s, x).(state := st));
      s'.delay == s.delay && (t in s.tasks ==> t in s'.tasks && s'.tasks[t].wait == s.tasks[t].wait)
  {
    hide Put;
  }

  lemma SwitchUndisturbed(s: State, t: Tid)
    ensures Undisturbed(s, Switch(s), t)
  {
    hide Put, TopReady, Undisturbed;
    var s1 := Vacate(s);
    var top := TopReady(s1, MAX_PRIORITIES);
    PutSame(s, Cur(s), Ready, t);
    if top.Some? { PutSame(s1, L(s1, ReadyKey(top.value))[0], Running, t); }
    DelaySame(s, Switch(s), t);
  }

  lemma CreateUndisturbed(s: State, x: Tid, p: nat, t: Tid)
    requires x !in s.tasks
    ensures Undisturbed(s, Create(s, x, p), t)
  {
    hide Create, Undisturbed;
    DelaySame(s, Create(s, x, p), t);
  }

  lemma StartUndisturbed(s: State, x: Tid, t: Tid)
    requires x !in s.tasks
    ensures Undisturbed(s, Start(s, x), t)
  {
    hide Create, Undisturbed;
    DelaySame(s, Start(s, x), t);
  }

  lemma ResumeUndisturbed(s: State, x: Tid, t: Tid)
    ensures Undisturbed(s, ResumeTask(s, x), t)
  {
    hide Put, Undisturbed;
    PutSame(s, x, Ready, t);
    DelaySame(s, ResumeTask(s, x), t);
  }

  lemma ObjectUndisturbed(s: State, a: Action, t: Tid)
    requires Inv(s) && Enabled(s, a) && OnObjects(a)
    ensures Undisturbed(s, Step(s, a), t)
  {
    hide Inv, Undisturbed, SemTake, SemTryTake, SemGive, Lock, Unlock, QueueSend, QueueReceive, EventWait, EventSet;
    match a
    case ASemTake(i, ms) => SemUndisturbed(s, i, ms, t);
    case ASemTryTake(i) => SemUndisturbed(s, i, 0, t);
    case ASemGive(i) => GiveUndisturbed(s, i, t);
    case ALock(m) => LockUndisturbed(s, m, t);
    case AUnlock(m) => UnlockUndisturbed(s, m, t);
    case AQueueSend(q, x, ms) => SendUndisturbed(s, q, x, ms, t);
    case AQueueReceive(q, ms) => ReceiveUndisturbed(s, q, ms, t);
    case AEventWait(e, mask, all, clear, ms) => EventWaitUndisturbed(s, e, mask, all, clear, ms, t);
    case AEventSet(e, mask) => EventUndisturbed(s, e, mask, t);
    case AEventClear(e, mask) => DelaySame(s, EventClear(s, e, mask), t);
  }

  /** Only a tick changes the time a sleeper has left; only suspend and delete end a mere sleep. */
  lemma StepUndisturbed(s: State, a: Action, t: Tid)
    requires Inv(s) && Enabled(s, a) && a != ATick && a != ASuspend(t) && a != ADelete(t)
    ensures Undisturbed(s, Step(s, a), t)
  {
    hide Inv, Undisturbed, Create, Start, Switch, Sleep, Halt;
    DelaySame(s, s, t);
    ClockOf(s);
    if OnObjects(a) {
      ObjectUndisturbed(s, a, t);
      return;
    }
    match a
    case ACreate(x, p) => CreateUndisturbed(s, x, p, t);
    case AStart(x) => StartUndisturbed(s, x, t);
    case ASwitch => SwitchUndisturbed(s, t);
    case ADelayMs(ms) => if MsToTicks(ms) > 0 { SleepUndisturbed(s, MsToTicks(ms), t); }
    case ADelayUntil(wake) => if Remaining(wake, s.tick) > 0 { SleepUndisturbed(s, Remaining(wake, s.tick), t); }
    case ASuspend(x) => HaltUndisturbed(s, x, Suspended, t);
    case AResume(x) => ResumeUndisturbed(s, x, t);
    case ADelete(x) => HaltUndisturbed(s, x, Deleted, t);
    case AReturn => DelaySame(s, Return(s), t);
  }

  // ---------------------------------------------------------------- the tick

  /** Releasing takes out exactly the entries that stand at zero. */
  lemma {:induction false} ReleaseLeft(s: State)
    requires GoodDelay(s.delay)
    ensures var d := ReleaseDue(s).delay;
      && (forall t :: t in Due(d) <==> t in Due(s.delay) && Due(s.delay)[t] > 0)
      && (forall t :: t in Due(d) ==> Due(d)[t] == Due(s.delay)[t])
    decreases |s.delay|
  {
    hide Wake;
    if s.delay != [] {
      FrontDue(s.delay);
      if s.delay[0].left == 0 {
        WithoutDue(s.delay, s.delay[0].task);
        Shorter(s.delay);
        ReleaseLeft(Wake(s, s.delay[0].task, Timeout));
      }
    }
  }

  /** A tick takes one tick from every sleeper and releases exactly those that had one left. */
  lemma TickLeft(s: State)
    requires GoodDelay(s.delay) && Positive(s.delay)
    ensures Tick(s).tick == (s.tick + 1) % TWO_32
    ensures forall t :: t in Due(Tick(s).delay) <==> t in Due(s.delay) && Due(s.delay)[t] > 1
    ensures forall t :: t in Due(Tick(s).delay) ==> Due(Tick(s).delay)[t] == Due(s.delay)[t] - 1
  {
    hide ReleaseDue, DelayDown, NeedsPreemption, GoodDelay, Due;
    var s1 := s.(tick := (s.tick + 1) % TWO_32, delay := DelayDown(s.delay));
    DownDue(s.delay);
    DownGood(s.delay);
    ReleaseLeft(s1);
    ReleaseClock(s1);
  }

  lemma {:induction false} ReleaseClock(s: State)
    ensures ReleaseDue(s).tick == s.tick
    decreases |s.delay|
  {
    hide Wake;
    if s.delay != [] && s.delay[0].left == 0 {
      Shorter(s.delay);
      ReleaseClock(Wake(s, s.delay[0].task, Timeout));
    }
  }

  /** A released task is ready, and knows that its wait timed out if it was waiting. */
  lemma {:induction false} ReleaseReady(s: State, t: Tid)
    requires GoodDelay(s.delay) && t in Due(s.delay) && Due(s.delay)[t] == 0
    ensures t in ReleaseDue(s).tasks && ReleaseDue(s).tasks[t] == Woken(T(s, t), Timeout)
    decreases |s.delay|
  {
    hide Wake;
    FrontDue(s.delay);
    var x := s.delay[0].task;
    Shorter(s.delay);
    WithoutDue(s.delay, x);
    var s1 := Wake(s, x, Timeout);
    if x == t {
      ReleaseOthers(s1, t);
    } else {
      ReleaseReady(s1, t);
    }
  }

  lemma {:induction false} ReleaseOthers(s: State, t: Tid)
    requires GoodDelay(s.delay) && (t in Due(s.delay) ==> Due(s.delay)[t] > 0) && t in s.tasks
    ensures t in ReleaseDue(s).tasks && ReleaseDue(s).tasks[t] == s.tasks[t]
    decreases |s.delay|
  {
    hide Wake;
    if s.delay != [] && s.delay[0].left == 0 {
      Shorter(s.delay);
      FrontDue(s.delay);
      WithoutDue(s.delay, s.delay[0].task);
      ReleaseOthers(Wake(s, s.delay[0].task, Timeout), t);
    }
  }

  /** What a tick does to one sleeper. */
  lemma TickSleeper(s: State, t: Tid)
    requires Inv(s) && t in Due(s.delay)
    ensures Due(s.delay)[t] > 0 && t in s.tasks && t in Tick(s).tasks
    ensures if Due(s.delay)[t] > 1
            then t in Due(Tick(s).delay) && Due(Tick(s).delay)[t] == Due(s.delay)[t] - 1 && Tick(s).tasks[t] == s.tasks[t]
            else t !in Due(Tick(s).delay) && Tick(s).tasks[t] == Woken(s.tasks[t], Timeout)
  {
    hide Inv, ReleaseDue, DelayDown, NeedsPreemption, GoodDelay, Due;
    ClockOf(s);
    TickLeft(s);
    DownDue(s.delay);
    DownGood(s.delay);
    var s1 := s.(tick := (s.tick + 1) % TWO_32, delay := DelayDown(s.delay));
    if Due(s.delay)[t] == 1 { ReleaseReady(s1, t); } else { ReleaseOthers(s1, t); }
  }

  // ---------------------------------------------------------------- runs

  /** `t` is in the delay list before every action of the run. */
  ghost predicate Asleep(s: State, acts: seq<Action>, t: Tid)
    decreases |acts|
  {
    acts == [] || (t in Due(s.delay) && Asleep(Step(s, acts[0]), acts[1..], t))
  }

  /** While a task sleeps its remaining time is the requested time less the ticks that
      passed; the tick that ends the sleep is exactly the requested one, and it leaves the
      task ready and, if it was waiting, told that it timed out. */
  lemma {:induction false} OnTime(s: State, acts: seq<Action>, t: Tid)
    requires Inv(s) && Run(s, acts) && t in Due(s.delay) && Asleep(s, acts, t)
    ensures var s' := Exec(s, acts);
      if t in Due(s'.delay) then
        Ticks(acts) < Due(s.delay)[t] && Due(s'.delay)[t] == Due(s.delay)[t] - Ticks(acts) && T(s', t).wait == T(s, t).wait
      else (acts != [] && acts[|acts| - 1] == ATick ==>
        && Ticks(acts) == Due(s.delay)[t] && T(s', t).state == Ready
        && (T(s, t).wait.Some? ==> T(s', t).cause == Some(Timeout) && T(s', t).expired))
    decreases |acts|
  {
    hide Inv, Step, Enabled;
    ClockOf(s);
    if acts != [] {
      var a, s1 := acts[0], Step(s, acts[0]);
      StepInv(s, a);
      FirstStep(s, a, t);
      if t in Due(s1.delay) {
        OnTime(s1, acts[1..], t);
        assert acts[1..] != [] ==> acts[1..][|acts[1..]| - 1] == acts[|acts| - 1];
      } else {
        assert acts[1..] == [];
      }
    }
  }

  lemma FirstStep(s: State, a: Action, t: Tid)
    requires Inv(s) && Enabled(s, a) && t in Due(s.delay)
    ensures var s1 := Step(s, a);
      && (if t in Due(s1.delay) then T(s1, t).wait == T(s, t).wait else T(s1, t).wait == None)
      && (t in Due(s1.delay) ==> 0 < Due(s1.delay)[t] == Due(s.delay)[t] - (if a == ATick then 1 else 0))
      && (a == ATick ==> (t in Due(s1.delay) <==> Due(s.delay)[t] > 1))
      && (a == ATick && t !in Due(s1.delay) ==> T(s1, t) == Woken(T(s, t), Timeout))
      && (a != ATick && a != ASuspend(t) && a != ADelete(t) && T(s, t).wait == None ==> t in Due(s1.delay))
  {
    hide Inv, Tick, Due;
    ClockOf(s);
    StepInv(s, a);
    ClockOf(Step(s, a));
    if a == ATick {
      TickSleeper(s, t);
    } else if a == ASuspend(t) || a == ADelete(t) {
      HaltGone(s, a, t);
    } else {
      StepUndisturbed(s, a, t);
    }
  }

  /** A suspended or deleted sleeper is no longer in the delay list. */
  lemma HaltGone(s: State, a: Action, t: Tid)
    requires Inv(s) && Enabled(s, a) && t in Due(s.delay) && (a == ASuspend(t) || a == ADelete(t))
    ensures t !in Due(Step(s, a).delay) && T(Step(s, a), t).wait == None
  {
    hide Linked, Reason, Ticket, Own, Objects, Positive, Preemptive, Put;
    assert TaskOk(s, t, s.tasks[t]);
    WithoutDue(s.delay, t);
  }

  /** A mere sleeper that nobody suspends or deletes stays asleep until its time has come. */
  lemma {:induction false} SleepsOn(s: State, acts: seq<Action>, t: Tid)
    requires Inv(s) && Run(s, acts) && t in Due(s.delay) && T(s, t).wait == None
    requires ASuspend(t) !in acts && ADelete(t) !in acts
    requires Ticks(acts) < Due(s.delay)[t]
    ensures Asleep(s, acts, t) && t in Due(Exec(s, acts).delay) && T(Exec(s, acts), t).wait == None
    decreases |acts|
  {
    hide Inv, Step, Enabled, Due;
    if acts != [] {
      var s1 := Step(s, acts[0]);
      StepInv(s, acts[0]);
      FirstStep(s, acts[0], t);
      assert forall a :: a in acts[1..] ==> a in acts;
      SleepsOn(s1, acts[1..], t);
    }
  }

  lemma {:induction false} TicksSplit(xs: seq<Action>, ys: seq<Action>)
    ensures Ticks(xs + ys) == Ticks(xs) + Ticks(ys)
  {
    if xs == [] {
      assert xs + ys == ys;
    } else {
      TicksSplit(xs[1..], ys);
      assert (xs + ys)[1..] == xs[1..] + ys;
    }
  }

  lemma ObjectCounter(s: State, a: Action)
    requires OnObjects(a)
    ensures Step(s, a).tick == s.tick
  {
    hide Lock, Unlock, QueueSend, QueueReceive, SemTake, SemTryTake, SemGive, EventSet, EventWait;
  }

  lemma SwitchCounter(s: State)
    ensures Switch(s).tick == s.tick
  {
    hide Put, TopReady, T, Vacate;
    VacateCounter(s);
  }

  lemma VacateCounter(s: State)
    ensures Vacate(s).tick == s.tick
  {
    hide Put, T;
  }

  /** Only the tick advances the counter, by one, wrapping at 2^32. */
  lemma StepCounter(s: State, a: Action)
    requires Inv(s) && Enabled(s, a)
    ensures Step(s, a).tick == if a == ATick then (s.tick + 1) % TWO_32 else s.tick
  {
    hide Inv, Enabled, Create, Put, ReleaseDue, Switch, DelayDown, DelayWithout, DelayInsert, Remaining, NeedsPreemption;
    if OnObjects(a) {
      ObjectCounter(s, a);
    } else if a == ASwitch {
      SwitchCounter(s);
    } else if a == ATick {
      ReleaseClock(s.(tick := (s.tick + 1) % TWO_32, delay := DelayDown(s.delay)));
    }
  }

  /** The counter follows the ticks of the run, modulo 2^32. */
  lemma {:induction false} Counter(s: State, acts: seq<Action>)
    requires Inv(s) && Run(s, acts)
    ensures Exec(s, acts).tick == (s.tick + Ticks(acts)) % TWO_32
    decreases |acts|
  {
    hide Inv, Step, Enabled;
    ClockOf(s);
    if acts != [] {
      StepInv(s, acts[0]);
      StepCounter(s, acts[0]);
      Counter(Step(s, acts[0]), acts[1..]);
      AddMod(s.tick, if acts[0] == ATick then 1 else 0, Ticks(acts[1..]));
    }
  }

  lemma AddMod(a: nat, b: nat, c: nat)
    ensures ((a + b) % TWO_32 + c) % TWO_32 == (a + (b + c)) % TWO_32
  {
    var q := (a + b) / TWO_32;
    assert a + b == q * TWO_32 + (a + b) % TWO_32;
    ModShift((a + b) % TWO_32 + c, q);
  }

  lemma {:induction false} ModShift(x: nat, q: nat)
    ensures (q * TWO_32 + x) % TWO_32 == x % TWO_32
  {
    if q > 0 {
      ModShift(x, q - 1);
      assert (q * TWO_32 + x) == ((q - 1) * TWO_32 + x) + TWO_32;
    }
  }

  // ---------------------------------------------------------------- the results

  /** How far `wake` is ahead of the counter, modulo 2^32. */
  function Ahead(s: State, wake: nat): nat {
    (wake - s.tick) % TWO_32
  }

  /** A wake time that is now, or half the range or more ahead and so already past, returns at once. */
  lemma DelayUntilPast(s: State, w: nat)
    requires Enabled(s, ADelayUntil(w)) && (Ahead(s, w) == 0 || Ahead(s, w) >= TWO_31)
    ensures Step(s, ADelayUntil(w)) == s
  {
    hide Sleep;
  }

  /** Any other is that many ticks ahead. */
  lemma DelayUntilFuture(s: State, w: nat)
    requires 0 < Ahead(s, w) < TWO_31
    ensures DelayUntil(s, w) == Sleep(s, Ahead(s, w))
  {
    hide Sleep;
  }

  /** delay_until(w) with 0 < (int32)(w - now), now modulo 2^32: unless the task is suspended or
      deleted first, it becomes ready at the tick that makes the counter equal `w`. */
  lemma DelayUntilExact(s: State, w: nat, acts: seq<Action>)
    requires Inv(s) && Enabled(s, ADelayUntil(w)) && 0 < Ahead(s, w) < TWO_31
    requires Run(Step(s, ADelayUntil(w)), acts + [ATick])
    requires ASuspend(Cur(s)) !in acts && ADelete(Cur(s)) !in acts
    requires Ticks(acts) + 1 == Ahead(s, w)
    ensures var s' := Exec(Step(s, ADelayUntil(w)), acts + [ATick]); T(s', Cur(s)).state == Ready && s'.tick == w
  {
    hide Inv, Step, Enabled, Due, DelayUntil;
    var s1, t, n := Step(s, ADelayUntil(w)), Cur(s), Ahead(s, w);
    Enabling(s, w);
    DelayUntilFuture(s, w);
    FellAsleep(s, n);
    assert s1 == Sleep(s, n) by { IsDelayUntil(s, w); }
    WakesOnTime(s1, acts, t);
    Counter(s1, acts + [ATick]);
    TicksSplit(acts, [ATick]);
    ClockOf(s);
    WrapAround(w, s.tick, n);
  }

  /** Until then it is Blocked. */
  lemma DelayUntilSleeps(s: State, w: nat, acts: seq<Action>)
    requires Inv(s) && Enabled(s, ADelayUntil(w)) && 0 < Ahead(s, w) < TWO_31
    requires Run(Step(s, ADelayUntil(w)), acts)
    requires ASuspend(Cur(s)) !in acts && ADelete(Cur(s)) !in acts
    requires Ticks(acts) < Ahead(s, w)
    ensures T(Exec(Step(s, ADelayUntil(w)), acts), Cur(s)).state == Blocked
  {
    hide Inv, Step, Enabled, Due, DelayUntil;
    Enabling(s, w);
    DelayUntilFuture(s, w);
    FellAsleep(s, Ahead(s, w));
    IsDelayUntil(s, w);
    SleepsThrough(Step(s, ADelayUntil(w)), acts, Cur(s));
  }

  lemma IsDelayUntil(s: State, w: nat)
    ensures Step(s, ADelayUntil(w)) == DelayUntil(s, w)
  {
    hide DelayUntil;
  }

  /** Milliseconds are rounded up to whole ticks. */
  lemma MsRoundsUp(ms: nat)
    ensures ms <= MsToTicks(ms) * TICK_RATE_MS < ms + TICK_RATE_MS
  {
  }

  /** delay_ms(0) returns at once. */
  lemma DelayNothing(s: State)
    ensures Step(s, ADelayMs(0)) == s
  {
  }

  /** delay_ms(ms): unless the task is suspended or deleted first, it is Blocked through fewer
      ticks than `ms` milliseconds rounded up to whole ticks. */
  lemma DelayMsSleeps(s: State, ms: nat, acts: seq<Action>)
    requires Inv(s) && Enabled(s, ADelayMs(ms)) && Run(DelayMs(s, ms), acts)
    requires ASuspend(Cur(s)) !in acts && ADelete(Cur(s)) !in acts
    requires Ticks(acts) < MsToTicks(ms)
    ensures T(Exec(DelayMs(s, ms), acts), Cur(s)).state == Blocked
  {
    hide Inv, Step, Enabled, Due;
    EnablingMs(s, ms);
    FellAsleep(s, MsToTicks(ms));
    SleepsThrough(DelayMs(s, ms), acts, Cur(s));
  }

  /** The last of those ticks makes it ready. */
  lemma DelayMsExact(s: State, ms: nat, acts: seq<Action>)
    requires Inv(s) && Enabled(s, ADelayMs(ms)) && Run(DelayMs(s, ms), acts + [ATick])
    requires ASuspend(Cur(s)) !in acts && ADelete(Cur(s)) !in acts
    requires Ticks(acts) + 1 == MsToTicks(ms)
    ensures T(Exec(DelayMs(s, ms), acts + [ATick]), Cur(s)).state == Ready
  {
    hide Inv, Step, Enabled, Due;
    EnablingMs(s, ms);
    FellAsleep(s, MsToTicks(ms));
    WakesOnTime(DelayMs(s, ms), acts, Cur(s));
  }

  lemma EnablingMs(s: State, ms: nat)
    requires Enabled(s, ADelayMs(ms))
    ensures TaskCalls(s) && MsToTicks(ms) <= UINT32_MAX
  {
  }

  lemma Enabling(s: State, w: nat)
    requires Enabled(s, ADelayUntil(w))
    ensures TaskCalls(s) && w < TWO_32
  {
  }

  /** delay_ms and delay_until alike: a sleep of `n` ticks does not end before the n-th tick. */
  lemma SleepsThrough(s: State, acts: seq<Action>, t: Tid)
    requires Inv(s) && t in Due(s.delay) && T(s, t).wait == None && Run(s, acts)
    requires ASuspend(t) !in acts && ADelete(t) !in acts && Ticks(acts) < Due(s.delay)[t]
    ensures T(Exec(s, acts), t).state == Blocked
  {
    hide Inv, Step, Enabled, Due;
    SleepsOn(s, acts, t);
    OnTime(s, acts, t);
    RunInv(s, acts);
    StillBlocked(Exec(s, acts), t);
  }

  /** It ends at the n-th. */
  lemma WakesOnTime(s: State, acts: seq<Action>, t: Tid)
    requires Inv(s) && t in Due(s.delay) && T(s, t).wait == None && Run(s, acts + [ATick])
    requires ASuspend(t) !in acts && ADelete(t) !in acts
    requires Ticks(acts) + 1 == Due(s.delay)[t]
    ensures T(Exec(s, acts + [ATick]), t).state == Ready
  {
    hide Inv, Step, Enabled, Due;
    RunSplit(s, acts, [ATick]);
    SleepsOn(s, acts, t);
    OnTime(s, acts, t);
    var s1 := Exec(s, acts);
    RunInv(s, acts);
    assert Run(s1, [ATick]) ==> Enabled(s1, ATick);
    LastTick(s1, t);
    assert Exec(s1, [ATick]) == Step(s1, ATick);
  }

  lemma StillBlocked(s: State, t: Tid)
    requires Inv(s) && t in Due(s.delay)
    ensures T(s, t).state == Blocked
  {
    assert TaskOk(s, t, s.tasks[t]);
  }

  lemma LastTick(s: State, t: Tid)
    requires Inv(s) && t in Due(s.delay) && Due(s.delay)[t] == 1
    ensures T(Step(s, ATick), t).state == Ready
  {
    hide Inv, Tick, Due;
    TickSleeper(s, t);
  }

  lemma FellAsleep(s: State, n: nat)
    requires Inv(s) && TaskCalls(s) && 0 < n <= UINT32_MAX
    ensures var s1 := Sleep(s, n);
      && Inv(s1) && s1.tick == s.tick
      && Cur(s) in Due(s1.delay) && Due(s1.delay)[Cur(s)] == n && T(s1, Cur(s)).wait == None
  {
    hide Inv, Put;
    Calling(s);
    ClockOf(s);
    InsertDue(s.delay, Cur(s), n);
    SleepInv(s, n);
    Unwaiting(s);
  }

  lemma Unwaiting(s: State)
    requires Inv(s) && TaskCalls(s)
    ensures T(s, Cur(s)).wait == None
  {
    assert TaskOk(s, Cur(s), s.tasks[Cur(s)]);
  }

  lemma WrapAround(w: nat, now: nat, n: nat)
    requires w < TWO_32 && now < TWO_32 && n == (w - now) % TWO_32
    ensures (now + n) % TWO_32 == w
  {
  }
}
