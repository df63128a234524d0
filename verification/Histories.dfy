/** What the history fields record, along whole runs: every give is counted once, and the
    logs of a queue only ever grow. */
module Histories {
  import opened Lists
  import opened Model
  import opened Structure
  import opened Delays
  import opened Invariant
  import opened Preservation
  import opened Scheduling
  import opened Runs
  import opened Evolution

  // ---------------------------------------------------------------- who touches what

  ghost predicate SameStores(s: State, s': State) {
    s'.sems == s.sems && s'.queues == s.queues
  }

  lemma {:induction false} ReleaseStores(s: State)
    ensures SameStores(s, ReleaseDue(s))
    decreases |s.delay|
  {
    hide Wake;
    if s.delay != [] && s.delay[0].left == 0 { ReleaseStores(Wake(s, s.delay[0].task, Timeout)); }
  }

  lemma {:induction false} ScanStores(s: State, e: nat, l: seq<Tid>)
    ensures SameStores(s, Scan(s, e, l))
    decreases |l|
  {
    hide Satisfies, Serve;
    if l != [] {
      ServeStores(s, e, l[0]);
      if Satisfies(Bits(s, e), T(s, l[0]).mask, T(s, l[0]).all) { ScanStores(Serve(s, e, l[0]), e, l[1..]); }
      else { ScanStores(s, e, l[1..]); }
    }
  }

  lemma ServeStores(s: State, e: nat, t: Tid)
    ensures SameStores(s, Serve(s, e, t))
  {
    hide Wake, Mark;
  }

  lemma PriorityStores(s: State, t: Tid, p: nat)
    ensures SameStores(s, SetPriority(s, t, p))
  {
    hide Put;
  }

  lemma LockStores(s: State, m: nat)
    ensures SameStores(s, Lock(s, m))
  {
    hide SetPriority, Park;
    if Owner(s, m).Some? { PriorityStores(s, Owner(s, m).value, T(s, Cur(s)).prio); }
  }

  lemma PassStores(s: State, m: nat)
    ensures SameStores(s, PassOn(s, m))
  {
    hide Wake, Hold, Preempts, T;
  }

  lemma SettleStores(s: State, t: Tid)
    ensures SameStores(s, Settle(s, t))
  {
    hide SetPriority, Recompute;
    PriorityStores(s, t, Recompute(s, t));
  }

  lemma UnlockStores(s: State, m: nat)
    ensures SameStores(s, Unlock(s, m))
  {
    hide PassOn, Settle;
    var t := Cur(s);
    var s0 := Edit(s, t, T(s, t).(held := Without(T(s, t).held, m)));
    PassStores(s0, m);
    SettleStores(PassOn(s0, m), t);
  }

  lemma EventStores(s: State, e: nat, mask: bv32, all: bool, clear: bool, ms: nat)
    ensures SameStores(s, EventSet(s, e, mask)) && SameStores(s, EventClear(s, e, mask))
    ensures SameStores(s, EventWait(s, e, mask, all, clear, ms))
  {
    hide Scan, Park, Satisfies, Plus, Minus;
    ScanStores(SetBits(s, e, Plus(Bits(s, e), mask)), e, L(s, EventKey(e)));
  }

  lemma SwitchStores(s: State)
    ensures SameStores(s, Switch(s))
  {
    hide Put, TopReady, T, Vacate;
    VacateStores(s);
  }

  lemma VacateStores(s: State)
    ensures SameStores(s, Vacate(s))
  {
    hide Put, T;
  }

  lemma TickStores(s: State)
    ensures SameStores(s, Tick(s))
  {
    hide ReleaseDue, DelayDown, NeedsPreemption;
    ReleaseStores(s.(tick := (s.tick + 1) % TWO_32, delay := DelayDown(s.delay)));
  }

  /** Scheduler, mutex and event actions touch neither semaphores nor queues. */
  lemma StepStores(s: State, a: Action)
    requires !a.ASemTake? && !a.ASemTryTake? && !a.ASemGive? && !a.AQueueSend? && !a.AQueueReceive?
    ensures SameStores(s, Step(s, a))
  {
    hide Put, Create, Switch, Tick, Lock, Unlock, EventSet, EventClear, EventWait, DelayInsert, DelayWithout, Remaining;
    if OnObjects(a) {
      MutexEventStores(s, a);
    } else if a == ASwitch {
      SwitchStores(s);
    } else if a == ATick {
      TickStores(s);
    }
  }

  lemma MutexEventStores(s: State, a: Action)
    requires a.ALock? || a.AUnlock? || a.AEventWait? || a.AEventSet? || a.AEventClear?
    ensures SameStores(s, Step(s, a))
  {
    hide Lock, Unlock, EventSet, EventClear, EventWait, SameStores;
    match a
    case ALock(m) => LockStores(s, m);
    case AUnlock(m) => UnlockStores(s, m);
    case AEventWait(e, mask, all, clear, ms) => EventStores(s, e, mask, all, clear, ms);
    case AEventSet(e, mask) => EventStores(s, e, mask, false, false, 0);
    case AEventClear(e, mask) => EventStores(s, e, mask, false, false, 0);
  }

  // ---------------------------------------------------------------- tokens

  /** The gives of semaphore `i` in a run. */
  function Gives(acts: seq<Action>, i: nat): nat {
    if acts == [] then 0 else (if acts[0] == ASemGive(i) then 1 else 0) + Gives(acts[1..], i)
  }

  ghost predicate Tallied(s: State, s': State, i: nat, n: nat)
    requires i in s.sems
  {
    i in s'.sems && s'.sems[i].initial == s.sems[i].initial && s'.sems[i].gives == s.sems[i].gives + n
  }

  lemma SemsTallied(s: State, s': State, i: nat)
    requires i in s.sems && s'.sems == s.sems
    ensures Tallied(s, s', i, 0)
  {
  }

  lemma GiveTallied(s: State, j: nat, i: nat)
    requires i in s.sems
    ensures Tallied(s, SemGive(s, j), i, if i == j then 1 else 0)
  {
    GiveSems(s, j);
  }

  lemma GiveSems(s: State, j: nat)
    ensures var m := TheSem(s, j).(gives := TheSem(s, j).gives + 1);
      SemGive(s, j).sems
      == s.sems[j := if L(s, SemKey(j)) != [] then m.(granted := m.granted + 1)
                     else if m.count < UINT32_MAX then m.(count := m.count + 1) else m.(dropped := m.dropped + 1)]
  {
    hide SemGive, Wake, Preempts;
    if L(s, SemKey(j)) != [] { GiveShape(s, j); } else { CountSems(s, j); }
  }

  lemma CountSems(s: State, j: nat)
    requires L(s, SemKey(j)) == []
    ensures var m := TheSem(s, j).(gives := TheSem(s, j).gives + 1);
      SemGive(s, j).sems == s.sems[j := if m.count < UINT32_MAX then m.(count := m.count + 1) else m.(dropped := m.dropped + 1)]
  {
    hide Wake, Notify;
    var m := TheSem(s, j).(gives := TheSem(s, j).gives + 1);
    if m.count < UINT32_MAX {
      assert SemGive(s, j) == s.(sems := s.sems[j := m.(count := m.count + 1)]);
    } else {
      assert SemGive(s, j) == s.(sems := s.sems[j := m.(dropped := m.dropped + 1)]);
    }
  }

  lemma TakeTallied(s: State, j: nat, ms: nat, i: nat)
    requires i in s.sems
    ensures Tallied(s, SemTake(s, j, ms), i, 0) && Tallied(s, SemTryTake(s, j), i, 0)
  {
    hide Park, T;
  }

  lemma QueueSems(s: State, q: nat, x: Bytes, ms: nat)
    ensures QueueSend(s, q, x, ms).sems == s.sems && QueueReceive(s, q, ms).sems == s.sems
  {
    hide QueueSend, QueueReceive, Wake, Park, Preempts;
    SendShape(s, q, x, ms);
    ReceiveShape(s, q, ms);
  }

  lemma StepTallied(s: State, a: Action, i: nat)
    requires i in s.sems
    ensures Tallied(s, Step(s, a), i, if a == ASemGive(i) then 1 else 0)
  {
    hide SemGive, SemTake, SemTryTake, QueueSend, QueueReceive, Tallied;
    if a.ASemGive? { GiveTallied(s, a.i, i); }
    else if a.ASemTake? { TakeTallied(s, a.i, a.ms, i); }
    else if a.ASemTryTake? { TakeTallied(s, a.i, 0, i); }
    else if a.AQueueSend? { QueueSems(s, a.q, a.x, a.ms); SemsTallied(s, Step(s, a), i); }
    else if a.AQueueReceive? { QueueSems(s, a.q, [], a.ms); SemsTallied(s, Step(s, a), i); }
    else { StepStores(s, a); SemsTallied(s, Step(s, a), i); }
  }

  lemma {:induction false} RunTallied(s: State, acts: seq<Action>, i: nat)
    requires i in s.sems && Run(s, acts)
    ensures Tallied(s, Exec(s, acts), i, Gives(acts, i))
    decreases |acts|
  {
    hide Step, Enabled;
    if acts != [] {
      StepTallied(s, acts[0], i);
      RunTallied(Step(s, acts[0]), acts[1..], i);
    }
  }

  /** Conservation over every run: the initial tokens and the gives of the run are the tokens
      granted, those still there, and those dropped at saturation. */
  lemma TokensConserved(s: State, acts: seq<Action>, i: nat)
    requires Init(s) && Run(s, acts) && i in s.sems
    ensures var m := TheSem(Exec(s, acts), i); s.sems[i].count + Gives(acts, i) == m.granted + m.count + m.dropped
  {
    hide Inv, Run, Exec;
    InitInv(s);
    RunInv(s, acts);
    RunTallied(s, acts, i);
    Sound(Exec(s, acts));
    assert SemOk(Exec(s, acts).sems[i]);
  }

  // ---------------------------------------------------------------- queue logs

  /** Nothing in the logs of `q` is ever taken back. */
  ghost predicate Grown(s: State, s': State, q: nat)
    requires q in s.queues
  {
    q in s'.queues && s'.queues[q].capacity == s.queues[q].capacity
    && s.queues[q].accepted <= s'.queues[q].accepted && s.queues[q].delivered <= s'.queues[q].delivered
  }

  lemma QueuesGrown(s: State, s': State, q: nat)
    requires q in s.queues && s'.queues == s.queues
    ensures Grown(s, s', q)
  {
  }

  lemma SendQueues(s: State, j: nat, x: Bytes, ms: nat)
    ensures var b := TheQueue(s, j);
      QueueSend(s, j, x, ms).queues
      == if L(s, RecvKey(j)) != [] then s.queues[j := b.(accepted := b.accepted + [x], delivered := b.delivered + [x])]
         else if |b.ring| < b.capacity then s.queues[j := b.(ring := b.ring + [x], accepted := b.accepted + [x])] else s.queues
  {
    hide Wake, Park, Preempts, T;
  }

  lemma ReceiveQueues(s: State, j: nat, ms: nat)
    ensures var b, l := TheQueue(s, j), L(s, SendKey(j));
      QueueReceive(s, j, ms).queues
      == if b.ring == [] then s.queues
         else
           var b1 := b.(ring := b.ring[1..], delivered := b.delivered + [b.ring[0]]);
           s.queues[j := if l == [] then b1 else b1.(ring := b1.ring + [T(s, l[0]).item], accepted := b1.accepted + [T(s, l[0]).item])]
  {
    hide Wake, Park, Preempts, T;
  }

  lemma SendGrown(s: State, j: nat, x: Bytes, ms: nat, q: nat)
    requires q in s.queues
    ensures Grown(s, QueueSend(s, j, x, ms), q)
  {
    hide QueueSend;
    SendQueues(s, j, x, ms);
  }

  lemma ReceiveGrown(s: State, j: nat, ms: nat, q: nat)
    requires q in s.queues
    ensures Grown(s, QueueReceive(s, j, ms), q)
  {
    hide QueueReceive;
    ReceiveQueues(s, j, ms);
  }

  lemma SemQueues(s: State, i: nat, ms: nat)
    ensures SemGive(s, i).queues == s.queues && SemTake(s, i, ms).queues == s.queues && SemTryTake(s, i).queues == s.queues
  {
    hide SemGive, Wake, Park, Preempts;
    GiveShape(s, i);
  }

  lemma StepGrown(s: State, a: Action, q: nat)
    requires q in s.queues
    ensures Grown(s, Step(s, a), q)
  {
    hide SemGive, SemTake, SemTryTake, QueueSend, QueueReceive, Grown;
    if a.AQueueSend? { SendGrown(s, a.q, a.x, a.ms, q); }
    else if a.AQueueReceive? { ReceiveGrown(s, a.q, a.ms, q); }
    else if a.ASemGive? { SemQueues(s, a.i, 0); QueuesGrown(s, Step(s, a), q); }
    else if a.ASemTake? { SemQueues(s, a.i, a.ms); QueuesGrown(s, Step(s, a), q); }
    else if a.ASemTryTake? { SemQueues(s, a.i, 0); QueuesGrown(s, Step(s, a), q); }
    else { StepStores(s, a); QueuesGrown(s, Step(s, a), q); }
  }

  /** FIFO over every run: what has been received by the end and what is still queued are
      together what was ever accepted, in order, and what was received or accepted before stands. */
  lemma {:induction false} RunFifo(s: State, acts: seq<Action>, q: nat)
    requires Inv(s) && Run(s, acts) && q in s.queues
    ensures Grown(s, Exec(s, acts), q)
    ensures var b := Exec(s, acts).queues[q];
      b.accepted == b.delivered + b.ring && |b.ring| <= b.capacity
    decreases |acts|
  {
    hide Inv, Step, Enabled;
    if acts == [] {
      Sound(s);
      assert QueueOk(s.queues[q]);
    } else {
      StepInv(s, acts[0]);
      StepGrown(s, acts[0], q);
      RunFifo(Step(s, acts[0]), acts[1..], q);
    }
  }
}
