/** Runs of the machine, and what holds in every reachable state. */
module Runs {
  import opened Lists
  import opened Model
  import opened Structure
  import opened Delays
  import opened Invariant
  import opened Preservation
  import opened EventScan
  import opened Mutexes
  import opened Scheduling

  /** Every action is enabled where it is taken. */
  ghost predicate Run(s: State, acts: seq<Action>)
    decreases |acts|
  {
    acts == [] || (Enabled(s, acts[0]) && Run(Step(s, acts[0]), acts[1..]))
  }

  function Exec(s: State, acts: seq<Action>): State
    decreases |acts|
  {
    if acts == [] then s else Exec(Step(s, acts[0]), acts[1..])
  }

  /** A run in two parts. */
  lemma {:induction false} RunSplit(s: State, xs: seq<Action>, ys: seq<Action>)
    ensures Exec(s, xs + ys) == Exec(Exec(s, xs), ys)
    ensures Run(s, xs + ys) <==> Run(s, xs) && Run(Exec(s, xs), ys)
    decreases |xs|
  {
    hide Step, Enabled;
    if xs == [] {
      assert xs + ys == ys;
    } else {
      RunSplit(Step(s, xs[0]), xs[1..], ys);
      assert (xs + ys)[1..] == xs[1..] + ys;
    }
  }

  /** Task `t` does not return from a blocking call. */
  ghost predicate NoReturn(s: State, acts: seq<Action>, t: Tid)
    decreases |acts|
  {
    acts == [] || (!(acts[0] == AReturn && s.current == Some(t)) && NoReturn(Step(s, acts[0]), acts[1..], t))
  }

  ghost predicate Reachable(s: State) {
    exists s0, acts :: Init(s0) && Run(s0, acts) && s == Exec(s0, acts)
  }

  lemma InitInv(s: State)
    requires Init(s)
    ensures Inv(s)
  {
    forall m: nat, t: Tid ensures OwnAt(s.tasks, s.owners, m, t) {}
    forall k: Key, t: Tid ensures t in L(s, k) <==> Belongs(s, t, k) {}
  }

  lemma ObjectInv(s: State, a: Action)
    requires Inv(s) && Enabled(s, a) && OnObjects(a)
    ensures Inv(Step(s, a))
  {
    hide Inv, SemTake, SemTryTake, SemGive, Lock, Unlock, QueueSend, QueueReceive, EventWait, EventSet, EventClear;
    match a
    case ASemTake(i, ms) => SemTakeInv(s, i, ms);
    case ASemTryTake(i) => SemTryTakeInv(s, i);
    case ASemGive(i) => SemGiveInv(s, i);
    case ALock(m) => LockInv(s, m);
    case AUnlock(m) => UnlockInv(s, m);
    case AQueueSend(q, x, ms) => QueueSendInv(s, q, x, ms);
    case AQueueReceive(q, ms) => QueueReceiveInv(s, q, ms);
    case AEventWait(e, mask, all, clear, ms) => EventWaitInv(s, e, mask, all, clear, ms);
    case AEventSet(e, mask) => EventSetInv(s, e, mask);
    case AEventClear(e, mask) => EventClearInv(s, e, mask);
  }

  lemma StepInv(s: State, a: Action)
    requires Inv(s) && Enabled(s, a)
    ensures Inv(Step(s, a))
  {
    hide Inv, Create, Start, Switch, Tick, Sleep, Halt, Return;
    if OnObjects(a) {
      ObjectInv(s, a);
      return;
    }
    match a
    case ACreate(t, p) => CreateInv(s, t, p);
    case AStart(t) => StartInv(s, t);
    case ASwitch => SwitchInv(s);
    case ATick => TickInv(s);
    case ADelayMs(ms) => if MsToTicks(ms) > 0 { SleepInv(s, MsToTicks(ms)); }
    case ADelayUntil(wake) => if Remaining(wake, s.tick) > 0 { SleepInv(s, Remaining(wake, s.tick)); }
    case ASuspend(t) => if SuspendTask(s, t) != s { HaltInv(s, t, Suspended); }
    case AResume(t) => if s.tasks[t].state == Suspended { ReadyInv(s, t); }
    case ADelete(t) => if DeleteTask(s, t) != s { HaltInv(s, t, Deleted); }
    case AReturn => ReturnInv(s);
  }

  lemma {:induction false} RunInv(s: State, acts: seq<Action>)
    requires Inv(s) && Run(s, acts)
    ensures Inv(Exec(s, acts))
    decreases |acts|
  {
    hide Inv, Step;
    if acts != [] {
      StepInv(s, acts[0]);
      RunInv(Step(s, acts[0]), acts[1..]);
    }
  }

  /** The invariant holds in every reachable state, whatever the interleaving. */
  lemma ReachableInv(s: State)
    requires Reachable(s)
    ensures Inv(s)
  {
    hide Inv;
    var s0, acts :| Init(s0) && Run(s0, acts) && s == Exec(s0, acts);
    InitInv(s0);
    RunInv(s0, acts);
  }
}
