/** The scheduler's own actions keep the invariant. */
module Scheduling {
  import opened Lists
  import opened Model
  import opened Structure
  import opened Delays
  import opened Invariant
  import opened Preservation

  // ---------------------------------------------------------------- the running task goes to sleep

  lemma SleepInv(s: State, n: nat)
    requires Inv(s) && TaskCalls(s) && 0 < n <= UINT32_MAX
    ensures Inv(Sleep(s, n))
  {
    hide Linked, TasksBut, Own, Objects, Preemptive, Put;
    Calling(s);
    var t, c := Cur(s), s.tasks[Cur(s)].(state := Blocked);
    InsertDue(s.delay, t, n);
    SleepTasks(s, n);
    OwnFrame(s.tasks, s.owners, t, c);
    PutLinked(s, t, c);
    LinkedFrame(Put(s, t, c), Sleep(s, n));
    SleepFlag(s, n);
  }

  lemma SleepFlag(s: State, n: nat)
    ensures Preemptive(Sleep(s, n))
  {
  }

  lemma SleepTasks(s: State, n: nat)
    requires TasksOk(s) && GoodDelay(s.delay) && TaskCalls(s) && 0 < n <= UINT32_MAX
    ensures TasksOk(Sleep(s, n))
  {
    hide Put;
    var t, c := Cur(s), s.tasks[Cur(s)].(state := Blocked);
    assert TaskOk(s, t, s.tasks[t]);
    InsertDue(s.delay, t, n);
    forall x | x in s.tasks && x != t ensures ReasonIn(s, s.tasks[x]) { assert TaskOk(s, x, s.tasks[x]); }
    TasksChange(s, Sleep(s, n), t, c, {});
  }

  // ---------------------------------------------------------------- suspend, delete, resume

  lemma StoppedOk(c: Tcb, st: TaskState)
    requires TcbOk(c) && (st == Suspended || st == Deleted)
    ensures TcbOk(Stopped(c, st))
  {
  }

  lemma HaltTasks(s: State, t: Tid, st: TaskState)
    requires TasksOk(s) && GoodDelay(s.delay) && t in s.tasks && (st == Suspended || st == Deleted)
    ensures TasksOk(Halt(s, t, st))
  {
    hide Put;
    var c := Stopped(s.tasks[t], st);
    assert TaskOk(s, t, s.tasks[t]);
    WithoutDue(s.delay, t);
    StoppedOk(s.tasks[t], st);
    forall x | x in s.tasks && x != t ensures ReasonIn(s, s.tasks[x]) { assert TaskOk(s, x, s.tasks[x]); }
    TasksChange(s, Halt(s, t, st), t, c, {});
  }

  lemma HaltRest(s: State, t: Tid, st: TaskState)
    requires Rest(s) && t in s.tasks && s.idle != Some(t)
    ensures Rest(Halt(s, t, st))
  {
    hide Put;
    WithoutDue(s.delay, t);
    OwnFrame(s.tasks, s.owners, t, Stopped(s.tasks[t], st));
  }

  /** Stopping the running task requests a yield; stopping another one needs none. */
  lemma HaltPreemptive(s: State, t: Tid, st: TaskState)
    requires Preemptive(s) && t in s.tasks && (st == Suspended || st == Deleted)
    ensures Preemptive(Halt(s, t, st))
  {
    hide Put;
  }

  lemma HaltInv(s: State, t: Tid, st: TaskState)
    requires Inv(s) && t in s.tasks && s.idle != Some(t) && (st == Suspended || st == Deleted)
    ensures Inv(Halt(s, t, st))
  {
    hide Linked, TasksBut, Own, Objects, Present, Preemptive;
    HaltTasks(s, t, st);
    HaltRest(s, t, st);
    HaltPreemptive(s, t, st);
    WithoutDue(s.delay, t);
    PutLinked(s, t, Stopped(T(s, t), st));
    LinkedFrame(Put(s, t, Stopped(T(s, t), st)), Halt(s, t, st));
  }

  /** A task that is in no list and not running becomes ready. */
  lemma ReadyInv(s: State, t: Tid)
    requires Inv(s) && t in s.tasks && s.tasks[t].state == Suspended
    ensures Inv(Notify(Put(s, t, s.tasks[t].(state := Ready)), t))
  {
    hide Linked, Own, Objects, TasksBut, TcbOk;
    var c := s.tasks[t].(state := Ready);
    ReadyTasks(s, t);
    OwnFrame(s.tasks, s.owners, t, c);
    PutLinked(s, t, c);
    LinkedFrame(Put(s, t, c), Notify(Put(s, t, c), t));
  }

  lemma ReadyTasks(s: State, t: Tid)
    requires TasksOk(s) && t in s.tasks && s.tasks[t].state == Suspended
    ensures TasksOk(Notify(Put(s, t, s.tasks[t].(state := Ready)), t))
  {
    hide Put;
    var c := s.tasks[t].(state := Ready);
    assert TaskOk(s, t, s.tasks[t]);
    forall x | x in s.tasks && x != t ensures ReasonIn(s, s.tasks[x]) { assert TaskOk(s, x, s.tasks[x]); }
    TasksChange(s, Notify(Put(s, t, c), t), t, c, {});
  }

  // ---------------------------------------------------------------- creation and start

  /** A new control block, not yet in any list. */
  lemma AllocateInv(s: State, t: Tid, p: nat)
    requires Inv(s) && t !in s.tasks && p < MAX_PRIORITIES
    ensures Inv(Edit(s, t, FreshTcb(p)))
  {
    hide Linked, Own, TasksBut;
    AllocateTasks(s, t, p);
    AllocateLinked(s, t, p);
    OwnFrame(s.tasks, s.owners, t, FreshTcb(p));
  }

  lemma AllocateTasks(s: State, t: Tid, p: nat)
    requires TasksOk(s) && t !in s.tasks && p < MAX_PRIORITIES && Clock(s.tasks, s.delay, s.tick)
    ensures TasksOk(Edit(s, t, FreshTcb(p)))
  {
    var s' := Edit(s, t, FreshTcb(p));
    forall x | x in s'.tasks ensures TaskOk(s', x, s'.tasks[x]) {
      if x != t { assert TaskOk(s, x, s.tasks[x]); }
    }
  }

  lemma AllocateLinked(s: State, t: Tid, p: nat)
    requires Linked(s) && t !in s.tasks
    ensures Linked(Edit(s, t, FreshTcb(p)))
  {
    hide Put;
    PutLinked(s, t, FreshTcb(p));
    PutNowhere(s, t, FreshTcb(p));
  }

  lemma PutNowhere(s: State, t: Tid, c: Tcb)
    requires t !in s.tasks && Where(c) == None
    ensures Put(s, t, c) == Edit(s, t, c)
  {
  }

  lemma CreateInv(s: State, t: Tid, p: nat)
    requires Inv(s) && t !in s.tasks && p < MAX_PRIORITIES
    ensures Inv(Create(s, t, p))
  {
    hide Inv, Put;
    if |s.tasks| < s.maxTasks {
      AllocateInv(s, t, p);
      ReadyInv(Edit(s, t, FreshTcb(p)), t);
    }
  }

  lemma StartInv(s: State, t: Tid)
    requires Inv(s) && Enabled(s, AStart(t))
    ensures Inv(Start(s, t))
  {
    CreateInv(s, t, 0);
    StartRest(s, t);
  }

  lemma StartRest(s: State, t: Tid)
    requires Inv(Create(s, t, 0)) && Inv(s) && Enabled(s, AStart(t))
    ensures Inv(Start(s, t))
  {
    hide Linked, Own, Objects, Reason, TcbOk;
    var s1, s' := Create(s, t, 0), Start(s, t);
    forall x | x in s'.tasks ensures TaskOk(s', x, s'.tasks[x]) { assert TaskOk(s1, x, s1.tasks[x]); }
    LinkedFrame(s1, s');
    assert s1.tasks[t].state == Ready && s1.tasks[t].call == None;
  }

  // ---------------------------------------------------------------- the context switch

  /** The topmost non-empty ready list holds the highest ready priority, and only that. */
  lemma TopIsHighest(s: State)
    requires Linked(s) && TasksOk(s)
    ensures var top := TopReady(s, MAX_PRIORITIES);
      && (forall t :: t in s.tasks && s.tasks[t].state == Ready ==> top.Some? && s.tasks[t].prio <= top.value)
      && (top.Some? ==> var t := L(s, ReadyKey(top.value))[0];
                        t in s.tasks && s.tasks[t].state == Ready && s.tasks[t].prio == top.value)
  {
    var top := TopReady(s, MAX_PRIORITIES);
    forall t | t in s.tasks && s.tasks[t].state == Ready ensures top.Some? && s.tasks[t].prio <= top.value {
      assert TaskOk(s, t, s.tasks[t]);
      assert Belongs(s, t, ReadyKey(s.tasks[t].prio));
      assert t in L(s, ReadyKey(s.tasks[t].prio));
    }
    if top.Some? { assert Belongs(s, L(s, ReadyKey(top.value))[0], ReadyKey(top.value)); }
  }

  lemma {:induction false} TopUnique(s: State, n: nat, top: nat)
    requires top < n && L(s, ReadyKey(top)) != [] && forall p :: top < p < n ==> L(s, ReadyKey(p)) == []
    ensures TopReady(s, n) == Some(top)
  {
    if top < n - 1 { TopUnique(s, n - 1, top); }
  }

  /** With the outgoing task put back nobody runs, and everything is still in order. */
  ghost predicate Vacant(s: State) {
    && Linked(s) && TasksOk(s) && Rest(s) && Positive(s.delay) && s.started
    && (forall t :: t in s.tasks ==> s.tasks[t].state != Running)
  }

  lemma VacateVacant(s: State)
    requires Inv(s) && s.started
    ensures Vacant(Vacate(s))
  {
    hide Linked, Positive, Put, Reason, TcbOk;
    forall x | x in s.tasks ensures TaskOk(s, x, s.tasks[x]) {}
    if s.current.Some? && s.tasks[Cur(s)].state == Running {
      var t := Cur(s);
      var c := s.tasks[t].(state := Ready);
      PutLinked(s, t, c);
      VacateTasks(s);
      OwnFrame(s.tasks, s.owners, t, c);
    }
  }

  lemma VacateTasks(s: State)
    requires TasksOk(s) && s.current.Some? && Cur(s) in s.tasks && s.tasks[Cur(s)].state == Running
    ensures TasksOk(Put(s, Cur(s), s.tasks[Cur(s)].(state := Ready)))
  {
    hide Put;
    var t := Cur(s);
    var c := s.tasks[t].(state := Ready);
    assert TaskOk(s, t, s.tasks[t]);
    forall x | x in s.tasks && x != t ensures ReasonIn(s, s.tasks[x]) { assert TaskOk(s, x, s.tasks[x]); }
    TasksChange(s, Put(s, t, c), t, c, {});
  }

  lemma DispatchTasks(s: State, t: Tid)
    requires Vacant(s) && t in s.tasks && s.tasks[t].state == Ready
    ensures TasksOk(Put(s, t, s.tasks[t].(state := Running)).(current := Some(t), yieldDue := false))
  {
    hide Put, Linked, Rest, Positive;
    var s' := Put(s, t, s.tasks[t].(state := Running)).(current := Some(t), yieldDue := false);
    forall x | x in s'.tasks ensures TaskOk(s', x, s'.tasks[x]) { assert TaskOk(s, x, s.tasks[x]); }
  }

  /** The task taken from the front of the topmost list runs, and outranks all that stay ready. */
  lemma DispatchInv(s: State, t: Tid)
    requires Vacant(s) && t in s.tasks && s.tasks[t].state == Ready
    requires forall x :: x in s.tasks && s.tasks[x].state == Ready ==> s.tasks[x].prio <= s.tasks[t].prio
    ensures Inv(Put(s, t, s.tasks[t].(state := Running)).(current := Some(t), yieldDue := false))
  {
    hide Put, Linked, TasksBut, Objects, Own, Clock, Positive;
    var c := s.tasks[t].(state := Running);
    var s' := Put(s, t, c).(current := Some(t), yieldDue := false);
    DispatchTasks(s, t);
    OwnFrame(s.tasks, s.owners, t, c);
    PutLinked(s, t, c);
    LinkedFrame(Put(s, t, c), s');
    DispatchClock(s, t, c);
  }

  lemma DispatchClock(s: State, t: Tid, c: Tcb)
    requires Clock(s.tasks, s.delay, s.tick)
    ensures Clock(s.tasks[t := c], s.delay, s.tick)
  {
  }

  lemma SwitchInv(s: State)
    requires Inv(s) && s.started
    ensures Inv(Switch(s)) && Switch(s).current.Some?
  {
    hide Inv, Put, Vacate, Linked, TasksBut;
    var s1 := Vacate(s);
    VacateVacant(s);
    TopIsHighest(s1);
    var top := TopReady(s1, MAX_PRIORITIES);
    assert s1.idle.Some? && s1.tasks[s1.idle.value].state == Ready;
    DispatchInv(s1, L(s1, ReadyKey(top.value))[0]);
  }

  // ---------------------------------------------------------------- the tick

  /** While expired sleepers are being released some entries stand at zero. */
  ghost predicate Releasing(s: State) {
    Linked(s) && TasksOk(s) && Rest(s) && s.started && (s.yieldDue || RunsOn(s.tasks, s.current))
  }

  ghost predicate RunsOn(tasks: map<Tid, Tcb>, current: Option<Tid>) {
    current.Some? && current.value in tasks && tasks[current.value].state == Running
  }

  lemma ReleaseOne(s: State)
    requires Releasing(s) && s.delay != []
    ensures Releasing(Wake(s, s.delay[0].task, Timeout))
  {
    hide Wake, Linked, Own, Objects;
    var t := s.delay[0].task;
    FrontDue(s.delay);
    assert TaskOk(s, t, s.tasks[t]);
    WokenOk(s.tasks[t], Timeout);
    ReleaseLinked(s, t);
    assert TasksBut(s, {} + {t});
    WakeRest(s, t, Timeout, {});
  }

  lemma ReleaseLinked(s: State, t: Tid)
    requires Linked(s)
    ensures Linked(Wake(s, t, Timeout))
  {
    hide Linked;
    PutLinked(s, t, Woken(T(s, t), Timeout));
    LinkedFrame(Put(s, t, Woken(T(s, t), Timeout)), Wake(s, t, Timeout));
  }

  lemma {:induction false} ReleaseAll(s: State)
    requires Releasing(s)
    ensures Releasing(ReleaseDue(s)) && Positive(ReleaseDue(s).delay)
    decreases |s.delay|
  {
    hide Wake, Linked, TasksBut, Own, Objects, Present, Due;
    if s.delay != [] && s.delay[0].left == 0 {
      ReleaseOne(s);
      Shorter(s.delay);
      ReleaseAll(Wake(s, s.delay[0].task, Timeout));
    } else {
      RestPositive(s.delay);
    }
  }

  lemma Shorter(d: seq<Entry>)
    requires d != []
    ensures DelayWithout(d, d[0].task) == d[1..]
  {
  }

  lemma RestPositive(d: seq<Entry>)
    requires GoodDelay(d) && (d == [] || d[0].left != 0)
    ensures Positive(d)
  {
    if d != [] { FrontDue(d); }
  }

  /** A tick takes one off every sleeper; who waits still waits. */
  lemma DownReleasing(s: State)
    requires Inv(s) && s.started
    ensures Releasing(s.(tick := (s.tick + 1) % TWO_32, delay := DelayDown(s.delay)))
  {
    hide Linked, Own, Objects, Reason, TcbOk, DelayDown;
    var s' := s.(tick := (s.tick + 1) % TWO_32, delay := DelayDown(s.delay));
    DownDue(s.delay);
    DownGood(s.delay);
    forall x | x in s'.tasks ensures TaskOk(s', x, s'.tasks[x]) { assert TaskOk(s, x, s.tasks[x]); }
    LinkedFrame(s, s');
  }

  /** After a tick either no preemption is needed or it has been requested. */
  lemma TickInv(s: State)
    requires Inv(s) && s.started
    ensures Inv(Tick(s))
  {
    hide Linked, TasksBut, Rest, Positive, ReleaseDue, DelayDown, TopReady;
    DownReleasing(s);
    var s1 := ReleaseDue(s.(tick := (s.tick + 1) % TWO_32, delay := DelayDown(s.delay)));
    ReleaseAll(s.(tick := (s.tick + 1) % TWO_32, delay := DelayDown(s.delay)));
    TopIsHighest(s1);
    Irrelevant(s1, Tick(s), {});
    LinkedFrame(s1, Tick(s));
  }

  // ---------------------------------------------------------------- leaving a blocking call

  lemma ReturnInv(s: State)
    requires Inv(s) && Enabled(s, AReturn)
    ensures Inv(Return(s))
  {
    hide Linked, TasksBut, Own, Objects;
    var t := Cur(s);
    var c := s.tasks[t].(call := None);
    ReturnTasks(s);
    OwnFrame(s.tasks, s.owners, t, c);
    EditLinked(s, t, c);
  }

  lemma ReturnTasks(s: State)
    requires TasksOk(s) && Enabled(s, AReturn)
    ensures TasksOk(Return(s))
  {
    var t := Cur(s);
    var c := s.tasks[t].(call := None);
    assert TaskOk(s, t, s.tasks[t]);
    forall x | x in s.tasks && x != t ensures ReasonIn(s, s.tasks[x]) { assert TaskOk(s, x, s.tasks[x]); }
    TasksChange(s, Return(s), t, c, {});
  }
}
