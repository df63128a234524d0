/** The kernel as its source writes it: fields updated in place, one statement after the
    other. Every entry point is proved to do exactly what the state machine does. */
module KernelCode {
  import opened Lists
  import opened Model
  import opened Structure
  import opened Delays
  import opened Invariant
  import opened Preservation
  import opened EventScan
  import opened Mutexes
  import opened Scheduling
  import opened Runs
  import opened Fields
  import opened EventBits
  import opened EventFold

  /** Somebody runs, and `t` has a strictly higher priority. */
  ghost predicate OutranksRunning(s: State, t: Tid) {
    s.started && s.current.Some? && T(s, t).prio > T(s, s.current.value).prio
  }

  ghost predicate FirstOutranks(s: State, k: Key) {
    L(s, k) != [] && OutranksRunning(s, L(s, k)[0])
  }

  /** One of the waiters `l` has become ready, with a strictly higher priority than the task that runs. */
  ghost predicate OneOutranks(s: State, s': State, l: seq<Tid>) {
    exists t :: t in l && T(s', t).state == Ready && OutranksRunning(s, t)
  }

  /** What the fold over the waiters' conditions leaves, from the old bits with those of `mask` added. */
  ghost predicate FoldLeaves(s: State, e: nat, mask: bv32, bits: bv32) {
    forall start :: Added(Bits(s, e), mask, start) ==> bits == Fold(start, Asks(s, L(s, EventKey(e)))).bits
  }

  lemma SetLeaves(s: State, e: nat, mask: bv32)
    requires Inv(s) && e in s.events
    ensures FoldLeaves(s, e, mask, Bits(EventSet(s, e, mask), e))
  {
    hide Inv, Added, EventSet, Fold;
    forall start | Added(Bits(s, e), mask, start)
      ensures Bits(EventSet(s, e, mask), e) == Fold(start, Asks(s, L(s, EventKey(e)))).bits
    {
      SetBitsFolds(s, e, mask, start);
    }
  }

  /** Only the bits were set before the walk. */
  lemma SetOutranks(s: State, e: nat, b: bv32, s': State, l: seq<Tid>)
    ensures OneOutranks(SetBits(s, e, b), s', l) <==> OneOutranks(s, s', l)
  {
  }

  lemma FlagOutranks(s: State, s': State, due: bool, l: seq<Tid>)
    ensures OneOutranks(s, s'.(yieldDue := due), l) <==> OneOutranks(s, s', l)
  {
  }

  ghost predicate SamePriorities(s: State, s': State) {
    s'.started == s.started && s'.current == s.current && forall x :: T(s', x).prio == T(s, x).prio
  }

  lemma SameItself(s: State)
    ensures SamePriorities(s, s)
  {
  }

  lemma NoneReady(s: State, s': State, l: seq<Tid>)
    requires forall t :: t in l ==> T(s', t).state == Blocked
    ensures !OneOutranks(s, s', l)
  {
  }

  lemma WaitersBlocked(s: State, e: nat, l: seq<Tid>)
    requires Scanning(s, e, l)
    ensures forall t :: t in l ==> T(s, t).state == Blocked
  {
    hide Linked, Rest, TasksBut, Positive, Preemptive;
    forall t | t in l ensures T(s, t).state == Blocked { assert Unvisited(s, e, t, s.tasks[t]); }
  }

  /** Serving the waiter `t` adds it to the ones that may outrank the running task. */
  lemma ServedOutranks(s0: State, s: State, e: nat, t: Tid, l: seq<Tid>)
    requires SamePriorities(s0, s) && e in s.events && t in s.tasks && Waits(s.tasks[t], EventKey(e)) && t in l
    ensures SamePriorities(s0, Serve(s, e, t))
    ensures OneOutranks(s0, Serve(s, e, t), l)
       <==> OneOutranks(s0, s, l) || OutranksRunning(s, t)
  {
    hide Wake, Mark;
    ServeOne(s, e, t);
    var s' := Serve(s, e, t);
    assert T(s', t).state == Ready && T(s, t).state == Blocked;
    if OneOutranks(s0, s, l) {
      var x :| x in l && T(s, x).state == Ready && OutranksRunning(s0, x);
      assert T(s', x) == T(s, x);
    }
    if OneOutranks(s0, s', l) {
      var x :| x in l && T(s', x).state == Ready && OutranksRunning(s0, x);
      assert x != t ==> T(s', x) == T(s, x);
    }
  }

  /** Unlinking a waiter leaves priorities alone. */
  lemma PluckedPriorities(s: State, k: Key, t: Tid)
    requires t in s.tasks
    ensures OutranksRunning(Plucked(s, k, t), t) <==> OutranksRunning(s, t)
  {
    hide Drop, DelayWithout;
  }

  class Kernel {
    var tasks: map<Tid, Tcb>
    var lists: map<Key, seq<Tid>>
    var delay: seq<Entry>
    var current: Option<Tid>
    var idle: Option<Tid>
    var started: bool
    var yieldDue: bool
    var tick: nat
    const maxTasks: nat
    var sems: map<nat, Sem>
    var owners: map<nat, Option<Tid>>
    var queues: map<nat, Queue>
    var events: map<nat, bv32>

    ghost function View(): State
      reads this
    {
      State(tasks, lists, delay, current, idle, started, yieldDue, tick, maxTasks, sems, owners, queues, events)
    }

    ghost predicate Valid()
      reads this
    {
      Inv(View())
    }

    constructor (maxTasks: nat, sems: map<nat, Sem>, owners: map<nat, Option<Tid>>, queues: map<nat, Queue>,
                 events: map<nat, bv32>)
      requires Init(State(map[], map[], [], None, None, false, false, 0, maxTasks, sems, owners, queues, events))
      ensures View() == State(map[], map[], [], None, None, false, false, 0, maxTasks, sems, owners, queues, events) && Valid()
    {
      InitInv(State(map[], map[], [], None, None, false, false, 0, maxTasks, sems, owners, queues, events));
      tasks, lists, delay := map[], map[], [];
      current, idle, started, yieldDue, tick := None, None, false, false, 0;
      this.maxTasks := maxTasks;
      this.sems, this.owners, this.queues, this.events := sems, owners, queues, events;
    }

    // -------------------------------------------------------------- lists

    /** Nothing is added that stands in a list already. */
    method ListPushBack(k: Key, t: Tid)
      requires Unlisted(lists, t)
      modifies this`lists
      ensures lists == Append(old(lists), k, t)
    {
      lists := lists[k := Lookup(lists, k) + [t]];
    }

    method ListInsertByPriority(k: Key, t: Tid)
      requires t in tasks && Unlisted(lists, t)
      modifies this`lists
      ensures lists == PutIn(tasks, old(lists), k, t)
    {
      var l := Lookup(lists, k);
      var i := 0;
      while i < |l| && (if l[i] in tasks then tasks[l[i]].prio else 0) >= tasks[t].prio
        invariant i <= |l|
        invariant forall j :: 0 <= j < i ==> Prios(tasks, l)[j] >= tasks[t].prio
      {
        i := i + 1;
      }
      InsertPosUnique(Prios(tasks, l), tasks[t].prio, i);
      lists := lists[k := Splice(l, i, t)];
    }

    method ListPopFront(k: Key) returns (t: Option<Tid>)
      modifies this`lists
      ensures if Lookup(old(lists), k) == [] then t == None && lists == old(lists)
              else t == Some(old(lists)[k][0]) && lists == old(lists)[k := old(lists)[k][1..]]
    {
      var l := Lookup(lists, k);
      if l == [] { return None; }
      lists := lists[k := l[1..]];
      return Some(l[0]);
    }

    /** Only members are removed. */
    method ListRemove(k: Key, t: Tid)
      requires t in Lookup(lists, k)
      modifies this`lists
      ensures lists == Drop(old(lists), k, t)
    {
      lists := lists[k := Without(Lookup(lists, k), t)];
    }

    // -------------------------------------------------------------- ready manager

    method ReadyAdd(t: Tid)
      requires t in tasks && Unlisted(lists, t)
      modifies this`lists
      ensures lists == Append(old(lists), ReadyKey(tasks[t].prio), t)
    {
      ListPushBack(ReadyKey(tasks[t].prio), t);
    }

    method ReadyRemove(t: Tid)
      requires t in tasks && t in Lookup(lists, ReadyKey(tasks[t].prio))
      modifies this`lists
      ensures lists == Drop(old(lists), ReadyKey(tasks[t].prio), t)
    {
      ListRemove(ReadyKey(tasks[t].prio), t);
    }

    /** The level of the highest non-empty ready list. */
    method TopLevel() returns (r: Option<nat>)
      ensures r == TopReady(View(), MAX_PRIORITIES)
    {
      var n := MAX_PRIORITIES;
      while n > 0
        invariant 0 <= n <= MAX_PRIORITIES && TopReady(View(), MAX_PRIORITIES) == TopReady(View(), n)
      {
        if Lookup(lists, ReadyKey(n - 1)) != [] { return Some(n - 1); }
        n := n - 1;
      }
      return None;
    }

    method GetHighestPriorityTask() returns (t: Option<Tid>)
      modifies this`lists
      ensures var top := TopReady(old(View()), MAX_PRIORITIES);
        if top.None? then t == None && lists == old(lists)
        else var l := Lookup(old(lists), ReadyKey(top.value));
          l != [] && t == Some(l[0]) && lists == old(lists)[ReadyKey(top.value) := l[1..]]
    {
      var top := TopLevel();
      if top == None { return None; }
      t := ListPopFront(ReadyKey(top.value));
    }

    // -------------------------------------------------------------- scheduler

    method TaskYield()
      modifies this`yieldDue
      ensures yieldDue
    {
      yieldDue := true;
    }

    method VacateCurrent()
      requires Linked(View()) && (current.Some? ==> current.value in tasks)
      modifies this`tasks, this`lists
      ensures View() == Vacate(old(View()))
    {
      hide Put, Unlinked, Linked, Unlisted;
      if current.Some? && tasks[current.value].state == Running {
        OffLists(View(), current.value);
        PutReady(View(), current.value, tasks[current.value].(state := Ready));
        UnlinkedFrom(View(), current.value);
        tasks := tasks[current.value := tasks[current.value].(state := Ready)];
        ReadyAdd(current.value);
      }
    }

    /** The oldest task of the highest level leaves its list and runs. */
    method Dispatch()
      requires CanDispatch(View())
      modifies this
      ensures var s := old(View());
        var t := L(s, ReadyKey(TopReady(s, MAX_PRIORITIES).value))[0];
        View() == Put(s, t, s.tasks[t].(state := Running)).(current := Some(t), yieldDue := false)
    {
      hide Put, TopReady;
      DispatchFields(View(), TopReady(View(), MAX_PRIORITIES).value);
      var next := GetHighestPriorityTask();
      tasks := tasks[next.value := tasks[next.value].(state := Running)];
      current, yieldDue := next, false;
    }

    /** schedule_next_task() */
    method ScheduleNextTask()
      requires Valid() && started
      modifies this
      ensures View() == Switch(old(View())) && Valid()
    {
      hide Inv, Put, TopReady, Vacate;
      LinksOf(View());
      SwitchFacts(View());
      SwitchInv(View());
      VacateCurrent();
      Dispatch();
    }

    /** Makes a task ready that is in no list; says whether it outranks the running one. */
    method MakeTaskReady(t: Tid) returns (preempt: bool)
      requires t in tasks && Unlisted(lists, t)
      modifies this
      ensures if old(tasks)[t].state == Deleted then !preempt && View() == old(View())
              else View() == Readied(old(View()), t) && preempt == Preempts(View(), t)
      ensures preempt <==> old(tasks)[t].state != Deleted && OutranksRunning(old(View()), t)
    {
      if tasks[t].state == Deleted { return false; }
      tasks := tasks[t := tasks[t].(state := Ready, wait := None)];
      ReadyAdd(t);
      return Outranking(t);
    }

    /** started_ && current_task_ != nullptr && task->priority > current_task_->priority */
    predicate Outranking(t: Tid)
      reads this
      ensures Outranking(t) == Preempts(View(), t)
    {
      started && current.Some? && Priority(t) > Priority(current.value)
    }

    function Priority(t: Tid): nat
      reads this
    {
      if t in tasks then tasks[t].prio else 0
    }

    method NeedsToPreempt() returns (r: bool)
      ensures r == NeedsPreemption(View())
    {
      var top := TopLevel();
      return top.Some? && (current.Some? ==> top.value >= Priority(current.value));
    }

    /** start() creates the idle task and lets the first switch happen. */
    method Start(t: Tid)
      requires Valid() && !started && t !in tasks && |tasks| < maxTasks
      modifies this
      ensures View() == Model.Start(old(View()), t) && Valid()
    {
      hide Inv, Create;
      StartInv(View(), t);
      var ok := CreateTask(t, 0);
      idle, started := Some(t), true;
      TaskYield();
    }

    /** A level out of range or a full task table leaves everything as it is. */
    method CreateTask(t: Tid, p: nat) returns (ok: bool)
      requires Valid() && t !in tasks
      modifies this
      ensures View() == (if p < MAX_PRIORITIES then Create(old(View()), t, p) else old(View())) && Valid()
      ensures ok <==> p < MAX_PRIORITIES && |old(tasks)| < maxTasks
    {
      hide Inv, Put, Linked, Unlisted;
      if p >= MAX_PRIORITIES { return false; }
      CreateInv(View(), t, p);
      if |tasks| >= maxTasks { return false; }
      CreateFields(View(), t, p);
      LinksOf(View());
      OffLists(View(), t);
      tasks := tasks[t := FreshTcb(p)];
      tasks := tasks[t := tasks[t].(state := Ready)];
      ReadyAdd(t);
      if Outranking(t) { TaskYield(); }
      return true;
    }

    /** A task that stops waiting without a handoff leaves its wait list, its flag raised. */
    method EndWait(t: Tid, why: Cause)
      requires t in tasks && (tasks[t].wait.Some? ==> t in Lookup(lists, tasks[t].wait.value))
      modifies this`tasks, this`lists
      ensures tasks == old(tasks)[t := Ended(old(tasks)[t], why)] && lists == Left(old(lists), old(tasks)[t], t)
    {
      if tasks[t].wait.Some? {
        ListRemove(tasks[t].wait.value, t);
        tasks := tasks[t := tasks[t].(wait := None, expired := true, cause := Some(why))];
      }
    }

    /** One round of the loop in DelayList::tick: the first sleeper is released. */
    method ReleaseFront()
      requires Releasing(View()) && delay != []
      modifies this`tasks, this`lists, this`delay
      ensures View() == Wake(old(View()), old(delay)[0].task, Timeout) && delay == old(delay)[1..]
    {
      hide Releasing, Wake, Unlisted, Left, Ended;
      ReleaseFields(View());
      ReleaseUnlists(View());
      var t := delay[0].task;
      delay := delay[1..];
      Expire(t);
    }

    /** Off its wait list with its flag raised, then onto its ready list. */
    method Expire(t: Tid)
      requires t in tasks && (tasks[t].wait.Some? ==> t in Lookup(lists, tasks[t].wait.value))
      requires Unlisted(Left(lists, tasks[t], t), t)
      modifies this`tasks, this`lists
      ensures tasks == old(tasks)[t := Ended(old(tasks)[t], Timeout).(state := Ready)]
      ensures lists == Append(Left(old(lists), old(tasks)[t], t), ReadyKey(old(tasks)[t].prio), t)
    {
      hide Unlisted, Left, Append;
      EndWait(t, Timeout);
      tasks := tasks[t := tasks[t].(state := Ready)];
      ReadyAdd(t);
    }

    method DelayListTick()
      requires Releasing(View().(delay := DelayDown(delay)))
      modifies this`tasks, this`lists, this`delay
      ensures View() == ReleaseDue(old(View().(delay := DelayDown(delay))))
    {
      hide Releasing, Wake, DelayDown;
      delay := DelayDown(delay);
      ghost var s := View();
      while delay != [] && delay[0].left == 0
        invariant Releasing(View()) && ReleaseDue(View()) == ReleaseDue(s)
        decreases |delay|
      {
        ReleaseOne(View());
        ReleaseFront();
      }
    }

    method TickHandler()
      requires Valid() && started
      modifies this
      ensures View() == Tick(old(View())) && Valid()
    {
      hide Inv, Releasing, ReleaseDue, NeedsPreemption;
      TickInv(View());
      DownReleasing(View());
      tick := (tick + 1) % TWO_32;
      DelayListTick();
      var need := NeedsToPreempt();
      if need { TaskYield(); }
    }

    /** The running task leaves the CPU for `n` ticks. */
    method BlockFor(n: nat)
      requires Valid() && TaskCalls(View()) && 0 < n <= UINT32_MAX
      modifies this
      ensures View() == Sleep(old(View()), n) && Valid()
    {
      hide Inv, Sleep, DelayInsert;
      SleepInv(View(), n);
      SleepFields(View(), n);
      tasks := tasks[current.value := tasks[current.value].(state := Blocked)];
      delay := DelayInsert(delay, current.value, n);
      TaskYield();
    }

    method DelayFor(ms: nat)
      requires Valid() && TaskCalls(View()) && ms <= UINT32_MAX
      modifies this
      ensures View() == DelayMs(old(View()), ms) && Valid()
    {
      hide Inv, Sleep;
      if MsToTicks(ms) == 0 { return; }
      BlockFor(MsToTicks(ms));
    }

    method DelayTill(wake: nat)
      requires Valid() && TaskCalls(View()) && wake <= UINT32_MAX
      modifies this
      ensures View() == DelayUntil(old(View()), wake) && Valid()
      ensures var s, n := old(View()), (wake - old(tick)) % TWO_32;
        if n == 0 || n >= TWO_31 then View() == s
        else View() == s.(tasks := s.tasks[Cur(s) := s.tasks[Cur(s)].(state := Blocked)],
                          delay := DelayInsert(s.delay, Cur(s), n), yieldDue := true)
    {
      hide Inv, Sleep, DelayInsert;
      if Remaining(wake, tick) > 0 { SleepFields(View(), Remaining(wake, tick)); }
      var remaining := Remaining(wake, tick);
      if remaining <= 0 { return; }
      BlockFor(remaining);
    }

    /** Unlinks a ready or blocked task from its lists. */
    method Detach(t: Tid)
      requires t in tasks && (tasks[t].wait.Some? ==> tasks[t].state == Blocked)
      requires Where(tasks[t]).Some? ==> t in Lookup(lists, Where(tasks[t]).value)
      requires tasks[t].state != Blocked ==> DelayWithout(delay, t) == delay
      modifies this`tasks, this`lists, this`delay
      ensures tasks == old(tasks)[t := Ended(old(tasks)[t], Cancelled)] && lists == Detached(old(lists), old(tasks)[t], t)
      ensures delay == DelayWithout(old(delay), t)
    {
      if tasks[t].state == Ready {
        ReadyRemove(t);
      } else if tasks[t].state == Blocked {
        EndWait(t, Cancelled);
        delay := DelayWithout(delay, t);
      }
    }

    method TakeOut(t: Tid, st: TaskState)
      requires Valid() && t in tasks && idle != Some(t) && (st == Suspended || st == Deleted)
      modifies this
      ensures View() == Halt(old(View()), t, st) && Valid()
      ensures t in tasks && tasks[t].state == st
    {
      hide Inv, Halt;
      HaltInv(View(), t, st);
      StandsThere(View(), t);
      OnlyBlocked(View(), t);
      HaltFields(View(), t, st);
      Stop(t, st);
    }

    /** Out of its lists, into its new state, and off the CPU. */
    method Stop(t: Tid, st: TaskState)
      requires t in tasks && (tasks[t].wait.Some? ==> tasks[t].state == Blocked)
      requires Where(tasks[t]).Some? ==> t in Lookup(lists, Where(tasks[t]).value)
      requires tasks[t].state != Blocked ==> DelayWithout(delay, t) == delay
      modifies this
      ensures var s, c := old(View()), old(tasks)[t];
        View() == s.(tasks := s.tasks[t := Ended(c, Cancelled).(state := st)], lists := Detached(s.lists, c, t),
                     delay := DelayWithout(s.delay, t), yieldDue := s.yieldDue || (s.started && s.current == Some(t)))
    {
      hide Ended, Detached, DelayWithout, Where;
      Detach(t);
      tasks := tasks[t := tasks[t].(state := st)];
      if current == Some(t) && started { TaskYield(); }
    }

    method Suspend(t: Tid)
      requires Valid() && t in tasks && idle != Some(t)
      modifies this
      ensures View() == SuspendTask(old(View()), t) && Valid()
      ensures t in tasks && tasks[t].state == if old(tasks)[t].state == Deleted then Deleted else Suspended
    {
      hide Inv, Halt;
      if tasks[t].state == Deleted || tasks[t].state == Suspended { return; }
      TakeOut(t, Suspended);
    }

    method Delete(t: Tid)
      requires Valid() && t in tasks && idle != Some(t)
      modifies this
      ensures View() == DeleteTask(old(View()), t) && Valid()
      ensures t in tasks && tasks[t].state == Deleted
    {
      hide Inv, Halt;
      if tasks[t].state == Deleted { return; }
      TakeOut(t, Deleted);
    }

    method Resume(t: Tid)
      requires Valid() && t in tasks && t !in Due(delay)
      modifies this
      ensures View() == ResumeTask(old(View()), t) && Valid()
      ensures t in tasks && tasks[t].state == if old(tasks)[t].state == Suspended then Ready else old(tasks)[t].state
    {
      hide Inv, Put, Linked, Unlisted;
      if tasks[t].state != Suspended { return; }
      ReadyInv(View(), t);
      LinksOf(View());
      OffLists(View(), t);
      ResumeFields(View(), t);
      tasks := tasks[t := tasks[t].(state := Ready)];
      ReadyAdd(t);
      if Outranking(t) { TaskYield(); }
    }

    method SetTaskPriority(t: Tid, p: nat)
      requires Linked(View()) && t in tasks && (tasks[t].wait.Some? ==> !tasks[t].wait.value.ReadyKey?)
      modifies this`tasks, this`lists
      ensures View() == SetPriority(old(View()), t, p)
    {
      hide Linked, Put, Unlisted, SoleList, PutIn;
      if tasks[t].prio == p { return; }
      PriorityFields(View(), t, p);
      if Where(tasks[t]).Some? { LeavesList(View(), t); }
      if tasks[t].state == Ready {
        ReadyRemove(t);
        tasks := tasks[t := tasks[t].(prio := p)];
        ReadyAdd(t);
      } else {
        tasks := tasks[t := tasks[t].(prio := p)];
        if tasks[t].state == Blocked && tasks[t].wait.Some? {
          ListRemove(tasks[t].wait.value, t);
          ListInsertByPriority(tasks[t].wait.value, t);
        }
      }
    }

    method CancelTimeout(t: Tid)
      modifies this`delay
      ensures delay == DelayWithout(old(delay), t)
    {
      delay := DelayWithout(delay, t);
    }

    // -------------------------------------------------------------- wait queues

    /** WaitQueue::park */
    method ParkOn(k: Key, t: Tid)
      requires t in tasks && Unlisted(lists, t)
      modifies this`tasks, this`lists
      ensures tasks == old(tasks)[t := old(tasks)[t].(state := Blocked, wait := Some(k))]
      ensures lists == PutIn(tasks, old(lists), k, t)
    {
      tasks := tasks[t := tasks[t].(state := Blocked, wait := Some(k))];
      ListInsertByPriority(k, t);
    }

    /** What every blocking call does once it has to wait. */
    method BlockCurrent(k: Key, ms: nat)
      requires Linked(View()) && TaskCalls(View()) && !k.ReadyKey?
      modifies this
      ensures View() == Park(old(View()), old(tasks)[Cur(old(View()))], k, ms)
    {
      hide Linked, Park, PutIn, Unlisted;
      var t := current.value;
      ParkFields(View(), tasks[t], k, ms);
      OffLists(View(), t);
      tasks := tasks[t := tasks[t].(expired := false, call := Some(k), cause := None)];
      ParkOn(k, t);
      assert tasks == old(tasks)[t := Parked(old(tasks)[t], k)];
      if ms != WAIT_FOREVER { delay := DelayInsert(delay, t, MsToTicks(ms)); }
      TaskYield();
    }

    /** WaitQueue::wake_highest */
    method WakeHighest(k: Key) returns (t: Option<Tid>)
      requires L(View(), k) != [] ==> L(View(), k)[0] in tasks && SoleList(lists, L(View(), k)[0], k)
      modifies this
      ensures if L(old(View()), k) == [] then t == None && View() == old(View())
              else t == Some(L(old(View()), k)[0]) && View() == Plucked(old(View()), k, t.value)
                   && t.value in tasks && tasks[t.value] == Granted(old(tasks)[t.value]) && Unlisted(lists, t.value)
    {
      hide Unlisted, SoleList;
      if L(View(), k) != [] { DropUnlists(lists, L(View(), k)[0], k); }
      t := ListPopFront(k);
      if t.Some? {
        tasks := tasks[t.value := tasks[t.value].(wait := None, cause := Some(Handoff))];
        CancelTimeout(t.value);
      }
    }

    // -------------------------------------------------------------- semaphore

    method TryTake(i: nat) returns (ok: bool)
      requires Valid() && i in sems
      modifies this
      ensures View() == SemTryTake(old(View()), i) && Valid()
      ensures ok <==> old(sems)[i].count > 0
    {
      hide Inv;
      SemTryTakeInv(View(), i);
      if sems[i].count == 0 { return false; }
      sems := sems[i := sems[i].(count := sems[i].count - 1, granted := sems[i].granted + 1)];
      return true;
    }

    /** None means that the caller is parked; FinishCall gives the answer when it resumes. */
    method Take(i: nat, ms: nat) returns (r: Option<bool>)
      requires Valid() && i in sems && ms <= UINT32_MAX
      requires ms == 0 || TaskCalls(View()) || (!started && sems[i].count > 0)
      modifies this
      ensures View() == SemTake(old(View()), i, ms) && Valid()
      ensures r == if ms == 0 || old(sems)[i].count > 0 then Some(old(sems)[i].count > 0) else None
    {
      hide Inv, Park;
      SemTakeInv(View(), i, ms);
      if ms == 0 || sems[i].count > 0 {
        var ok := TryTake(i);
        return Some(ok);
      }
      LinksOf(View());
      BlockCurrent(SemKey(i), ms);
      return None;
    }

    /** A give that nobody waits for: the count goes up, unless it is saturated. */
    method CountGive(i: nat)
      requires i in sems
      modifies this`sems
      ensures L(View(), SemKey(i)) == [] ==> View() == SemGive(old(View()), i)
    {
      var m := sems[i].(gives := sems[i].gives + 1);
      sems := sems[i := if m.count < UINT32_MAX then m.(count := m.count + 1) else m.(dropped := m.dropped + 1)];
    }

    /** give_from_isr(): the caller yields if it is told to. */
    method GiveFromIsr(i: nat) returns (preempt: bool)
      requires Valid() && i in sems
      modifies this
      ensures View().(yieldDue := yieldDue || preempt) == SemGive(old(View()), i) && yieldDue == old(yieldDue)
      ensures preempt <==> FirstOutranks(old(View()), SemKey(i))
    {
      hide Inv, Plucked, Readied, Wake, Waits, Preempts, SemGive, Unlisted, SoleList;
      ghost var v0 := View();
      HeadWaits(v0, SemKey(i));
      var woken := WakeHighest(SemKey(i));
      if woken == None {
        CountGive(i);
        return false;
      }
      GiveFields(v0, i, woken.value);
      PluckedPriorities(v0, SemKey(i), woken.value);
      sems := sems[i := sems[i].(gives := sems[i].gives + 1, granted := sems[i].granted + 1)];
      assert View() == Plucked(v0, SemKey(i), woken.value).(sems := sems);
      preempt := MakeTaskReady(woken.value);
    }

    method Give(i: nat)
      requires Valid() && i in sems
      modifies this
      ensures View() == SemGive(old(View()), i) && Valid()
      ensures yieldDue <==> old(yieldDue) || FirstOutranks(old(View()), SemKey(i))
    {
      hide Inv, SemGive, FirstOutranks;
      SemGiveInv(View(), i);
      var preempt := GiveFromIsr(i);
      if preempt { TaskYield(); }
    }

    // -------------------------------------------------------------- mutex

    /** Mutex::add_held */
    method AddHeld(t: Tid, m: nat)
      requires t in tasks
      modifies this`tasks
      ensures tasks == old(tasks)[t := old(tasks)[t].(held := [m] + old(tasks)[t].held)]
    {
      tasks := tasks[t := tasks[t].(held := [m] + tasks[t].held)];
    }

    /** Mutex::remove_held */
    method RemoveHeld(t: Tid, m: nat)
      requires t in tasks
      modifies this`tasks
      ensures tasks == old(tasks)[t := old(tasks)[t].(held := Without(old(tasks)[t].held, m))]
    {
      tasks := tasks[t := tasks[t].(held := Without(tasks[t].held, m))];
    }

    /** Mutex::recompute_priority */
    method RecomputePriority(t: Tid) returns (p: nat)
      requires t in tasks
      ensures p == Recompute(View(), t)
    {
      var held := tasks[t].held;
      p := tasks[t].base;
      var i := 0;
      while i < |held|
        invariant i <= |held| && Inherit(View(), held, tasks[t].base) == Inherit(View(), held[i..], p)
      {
        var l := Lookup(lists, MutexKey(held[i]));
        if l != [] && Priority(l[0]) > p { p := Priority(l[0]); }
        assert held[i..][1..] == held[i + 1..];
        i := i + 1;
      }
    }

    /** lock(): None means that the caller is parked. Locking one's own mutex fails. */
    method LockMutex(m: nat) returns (r: Option<bool>)
      requires Valid() && TaskCalls(View()) && m in owners
      modifies this
      ensures View() == Lock(old(View()), m) && Valid()
      ensures r == if old(owners)[m] == None then Some(true) else if old(owners)[m] == current then Some(false) else None
    {
      hide Inv, Park, SetPriority, Hold;
      LockInv(View(), m);
      if owners[m] == None {
        TakeFree(m);
        return Some(true);
      }
      if owners[m] == current { return Some(false); }
      Lend(owners[m].value, m);
      BlockCurrent(MutexKey(m), WAIT_FOREVER);
      return None;
    }

    method TakeFree(m: nat)
      requires current.Some? && current.value in tasks
      modifies this
      ensures View() == Hold(old(View()), m, Cur(old(View())))
    {
      owners := owners[m := current];
      AddHeld(current.value, m);
    }

    /** The owner inherits the priority of a caller that outranks it. */
    method Lend(o: Tid, m: nat)
      requires Valid() && TaskCalls(View()) && m in owners && owners[m] == Some(o) && o != Cur(View())
      modifies this
      ensures var s, p := old(View()), old(tasks)[Cur(old(View()))].prio;
        View() == if p > T(s, o).prio then SetPriority(s, o, p) else s
      ensures Linked(View()) && TaskCalls(View()) && tasks[Cur(View())] == old(tasks)[Cur(View())]
    {
      hide Inv, Linked, SetPriority;
      LinksOf(View());
      LockFacts(View(), m, o);
      if tasks[current.value].prio > tasks[o].prio {
        PriorityLinked(View(), o, tasks[current.value].prio);
        SetTaskPriority(o, tasks[current.value].prio);
      }
    }

    /** The mutex goes to its first waiter, or becomes free. */
    method PassOwnership(m: nat) returns (preempt: bool)
      requires HeadOk(View(), MutexKey(m))
      modifies this
      ensures View().(yieldDue := yieldDue || preempt) == PassOn(old(View()), m) && yieldDue == old(yieldDue)
      ensures preempt <==> FirstOutranks(old(View()), MutexKey(m))
    {
      hide PassOn, Plucked, Readied, Notify, Unlisted, SoleList, HeadOk, Waits;
      ghost var v0 := View();
      if L(v0, MutexKey(m)) != [] { HeadIsOk(v0, MutexKey(m)); }
      var next := WakeHighest(MutexKey(m));
      if next == None {
        PassNone(v0, m);
        owners := owners[m := None];
        return false;
      }
      PassFields(v0, m, next.value);
      PluckedPriorities(v0, MutexKey(m), next.value);
      preempt := Grant(m, next.value);
    }

    /** The mutex belongs to the unlinked waiter `t`, which becomes ready. */
    method Grant(m: nat, t: Tid) returns (preempt: bool)
      requires t in tasks && tasks[t].state == Blocked && Unlisted(lists, t)
      modifies this
      ensures var s, c := old(View()), old(tasks)[t];
        View().(yieldDue := yieldDue || preempt)
        == Notify(Readied(s.(tasks := s.tasks[t := c.(held := [m] + c.held)], owners := s.owners[m := Some(t)]), t), t)
      ensures yieldDue == old(yieldDue)
      ensures preempt <==> OutranksRunning(old(View()), t)
    {
      hide Readied, Preempts, Unlisted;
      owners := owners[m := Some(t)];
      AddHeld(t, m);
      preempt := MakeTaskReady(t);
    }

    method SettlePriority(t: Tid) returns (changed: bool)
      requires Linked(View()) && t in tasks && tasks[t].wait == None
      modifies this
      ensures View().(yieldDue := yieldDue || changed) == Settle(old(View()), t) && yieldDue == old(yieldDue)
    {
      hide Linked, SetPriority, Recompute;
      var np := RecomputePriority(t);
      changed := np != tasks[t].prio;
      if changed { SetTaskPriority(t, np); }
    }

    /** The mutex just dropped by `t` is passed on, then the priority of `t` is recomputed. */
    method ReleaseMutex(m: nat, t: Tid) returns (preempt: bool)
      requires HeadOk(View(), MutexKey(m))
      requires Linked(PassOn(View(), m)) && t in PassOn(View(), m).tasks && PassOn(View(), m).tasks[t].wait == None
      modifies this
      ensures View().(yieldDue := yieldDue || preempt) == Settle(PassOn(old(View()), m), t) && yieldDue == old(yieldDue)
    {
      hide Settle, PassOn, Linked, Recompute, HeadOk;
      ghost var s1 := PassOn(View(), m);
      var woken := PassOwnership(m);
      LinkedFrame(s1, View());
      SettleFlag(s1, t, yieldDue);
      var changed := SettlePriority(t);
      return woken || changed;
    }

    method UnlockMutex(m: nat) returns (ok: bool)
      requires Valid() && TaskCalls(View()) && m in owners
      modifies this
      ensures View() == Unlock(old(View()), m) && Valid()
      ensures ok <==> old(owners)[m] == current
    {
      hide Inv, Settle, PassOn, Linked, HeadOk;
      UnlockInv(View(), m);
      if owners[m] != current { return false; }
      DropFacts(View(), m);
      RemoveHeld(current.value, m);
      var preempt := ReleaseMutex(m, current.value);
      if preempt { TaskYield(); }
      return true;
    }

    // -------------------------------------------------------------- return from a blocking call

    /** What take(), lock(), send() and receive() do after their yield: read the flag. */
    method FinishCall() returns (ok: bool)
      requires Valid() && Enabled(View(), AReturn)
      modifies this
      ensures View() == Return(old(View())) && Valid()
      ensures ok <==> old(tasks)[Cur(old(View()))].cause == Some(Handoff)
    {
      hide Inv;
      ReturnInv(View());
      AnswerIsCause(View());
      ok := !tasks[current.value].expired;
      tasks := tasks[current.value := tasks[current.value].(call := None)];
    }

    // -------------------------------------------------------------- queue

    /** QueueCore::push_raw, for an accepted item. */
    method PushRaw(q: nat, x: Bytes)
      requires q in queues
      modifies this`queues
      ensures queues == old(queues)[q := old(queues)[q].(ring := old(queues)[q].ring + [x], accepted := old(queues)[q].accepted + [x])]
    {
      queues := queues[q := queues[q].(ring := queues[q].ring + [x], accepted := queues[q].accepted + [x])];
    }

    /** QueueCore::pop_raw */
    method PopRaw(q: nat) returns (x: Bytes)
      requires q in queues && queues[q].ring != []
      modifies this`queues
      ensures x == old(queues)[q].ring[0]
      ensures queues == old(queues)[q := old(queues)[q].(ring := old(queues)[q].ring[1..], delivered := old(queues)[q].delivered + [x])]
    {
      x := queues[q].ring[0];
      queues := queues[q := queues[q].(ring := queues[q].ring[1..], delivered := queues[q].delivered + [x])];
    }

    method SendToRing(q: nat, x: Bytes) returns (sent: bool)
      requires q in queues && L(View(), RecvKey(q)) == []
      modifies this`queues
      ensures View() == QueueSend(old(View()), q, x, 0) && (sent <==> |old(queues)[q].ring| < old(queues)[q].capacity)
    {
      hide QueueSend;
      SendNobody(View(), q, x);
      if |queues[q].ring| >= queues[q].capacity { return false; }
      PushRaw(q, x);
      return true;
    }

    /** send_from_isr(), and the first half of send(). */
    method SendFromIsr(q: nat, x: Bytes) returns (sent: bool, preempt: bool)
      requires Valid() && q in queues
      modifies this
      ensures View().(yieldDue := yieldDue || preempt) == QueueSend(old(View()), q, x, 0) && yieldDue == old(yieldDue)
      ensures sent <==> L(old(View()), RecvKey(q)) != [] || |old(queues)[q].ring| < old(queues)[q].capacity
      ensures preempt <==> FirstOutranks(old(View()), RecvKey(q))
    {
      hide Inv, Plucked, Readied, Preempts, QueueSend, Waits, Unlisted, SoleList;
      ghost var v0 := View();
      HeadWaits(v0, RecvKey(q));
      var receiver := WakeHighest(RecvKey(q));
      if receiver == None {
        sent := SendToRing(q, x);
        return sent, false;
      }
      EmptyForReceiver(v0, q);
      assert queues[q].ring == [];
      SendFields(v0, q, x, receiver.value);
      PluckedPriorities(v0, RecvKey(q), receiver.value);
      preempt := Deliver(q, x, receiver.value);
      return true, preempt;
    }

    /** The item goes into the buffer of the receiver `t`, which becomes ready. */
    method Deliver(q: nat, x: Bytes, t: Tid) returns (preempt: bool)
      requires q in queues && t in tasks && tasks[t].state == Blocked && Unlisted(lists, t)
      modifies this
      ensures var s, b := old(View()), old(queues)[q];
        View().(yieldDue := yieldDue || preempt)
        == Notify(Readied(s.(tasks := s.tasks[t := s.tasks[t].(item := x, ticket := |b.delivered|)],
                             queues := s.queues[q := b.(accepted := b.accepted + [x], delivered := b.delivered + [x])]), t), t)
      ensures yieldDue == old(yieldDue)
      ensures preempt <==> OutranksRunning(old(View()), t)
    {
      hide Readied, Preempts, Unlisted;
      tasks := tasks[t := tasks[t].(item := x, ticket := |queues[q].delivered|)];
      queues := queues[q := queues[q].(accepted := queues[q].accepted + [x], delivered := queues[q].delivered + [x])];
      preempt := MakeTaskReady(t);
    }

    /** send(): None means that the caller is parked with its item. */
    method Send(q: nat, x: Bytes, ms: nat) returns (r: Option<bool>)
      requires Valid() && q in queues && ms <= UINT32_MAX && (ms == 0 || TaskCalls(View()) || CanSend(View(), q))
      modifies this
      ensures View() == QueueSend(old(View()), q, x, ms) && Valid()
      ensures r == if L(old(View()), RecvKey(q)) != [] || |old(queues)[q].ring| < old(queues)[q].capacity then Some(true)
                   else if ms == 0 then Some(false) else None
    {
      hide Inv, QueueSend, Park;
      ghost var v0 := View();
      QueueSendInv(v0, q, x, ms);
      SendCases(v0, q, x, ms);
      var sent, preempt := SendFromIsr(q, x);
      if sent {
        if preempt { TaskYield(); }
        return Some(true);
      }
      if ms == 0 { return Some(false); }
      LinksOf(v0);
      BlockSender(q, x, ms);
      return None;
    }

    /** block_current_locked() on the senders. */
    method BlockSender(q: nat, x: Bytes, ms: nat)
      requires Linked(View()) && TaskCalls(View())
      modifies this
      ensures View() == Park(old(View()), old(tasks)[Cur(old(View()))].(item := x), SendKey(q), ms)
    {
      hide Linked, Park;
      EditLinked(View(), current.value, tasks[current.value].(item := x));
      ParkEdited(View(), tasks[current.value].(item := x), SendKey(q), ms);
      tasks := tasks[current.value := tasks[current.value].(item := x)];
      BlockCurrent(SendKey(q), ms);
    }

    /** receive_from_isr(), and the first half of receive(). */
    method ReceiveFromIsr(q: nat) returns (got: Option<Bytes>, preempt: bool)
      requires Valid() && q in queues
      modifies this
      ensures View().(yieldDue := yieldDue || preempt) == QueueReceive(old(View()), q, 0) && yieldDue == old(yieldDue)
      ensures got == if old(queues)[q].ring == [] then None else Some(old(queues)[q].ring[0])
      ensures preempt <==> got.Some? && FirstOutranks(old(View()), SendKey(q))
    {
      hide Inv, Plucked, Readied, Preempts, QueueReceive, Waits, Unlisted, SoleList;
      ghost var v0 := View();
      HeadWaits(v0, SendKey(q));
      ReceiveNobody(v0, q);
      if queues[q].ring == [] { return None, false; }
      var x := PopRaw(q);
      got := Some(x);
      ghost var v1 := View();
      var sender := WakeHighest(SendKey(q));
      if sender == None { return got, false; }
      ReceiveFields(v0, q, sender.value);
      PluckedPriorities(v0, SendKey(q), sender.value);
      PluckedFrame(v0, v1, SendKey(q), sender.value);
      RefillStep(v0.queues, q, v0.tasks[sender.value].item);
      preempt := Refill(q, sender.value);
    }

    /** The item of the sender `t` goes into the freed slot, and the sender becomes ready. */
    method Refill(q: nat, t: Tid) returns (preempt: bool)
      requires q in queues && t in tasks && tasks[t].state == Blocked && Unlisted(lists, t)
      modifies this
      ensures var s, b, x := old(View()), old(queues)[q], old(tasks)[t].item;
        View().(yieldDue := yieldDue || preempt)
        == Notify(Readied(s.(tasks := s.tasks[t := s.tasks[t].(ticket := |b.accepted|)],
                             queues := s.queues[q := b.(ring := b.ring + [x], accepted := b.accepted + [x])]), t), t)
      ensures yieldDue == old(yieldDue)
      ensures preempt <==> OutranksRunning(old(View()), t)
    {
      hide Readied, Preempts, Unlisted;
      tasks := tasks[t := tasks[t].(ticket := |queues[q].accepted|)];
      PushRaw(q, tasks[t].item);
      preempt := MakeTaskReady(t);
    }

    /** receive(): None means that the caller is parked. */
    method Receive(q: nat, ms: nat) returns (r: Option<Option<Bytes>>)
      requires Valid() && q in queues && ms <= UINT32_MAX && (ms == 0 || TaskCalls(View()) || CanReceive(View(), q))
      modifies this
      ensures View() == QueueReceive(old(View()), q, ms) && Valid()
      ensures r == if old(queues)[q].ring != [] then Some(Some(old(queues)[q].ring[0])) else if ms == 0 then Some(None) else None
    {
      hide Inv, QueueReceive, Park;
      ghost var v0 := View();
      QueueReceiveInv(v0, q, ms);
      ReceiveCases(v0, q, ms);
      var got, preempt := ReceiveFromIsr(q);
      if got.Some? {
        if preempt { TaskYield(); }
        return Some(got);
      }
      if ms == 0 { return Some(None); }
      LinksOf(v0);
      BlockCurrent(RecvKey(q), ms);
      return None;
    }

    // -------------------------------------------------------------- event group

    /** The waiter `t`, wherever it stands in `k`, is unlinked and its timeout cancelled. */
    method Pluck(k: Key, t: Tid)
      requires t in tasks && SoleList(lists, t, k)
      modifies this
      ensures View() == Plucked(old(View()), k, t) && Unlisted(lists, t)
    {
      hide Unlisted;
      DropUnlists(lists, t, k);
      ListRemove(k, t);
      CancelTimeout(t);
      tasks := tasks[t := Granted(tasks[t])];
    }

    /** A satisfied waiter is unlinked, given the bits, charged its mask if it asked for that, and made ready. */
    method ServeWaiter(e: nat, t: Tid) returns (preempt: bool)
      requires e in events && t in tasks && Waits(tasks[t], EventKey(e)) && SoleList(lists, t, EventKey(e))
      modifies this
      ensures View().(yieldDue := yieldDue || preempt) == Serve(old(View()), e, t) && yieldDue == old(yieldDue)
      ensures preempt <==> OutranksRunning(old(View()), t)
    {
      hide Readied, Preempts, Serve, Minus, Drop, DelayWithout, Unlisted, SoleList;
      ServeFields(View(), e, t);
      PluckedPriorities(View(), EventKey(e), t);
      Pluck(EventKey(e), t);
      tasks, events := tasks[t := tasks[t].(bits := events[e])], Consumed(events, e, tasks[t]);
      preempt := MakeTaskReady(t);
    }

    /** EventGroup::scan_and_wake_locked: one walk over the waiters, whose links change on the way. */
    method ScanAndWake(e: nat) returns (preempt: bool)
      requires Scanning(View(), e, L(View(), EventKey(e)))
      modifies this
      ensures View().(yieldDue := yieldDue || preempt) == Scan(old(View()), e, L(old(View()), EventKey(e)))
      ensures yieldDue == old(yieldDue) && (preempt <==> OneOutranks(old(View()), View(), L(old(View()), EventKey(e))))
    {
      hide Scanning, Serve, Satisfies, Waits, NoDup, SoleList, OneOutranks, SamePriorities, OutranksRunning;
      ghost var s, rest, kept := View(), L(View(), EventKey(e)), [];
      var l := Lookup(lists, EventKey(e));
      var cur := if l == [] then None else Some(l[0]);
      preempt := false;
      WaitersBlocked(s, e, rest);
      NoneReady(s, s, rest);
      SameItself(s);
      while cur.Some?
        invariant View() == s.(yieldDue := old(yieldDue)) && (s.yieldDue <==> old(yieldDue) || preempt)
        invariant Scanning(s, e, rest) && L(s, EventKey(e)) == kept + rest
        invariant cur == if rest == [] then None else Some(rest[0])
        invariant Scan(s, e, rest) == Scan(old(View()), e, L(old(View()), EventKey(e)))
        invariant SamePriorities(old(View()), s) && (preempt <==> OneOutranks(old(View()), s, L(old(View()), EventKey(e))))
        invariant forall t :: t in rest ==> t in L(old(View()), EventKey(e))
        decreases |rest|
      {
        var t := cur.value;
        ScanFacts(s, e, kept, rest);
        var next := After(Lookup(lists, EventKey(e)), t);
        if Satisfies(events[e], tasks[t].mask, tasks[t].all) {
          ServeFlag(s, e, t, yieldDue);
          ServedOutranks(old(View()), s, e, t, L(old(View()), EventKey(e)));
          ServeScanning(s, e, rest);
          var outranks := ServeWaiter(e, t);
          preempt := preempt || outranks;
          s := Serve(s, e, t);
        } else {
          SkipScanning(s, e, rest);
          kept := kept + [t];
        }
        rest, cur := rest[1..], next;
      }
      FlagOutranks(old(View()), s, yieldDue, L(old(View()), EventKey(e)));
    }

    /** set_bits_from_isr(): the caller yields if it is told to. */
    method SetBitsFromIsr(e: nat, mask: bv32) returns (bits: bv32, preempt: bool)
      requires Valid() && e in events
      modifies this
      ensures View().(yieldDue := yieldDue || preempt) == EventSet(old(View()), e, mask) && yieldDue == old(yieldDue)
      ensures e in events && bits == events[e] && FoldLeaves(old(View()), e, mask, bits)
      ensures preempt <==> OneOutranks(old(View()), View(), L(old(View()), EventKey(e)))
    {
      hide Inv, Scanning, Scan, Plus, FoldLeaves, OneOutranks;
      ghost var v0 := View();
      SetLeaves(v0, e, mask);
      StartScanning(View(), e, Plus(events[e], mask));
      ScanKeeps(SetBits(View(), e, Plus(events[e], mask)), e, L(View(), EventKey(e)));
      events := events[e := Plus(events[e], mask)];
      preempt := ScanAndWake(e);
      SetOutranks(v0, e, Plus(Bits(v0, e), mask), View(), L(v0, EventKey(e)));
      bits := events[e];
    }

    method SetEventBits(e: nat, mask: bv32) returns (bits: bv32)
      requires Valid() && e in events
      modifies this
      ensures View() == EventSet(old(View()), e, mask) && Valid()
      ensures e in events && bits == events[e] && FoldLeaves(old(View()), e, mask, bits)
      ensures yieldDue <==> old(yieldDue) || OneOutranks(old(View()), View(), L(old(View()), EventKey(e)))
    {
      hide Inv, EventSet, FoldLeaves, OneOutranks;
      ghost var v0 := View();
      EventSetInv(v0, e, mask);
      var preempt;
      bits, preempt := SetBitsFromIsr(e, mask);
      FlagOutranks(v0, View(), true, L(v0, EventKey(e)));
      if preempt { TaskYield(); }
    }

    method ClearEventBits(e: nat, mask: bv32) returns (bits: bv32)
      requires Valid() && e in events
      modifies this
      ensures View() == EventClear(old(View()), e, mask) && Valid()
      ensures e in events && bits == events[e] && Cleared(old(events)[e], mask, bits)
    {
      hide Inv, Cleared, Minus;
      EventClearInv(View(), e, mask);
      MinusBits(events[e], mask, Minus(events[e], mask));
      events := events[e := Minus(events[e], mask)];
      bits := events[e];
    }

    /** wait_bits(): None means that the caller is parked. */
    method WaitBits(e: nat, mask: bv32, all: bool, clear: bool, ms: nat) returns (r: Option<bv32>)
      requires Valid() && TaskCalls(View()) && e in events && ms <= UINT32_MAX
      modifies this
      ensures View() == EventWait(old(View()), e, mask, all, clear, ms) && Valid()
      ensures r == if mask == 0 || Met(old(events)[e], mask, all) || ms == 0 then Some(old(events)[e]) else None
    {
      hide Inv, Park, Satisfies, Minus, Met;
      MetBits(events[e], mask, all);
      EventWaitInv(View(), e, mask, all, clear, ms);
      if mask == 0 { return Some(events[e]); }
      if Satisfies(events[e], mask, all) {
        r := Some(events[e]);
        if clear { events := events[e := Minus(events[e], mask)]; }
        return;
      }
      if ms == 0 { return Some(events[e]); }
      BlockForBits(e, mask, all, clear, ms);
      return None;
    }

    method BlockForBits(e: nat, mask: bv32, all: bool, clear: bool, ms: nat)
      requires Valid() && TaskCalls(View())
      modifies this
      ensures View() == Park(old(View()), old(tasks)[Cur(old(View()))].(mask := mask, all := all, clear := clear), EventKey(e), ms)
    {
      hide Inv, Linked, Park;
      LinksOf(View());
      var c := tasks[current.value].(mask := mask, all := all, clear := clear);
      EditLinked(View(), current.value, c);
      ParkEdited(View(), c, EventKey(e), ms);
      tasks := tasks[current.value := c];
      BlockCurrent(EventKey(e), ms);
    }

    /** What wait_bits() answers after its yield: the bits it was given, or after a timeout the current ones. */
    method FinishWait(e: nat) returns (bits: bv32)
      requires Valid() && Enabled(View(), AReturn) && tasks[Cur(View())].call == Some(EventKey(e)) && e in events
      modifies this
      ensures View() == Return(old(View())) && Valid()
      ensures var c := old(tasks)[Cur(old(View()))];
        bits == (if c.cause == Some(Handoff) then c.bits else events[e]) && (c.cause == Some(Handoff) ==> Met(bits, c.mask, c.all))
    {
      hide Inv, Satisfies, Met;
      MetBits(tasks[current.value].bits, tasks[current.value].mask, tasks[current.value].all);
      BitsAreMet(View());
      var t := current.value;
      var ok := FinishCall();
      return if ok then tasks[t].bits else events[e];
    }
  }
}
