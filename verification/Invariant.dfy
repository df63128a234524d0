/** What holds in every state between two critical sections. */
module Invariant {
  import opened Lists
  import opened Model
  import opened Structure
  import opened Delays

  /** A control block agrees with itself: boosts, waits and the history of the last call. */
  ghost predicate TcbOk(c: Tcb) {
    && c.prio < MAX_PRIORITIES && c.base <= c.prio && (c.held == [] ==> c.prio == c.base) && NoDup(c.held)
    && WaitOk(c)
  }

  ghost predicate WaitOk(c: Tcb) {
    && (c.wait.Some? ==> c.state == Blocked && !c.wait.value.ReadyKey? && c.call == c.wait && !c.expired && c.cause == None)
    && (c.call.Some? && c.wait == None ==> c.cause.Some? && (c.expired <==> c.cause.value != Handoff))
    && (c.call.Some? && c.call.value.MutexKey? && c.cause == Some(Handoff) ==> c.call.value.mutex in c.held)
    && (c.call.Some? && c.call.value.EventKey? && c.cause == Some(Handoff) ==> Satisfies(c.bits, c.mask, c.all))
  }

  /** What was handed over in a queue call stands in the queue's log where the ticket says. */
  ghost predicate Ticket(queues: map<nat, Queue>, c: Tcb) {
    c.cause == Some(Handoff) ==>
      match c.call
      case Some(RecvKey(q)) => q in queues && At(queues[q].delivered, c.ticket, c.item)
      case Some(SendKey(q)) => q in queues && At(queues[q].accepted, c.ticket, c.item)
      case _ => true
  }

  ghost predicate At(log: seq<Bytes>, i: nat, x: Bytes) {
    i < |log| && log[i] == x
  }

  /** Nobody waits for what is available. */
  ghost predicate Reason(sems: map<nat, Sem>, owners: map<nat, Option<Tid>>, queues: map<nat, Queue>, events: map<nat, bv32>, c: Tcb) {
    match c.wait
    case Some(SemKey(i)) => i in sems && sems[i].count == 0
    case Some(MutexKey(m)) => m in owners && owners[m].Some? && m !in c.held
    case Some(SendKey(q)) => q in queues && |queues[q].ring| == queues[q].capacity
    case Some(RecvKey(q)) => q in queues && queues[q].ring == []
    case Some(EventKey(e)) => e in events && !Satisfies(events[e], c.mask, c.all)
    case _ => true
  }

  ghost predicate ReasonIn(s: State, c: Tcb) {
    Reason(s.sems, s.owners, s.queues, s.events, c) && Ticket(s.queues, c)
  }

  /** Blocked means waiting or sleeping; only blocked tasks sleep; only the current task runs. */
  ghost predicate Sited(due: map<Tid, nat>, current: Option<Tid>, t: Tid, c: Tcb) {
    && (t in due ==> c.state == Blocked && !(c.wait.Some? && c.wait.value.MutexKey?))
    && (c.state == Blocked ==> c.wait.Some? || t in due)
    && (c.state == Running ==> current == Some(t))
  }

  ghost predicate TaskOk(s: State, t: Tid, c: Tcb) {
    TcbOk(c) && ReasonIn(s, c) && Sited(Due(s.delay), s.current, t, c)
  }

  /** Every task is in order, the ones in `ex` perhaps excepted. */
  ghost predicate TasksBut(s: State, ex: set<Tid>) {
    forall t :: t in s.tasks && t !in ex ==> TaskOk(s, t, s.tasks[t])
  }

  ghost predicate TasksOk(s: State) {
    TasksBut(s, {})
  }

  /** A mutex is owned by `t` exactly when `t` holds it. */
  ghost predicate Own(tasks: map<Tid, Tcb>, owners: map<nat, Option<Tid>>) {
    forall m: nat, t: Tid :: OwnAt(tasks, owners, m, t)
  }

  ghost predicate OwnAt(tasks: map<Tid, Tcb>, owners: map<nat, Option<Tid>>, m: nat, t: Tid) {
    (t in tasks && m in tasks[t].held) <==> (m in owners && owners[m] == Some(t))
  }

  /** Tokens are conserved; what came out of a queue is what went in, in order. */
  ghost predicate Objects(sems: map<nat, Sem>, queues: map<nat, Queue>) {
    && (forall i :: i in sems ==> SemOk(sems[i]))
    && (forall q :: q in queues ==> QueueOk(queues[q]))
  }

  ghost predicate SemOk(m: Sem) {
    m.count <= UINT32_MAX && m.initial + m.gives == m.granted + m.count + m.dropped
  }

  ghost predicate QueueOk(b: Queue) {
    0 < b.capacity && |b.ring| <= b.capacity && b.accepted == b.delivered + b.ring
  }

  ghost predicate Present(tasks: map<Tid, Tcb>, current: Option<Tid>, idle: Option<Tid>, started: bool) {
    && (current.Some? ==> current.value in tasks)
    && (!started ==> current == None && idle == None)
    && (started ==> idle.Some? && idle.value in tasks && IdleOk(tasks[idle.value]))
  }

  /** The idle task never leaves the ready list and the CPU. */
  ghost predicate IdleOk(c: Tcb) {
    (c.state == Ready || c.state == Running) && c.call == None
  }

  ghost predicate Clock(tasks: map<Tid, Tcb>, delay: seq<Entry>, tick: nat) {
    GoodDelay(delay) && (forall t :: t in Due(delay) ==> t in tasks) && tick < TWO_32
  }

  /** Everything but the task conjunct and the lists. */
  ghost predicate Rest(s: State) {
    && Own(s.tasks, s.owners)
    && Objects(s.sems, s.queues)
    && Present(s.tasks, s.current, s.idle, s.started)
    && Clock(s.tasks, s.delay, s.tick)
  }

  /** No sleeper is overdue. */
  ghost predicate Positive(delay: seq<Entry>) {
    forall t :: t in Due(delay) ==> Due(delay)[t] > 0
  }

  /** No missed preemption: a yield is due, or the running task outranks every ready one. */
  ghost predicate Preemptive(s: State) {
    s.started ==> s.yieldDue || Outranks(s.tasks, s.current)
  }

  ghost predicate Outranks(tasks: map<Tid, Tcb>, current: Option<Tid>) {
    && current.Some? && current.value in tasks && tasks[current.value].state == Running
    && forall t :: t in tasks && tasks[t].state == Ready ==> tasks[t].prio <= tasks[current.value].prio
  }

  ghost predicate Inv(s: State) {
    Linked(s) && TasksOk(s) && Rest(s) && Positive(s.delay) && Preemptive(s)
  }

  // ---------------------------------------------------------------- changing one task

  /** One task changes, and perhaps an object: the others stay in order when their
      reasons to wait survive. */
  lemma TasksChange(s: State, s': State, t: Tid, c: Tcb, ex: set<Tid>)
    requires TasksBut(s, ex + {t}) && s'.tasks == s.tasks[t := c] && s'.current == s.current
    requires forall x :: x != t ==> (x in Due(s'.delay) <==> x in Due(s.delay))
    requires forall x :: x in s.tasks && x != t && x !in ex ==> ReasonIn(s', s.tasks[x])
    requires t !in ex ==> TaskOk(s', t, c)
    ensures TasksBut(s', ex)
  {
    forall x | x in s'.tasks && x !in ex ensures TaskOk(s', x, s'.tasks[x]) {
      if x != t { assert TaskOk(s, x, s.tasks[x]); }
    }
  }

  /** Only objects change: every waiting task must still have a reason. */
  lemma TasksObjects(s: State, s': State, ex: set<Tid>)
    requires TasksBut(s, ex) && s'.tasks == s.tasks && s'.current == s.current && s'.delay == s.delay
    requires forall x :: x in s.tasks && x !in ex ==> ReasonIn(s', s.tasks[x])
    ensures TasksBut(s', ex)
  {
    forall x | x in s'.tasks && x !in ex ensures TaskOk(s', x, s'.tasks[x]) {
      assert TaskOk(s, x, s.tasks[x]);
    }
  }

  lemma OwnFrame(tasks: map<Tid, Tcb>, owners: map<nat, Option<Tid>>, t: Tid, c: Tcb)
    requires Own(tasks, owners)
    requires c.held == if t in tasks then tasks[t].held else []
    ensures Own(tasks[t := c], owners)
  {
    var tasks' := tasks[t := c];
    forall m: nat, x: Tid ensures OwnAt(tasks', owners, m, x) {
      assert OwnAt(tasks, owners, m, x);
    }
  }

  /** The one who heads a wait list is blocked on it. */
  lemma Head(s: State, k: Key)
    requires Linked(s) && !k.ReadyKey? && L(s, k) != []
    ensures var t := L(s, k)[0]; t in s.tasks && s.tasks[t].state == Blocked && s.tasks[t].wait == Some(k)
  {
    assert Belongs(s, L(s, k)[0], k);
  }

  /** An empty wait list means that no task waits for the object. */
  lemma NoWaiter(s: State, k: Key, t: Tid)
    requires Linked(s) && TasksOk(s) && L(s, k) == [] && t in s.tasks
    ensures s.tasks[t].wait != Some(k)
  {
    assert TaskOk(s, t, s.tasks[t]);
    assert t in L(s, k) <==> Belongs(s, t, k);
  }

  // ---------------------------------------------------------------- waking

  /** Ending a wait keeps everything, except for tasks that were exempt anyway. */
  lemma WakeRest(s: State, t: Tid, cause: Cause, ex: set<Tid>)
    requires TasksBut(s, ex + {t}) && Rest(s)
    requires t in s.tasks && s.tasks[t].state == Blocked && TcbOk(Woken(s.tasks[t], cause))
    requires Ticket(s.queues, Woken(s.tasks[t], cause))
    ensures TasksBut(Wake(s, t, cause), ex) && Rest(Wake(s, t, cause))
  {
    var s' := Wake(s, t, cause);
    var c := Woken(s.tasks[t], cause);
    WithoutDue(s.delay, t);
    assert s'.tasks == s.tasks[t := c];
    TasksChange(s, s', t, c, ex);
    OwnFrame(s.tasks, s.owners, t, c);
  }

  lemma WakeNotifyRest(s: State, t: Tid, cause: Cause, ex: set<Tid>)
    requires TasksBut(s, ex + {t}) && Rest(s)
    requires t in s.tasks && s.tasks[t].state == Blocked && TcbOk(Woken(s.tasks[t], cause))
    requires Ticket(s.queues, Woken(s.tasks[t], cause))
    ensures TasksBut(Notify(Wake(s, t, cause), t), ex) && Rest(Notify(Wake(s, t, cause), t))
  {
    hide Wake, TasksBut, Rest;
    WakeRest(s, t, cause, ex);
    Irrelevant(Wake(s, t, cause), Notify(Wake(s, t, cause), t), ex);
  }

  /** A wait that ends normally leaves a good control block. */
  lemma WokenOk(c: Tcb, cause: Cause)
    requires TcbOk(c) && c.state == Blocked
    requires cause == Handoff && c.wait.Some? ==> !c.wait.value.MutexKey? && (c.wait.value.EventKey? ==> Satisfies(c.bits, c.mask, c.all))
    ensures TcbOk(Woken(c, cause))
  {
  }

  lemma WakePreemptive(s: State, t: Tid, cause: Cause)
    requires Preemptive(s) && t in s.tasks && s.tasks[t].state == Blocked
    ensures Preemptive(Notify(Wake(s, t, cause), t))
  {
    assert Wake(s, t, cause).tasks == s.tasks[t := Woken(s.tasks[t], cause)];
  }

  lemma WakeLinked(s: State, t: Tid, cause: Cause)
    requires Linked(s)
    ensures Linked(Notify(Wake(s, t, cause), t))
  {
    PutLinked(s, t, Woken(T(s, t), cause));
    LinkedFrame(Put(s, t, Woken(T(s, t), cause)), Notify(Wake(s, t, cause), t));
  }

  lemma WakePositive(s: State, t: Tid, cause: Cause)
    requires GoodDelay(s.delay) && Positive(s.delay)
    ensures Positive(Wake(s, t, cause).delay)
  {
    WithoutDue(s.delay, t);
  }

  /** Handing over to a waiter of a semaphore or a queue. */
  lemma HandoverInv(s: State, t: Tid)
    requires Inv(s) && t in s.tasks && s.tasks[t].state == Blocked
    requires s.tasks[t].wait.Some? && !s.tasks[t].wait.value.MutexKey? && !s.tasks[t].wait.value.EventKey?
    requires Ticket(s.queues, Woken(s.tasks[t], Handoff))
    ensures Inv(Notify(Wake(s, t, Handoff), t))
  {
    hide Wake, Linked, Preemptive, Reason, Own, Objects;
    assert TaskOk(s, t, s.tasks[t]);
    WokenOk(s.tasks[t], Handoff);
    assert TasksBut(s, {} + {t});
    WakeNotifyRest(s, t, Handoff, {});
    WakePreemptive(s, t, Handoff);
    WakeLinked(s, t, Handoff);
    WakePositive(s, t, Handoff);
  }

  /** The yield flag and the lists do not matter to the tasks. */
  lemma Irrelevant(s: State, s': State, ex: set<Tid>)
    requires TasksBut(s, ex) && Rest(s)
    requires s' == s.(yieldDue := s'.yieldDue, lists := s'.lists)
    ensures TasksBut(s', ex) && Rest(s')
  {
    forall x | x in s'.tasks && x !in ex ensures TaskOk(s', x, s'.tasks[x]) {
      assert TaskOk(s, x, s.tasks[x]);
    }
  }

  // ---------------------------------------------------------------- parking

  lemma ParkedOk(c: Tcb, k: Key)
    requires TcbOk(c) && !k.ReadyKey?
    ensures TcbOk(Parked(c, k))
  {
  }

  lemma ParkDelay(s: State, c: Tcb, k: Key, ms: nat)
    requires GoodDelay(s.delay) && Cur(s) !in Due(s.delay) && 0 < ms <= UINT32_MAX
    ensures var d := Park(s, c, k, ms).delay;
      && Due(d) == (if ms == WAIT_FOREVER then Due(s.delay) else Due(s.delay)[Cur(s) := MsToTicks(ms)])
      && GoodDelay(d) && MsToTicks(ms) > 0
  {
    if ms != WAIT_FOREVER { InsertDue(s.delay, Cur(s), MsToTicks(ms)); }
  }

  lemma ParkTasks(s: State, c: Tcb, k: Key, ms: nat)
    requires TasksOk(s) && GoodDelay(s.delay) && TaskCalls(s) && 0 < ms <= UINT32_MAX
    requires TcbOk(c) && !k.ReadyKey?
    requires ReasonIn(s, Parked(c, k))
    requires k.MutexKey? ==> ms == WAIT_FOREVER
    ensures TasksOk(Park(s, c, k, ms))
  {
    var t := Cur(s);
    assert TaskOk(s, t, s.tasks[t]);
    ParkDelay(s, c, k, ms);
    ParkedOk(c, k);
    TasksChange(s, Park(s, c, k, ms), t, Parked(c, k), {});
  }

  lemma ParkRest(s: State, c: Tcb, k: Key, ms: nat)
    requires TasksOk(s) && Rest(s) && TaskCalls(s) && 0 < ms <= UINT32_MAX
    requires c.held == T(s, Cur(s)).held
    ensures Rest(Park(s, c, k, ms))
  {
    var t := Cur(s);
    assert TaskOk(s, t, s.tasks[t]);
    assert Park(s, c, k, ms).tasks == s.tasks[t := Parked(c, k)];
    ParkDelay(s, c, k, ms);
    OwnFrame(s.tasks, s.owners, t, Parked(c, k));
  }

  /** Parking with an editable control block keeps the whole invariant. */
  lemma ParkInv(s: State, c: Tcb, k: Key, ms: nat)
    requires Linked(s) && TasksOk(s) && Rest(s) && Positive(s.delay) && TaskCalls(s) && 0 < ms <= UINT32_MAX
    requires TcbOk(c) && c.held == T(s, Cur(s)).held && !k.ReadyKey?
    requires ReasonIn(s, Parked(c, k))
    requires k.MutexKey? ==> ms == WAIT_FOREVER
    ensures Inv(Park(s, c, k, ms))
  {
    var t := Cur(s);
    assert TaskOk(s, t, s.tasks[t]);
    ParkTasks(s, c, k, ms);
    ParkRest(s, c, k, ms);
    PutLinked(s, t, Parked(c, k));
    LinkedFrame(Put(s, t, Parked(c, k)), Park(s, c, k, ms));
    ParkDelay(s, c, k, ms);
  }
}
