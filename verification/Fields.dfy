/** The moves of the state machine spelled out field by field, as the code makes them. */
module Fields {
  import opened Lists
  import opened Model
  import opened Structure
  import opened Delays
  import opened Invariant
  import opened Preservation
  import opened EventScan
  import opened Mutexes
  import opened Scheduling

  function Lookup(lists: map<Key, seq<Tid>>, k: Key): seq<Tid> {
    if k in lists then lists[k] else []
  }

  function Append(lists: map<Key, seq<Tid>>, k: Key, t: Tid): map<Key, seq<Tid>> {
    lists[k := Lookup(lists, k) + [t]]
  }

  function Drop(lists: map<Key, seq<Tid>>, k: Key, t: Tid): map<Key, seq<Tid>> {
    lists[k := Without(Lookup(lists, k), t)]
  }

  function PutIn(tasks: map<Tid, Tcb>, lists: map<Key, seq<Tid>>, k: Key, t: Tid): map<Key, seq<Tid>>
    requires t in tasks
  {
    lists[k := InsertByPriority(tasks, Lookup(lists, k), t, tasks[t].prio)]
  }

  /** A task that stands in no list may be added to one. */
  ghost predicate Unlisted(lists: map<Key, seq<Tid>>, t: Tid) {
    forall k: Key :: t !in Lookup(lists, k)
  }

  /** A task that stands in `k`, once, and in no other list. */
  ghost predicate SoleList(lists: map<Key, seq<Tid>>, t: Tid, k: Key) {
    t in Lookup(lists, k) && NoDup(Lookup(lists, k)) && forall j: Key :: j != k ==> t !in Lookup(lists, j)
  }

  lemma DropUnlists(lists: map<Key, seq<Tid>>, t: Tid, k: Key)
    requires SoleList(lists, t, k)
    ensures Unlisted(Drop(lists, k, t), t)
  {
    var l := Without(Lookup(lists, k), t);
    assert t !in l;
    forall j: Key ensures t !in Lookup(Drop(lists, k, t), j) { assert Lookup(Drop(lists, k, t), j) == if j == k then l else Lookup(lists, j); }
  }

  lemma OffLists(s: State, t: Tid)
    requires Linked(s) && Where(T(s, t)) == None
    ensures Unlisted(s.lists, t)
  {
    forall k: Key ensures t !in Lookup(s.lists, k) { assert t in L(s, k) <==> Belongs(s, t, k); }
  }

  lemma Stands(s: State, t: Tid, k: Key)
    requires Linked(s) && t in s.tasks && Where(s.tasks[t]) == Some(k)
    ensures SoleList(s.lists, t, k)
  {
    forall j: Key ensures t in Lookup(s.lists, j) <==> j == k { assert t in L(s, j) <==> Belongs(s, t, j); }
    assert NoDup(L(s, k));
  }

  /** A blocked task whose wait is over stands nowhere. */
  lemma LeftUnlists(s: State, t: Tid)
    requires Linked(s) && t in s.tasks && s.tasks[t].state == Blocked
    ensures Unlisted(Left(s.lists, s.tasks[t], t), t)
    ensures s.tasks[t].wait.Some? ==> SoleList(s.lists, t, s.tasks[t].wait.value)
  {
    hide Linked, Unlisted, SoleList, Drop;
    match s.tasks[t].wait
    case Some(k) => Stands(s, t, k); DropUnlists(s.lists, t, k);
    case None => OffLists(s, t);
  }

  /** The member after `t`. */
  function After(l: seq<Tid>, t: Tid): Option<Tid> {
    if |l| <= 1 then None else if l[0] == t then Some(l[1]) else After(l[1..], t)
  }

  lemma {:induction false} AfterAt(l: seq<Tid>, i: nat)
    requires i < |l| && NoDup(l)
    ensures After(l, l[i]) == if i + 1 < |l| then Some(l[i + 1]) else None
  {
    if i > 0 { AfterAt(l[1..], i - 1); }
  }

  lemma PutReady(s: State, t: Tid, c: Tcb)
    requires c.state == Ready
    ensures Put(s, t, c) == s.(tasks := s.tasks[t := c], lists := Append(Unlinked(s, t), ReadyKey(c.prio), t))
  {
  }

  lemma PutWaiting(s: State, t: Tid, c: Tcb, k: Key)
    requires c.state == Blocked && c.wait == Some(k) && !k.ReadyKey? && t !in Lookup(Unlinked(s, t), k)
    ensures Put(s, t, c) == s.(tasks := s.tasks[t := c], lists := PutIn(s.tasks[t := c], Unlinked(s, t), k, t))
  {
    PriosFrame(s.tasks, t, c, Lookup(Unlinked(s, t), k));
  }

  lemma PutOff(s: State, t: Tid, c: Tcb)
    requires Where(c) == None
    ensures Put(s, t, c) == s.(tasks := s.tasks[t := c], lists := Unlinked(s, t))
  {
  }

  lemma UnlinkedFrom(s: State, t: Tid)
    ensures Unlinked(s, t) == match Where(T(s, t)) case Some(k) => Drop(s.lists, k, t) case None => s.lists
  {
  }

  /** A waiter unlinked, given the control block `c`, and made ready. */
  lemma WakeFields(s: State, k: Key, t: Tid, c: Tcb)
    requires Waits(T(s, t), k) && Waits(c, k)
    ensures Wake(s.(tasks := s.tasks[t := c]), t, Handoff)
      == s.(tasks := s.tasks[t := Woken(c, Handoff)], lists := Append(Drop(s.lists, k, t), ReadyKey(c.prio), t),
            delay := DelayWithout(s.delay, t))
  {
    var s0 := s.(tasks := s.tasks[t := c]);
    assert s0.tasks[t := Woken(c, Handoff)] == s.tasks[t := Woken(c, Handoff)];
    PutReady(s0, t, Woken(c, Handoff));
    UnlinkedFrom(s0, t);
  }

  ghost predicate Waits(c: Tcb, k: Key) {
    c.state == Blocked && c.wait == Some(k) && !k.ReadyKey?
  }

  lemma LinksOf(s: State)
    requires Inv(s)
    ensures Linked(s)
  {
  }

  // ---------------------------------------------------------------- switch

  /** The front of a ready list, popped and set running. */
  lemma DispatchFields(s: State, p: nat)
    requires L(s, ReadyKey(p)) != [] && Where(T(s, L(s, ReadyKey(p))[0])) == Some(ReadyKey(p))
    ensures var l := L(s, ReadyKey(p));
      Put(s, l[0], T(s, l[0]).(state := Running))
      == s.(tasks := s.tasks[l[0] := T(s, l[0]).(state := Running)], lists := s.lists[ReadyKey(p) := l[1..]])
  {
    PutOff(s, L(s, ReadyKey(p))[0], T(s, L(s, ReadyKey(p))[0]).(state := Running));
  }

  /** After the outgoing task is back in its list there is a ready task to run. */
  lemma SwitchFacts(s: State)
    requires Inv(s) && s.started
    ensures s.current.Some? ==> s.current.value in s.tasks
    ensures CanDispatch(Vacate(s))
  {
    hide Linked, TasksBut, Positive, Vacate, Own, Objects, Clock;
    VacateVacant(s);
    TopIsHighest(Vacate(s));
    assert Vacate(s).tasks[Vacate(s).idle.value].state == Ready;
  }

  ghost predicate CanDispatch(s: State) {
    var top := TopReady(s, MAX_PRIORITIES);
    top.Some? && var t := L(s, ReadyKey(top.value))[0];
    t in s.tasks && Where(s.tasks[t]) == Some(ReadyKey(top.value))
  }

  // ---------------------------------------------------------------- blocking

  /** The running task is in no list. */
  lemma ParkFields(s: State, c: Tcb, k: Key, ms: nat)
    requires Linked(s) && TaskCalls(s) && !k.ReadyKey?
    ensures var tasks' := s.tasks[Cur(s) := Parked(c, k)];
      Park(s, c, k, ms)
      == s.(tasks := tasks', lists := PutIn(tasks', s.lists, k, Cur(s)),
            delay := if ms == WAIT_FOREVER then s.delay else DelayInsert(s.delay, Cur(s), MsToTicks(ms)), yieldDue := true)
  {
    var t := Cur(s);
    assert t in L(s, k) <==> Belongs(s, t, k);
    PutWaiting(s, t, Parked(c, k), k);
  }

  // ---------------------------------------------------------------- release, suspend, delete

  /** A control block whose wait, if any, ended without a handoff. */
  function Ended(c: Tcb, cause: Cause): Tcb {
    if c.wait.Some? then c.(wait := None, expired := true, cause := Some(cause)) else c
  }

  function Left(lists: map<Key, seq<Tid>>, c: Tcb, t: Tid): map<Key, seq<Tid>> {
    if c.wait.Some? then Drop(lists, c.wait.value, t) else lists
  }

  /** The first sleeper leaves the delay list and, if it was waiting, its wait list. */
  lemma ReleaseFields(s: State)
    requires Releasing(s) && s.delay != []
    ensures var t := s.delay[0].task;
      && t in s.tasks
      && var c := s.tasks[t];
      Wake(s, t, Timeout)
      == s.(tasks := s.tasks[t := Ended(c, Timeout).(state := Ready)],
            lists := Append(Left(s.lists, c, t), ReadyKey(c.prio), t),
            delay := s.delay[1..])
  {
    hide Linked, Own, Objects, Reason, TcbOk;
    var t := s.delay[0].task;
    FrontDue(s.delay);
    assert TaskOk(s, t, s.tasks[t]);
    PutReady(s, t, Woken(s.tasks[t], Timeout));
    UnlinkedFrom(s, t);
    Shorter(s.delay);
  }

  lemma ReleaseUnlists(s: State)
    requires Releasing(s) && s.delay != []
    ensures var t := s.delay[0].task;
      && t in s.tasks && Unlisted(Left(s.lists, s.tasks[t], t), t)
      && (s.tasks[t].wait.Some? ==> t in Lookup(s.lists, s.tasks[t].wait.value))
  {
    hide Linked, Own, Objects, TcbOk, ReasonIn, Left, Unlisted;
    var t := s.delay[0].task;
    FrontDue(s.delay);
    assert TaskOk(s, t, s.tasks[t]);
    LeftUnlists(s, t);
  }

  /** Every task stands in the list its control block names. */
  lemma StandsThere(s: State, t: Tid)
    requires Inv(s) && t in s.tasks
    ensures Where(s.tasks[t]).Some? ==> t in Lookup(s.lists, Where(s.tasks[t]).value)
  {
    hide Inv;
    LinksOf(s);
    if Where(s.tasks[t]).Some? { Stands(s, t, Where(s.tasks[t]).value); }
  }

  /** Only blocked tasks wait or sleep. */
  lemma OnlyBlocked(s: State, t: Tid)
    requires Inv(s) && t in s.tasks
    ensures s.tasks[t].wait.Some? ==> s.tasks[t].state == Blocked
    ensures s.tasks[t].state != Blocked ==> DelayWithout(s.delay, t) == s.delay
  {
    hide Linked, Own, Objects, Reason, Ticket;
    assert TaskOk(s, t, s.tasks[t]);
    WithoutDue(s.delay, t);
  }

  /** The lists after `t` has left the one it is in. */
  function Detached(lists: map<Key, seq<Tid>>, c: Tcb, t: Tid): map<Key, seq<Tid>> {
    if c.state == Ready then Drop(lists, ReadyKey(c.prio), t) else Left(lists, c, t)
  }

  lemma HaltFields(s: State, t: Tid, st: TaskState)
    requires Inv(s) && t in s.tasks && (st == Suspended || st == Deleted)
    ensures var c := s.tasks[t];
      Halt(s, t, st)
      == s.(tasks := s.tasks[t := Ended(c, Cancelled).(state := st)], lists := Detached(s.lists, c, t),
            delay := DelayWithout(s.delay, t), yieldDue := s.yieldDue || (s.started && s.current == Some(t)))
  {
    hide Inv;
    OnlyBlocked(s, t);
    PutOff(s, t, Stopped(s.tasks[t], st));
    UnlinkedFrom(s, t);
  }

  lemma ResumeFields(s: State, t: Tid)
    requires T(s, t).state == Suspended
    ensures Put(s, t, T(s, t).(state := Ready))
      == s.(tasks := s.tasks[t := T(s, t).(state := Ready)], lists := Append(s.lists, ReadyKey(T(s, t).prio), t))
  {
    PutReady(s, t, T(s, t).(state := Ready));
  }

  /** A new priority moves a ready or waiting task within its lists. */
  lemma PriorityFields(s: State, t: Tid, p: nat)
    requires Linked(s) && t in s.tasks && s.tasks[t].prio != p
    requires s.tasks[t].wait.Some? ==> !s.tasks[t].wait.value.ReadyKey?
    ensures var c := s.tasks[t]; var tasks' := s.tasks[t := c.(prio := p)];
      SetPriority(s, t, p)
      == s.(tasks := tasks',
            lists := if c.state == Ready then Append(Drop(s.lists, ReadyKey(c.prio), t), ReadyKey(p), t)
                     else if c.state == Blocked && c.wait.Some? then PutIn(tasks', Drop(s.lists, c.wait.value, t), c.wait.value, t)
                     else s.lists)
  {
    hide Linked;
    var c, c' := s.tasks[t], s.tasks[t].(prio := p);
    UnlinkedFrom(s, t);
    if c.state == Ready { PutReady(s, t, c'); }
    else if c.state == Blocked && c.wait.Some? {
      UnlinkAt(s, t, c.wait.value);
      PutWaiting(s, t, c', c.wait.value);
    } else { PutOff(s, t, c'); }
  }

  /** A ready or waiting task leaves its list before it is added again. */
  lemma LeavesList(s: State, t: Tid)
    requires Linked(s) && t in s.tasks && Where(s.tasks[t]).Some?
    ensures var k := Where(s.tasks[t]).value; t in Lookup(s.lists, k) && Unlisted(Drop(s.lists, k, t), t)
  {
    hide Linked, Unlisted;
    Stands(s, t, Where(s.tasks[t]).value);
    DropUnlists(s.lists, t, Where(s.tasks[t]).value);
  }

  lemma CreateFields(s: State, t: Tid, p: nat)
    requires t !in s.tasks && |s.tasks| < s.maxTasks
    ensures var c := FreshTcb(p).(state := Ready); var tasks' := s.tasks[t := c];
      Create(s, t, p) == Notify(s.(tasks := tasks', lists := Append(s.lists, ReadyKey(p), t)), t)
  {
    hide Put, Notify;
    var s1 := Edit(s, t, FreshTcb(p));
    ResumeFields(s1, t);
    assert s1.tasks[t := FreshTcb(p).(state := Ready)] == s.tasks[t := FreshTcb(p).(state := Ready)];
  }

  lemma SleepFields(s: State, n: nat)
    requires Inv(s) && TaskCalls(s)
    ensures Sleep(s, n) == s.(tasks := s.tasks[Cur(s) := s.tasks[Cur(s)].(state := Blocked)],
                              delay := DelayInsert(s.delay, Cur(s), n), yieldDue := true)
  {
    hide Inv;
    Calling(s);
    PutOff(s, Cur(s), s.tasks[Cur(s)].(state := Blocked));
  }

  // ---------------------------------------------------------------- handover

  /** The head of a wait list, if there is one, waits there. */
  lemma HeadWaits(s: State, k: Key)
    requires Inv(s) && !k.ReadyKey?
    ensures L(s, k) != [] ==> L(s, k)[0] in s.tasks && Waits(s.tasks[L(s, k)[0]], k) && s.tasks[L(s, k)[0]].state == Blocked
    ensures L(s, k) != [] ==> SoleList(s.lists, L(s, k)[0], k)
  {
    hide Linked, SoleList, TasksBut, Rest, Positive, Preemptive;
    if L(s, k) != [] {
      Head(s, k);
      Stands(s, L(s, k)[0], k);
    }
  }

  /** The waiter `t` is unlinked from `k` and its timeout cancelled. */
  function Plucked(s: State, k: Key, t: Tid): (r: State)
    ensures r == s.(tasks := r.tasks, lists := r.lists, delay := r.delay)
  {
    s.(tasks := s.tasks[t := Granted(T(s, t))], lists := Drop(s.lists, k, t), delay := DelayWithout(s.delay, t))
  }

  function Granted(c: Tcb): Tcb {
    c.(wait := None, cause := Some(Handoff))
  }

  /** make_task_ready() */
  function Readied(s: State, t: Tid): (r: State)
    ensures r == s.(tasks := r.tasks, lists := r.lists)
  {
    s.(tasks := s.tasks[t := T(s, t).(state := Ready, wait := None)], lists := Append(s.lists, ReadyKey(T(s, t).prio), t))
  }

  /** Waking a waiter is unlinking it, perhaps writing to its control block, and making it ready. */
  lemma WakePlucked(s: State, k: Key, t: Tid, c: Tcb)
    requires Waits(T(s, t), k) && Waits(c, k)
    ensures var s1 := Plucked(s, k, t);
      Notify(Wake(s.(tasks := s.tasks[t := c]), t, Handoff), t) == Notify(Readied(s1.(tasks := s1.tasks[t := Granted(c)]), t), t)
  {
    hide Append, Wake, Drop, Notify;
    WakeFields(s, k, t, c);
    var s1 := Plucked(s, k, t);
    assert s1.tasks[t := Granted(c)][t := Granted(c).(state := Ready, wait := None)] == s.tasks[t := Woken(c, Handoff)];
  }

  /** Handing a token to the waiter `t`. */
  lemma GiveFields(s: State, i: nat, t: Tid)
    requires i in s.sems && L(s, SemKey(i)) != [] && t == L(s, SemKey(i))[0]
    requires t in s.tasks && Waits(s.tasks[t], SemKey(i))
    ensures var m, s1 := s.sems[i], Plucked(s, SemKey(i), t);
      SemGive(s, i) == Notify(Readied(s1.(sems := s.sems[i := m.(gives := m.gives + 1, granted := m.granted + 1)]), t), t)
  {
    hide Wake, Notify, Readied, Drop;
    var m := s.sems[i];
    var s0 := s.(sems := s.sems[i := m.(gives := m.gives + 1, granted := m.granted + 1)]);
    assert s.tasks[t := s.tasks[t]] == s.tasks;
    WakePlucked(s0, SemKey(i), t, s.tasks[t]);
    var s1 := Plucked(s0, SemKey(i), t);
    assert s1.tasks[t := Granted(s.tasks[t])] == s1.tasks;
  }

  /** The first in a wait list, if there is one, waits there and stands nowhere else. */
  ghost predicate HeadOk(s: State, k: Key) {
    L(s, k) != [] ==> L(s, k)[0] in s.tasks && Waits(s.tasks[L(s, k)[0]], k) && SoleList(s.lists, L(s, k)[0], k)
  }

  lemma HeadIsOk(s: State, k: Key)
    requires HeadOk(s, k) && L(s, k) != []
    ensures var t := L(s, k)[0]; t in s.tasks && Waits(s.tasks[t], k) && s.tasks[t].state == Blocked && SoleList(s.lists, t, k)
  {
  }

  /** Handing a mutex to its first waiter `t`. */
  lemma PassFields(s: State, m: nat, t: Tid)
    requires L(s, MutexKey(m)) != [] && t == L(s, MutexKey(m))[0]
    requires t in s.tasks && Waits(s.tasks[t], MutexKey(m))
    ensures var s1, c := Plucked(s, MutexKey(m), t), Granted(s.tasks[t]);
      PassOn(s, m)
      == Notify(Readied(s1.(tasks := s1.tasks[t := c.(held := [m] + c.held)], owners := s.owners[m := Some(t)]), t), t)
  {
    hide Wake, Notify, Readied, Drop;
    WakePlucked(s.(owners := s.owners[m := Some(t)]), MutexKey(m), t, s.tasks[t].(held := [m] + s.tasks[t].held));
  }

  /** Handing an item to the first waiting receiver `t`. */
  lemma SendFields(s: State, q: nat, x: Bytes, t: Tid)
    requires q in s.queues && L(s, RecvKey(q)) != [] && t == L(s, RecvKey(q))[0]
    requires t in s.tasks && Waits(s.tasks[t], RecvKey(q))
    ensures var s1, c, b := Plucked(s, RecvKey(q), t), Granted(s.tasks[t]), s.queues[q];
      QueueSend(s, q, x, 0)
      == Notify(Readied(s1.(tasks := s1.tasks[t := c.(item := x, ticket := |b.delivered|)],
                            queues := s.queues[q := b.(accepted := b.accepted + [x], delivered := b.delivered + [x])]), t), t)
  {
    hide Wake, Notify, Readied, Drop;
    var b := s.queues[q];
    WakePlucked(s.(queues := s.queues[q := b.(accepted := b.accepted + [x], delivered := b.delivered + [x])]),
                RecvKey(q), t, s.tasks[t].(item := x, ticket := |b.delivered|));
  }

  /** Refilling the slot just freed from the first waiting sender `t`. */
  lemma ReceiveFields(s: State, q: nat, t: Tid)
    requires q in s.queues && s.queues[q].ring != [] && L(s, SendKey(q)) != [] && t == L(s, SendKey(q))[0]
    requires t in s.tasks && Waits(s.tasks[t], SendKey(q))
    ensures var s1, c, b := Plucked(s, SendKey(q), t), Granted(s.tasks[t]), s.queues[q];
      QueueReceive(s, q, 0)
      == Notify(Readied(s1.(tasks := s1.tasks[t := c.(ticket := |b.accepted|)],
                            queues := s.queues[q := Refilled(b, c.item)]), t), t)
  {
    hide Wake, Notify, Readied, Drop;
    var b := s.queues[q];
    WakePlucked(s.(queues := s.queues[q := Refilled(b, s.tasks[t].item)]), SendKey(q), t, s.tasks[t].(ticket := |b.accepted|));
  }

  function Refilled(b: Queue, x: Bytes): Queue
    requires b.ring != []
  {
    b.(ring := b.ring[1..] + [x], delivered := b.delivered + [b.ring[0]], accepted := b.accepted + [x])
  }

  /** The bits after serving a waiter with control block `c`. */
  function Consumed(events: map<nat, bv32>, e: nat, c: Tcb): map<nat, bv32>
    requires e in events
  {
    if c.clear then events[e := Minus(events[e], c.mask)] else events
  }

  lemma MarkFields(s: State, e: nat, t: Tid)
    requires e in s.events && t in s.tasks
    ensures Mark(s, e, t) == s.(tasks := s.tasks[t := s.tasks[t].(bits := s.events[e])], events := Consumed(s.events, e, s.tasks[t]))
  {
    hide Minus;
  }

  /** Serving a satisfied waiter of an event group, wherever it stands. */
  lemma ServeFields(s: State, e: nat, t: Tid)
    requires e in s.events && t in s.tasks && Waits(s.tasks[t], EventKey(e))
    ensures var s1, c := Plucked(s, EventKey(e), t), Granted(s.tasks[t]);
      Serve(s, e, t)
      == Notify(Readied(s1.(tasks := s1.tasks[t := c.(bits := s.events[e])], events := Consumed(s.events, e, c)), t), t)
  {
    hide Wake, Notify, Readied, Drop, Mark, Consumed;
    MarkFields(s, e, t);
    SameConsumed(s.events, e, s.tasks[t]);
    WakePlucked(s.(events := Consumed(s.events, e, s.tasks[t])), EventKey(e), t, s.tasks[t].(bits := s.events[e]));
  }

  lemma SameConsumed(events: map<nat, bv32>, e: nat, c: Tcb)
    requires e in events
    ensures Consumed(events, e, Granted(c)) == Consumed(events, e, c)
  {
  }

  // ---------------------------------------------------------------- flags

  /** A yield requested earlier does not change how a priority is settled. */
  lemma SettleFlag(s: State, t: Tid, due: bool)
    ensures Settle(s.(yieldDue := due), t) == Settle(s, t).(yieldDue := due || Recompute(s, t) != T(s, t).prio)
    ensures Settle(s, t).yieldDue <==> s.yieldDue || Recompute(s, t) != T(s, t).prio
  {
    hide Put;
    InheritFlag(s, T(s, t).held, T(s, t).base, due);
    PriorityFlag(s, t, Recompute(s, t), due);
  }

  lemma {:induction false} InheritFlag(s: State, held: seq<nat>, p: nat, due: bool)
    ensures Inherit(s.(yieldDue := due), held, p) == Inherit(s, held, p)
    decreases |held|
  {
    if held != [] {
      var l := L(s, MutexKey(held[0]));
      InheritFlag(s, held[1..], if l != [] && T(s, l[0]).prio > p then T(s, l[0]).prio else p, due);
    }
  }

  /** The lists after a move depend on tasks and lists only. */
  function Moved(tasks: map<Tid, Tcb>, lists: map<Key, seq<Tid>>, t: Tid, c: Tcb): map<Key, seq<Tid>> {
    var lists' := match Where(if t in tasks then tasks[t] else FreshTcb(0)) case Some(k) => Drop(lists, k, t) case None => lists;
    match Where(c)
    case Some(k) => lists'[k := Enlist(tasks, k, Lookup(lists', k), t, c.prio)]
    case None => lists'
  }

  lemma PutOn(s: State, t: Tid, c: Tcb, k: Key)
    requires Where(c) == Some(k)
    ensures Put(s, t, c).lists == Unlinked(s, t)[k := Enlist(s.tasks, k, Lookup(Unlinked(s, t), k), t, c.prio)]
  {
    hide Enlist, Unlinked, Where;
  }

  lemma PutMoved(s: State, t: Tid, c: Tcb)
    ensures Put(s, t, c).lists == Moved(s.tasks, s.lists, t, c)
  {
    hide Enlist, Unlinked, Drop, Put, Where;
    UnlinkedFrom(s, t);
    match Where(c)
    case None => PutOff(s, t, c);
    case Some(k) => PutOn(s, t, c, k);
  }

  lemma PriorityFlag(s: State, t: Tid, p: nat, due: bool)
    ensures SetPriority(s.(yieldDue := due), t, p) == SetPriority(s, t, p).(yieldDue := due)
  {
    hide Put, Moved;
    PutMoved(s, t, T(s, t).(prio := p));
    PutMoved(s.(yieldDue := due), t, T(s, t).(prio := p));
  }

  lemma PassNone(s: State, m: nat)
    requires L(s, MutexKey(m)) == []
    ensures PassOn(s, m) == s.(owners := s.owners[m := None])
  {
  }

  /** Between dropping a mutex and passing it on. */
  lemma DropFacts(s: State, m: nat)
    requires Inv(s) && TaskCalls(s) && Owner(s, m) == s.current
    ensures var t := Cur(s);
      var s0 := Edit(s, t, s.tasks[t].(held := Without(s.tasks[t].held, m)));
      && HeadOk(s0, MutexKey(m))
      && Linked(PassOn(s0, m)) && t in PassOn(s0, m).tasks && PassOn(s0, m).tasks[t].wait == None
  {
    hide Inv, PassOn, Linked, TasksBut, Rest, Objects, Present, Clock, SoleList;
    var t := Cur(s);
    var s0 := Edit(s, t, s.tasks[t].(held := Without(s.tasks[t].held, m)));
    DropInv(s, m);
    if L(s0, MutexKey(m)) != [] {
      Head(s0, MutexKey(m));
      Stands(s0, L(s0, MutexKey(m))[0], MutexKey(m));
      PassHead(s0, m, t);
    } else {
      PassNobody(s0, m, t);
    }
  }

  /** The flag a call reads says how its wait ended. */
  lemma AnswerIsCause(s: State)
    requires Inv(s) && Enabled(s, AReturn)
    ensures var c := s.tasks[Cur(s)]; !c.expired <==> c.cause == Some(Handoff)
  {
    assert TaskOk(s, Cur(s), s.tasks[Cur(s)]);
  }

  // ---------------------------------------------------------------- queue calls by case

  lemma SendNobody(s: State, q: nat, x: Bytes)
    requires q in s.queues && L(s, RecvKey(q)) == []
    ensures var b := s.queues[q];
      QueueSend(s, q, x, 0)
      == if |b.ring| < b.capacity then s.(queues := s.queues[q := b.(ring := b.ring + [x], accepted := b.accepted + [x])]) else s
  {
  }

  /** Who waits to receive finds the queue empty. */
  lemma EmptyForReceiver(s: State, q: nat)
    requires Inv(s) && q in s.queues && L(s, RecvKey(q)) != []
    ensures s.queues[q].ring == []
  {
    hide Inv;
    Waiting(s, RecvKey(q));
  }

  lemma SendCases(s: State, q: nat, x: Bytes, ms: nat)
    requires q in s.queues
    ensures if L(s, RecvKey(q)) != [] || |s.queues[q].ring| < s.queues[q].capacity then QueueSend(s, q, x, ms) == QueueSend(s, q, x, 0)
            else QueueSend(s, q, x, 0) == s && (ms > 0 ==> QueueSend(s, q, x, ms) == Park(s, T(s, Cur(s)).(item := x), SendKey(q), ms))
  {
    hide Park, Wake;
  }

  lemma ParkEdited(s: State, c: Tcb, k: Key, ms: nat)
    requires Linked(s) && Linked(Edit(s, Cur(s), c)) && TaskCalls(s) && TaskCalls(Edit(s, Cur(s), c)) && !k.ReadyKey?
    ensures Park(Edit(s, Cur(s), c), c, k, ms) == Park(s, c, k, ms)
  {
    hide Linked, Park, PutIn;
    ParkFields(s, c, k, ms);
    ParkFields(Edit(s, Cur(s), c), c, k, ms);
    assert s.tasks[Cur(s) := c][Cur(s) := Parked(c, k)] == s.tasks[Cur(s) := Parked(c, k)];
  }

  lemma ReceiveNobody(s: State, q: nat)
    requires q in s.queues
    ensures s.queues[q].ring == [] ==> QueueReceive(s, q, 0) == s
    ensures var b := s.queues[q];
      b.ring != [] && L(s, SendKey(q)) == [] ==>
        QueueReceive(s, q, 0) == s.(queues := s.queues[q := b.(ring := b.ring[1..], delivered := b.delivered + [b.ring[0]])])
  {
    hide Wake;
  }

  /** Popping the oldest item and pushing `x` is one change of the queue. */
  lemma RefillStep(queues: map<nat, Queue>, q: nat, x: Bytes)
    requires q in queues && queues[q].ring != []
    ensures var b := queues[q];
      var b1 := b.(ring := b.ring[1..], delivered := b.delivered + [b.ring[0]]);
      queues[q := b1][q := b1.(ring := b1.ring + [x], accepted := b1.accepted + [x])] == queues[q := Refilled(b, x)]
  {
  }

  lemma PluckedFrame(s: State, s1: State, k: Key, t: Tid)
    requires s1 == s.(queues := s1.queues)
    ensures Plucked(s1, k, t) == Plucked(s, k, t).(queues := s1.queues)
  {
  }

  lemma ReceiveCases(s: State, q: nat, ms: nat)
    requires q in s.queues
    ensures if s.queues[q].ring != [] then QueueReceive(s, q, ms) == QueueReceive(s, q, 0)
            else QueueReceive(s, q, 0) == s && (ms > 0 ==> QueueReceive(s, q, ms) == Park(s, T(s, Cur(s)), RecvKey(q), ms))
  {
    hide Park, Wake;
  }

  // ---------------------------------------------------------------- event scan

  /** What the walk needs of the waiter it stands at, and of the list around it. */
  lemma ScanFacts(s: State, e: nat, kept: seq<Tid>, rest: seq<Tid>)
    requires Scanning(s, e, rest) && rest != [] && L(s, EventKey(e)) == kept + rest
    ensures var t := rest[0];
      && e in s.events && t in s.tasks && Waits(s.tasks[t], EventKey(e)) && SoleList(s.lists, t, EventKey(e))
      && After(kept + rest, t) == (if |rest| > 1 then Some(rest[1]) else None)
      && L(Serve(s, e, t), EventKey(e)) == kept + rest[1..]
  {
    hide Rest, TasksBut, Positive, Preemptive, Serve, SoleList;
    var l, t := kept + rest, rest[0];
    assert Unvisited(s, e, t, s.tasks[t]);
    Stands(s, t, EventKey(e));
    assert NoDup(L(s, EventKey(e)));
    assert l[|kept|] == t;
    AfterAt(l, |kept|);
    WithoutAt(l, |kept|);
    assert l[..|kept|] + l[|kept| + 1..] == kept + rest[1..];
    ServeList(s, e, t);
  }

  lemma ServeList(s: State, e: nat, t: Tid)
    requires e in s.events && t in s.tasks && Waits(s.tasks[t], EventKey(e))
    ensures L(Serve(s, e, t), EventKey(e)) == Without(L(s, EventKey(e)), t)
  {
    hide Serve, Consumed;
    ServeFields(s, e, t);
  }

  /** A yield requested earlier does not change how a waiter is served. */
  lemma ServeFlag(s: State, e: nat, t: Tid, due: bool)
    requires e in s.events && t in s.tasks && Waits(s.tasks[t], EventKey(e))
    ensures Serve(s.(yieldDue := due), e, t) == Serve(s, e, t).(yieldDue := due || Preempts(s, t))
    ensures Serve(s, e, t).yieldDue <==> s.yieldDue || Preempts(s, t)
  {
    hide Serve, Consumed, Drop;
    ServeFields(s, e, t);
    ServeFields(s.(yieldDue := due), e, t);
  }

  lemma {:induction false} ScanKeeps(s: State, e: nat, l: seq<Tid>)
    requires e in s.events
    ensures e in Scan(s, e, l).events
    decreases |l|
  {
    hide Serve, Satisfies;
    if l != [] {
      if Satisfies(Bits(s, e), T(s, l[0]).mask, T(s, l[0]).all) {
        ServeEvents(s, e, l[0]);
        ScanKeeps(Serve(s, e, l[0]), e, l[1..]);
      } else {
        ScanKeeps(s, e, l[1..]);
      }
    }
  }

  lemma ServeEvents(s: State, e: nat, t: Tid)
    requires e in s.events
    ensures e in Serve(s, e, t).events
  {
    hide Wake;
  }

  lemma BitsAreMet(s: State)
    requires Inv(s) && Enabled(s, AReturn)
    ensures var c := s.tasks[Cur(s)];
      c.call.value.EventKey? && c.cause == Some(Handoff) ==> Satisfies(c.bits, c.mask, c.all)
  {
    hide Satisfies;
    assert TaskOk(s, Cur(s), s.tasks[Cur(s)]);
  }
}
