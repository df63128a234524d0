/** The kernel as one state machine. Every action is one critical section of the
    C++ source; the context switch itself is the separate action Switch. */
module Model {
  import opened Lists

  const UINT32_MAX: nat := 0xFFFF_FFFF
  const TWO_32: nat := 0x1_0000_0000
  const TWO_31: nat := 0x8000_0000
  const WAIT_FOREVER: nat := 0xFFFF_FFFF
  const MAX_PRIORITIES: nat := 32
  const TICK_RATE_MS: nat := 1

  type Tid = nat
  type Bytes = seq<bv8>

  datatype Option<+T> = None | Some(value: T)

  datatype TaskState = Ready | Running | Blocked | Suspended | Deleted

  /** Names every TaskList of the kernel: the ready lists and the wait lists. */
  datatype Key =
    | ReadyKey(level: nat)
    | SemKey(sem: nat)
    | MutexKey(mutex: nat)
    | SendKey(queue: nat)
    | RecvKey(queue: nat)
    | EventKey(event: nat)

  /** What ended a parked wait. */
  datatype Cause = Handoff | Timeout | Cancelled

  /** The TaskControlBlock. `call`, `cause` and `ticket` are history: the wait list of the
      blocking call the task is inside of, what ended that wait, and the place of the
      item that was handed over in the log of its queue. */
  datatype Tcb = Tcb(
    state: TaskState,
    prio: nat,
    base: nat,
    held: seq<nat>,
    wait: Option<Key>,
    expired: bool,
    item: Bytes,
    bits: bv32,
    mask: bv32,
    all: bool,
    clear: bool,
    call: Option<Key>,
    cause: Option<Cause>,
    ticket: nat)

  /** A delay-list entry: the task is released when `left` more ticks have passed. */
  datatype Entry = Entry(task: Tid, left: nat)

  /** `gives`, `dropped` and `granted` are history. */
  datatype Sem = Sem(count: nat, initial: nat, gives: nat, dropped: nat, granted: nat)

  /** `accepted` and `delivered` are history: what sends put in, what receives got. */
  datatype Queue = Queue(capacity: nat, ring: seq<Bytes>, accepted: seq<Bytes>, delivered: seq<Bytes>)

  datatype State = State(
    tasks: map<Tid, Tcb>,
    lists: map<Key, seq<Tid>>,
    delay: seq<Entry>,
    current: Option<Tid>,
    idle: Option<Tid>,
    started: bool,
    yieldDue: bool,
    tick: nat,
    maxTasks: nat,
    sems: map<nat, Sem>,
    owners: map<nat, Option<Tid>>,
    queues: map<nat, Queue>,
    events: map<nat, bv32>)

  // ---------------------------------------------------------------- access

  function FreshTcb(p: nat): Tcb {
    Tcb(Suspended, p, p, [], None, false, [], 0, 0, false, false, None, None, 0)
  }

  function T(s: State, t: Tid): Tcb {
    if t in s.tasks then s.tasks[t] else FreshTcb(0)
  }

  function L(s: State, k: Key): seq<Tid> {
    if k in s.lists then s.lists[k] else []
  }

  /** The list a task with this control block has to be linked into. */
  function Where(c: Tcb): Option<Key> {
    match c.state
    case Ready => Some(ReadyKey(c.prio))
    case Blocked => c.wait
    case _ => None
  }

  /** The delay list as a map: the ticks each sleeping task has left. */
  function Due(d: seq<Entry>): map<Tid, nat> {
    if d == [] then map[] else Due(d[1..])[d[0].task := d[0].left]
  }

  function Prios(tasks: map<Tid, Tcb>, l: seq<Tid>): (ps: seq<nat>)
    ensures |ps| == |l|
    ensures forall i :: 0 <= i < |l| ==> ps[i] == if l[i] in tasks then tasks[l[i]].prio else 0
  {
    seq(|l|, i requires 0 <= i < |l| => if l[i] in tasks then tasks[l[i]].prio else 0)
  }

  // ---------------------------------------------------------------- lists

  function InsertByPriority(tasks: map<Tid, Tcb>, l: seq<Tid>, t: Tid, p: nat): seq<Tid> {
    Splice(l, InsertPos(Prios(tasks, l), p), t)
  }

  function Enlist(tasks: map<Tid, Tcb>, k: Key, l: seq<Tid>, t: Tid, p: nat): seq<Tid> {
    if k.ReadyKey? then l + [t] else InsertByPriority(tasks, l, t, p)
  }

  function Unlinked(s: State, t: Tid): map<Key, seq<Tid>> {
    match Where(T(s, t))
    case None => s.lists
    case Some(k) => s.lists[k := Without(L(s, k), t)]
  }

  /** Give task `t` the control block `c`, moving it from the list it was in to
      the list it belongs to now. */
  function Put(s: State, t: Tid, c: Tcb): (r: State)
    ensures r == s.(tasks := s.tasks[t := c], lists := r.lists)
  {
    var s1 := s.(lists := Unlinked(s, t));
    match Where(c)
    case None => s1.(tasks := s.tasks[t := c])
    case Some(k) => s1.(tasks := s.tasks[t := c], lists := s1.lists[k := Enlist(s.tasks, k, L(s1, k), t, c.prio)])
  }

  /** Change fields of `t` that do not decide where it is linked. */
  function Edit(s: State, t: Tid, c: Tcb): State {
    s.(tasks := s.tasks[t := c])
  }

  function DelayInsert(d: seq<Entry>, t: Tid, n: nat): seq<Entry> {
    if d == [] || n < d[0].left then [Entry(t, n)] + d
    else [d[0]] + DelayInsert(d[1..], t, n)
  }

  function DelayWithout(d: seq<Entry>, t: Tid): seq<Entry> {
    if d == [] then []
    else if d[0].task == t then d[1..]
    else [d[0]] + DelayWithout(d[1..], t)
  }

  /** One tick passes for every entry. */
  function DelayDown(d: seq<Entry>): seq<Entry> {
    if d == [] then []
    else [Entry(d[0].task, if d[0].left > 0 then d[0].left - 1 else 0)] + DelayDown(d[1..])
  }

  // ---------------------------------------------------------------- scheduler helpers

  /** Only ticks move the counter, only switches change the running task. */
  predicate SameClock(s: State, s': State) {
    s'.tick == s.tick && s'.current == s.current
  }

  function MsToTicks(ms: nat): nat {
    if ms == 0 then 0 else ms / TICK_RATE_MS + (if ms % TICK_RATE_MS != 0 then 1 else 0)
  }

  /** The running task; only meaningful when there is one. */
  function Cur(s: State): Tid {
    if s.current.Some? then s.current.value else 0
  }

  predicate Preempts(s: State, t: Tid) {
    s.started && s.current.Some? && T(s, t).prio > T(s, s.current.value).prio
  }

  /** A yield is requested when the task just made ready outranks the running one. */
  function Notify(s: State, t: Tid): State {
    s.(yieldDue := s.yieldDue || Preempts(s, t))
  }

  function Woken(c: Tcb, cause: Cause): Tcb {
    c.(state := Ready, wait := None,
       expired := c.expired || (cause != Handoff && c.wait.Some?),
       cause := if c.wait.Some? then Some(cause) else c.cause)
  }

  /** End the wait of `t`: unlink it from its wait list and the delay list, make it ready. */
  function Wake(s: State, t: Tid, cause: Cause): (r: State)
    ensures r == s.(tasks := s.tasks[t := Woken(T(s, t), cause)], lists := r.lists, delay := DelayWithout(s.delay, t))
  {
    Put(s, t, Woken(T(s, t), cause)).(delay := DelayWithout(s.delay, t))
  }

  function Stopped(c: Tcb, st: TaskState): Tcb {
    c.(state := st, wait := None,
       expired := c.expired || c.wait.Some?,
       cause := if c.wait.Some? then Some(Cancelled) else c.cause)
  }

  /** Take `t` out of every list and leave it Suspended or Deleted. */
  function Halt(s: State, t: Tid, st: TaskState): State {
    Put(s, t, Stopped(T(s, t), st))
      .(delay := DelayWithout(s.delay, t), yieldDue := s.yieldDue || (s.started && s.current == Some(t)))
  }

  function Parked(c: Tcb, k: Key): Tcb {
    c.(state := Blocked, wait := Some(k), expired := false, call := Some(k), cause := None)
  }

  /** Block the running task, whose control block is to be `c`, on list `k`. */
  function Park(s: State, c: Tcb, k: Key, ms: nat): (r: State)
    ensures r == s.(tasks := s.tasks[Cur(s) := Parked(c, k)], lists := r.lists, delay := r.delay, yieldDue := true)
  {
    var t := Cur(s);
    var s1 := Put(s, t, Parked(c, k));
    s1.(delay := if ms == WAIT_FOREVER then s.delay else DelayInsert(s.delay, t, MsToTicks(ms)), yieldDue := true)
  }

  function SetPriority(s: State, t: Tid, p: nat): (r: State)
    ensures t in s.tasks ==> r == s.(tasks := s.tasks[t := T(s, t).(prio := p)], lists := r.lists)
    ensures SameClock(s, r)
  {
    if T(s, t).prio == p then s else Put(s, t, T(s, t).(prio := p))
  }

  /** Highest level below `n` with a ready task, by linear scan. */
  function TopReady(s: State, n: nat): (r: Option<nat>)
    ensures r.Some? ==> r.value < n && L(s, ReadyKey(r.value)) != []
    ensures forall p :: 0 <= p < n && (r.Some? ==> r.value < p) ==> L(s, ReadyKey(p)) == []
  {
    if n == 0 then None
    else if L(s, ReadyKey(n - 1)) != [] then Some(n - 1)
    else TopReady(s, n - 1)
  }

  predicate NeedsPreemption(s: State) {
    var top := TopReady(s, MAX_PRIORITIES);
    top.Some? && (s.current.Some? ==> top.value >= T(s, s.current.value).prio)
  }

  // ---------------------------------------------------------------- scheduler steps

  function Create(s: State, t: Tid, p: nat): (r: State)
    ensures r == s.(tasks := r.tasks, lists := r.lists, yieldDue := r.yieldDue)
    ensures r.tasks == if |s.tasks| >= s.maxTasks then s.tasks else s.tasks[t := FreshTcb(p).(state := Ready)]
  {
    if |s.tasks| >= s.maxTasks then s
    else Notify(Put(Edit(s, t, FreshTcb(p)), t, FreshTcb(p).(state := Ready)), t)
  }

  function Start(s: State, t: Tid): State {
    Create(s, t, 0).(idle := Some(t), started := true, yieldDue := true)
  }

  /** The outgoing task goes to the back of its ready list if it is still running. */
  function Vacate(s: State): State {
    if s.current.Some? && T(s, Cur(s)).state == Running
    then Put(s, Cur(s), T(s, Cur(s)).(state := Ready)) else s
  }

  function Switch(s: State): State {
    var s1 := Vacate(s);
    var top := TopReady(s1, MAX_PRIORITIES);
    if top.None? then s1.(yieldDue := false)
    else
      var t := L(s1, ReadyKey(top.value))[0];
      Put(s1, t, T(s1, t).(state := Running)).(current := Some(t), yieldDue := false)
  }

  /** Release the entries at the front of the delay list whose time has come. */
  function ReleaseDue(s: State): State
    decreases |s.delay|
  {
    if s.delay != [] && s.delay[0].left == 0 then ReleaseDue(Wake(s, s.delay[0].task, Timeout)) else s
  }

  function Tick(s: State): State {
    var s1 := ReleaseDue(s.(tick := (s.tick + 1) % TWO_32, delay := DelayDown(s.delay)));
    s1.(yieldDue := s1.yieldDue || NeedsPreemption(s1))
  }

  function Sleep(s: State, n: nat): State {
    var t := Cur(s);
    Put(s, t, T(s, t).(state := Blocked)).(delay := DelayInsert(s.delay, t, n), yieldDue := true)
  }

  function DelayMs(s: State, ms: nat): State {
    if MsToTicks(ms) == 0 then s else Sleep(s, MsToTicks(ms))
  }

  /** `wake - now` as the source computes it: modulo 2^32, read as a signed 32-bit number. */
  function Remaining(wake: nat, now: nat): int {
    var d := (wake - now) % TWO_32;
    if d < TWO_31 then d else d - TWO_32
  }

  function DelayUntil(s: State, wake: nat): State {
    var r := Remaining(wake, s.tick);
    if r <= 0 then s else Sleep(s, r)
  }

  function SuspendTask(s: State, t: Tid): State {
    if T(s, t).state == Deleted || T(s, t).state == Suspended then s else Halt(s, t, Suspended)
  }

  function ResumeTask(s: State, t: Tid): State {
    if T(s, t).state != Suspended then s
    else Notify(Put(s, t, T(s, t).(state := Ready)), t)
  }

  function DeleteTask(s: State, t: Tid): State {
    if T(s, t).state == Deleted then s else Halt(s, t, Deleted)
  }

  // ---------------------------------------------------------------- semaphore

  function TheSem(s: State, i: nat): Sem {
    if i in s.sems then s.sems[i] else Sem(0, 0, 0, 0, 0)
  }

  function SemTryTake(s: State, i: nat): (r: State)
    ensures SameClock(s, r)
  {
    var m := TheSem(s, i);
    if m.count == 0 then s
    else s.(sems := s.sems[i := m.(count := m.count - 1, granted := m.granted + 1)])
  }

  function SemTake(s: State, i: nat, ms: nat): (r: State)
    ensures SameClock(s, r)
  {
    if ms == 0 || TheSem(s, i).count > 0 then SemTryTake(s, i)
    else Park(s, T(s, Cur(s)), SemKey(i), ms)
  }

  function SemGive(s: State, i: nat): (r: State)
    ensures SameClock(s, r)
  {
    var m := TheSem(s, i).(gives := TheSem(s, i).gives + 1);
    var l := L(s, SemKey(i));
    if l != [] then Notify(Wake(s.(sems := s.sems[i := m.(granted := m.granted + 1)]), l[0], Handoff), l[0])
    else if m.count < UINT32_MAX then s.(sems := s.sems[i := m.(count := m.count + 1)])
    else s.(sems := s.sems[i := m.(dropped := m.dropped + 1)])
  }

  // ---------------------------------------------------------------- mutex

  function Owner(s: State, m: nat): Option<Tid> {
    if m in s.owners then s.owners[m] else None
  }

  function Hold(s: State, m: nat, t: Tid): (r: State)
    ensures r == s.(tasks := s.tasks[t := T(s, t).(held := [m] + T(s, t).held)], owners := s.owners[m := Some(t)])
  {
    Edit(s, t, T(s, t).(held := [m] + T(s, t).held)).(owners := s.owners[m := Some(t)])
  }

  /** The highest of `p` and the first waiters of the mutexes in `held`. */
  function Inherit(s: State, held: seq<nat>, p: nat): nat
  {
    if held == [] then p
    else
      var l := L(s, MutexKey(held[0]));
      Inherit(s, held[1..], if l != [] && T(s, l[0]).prio > p then T(s, l[0]).prio else p)
  }

  function Recompute(s: State, t: Tid): nat {
    Inherit(s, T(s, t).held, T(s, t).base)
  }

  function Lock(s: State, m: nat): (r: State)
    ensures SameClock(s, r)
  {
    var t := Cur(s);
    match Owner(s, m)
    case None => Hold(s, m, t)
    case Some(o) =>
      if o == t then s
      else
        var s1 := if T(s, t).prio > T(s, o).prio then SetPriority(s, o, T(s, t).prio) else s;
        Park(s1, T(s1, t), MutexKey(m), WAIT_FOREVER)
  }

  /** Ownership passes to the highest waiter, or the mutex becomes free. */
  function PassOn(s: State, m: nat): (r: State)
    ensures SameClock(s, r)
  {
    var l := L(s, MutexKey(m));
    if l == [] then s.(owners := s.owners[m := None])
    else Notify(Wake(Hold(s, m, l[0]), l[0], Handoff), l[0])
  }

  function Settle(s: State, t: Tid): (r: State)
    ensures SameClock(s, r)
  {
    var p := Recompute(s, t);
    if p == T(s, t).prio then s else SetPriority(s, t, p).(yieldDue := true)
  }

  function Unlock(s: State, m: nat): (r: State)
    ensures SameClock(s, r)
  {
    var t := Cur(s);
    if Owner(s, m) != Some(t) then s
    else Settle(PassOn(Edit(s, t, T(s, t).(held := Without(T(s, t).held, m))), m), t)
  }

  // ---------------------------------------------------------------- queue

  function TheQueue(s: State, q: nat): Queue {
    if q in s.queues then s.queues[q] else Queue(0, [], [], [])
  }

  function QueueSend(s: State, q: nat, x: Bytes, ms: nat): (r: State)
    ensures SameClock(s, r)
  {
    var b := TheQueue(s, q);
    var l := L(s, RecvKey(q));
    if l != [] then
      var r := l[0];
      var s1 := Edit(s, r, T(s, r).(item := x, ticket := |b.delivered|))
        .(queues := s.queues[q := b.(accepted := b.accepted + [x], delivered := b.delivered + [x])]);
      Notify(Wake(s1, r, Handoff), r)
    else if |b.ring| < b.capacity then
      s.(queues := s.queues[q := b.(ring := b.ring + [x], accepted := b.accepted + [x])])
    else if ms == 0 then s
    else Park(s, T(s, Cur(s)).(item := x), SendKey(q), ms)
  }

  function QueueReceive(s: State, q: nat, ms: nat): (r: State)
    ensures SameClock(s, r)
  {
    var b := TheQueue(s, q);
    var l := L(s, SendKey(q));
    if b.ring != [] then
      var b1 := b.(ring := b.ring[1..], delivered := b.delivered + [b.ring[0]]);
      if l == [] then s.(queues := s.queues[q := b1])
      else
        var x := T(s, l[0]).item;
        var s1 := Edit(s, l[0], T(s, l[0]).(ticket := |b.accepted|))
          .(queues := s.queues[q := b1.(ring := b1.ring + [x], accepted := b1.accepted + [x])]);
        Notify(Wake(s1, l[0], Handoff), l[0])
    else if ms == 0 then s
    else Park(s, T(s, Cur(s)), RecvKey(q), ms)
  }

  // ---------------------------------------------------------------- event group

  function Bits(s: State, e: nat): bv32 {
    if e in s.events then s.events[e] else 0
  }

  predicate Satisfies(bits: bv32, mask: bv32, all: bool) {
    if all then bits & mask == mask else bits & mask != 0
  }

  function Plus(bits: bv32, mask: bv32): bv32 {
    bits | mask
  }

  /** `bits` with the bits of `mask` cleared. */
  function Minus(bits: bv32, mask: bv32): bv32 {
    bits & !mask
  }

  function SetBits(s: State, e: nat, b: bv32): State {
    s.(events := s.events[e := b])
  }

  /** A satisfied waiter gets the bits as they are; its own mask is cleared if it asked for that. */
  function Mark(s: State, e: nat, t: Tid): (r: State)
    ensures r == s.(tasks := s.tasks[t := T(s, t).(bits := Bits(s, e))], events := r.events)
  {
    var b := Bits(s, e);
    var s1 := Edit(s, t, T(s, t).(bits := b));
    if T(s, t).clear then SetBits(s1, e, Minus(b, T(s, t).mask)) else s1
  }

  function Serve(s: State, e: nat, t: Tid): (r: State)
    ensures SameClock(s, r)
  {
    Notify(Wake(Mark(s, e, t), t, Handoff), t)
  }

  /** One pass over the waiters `l`, front to back. */
  function Scan(s: State, e: nat, l: seq<Tid>): (r: State)
    ensures SameClock(s, r)
    decreases |l|
  {
    if l == [] then s
    else if Satisfies(Bits(s, e), T(s, l[0]).mask, T(s, l[0]).all) then Scan(Serve(s, e, l[0]), e, l[1..])
    else Scan(s, e, l[1..])
  }

  function EventSet(s: State, e: nat, mask: bv32): (r: State)
    ensures SameClock(s, r)
  {
    Scan(SetBits(s, e, Plus(Bits(s, e), mask)), e, L(s, EventKey(e)))
  }

  function EventClear(s: State, e: nat, mask: bv32): State {
    SetBits(s, e, Minus(Bits(s, e), mask))
  }

  function EventWait(s: State, e: nat, mask: bv32, all: bool, clear: bool, ms: nat): (r: State)
    ensures SameClock(s, r)
  {
    if mask == 0 then s
    else if Satisfies(Bits(s, e), mask, all) then
      if clear then SetBits(s, e, Minus(Bits(s, e), mask)) else s
    else if ms == 0 then s
    else Park(s, T(s, Cur(s)).(mask := mask, all := all, clear := clear), EventKey(e), ms)
  }

  /** The running task leaves its blocking call, having read the flag. */
  function Return(s: State): State {
    Edit(s, Cur(s), T(s, Cur(s)).(call := None))
  }

  // ---------------------------------------------------------------- the machine

  datatype Action =
    | ACreate(t: Tid, p: nat)
    | AStart(t: Tid)
    | ASwitch
    | ATick
    | ADelayMs(ms: nat)
    | ADelayUntil(wake: nat)
    | ASuspend(t: Tid)
    | AResume(t: Tid)
    | ADelete(t: Tid)
    | ASemTake(i: nat, ms: nat)
    | ASemTryTake(i: nat)
    | ASemGive(i: nat)
    | ALock(m: nat)
    | AUnlock(m: nat)
    | AQueueSend(q: nat, x: Bytes, ms: nat)
    | AQueueReceive(q: nat, ms: nat)
    | AEventWait(e: nat, emask: bv32, all: bool, clear: bool, ms: nat)
    | AEventSet(e: nat, emask: bv32)
    | AEventClear(e: nat, emask: bv32)
    | AReturn

  /** Actions on semaphores, mutexes, queues and event groups. */
  predicate OnObjects(a: Action) {
    a.ASemTake? || a.ASemTryTake? || a.ASemGive? || a.ALock? || a.AUnlock? || a.AQueueSend? || a.AQueueReceive?
    || a.AEventWait? || a.AEventSet? || a.AEventClear?
  }

  /** The running task may call the kernel: it runs, is not the idle task, and has
      returned from its last blocking call. */
  predicate TaskCalls(s: State) {
    s.current.Some? && s.current.value in s.tasks && s.current != s.idle
    && T(s, Cur(s)).state == Running && T(s, Cur(s)).call == None
  }

  /** Task context, or main() before the scheduler has started. */
  predicate Context(s: State) {
    !s.started || TaskCalls(s)
  }

  predicate Millis(ms: nat) { ms <= UINT32_MAX }

  /** A send finds a receiver or a free slot. */
  predicate CanSend(s: State, q: nat) {
    L(s, RecvKey(q)) != [] || |TheQueue(s, q).ring| < TheQueue(s, q).capacity
  }

  predicate CanReceive(s: State, q: nat) {
    TheQueue(s, q).ring != []
  }

  predicate Enabled(s: State, a: Action) {
    match a
    case ACreate(t, p) => Context(s) && t !in s.tasks && p < MAX_PRIORITIES
    case AStart(t) => !s.started && t !in s.tasks && |s.tasks| < s.maxTasks
    case ASwitch => s.started
    case ATick => s.started
    case ADelayMs(ms) => TaskCalls(s) && Millis(ms)
    case ADelayUntil(wake) => TaskCalls(s) && wake <= UINT32_MAX
    case ASuspend(t) => Context(s) && t in s.tasks && s.idle != Some(t)
    case AResume(t) => Context(s) && t in s.tasks && t !in Due(s.delay)
    case ADelete(t) => Context(s) && t in s.tasks && s.idle != Some(t)
    case ASemTake(i, ms) => i in s.sems && Millis(ms) && (ms == 0 || TaskCalls(s) || (!s.started && s.sems[i].count > 0))
    case ASemTryTake(i) => i in s.sems
    case ASemGive(i) => i in s.sems
    case ALock(m) => TaskCalls(s) && m in s.owners
    case AUnlock(m) => TaskCalls(s) && m in s.owners
    case AQueueSend(q, x, ms) => q in s.queues && Millis(ms) && (ms == 0 || TaskCalls(s) || CanSend(s, q))
    case AQueueReceive(q, ms) => q in s.queues && Millis(ms) && (ms == 0 || TaskCalls(s) || CanReceive(s, q))
    case AEventWait(e, mask, all, clear, ms) => TaskCalls(s) && e in s.events && Millis(ms)
    case AEventSet(e, mask) => e in s.events
    case AEventClear(e, mask) => e in s.events
    case AReturn => s.current.Some? && s.current.value in s.tasks
                    && T(s, Cur(s)).state == Running && T(s, Cur(s)).call.Some?
  }

  function Step(s: State, a: Action): State {
    match a
    case ACreate(t, p) => Create(s, t, p)
    case AStart(t) => Start(s, t)
    case ASwitch => Switch(s)
    case ATick => Tick(s)
    case ADelayMs(ms) => DelayMs(s, ms)
    case ADelayUntil(wake) => DelayUntil(s, wake)
    case ASuspend(t) => SuspendTask(s, t)
    case AResume(t) => ResumeTask(s, t)
    case ADelete(t) => DeleteTask(s, t)
    case ASemTake(i, ms) => SemTake(s, i, ms)
    case ASemTryTake(i) => SemTryTake(s, i)
    case ASemGive(i) => SemGive(s, i)
    case ALock(m) => Lock(s, m)
    case AUnlock(m) => Unlock(s, m)
    case AQueueSend(q, x, ms) => QueueSend(s, q, x, ms)
    case AQueueReceive(q, ms) => QueueReceive(s, q, ms)
    case AEventWait(e, mask, all, clear, ms) => EventWait(s, e, mask, all, clear, ms)
    case AEventSet(e, mask) => EventSet(s, e, mask)
    case AEventClear(e, mask) => EventClear(s, e, mask)
    case AReturn => Return(s)
  }

  /** Nothing created yet: objects with their initial values, no task, no owner. */
  ghost predicate Init(s: State) {
    && s.tasks == map[] && s.lists == map[] && s.delay == []
    && s.current == None && s.idle == None && !s.started && !s.yieldDue && s.tick == 0
    && (forall i :: i in s.sems ==> s.sems[i].count == s.sems[i].initial <= UINT32_MAX
                                    && s.sems[i].gives == s.sems[i].dropped == s.sems[i].granted == 0)
    && (forall m :: m in s.owners ==> s.owners[m] == None)
    && (forall q :: q in s.queues ==> s.queues[q].capacity > 0 && s.queues[q].ring == s.queues[q].accepted == s.queues[q].delivered == [])
    && (forall e :: e in s.events ==> s.events[e] == 0)
  }
}
