/** How a wait begins and how it ends, told by the actions themselves; what suspending and
    creating a task commit the kernel to. */
module Outcomes {
  import opened Lists
  import opened Model
  import opened Structure
  import opened Delays
  import opened Invariant
  import opened Preservation
  import opened Mutexes
  import opened Scheduling
  import opened Fields
  import opened Evolution
  import opened Runs
  import opened Timing
  import opened Properties
  import opened Calls
  import opened Handoffs

  // ---------------------------------------------------------------- the switch

  /** The tasks of level `p` in the order in which they are to run: an outgoing task that has
      not stopped running is the last. */
  function Queued(s: State, p: nat): seq<Tid> {
    L(s, ReadyKey(p)) + if s.current.Some? && T(s, Cur(s)).state == Running && T(s, Cur(s)).prio == p then [Cur(s)] else []
  }

  lemma VacateQueues(s: State)
    requires Linked(s)
    ensures forall p: nat :: L(Vacate(s), ReadyKey(p)) == Queued(s, p)
    ensures forall k: Key :: !k.ReadyKey? ==> L(Vacate(s), k) == L(s, k)
    ensures forall x: Tid :: T(Vacate(s), x) == if s.current == Some(x) && T(s, x).state == Running then T(s, x).(state := Ready) else T(s, x)
  {
    hide Linked, Put;
    if s.current.Some? && T(s, Cur(s)).state == Running {
      PutReady(s, Cur(s), T(s, Cur(s)).(state := Ready));
      UnlinkedFrom(s, Cur(s));
    }
  }

  /** A switch runs the oldest task of the highest level that has one, the outgoing task
      counting as the newest of its level if it has not stopped running, and leaves all others
      in their places. */
  lemma SwitchRunsOldest(s: State)
    requires Inv(s) && s.started
    ensures var s', t := Step(s, ASwitch), Cur(Step(s, ASwitch));
      var p := T(s', t).prio;
      && s'.current.Some? && T(s', t) == T(s, t).(state := Running) && !s'.yieldDue && s'.delay == s.delay
      && Queued(s, p) != [] && t == Queued(s, p)[0] && (forall i :: p < i < MAX_PRIORITIES ==> Queued(s, i) == [])
      && (forall i: nat :: L(s', ReadyKey(i)) == if i == p then Queued(s, p)[1..] else Queued(s, i))
      && (forall k: Key :: !k.ReadyKey? ==> L(s', k) == L(s, k))
      && forall x: Tid :: x != t ==> T(s', x) == if s.current == Some(x) && T(s, x).state == Running then T(s, x).(state := Ready) else T(s, x)
  {
    hide Inv, Put, TopReady, Vacate, Queued, T;
    LinksOf(s);
    VacateQueues(s);
    SwitchFacts(s);
    FirstIsReady(s);
    var s1 := Vacate(s);
    DispatchedShape(s1, TopReady(s1, MAX_PRIORITIES).value);
    VacateFrame(s);
  }

  lemma FirstIsReady(s: State)
    requires Inv(s) && s.started && TopReady(Vacate(s), MAX_PRIORITIES).Some?
    ensures var s1 := Vacate(s); T(s1, L(s1, ReadyKey(TopReady(s1, MAX_PRIORITIES).value))[0]).state == Ready
  {
    hide Linked, TasksBut, Positive, Vacate, Own, Objects, Clock;
    VacateVacant(s);
    TopIsHighest(Vacate(s));
  }

  lemma VacateFrame(s: State)
    ensures Vacate(s) == s.(tasks := Vacate(s).tasks, lists := Vacate(s).lists)
  {
    hide Put;
  }

  lemma DispatchedShape(s: State, p: nat)
    requires CanDispatch(s) && TopReady(s, MAX_PRIORITIES) == Some(p) && T(s, L(s, ReadyKey(p))[0]).state == Ready
    ensures var l := L(s, ReadyKey(p));
      var s' := Put(s, l[0], T(s, l[0]).(state := Running)).(current := Some(l[0]), yieldDue := false);
      && s' == s.(tasks := s'.tasks, lists := s'.lists, current := Some(l[0]), yieldDue := false)
      && T(s', l[0]) == T(s, l[0]).(state := Running) && T(s, l[0]).prio == p
      && (forall x: Tid :: x != l[0] ==> T(s', x) == T(s, x))
      && forall k: Key :: L(s', k) == if k == ReadyKey(p) then l[1..] else L(s, k)
  {
    hide Put, TopReady;
    DispatchFields(s, p);
  }

  // ---------------------------------------------------------------- the end of a wait

  /** The action hands `t`, who waits on `k`, what it waits for: as the first in the list, or,
      in an event group, by setting bits. */
  predicate HandsOver(s: State, a: Action, k: Key, t: Tid) {
    if k.EventKey? then a.AEventSet? && a.e == k.event else HandsTo(s, a, k) == Some(t)
  }

  predicate Stops(a: Action, t: Tid) {
    a == ASuspend(t) || a == ADelete(t)
  }

  ghost predicate RunsOut(s: State, a: Action, t: Tid) {
    a == ATick && t in Due(s.delay) && Due(s.delay)[t] == 1
  }

  lemma HandedBy(s: State, a: Action, t: Tid, k: Key)
    requires Inv(s) && Enabled(s, a) && !Pends(T(s, t), k)
    ensures Pends(T(Step(s, a), t), k) ==> HandsOver(s, a, k, t)
  {
    hide Inv, Step, Enabled, Pends;
    if !HandsOver(s, a, k, t) {
      StepShows(s, a, PendsOn(k), HandsTo(s, a, k));
      assert Shows(T(Step(s, a), t), PendsOn(k)) ==> Shows(T(s, t), PendsOn(k));
    }
  }

  lemma CancelledBy(s: State, a: Action, t: Tid)
    requires Inv(s) && Enabled(s, a) && T(Step(s, a), t).cause == Some(Cancelled) && T(s, t).cause == None
    ensures Stops(a, t)
  {
    hide Inv, Step, Enabled;
    StepShows(s, a, EndedBy(Cancelled), if a.ASuspend? || a.ADelete? then Some(a.t) else None);
    assert Shows(T(Step(s, a), t), EndedBy(Cancelled));
  }

  lemma TimedOutBy(s: State, a: Action, t: Tid)
    requires Inv(s) && Enabled(s, a) && T(s, t).cause == None
    ensures T(Step(s, a), t).cause == Some(Timeout) ==> RunsOut(s, a, t)
  {
    hide Inv, Step, Enabled, Due, RunsOut;
    if a == ATick {
      TickOthers(s, t);
    } else {
      StepShows(s, a, EndedBy(Timeout), None);
      assert Shows(T(Step(s, a), t), EndedBy(Timeout)) ==> Shows(T(s, t), EndedBy(Timeout));
    }
  }

  /** A tick leaves alone everybody who is not released by it. */
  lemma TickOthers(s: State, t: Tid)
    requires Inv(s) && Enabled(s, ATick)
    ensures !RunsOut(s, ATick, t) ==> T(Step(s, ATick), t) == T(s, t)
  {
    hide Inv, ReleaseDue, DelayDown, NeedsPreemption, GoodDelay, Due;
    ClockOf(s);
    DownDue(s.delay);
    DownGood(s.delay);
    var s1 := s.(tick := (s.tick + 1) % TWO_32, delay := DelayDown(s.delay));
    if !RunsOut(s, ATick, t) { ReleaseNotHim(s1, t); }
  }

  lemma {:induction false} ReleaseNotHim(s: State, t: Tid)
    requires GoodDelay(s.delay) && (t in Due(s.delay) ==> Due(s.delay)[t] > 0)
    ensures T(ReleaseDue(s), t) == T(s, t)
    decreases |s.delay|
  {
    hide Wake;
    if s.delay != [] && s.delay[0].left == 0 {
      Shorter(s.delay);
      FrontDue(s.delay);
      WithoutDue(s.delay, s.delay[0].task);
      ReleaseNotHim(Wake(s, s.delay[0].task, Timeout), t);
    }
  }

  lemma WaiterIdle(s: State, a: Action, t: Tid)
    requires Inv(s) && Enabled(s, a) && t in s.tasks && s.tasks[t].wait.Some?
    ensures s.tasks[t].state == Blocked && !(a == AReturn && s.current == Some(t))
  {
    hide Linked, Rest, Positive, Preemptive, ReasonIn;
    assert TaskOk(s, t, s.tasks[t]);
  }

  /** A wait goes on until one of three things ends it, and the cause that the answer is read
      from says which: the handover of what the task waits for, the last tick of its timeout,
      or its being suspended or deleted. The last two always end it. */
  lemma WaitEnds(s: State, a: Action, t: Tid)
    requires Inv(s) && Enabled(s, a) && t in s.tasks && s.tasks[t].wait.Some?
    ensures var c, c' := s.tasks[t], T(Step(s, a), t);
      if c'.wait.Some? then c'.wait == c.wait && !Stops(a, t) && !RunsOut(s, a, t)
      else match c'.cause
        case Some(Handoff) => HandsOver(s, a, c.wait.value, t)
        case Some(Timeout) => RunsOut(s, a, t)
        case Some(Cancelled) => Stops(a, t)
        case None => false
  {
    hide Inv, Step, Enabled, Due, HandsOver, Stops, RunsOut;
    WaiterIdle(s, a, t);
    CallKept(s, t);
    StepLater(s, a, t);
    EndsAtOnce(s, a, t);
    match T(Step(s, a), t).cause
    case Some(Handoff) => HandedBy(s, a, t, s.tasks[t].wait.value);
    case Some(Timeout) => TimedOutBy(s, a, t);
    case Some(Cancelled) => CancelledBy(s, a, t);
    case None =>
  }

  lemma EndsAtOnce(s: State, a: Action, t: Tid)
    requires Inv(s) && Enabled(s, a) && t in s.tasks && s.tasks[t].wait.Some?
    ensures Stops(a, t) || RunsOut(s, a, t) ==> T(Step(s, a), t).wait == None
  {
    hide Inv, Step, Enabled, Due;
    WaiterIdle(s, a, t);
    if RunsOut(s, a, t) {
      FirstStep(s, a, t);
    } else if Stops(a, t) {
      StoppedAtOnce(s, a, t);
    }
  }

  lemma StoppedAtOnce(s: State, a: Action, t: Tid)
    requires t in s.tasks && s.tasks[t].state == Blocked && Stops(a, t)
    ensures T(Step(s, a), t).wait == None
  {
    hide Put;
  }

  // ---------------------------------------------------------------- suspended

  lemma SuspendedStep(s: State, a: Action, t: Tid)
    requires Inv(s) && Enabled(s, a) && t in s.tasks && s.tasks[t].state == Suspended && a != AResume(t) && a != ADelete(t)
    ensures t in Step(s, a).tasks && Step(s, a).tasks[t].state == Suspended
  {
    hide Inv, Step;
    var h := if a.ACreate? || a.AStart? || a.AResume? || a.ADelete? then Some(a.t) else None;
    StepShows(s, a, Active, h);
    assert Shows(T(Step(s, a), t), Active) ==> Shows(T(s, t), Active) || h == Some(t);
    StepLater(s, a, t);
  }

  /** suspend() takes effect at once, and lasts until the task is resumed or deleted: it is in
      no list, so no give, timeout or switch makes it run. */
  lemma {:induction false} SuspendedStays(s: State, acts: seq<Action>, t: Tid)
    requires Inv(s) && Run(s, acts) && t in s.tasks && s.tasks[t].state == Suspended
    requires AResume(t) !in acts && ADelete(t) !in acts
    ensures T(Exec(s, acts), t).state == Suspended
    decreases |acts|
  {
    hide Inv, Step, Enabled;
    if acts != [] {
      StepInv(s, acts[0]);
      SuspendedStep(s, acts[0], t);
      assert forall a :: a in acts[1..] ==> a in acts;
      SuspendedStays(Step(s, acts[0]), acts[1..], t);
    }
  }

  lemma SuspendHolds(s: State, t: Tid, acts: seq<Action>)
    requires Inv(s) && Enabled(s, ASuspend(t)) && s.tasks[t].state != Deleted
    requires Run(SuspendTask(s, t), acts) && AResume(t) !in acts && ADelete(t) !in acts
    ensures T(Exec(SuspendTask(s, t), acts), t).state == Suspended
  {
    hide Inv, Put, DelayWithout;
    StepInv(s, ASuspend(t));
    SuspendedStays(SuspendTask(s, t), acts, t);
  }

  // ---------------------------------------------------------------- deleted, resumed

  /** delete() makes a task Deleted whatever state it was in, and no later action, a resume()
      included, makes it anything else. */
  lemma DeleteIsForGood(s: State, t: Tid, acts: seq<Action>)
    requires Inv(s) && Enabled(s, ADelete(t)) && Run(Step(s, ADelete(t)), acts)
    ensures T(Exec(Step(s, ADelete(t)), acts), t).state == Deleted
  {
    hide Inv, Step, Enabled;
    StepInv(s, ADelete(t));
    DeletedAtOnce(s, t);
    DeletedForGood(Step(s, ADelete(t)), acts, t);
  }

  lemma DeletedAtOnce(s: State, t: Tid)
    requires Enabled(s, ADelete(t))
    ensures t in Step(s, ADelete(t)).tasks && Step(s, ADelete(t)).tasks[t].state == Deleted
  {
    hide Put, DelayWithout;
  }

  /** Nothing but `t` is different, and it is ready at the back of the list of its priority. */
  ghost predicate JoinsReady(s: State, s': State, t: Tid) {
    && t in s'.tasks && s'.tasks[t].state == Ready && (forall x: Tid :: x != t ==> T(s', x) == T(s, x))
    && (forall k: Key :: L(s', k) == if k == ReadyKey(s'.tasks[t].prio) then L(s, k) + [t] else L(s, k))
    && s'.delay == s.delay && s'.current == s.current
  }

  /** resume() makes a suspended task ready, and leaves any other alone. */
  lemma ResumeReadies(s: State, t: Tid)
    requires Enabled(s, AResume(t))
    ensures var s' := Step(s, AResume(t));
      if s.tasks[t].state == Suspended then JoinsReady(s, s', t) && s'.tasks[t] == s.tasks[t].(state := Ready) else s' == s
  {
    hide Put;
    if s.tasks[t].state == Suspended { ResumeFields(s, t); }
  }

  // ---------------------------------------------------------------- created

  /** A new task is ready, at the priority it was given, with nothing held; a full table is left as it is. */
  lemma CreateReadies(s: State, t: Tid, p: nat)
    requires Enabled(s, ACreate(t, p))
    ensures var s' := Step(s, ACreate(t, p));
      if |s.tasks| >= s.maxTasks then s' == s
      else JoinsReady(s, s', t) && s'.tasks[t].prio == s'.tasks[t].base == p && s'.tasks[t].held == []
  {
    hide Create;
    if |s.tasks| < s.maxTasks { CreateFields(s, t, p); } else { TableFull(s, t, p); }
  }

  lemma TableFull(s: State, t: Tid, p: nat)
    requires |s.tasks| >= s.maxTasks
    ensures Create(s, t, p) == s
  {
  }

  /** start() creates the idle task at priority 0, below or equal to every other, and asks for the first switch. */
  lemma StartReadies(s: State, t: Tid)
    requires Enabled(s, AStart(t))
    ensures var s' := Step(s, AStart(t));
      && JoinsReady(s, s', t) && s'.tasks[t].prio == s'.tasks[t].base == 0 && s'.tasks[t].held == []
      && s'.idle == Some(t) && s'.started && s'.yieldDue
  {
    hide Create;
    CreateFields(s, t, 0);
  }

  lemma {:induction false} BaseStays(s: State, acts: seq<Action>, t: Tid)
    requires Inv(s) && Run(s, acts) && t in s.tasks
    ensures t in Exec(s, acts).tasks && Exec(s, acts).tasks[t].base == s.tasks[t].base
    decreases |acts|
  {
    hide Inv, Step, Enabled;
    if acts != [] {
      StepInv(s, acts[0]);
      if acts[0] == AReturn && s.current == Some(t) { ReturnKeeps(s); } else { StepLater(s, acts[0], t); }
      BaseStays(Step(s, acts[0]), acts[1..], t);
    }
  }

  lemma ReturnKeeps(s: State)
    requires Enabled(s, AReturn)
    ensures var s', t := Step(s, AReturn), Cur(s); t in s'.tasks && s'.tasks[t].base == s.tasks[t].base
  {
  }

  /** The priority given at creation is the task's base for ever, and its priority whenever
      it holds no mutex; boosts only ever raise it. */
  lemma CreatedPriority(s: State, t: Tid, p: nat, acts: seq<Action>)
    requires Inv(s) && Enabled(s, ACreate(t, p)) && |s.tasks| < s.maxTasks && Run(Create(s, t, p), acts)
    ensures var c := T(Exec(Create(s, t, p), acts), t); c.base == p <= c.prio && (c.held == [] ==> c.prio == p)
  {
    hide Inv, Create;
    StepInv(s, ACreate(t, p));
    RunInv(Create(s, t, p), acts);
    BaseStays(Create(s, t, p), acts, t);
    PrioOk(Exec(Create(s, t, p), acts), t);
  }

  lemma PrioOk(s: State, t: Tid)
    requires Inv(s) && t in s.tasks
    ensures var c := s.tasks[t]; c.base <= c.prio && (c.held == [] ==> c.prio == c.base)
  {
    hide Linked, Rest, Positive, Preemptive, ReasonIn, Sited;
    assert TaskOk(s, t, s.tasks[t]);
  }
}
