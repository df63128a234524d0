/** One run that shows both ways in which priorities become inexact: an owner keeps a boost
    it no longer owes to anybody, because its only waiter was suspended; and an owner stays
    below a waiter, because that one was lifted after it had blocked. */
module StaleBoost {
  import opened Lists
  import opened Model
  import opened Structure
  import opened Delays
  import opened Invariant
  import opened Mutexes
  import opened Scheduling
  import opened Fields
  import opened Runs
  import opened Inheritance
  import opened Exactness

  /** Room for four tasks, two mutexes. */
  function S0(): State {
    State(map[], map[], [], None, None, false, false, 0, 4, map[], map[0 := None, 1 := None], map[], map[])
  }

  function Low(st: TaskState, p: nat, held: seq<nat>): Tcb {
    FreshTcb(1).(state := st, prio := p, held := held)
  }

  function High(st: TaskState, held: seq<nat>): Tcb {
    FreshTcb(2).(state := st, held := held)
  }

  /** Task 1 is created with priority 1. */
  function S1(): State {
    S0().(tasks := S0().tasks[1 := Low(Ready, 1, [])], lists := S0().lists[ReadyKey(1) := [1]])
  }

  /** The scheduler starts; task 0 is the idle task. */
  function S2(): State {
    S1().(tasks := S1().tasks[0 := FreshTcb(0).(state := Ready)], lists := S1().lists[ReadyKey(0) := [0]],
          idle := Some(0), started := true, yieldDue := true)
  }

  /** Task 1 runs. */
  function S3(): State {
    S2().(tasks := S2().tasks[1 := Low(Running, 1, [])], lists := S2().lists[ReadyKey(1) := []],
          current := Some(1), yieldDue := false)
  }

  /** Task 1 owns mutex 0. */
  function S4(): State {
    S3().(tasks := S3().tasks[1 := Low(Running, 1, [0])], owners := S3().owners[0 := Some(1)])
  }

  /** Task 1 creates task 2 with priority 2. */
  function S5(): State {
    S4().(tasks := S4().tasks[2 := High(Ready, [])], lists := S4().lists[ReadyKey(2) := [2]], yieldDue := true)
  }

  lemma Created()
    ensures Step(S0(), ACreate(1, 1)) == S1() && Enabled(S0(), ACreate(1, 1))
    ensures Step(S1(), AStart(0)) == S2() && Enabled(S1(), AStart(0))
  {
    hide Create;
    CreateFields(S0(), 1, 1);
    CreateFields(S1(), 0, 0);
    assert Lookup(S0().lists, ReadyKey(1)) + [1] == [1];
    assert Lookup(S1().lists, ReadyKey(0)) + [0] == [0];
  }

  lemma Switched()
    ensures Step(S2(), ASwitch) == S3() && Enabled(S2(), ASwitch)
  {
    hide Put, TopReady;
    TopUnique(S2(), MAX_PRIORITIES, 1);
    DispatchFields(S2(), 1);
    assert [1][1..] == [];
  }

  lemma Locked()
    ensures Step(S3(), ALock(0)) == S4() && Enabled(S3(), ALock(0))
  {
    assert [0] + [] == [0];
  }

  lemma CreatedHigh()
    ensures Step(S4(), ACreate(2, 2)) == S5() && Enabled(S4(), ACreate(2, 2))
  {
    hide Create;
    CreateFields(S4(), 2, 2);
    assert Lookup(S4().lists, ReadyKey(2)) + [2] == [2];
  }

  /** Task 2 preempts task 1. */
  function S6(): State {
    S5().(tasks := S5().tasks[1 := Low(Ready, 1, [0])][2 := High(Running, [])],
          lists := S5().lists[ReadyKey(1) := [1]][ReadyKey(2) := []], current := Some(2), yieldDue := false)
  }

  /** Task 2 owns mutex 1. */
  function S7(): State {
    S6().(tasks := S6().tasks[2 := High(Running, [1])], owners := S6().owners[1 := Some(2)])
  }

  /** Task 2 blocks on mutex 0 and lifts task 1. */
  function S8(): State {
    S7().(tasks := S7().tasks[1 := Low(Ready, 2, [0])][2 := Parked(High(Running, [1]), MutexKey(0))],
          lists := S7().lists[ReadyKey(1) := []][ReadyKey(2) := [1]][MutexKey(0) := [2]], yieldDue := true)
  }

  /** Task 1 runs, at priority 2. */
  function S9(): State {
    S8().(tasks := S8().tasks[1 := Low(Running, 2, [0])], lists := S8().lists[ReadyKey(2) := []],
          current := Some(1), yieldDue := false)
  }

  lemma Preempted()
    ensures Step(S5(), ASwitch) == S6() && Enabled(S5(), ASwitch)
  {
    hide Put, TopReady;
    PutReady(S5(), 1, Low(Ready, 1, [0]));
    UnlinkedFrom(S5(), 1);
    var s := S5().(tasks := S5().tasks[1 := Low(Ready, 1, [0])], lists := S5().lists[ReadyKey(1) := [1]]);
    assert Lookup(S5().lists, ReadyKey(1)) + [1] == [1];
    assert Vacate(S5()) == s;
    TopUnique(s, MAX_PRIORITIES, 2);
    DispatchFields(s, 2);
    assert [2][1..] == [];
  }

  lemma LockedToo()
    ensures Step(S6(), ALock(1)) == S7() && Enabled(S6(), ALock(1))
  {
    assert [1] + [] == [1];
  }

  /** Task 1 lifted to priority 2, task 2 not yet parked. */
  function S7Lifted(): State {
    S7().(tasks := S7().tasks[1 := Low(Ready, 2, [0])], lists := S7().lists[ReadyKey(1) := []][ReadyKey(2) := [1]])
  }

  lemma Lifted()
    requires Linked(S7())
    ensures SetPriority(S7(), 1, 2) == S7Lifted() && Linked(S7Lifted())
  {
    hide SetPriority, Linked;
    PriorityFields(S7(), 1, 2);
    assert Without([1], 1) == [] && Lookup(S7().lists, ReadyKey(2)) + [1] == [1];
    PriorityLinked(S7(), 1, 2);
  }

  /** A lock() that lifts the owner and parks the caller. */
  lemma LiftAndPark(s: State, m: nat, o: Tid, p: nat)
    requires Owner(s, m) == Some(o) && o != Cur(s) && T(s, Cur(s)).prio == p > T(s, o).prio
    ensures var s1 := SetPriority(s, o, p); Lock(s, m) == Park(s1, T(s1, Cur(s)), MutexKey(m), WAIT_FOREVER)
  {
    hide SetPriority, Park;
  }

  lemma ParkedThere()
    requires Linked(S7Lifted())
    ensures Park(S7Lifted(), High(Running, [1]), MutexKey(0), WAIT_FOREVER) == S8()
  {
    hide Park, Linked;
    ParkFields(S7Lifted(), High(Running, [1]), MutexKey(0), WAIT_FOREVER);
    assert Splice<Tid>([], 0, 2) == [2];
  }

  lemma Blocked()
    requires Linked(S7Lifted()) && SetPriority(S7(), 1, 2) == S7Lifted()
    ensures Step(S7(), ALock(0)) == S8() && Enabled(S7(), ALock(0))
  {
    hide SetPriority, Park, Linked, Lock;
    ParkedThere();
    LiftAndPark(S7(), 0, 1, 2);
  }

  lemma Resumed()
    ensures Step(S8(), ASwitch) == S9() && Enabled(S8(), ASwitch)
  {
    hide Put, TopReady;
    TopUnique(S8(), MAX_PRIORITIES, 2);
    DispatchFields(S8(), 2);
    assert [1][1..] == [];
  }

  /** The run before the two cases part. */
  function Story(): seq<Action> {
    [ACreate(1, 1), AStart(0), ASwitch, ALock(0), ACreate(2, 2), ASwitch, ALock(1), ALock(0), ASwitch]
  }

  lemma LinkedBeforeLock()
    ensures Linked(S7())
  {
    hide Inv, Step, Enabled;
    InitInv(S0());
    Created();
    StepInv(S0(), ACreate(1, 1));
    StepInv(S1(), AStart(0));
    Switched();
    StepInv(S2(), ASwitch);
    Locked();
    StepInv(S3(), ALock(0));
    CreatedHigh();
    StepInv(S4(), ACreate(2, 2));
    Preempted();
    StepInv(S5(), ASwitch);
    LockedToo();
    StepInv(S6(), ALock(1));
    LinksOf(S7());
  }

  lemma StoryIs()
    ensures var acts := Story();
      && |acts| == 9 && acts[9..] == [] && acts[0..] == acts
      && acts[0] == ACreate(1, 1) && acts[1] == AStart(0) && acts[2] == ASwitch && acts[3] == ALock(0) && acts[4] == ACreate(2, 2)
      && acts[5] == ASwitch && acts[6] == ALock(1) && acts[7] == ALock(0) && acts[8] == ASwitch
  {
  }

  /** One more step in front of a run. */
  lemma OneMore(s: State, acts: seq<Action>, n: nat, s1: State, end: State)
    requires n < |acts| && Enabled(s, acts[n]) && Step(s, acts[n]) == s1
    requires Run(s1, acts[n + 1..]) && Exec(s1, acts[n + 1..]) == end
    ensures Run(s, acts[n..]) && Exec(s, acts[n..]) == end
  {
    hide Step, Enabled;
    assert acts[n..][0] == acts[n] && acts[n..][1..] == acts[n + 1..];
  }

  lemma StoryRuns()
    ensures Run(S0(), Story()) && Exec(S0(), Story()) == S9()
  {
    hide Step, Enabled, Exec, Run, Story, S0, S1, S2, S3, S4, S5, S6, S7, S7Lifted, S8, S9;
    var acts, end := Story(), S9();
    StoryIs();
    Nothing(end);
    Resumed();
    OneMore(S8(), acts, 8, S9(), end);
    LinkedBeforeLock();
    Lifted();
    Blocked();
    OneMore(S7(), acts, 7, S8(), end);
    LockedToo();
    OneMore(S6(), acts, 6, S7(), end);
    Preempted();
    OneMore(S5(), acts, 5, S6(), end);
    CreatedHigh();
    OneMore(S4(), acts, 4, S5(), end);
    Locked();
    OneMore(S3(), acts, 3, S4(), end);
    Switched();
    OneMore(S2(), acts, 2, S3(), end);
    Created();
    OneMore(S1(), acts, 1, S2(), end);
    OneMore(S0(), acts, 0, S1(), end);
  }

  lemma Nothing(s: State)
    ensures Run(s, []) && Exec(s, []) == s
  {
  }

  /** What of the state after the story matters. */
  ghost predicate Boosted(s: State) {
    && s.started && !s.yieldDue && s.current == Some(1) && s.idle == Some(0) && s.maxTasks == 4
    && BoostedTasks(s.tasks) && BoostedLists(s.lists) && s.owners == map[0 := Some(1), 1 := Some(2)]
  }

  ghost predicate BoostedTasks(tasks: map<Tid, Tcb>) {
    && tasks.Keys == {0, 1, 2} && tasks[0] == FreshTcb(0).(state := Ready) && tasks[1] == Low(Running, 2, [0])
    && tasks[2] == Parked(High(Running, [1]), MutexKey(0))
  }

  ghost predicate BoostedLists(lists: map<Key, seq<Tid>>) {
    && Lookup(lists, MutexKey(0)) == [2] && Lookup(lists, MutexKey(1)) == []
    && forall p: nat :: p > 1 ==> Lookup(lists, ReadyKey(p)) == []
  }

  lemma StoryBoosts()
    ensures Boosted(S9())
  {
    hide BoostedTasks, BoostedLists;
    StoryTasks();
    StoryLists();
  }

  lemma StoryTasks()
    ensures BoostedTasks(S9().tasks)
  {
    assert S9().tasks.Keys == {0, 1, 2};
  }

  lemma StoryLists()
    ensures BoostedLists(S9().lists)
  {
  }

  /** Task 1 owes its priority to task 2, and to no other. */
  lemma Owes(s: State)
    requires Boosted(s)
    ensures Exact(s) && SoleLender(s, 2) && Enabled(s, ASuspend(2))
  {
    var held := s.tasks[1].held;
    assert Inherit(s, held, 1) == Inherit(s, held[1..], 2);
    assert Inherit(s, s.tasks[2].held, 2) == Inherit(s, s.tasks[2].held[1..], 2);
    assert OwedTo(s, 1, 2);
  }

  lemma AfterSuspend(s: State)
    requires Boosted(s)
    ensures var s' := Step(s, ASuspend(2)); L(s', MutexKey(0)) == [] && s'.tasks[1] == s.tasks[1] && Recompute(s', 1) == 1
  {
    hide Put, DelayWithout;
    PutOff(s, 2, Stopped(s.tasks[2], Suspended));
    UnlinkedFrom(s, 2);
    assert Without([2], 2) == [];
    var s' := Step(s, ASuspend(2));
    assert s'.lists == Drop(s.lists, MutexKey(0), 2);
    assert Inherit(s', [0], 1) == Inherit(s', [0][1..], 1);
  }

  /** The documented rule fails here: after task 2 has been suspended nobody waits for the
      mutex, and its owner stays at priority 2 instead of its own 1. */
  lemma OwnerStaysBoosted()
    ensures Init(S0()) && Run(S0(), Story()) && Exec(S0(), Story()) == S9() && Exact(S9())
    ensures Enabled(S9(), ASuspend(2)) && !Exact(Step(S9(), ASuspend(2)))
    ensures var s := Step(S9(), ASuspend(2)); L(s, MutexKey(0)) == [] && T(s, 1).prio == 2 && T(s, 1).base == 1
  {
    hide S9, Step, Enabled, Inv, Exact, Exec, Run, SoleLender;
    StoryRuns();
    StoryBoosts();
    Owes(S9());
    AfterSuspend(S9());
    StoryInv();
    ExactStep(S9(), ASuspend(2));
  }

  lemma StoryInv()
    requires Run(S0(), Story()) && Exec(S0(), Story()) == S9()
    ensures Inv(S9()) && Init(S0())
  {
    hide Run, Exec, Story, S9, Inv;
    InitInv(S0());
    RunInv(S0(), Story());
  }

  // ---------------------------------------------------------------- a chain

  /** Task 1 creates task 3 with priority 3. */
  function Joined(s: State): State {
    s.(tasks := s.tasks[3 := FreshTcb(3).(state := Ready)], lists := s.lists[ReadyKey(3) := [3]], yieldDue := true)
  }

  /** Task 1 is back in its ready list. */
  function PutBack(s: State): State {
    s.(tasks := s.tasks[1 := Low(Ready, 2, [0])], lists := s.lists[ReadyKey(2) := [1]])
  }

  /** Task 3 runs. */
  function Taken(s: State): State {
    var s1 := PutBack(s);
    s1.(tasks := s1.tasks[3 := FreshTcb(3).(state := Running)], lists := s1.lists[ReadyKey(3) := []],
        current := Some(3), yieldDue := false)
  }

  lemma CreatedTop(s: State)
    requires Boosted(s)
    ensures Step(s, ACreate(3, 3)) == Joined(s) && Enabled(s, ACreate(3, 3))
  {
    hide Create;
    assert |{0, 1, 2}| == 3;
    assert |s.tasks| == |s.tasks.Keys|;
    CreateFields(s, 3, 3);
    assert Lookup(s.lists, ReadyKey(3)) + [3] == [3];
  }

  lemma BackInList(s: State)
    requires Boosted(s)
    ensures Vacate(Joined(s)) == PutBack(Joined(s))
  {
    hide Put;
    var s1 := Joined(s);
    PutReady(s1, 1, Low(Ready, 2, [0]));
    UnlinkedFrom(s1, 1);
    assert Lookup(s1.lists, ReadyKey(2)) + [1] == [1];
  }

  lemma PreemptedAgain(s: State)
    requires Boosted(s)
    ensures Step(Joined(s), ASwitch) == Taken(Joined(s)) && Enabled(Joined(s), ASwitch)
  {
    hide Put, TopReady, Vacate;
    BackInList(s);
    var s1 := PutBack(Joined(s));
    TopUnique(s1, MAX_PRIORITIES, 3);
    DispatchFields(s1, 3);
    assert [3][1..] == [];
  }

  /** Task 3 blocks on mutex 1, which task 2 owns; task 2 itself waits for task 1. */
  lemma LockChains(s: State)
    requires Boosted(s)
    ensures var s1 := Taken(Joined(s)); Enabled(s1, ALock(1)) && Chains(s1, 1)
    ensures var s' := Step(Taken(Joined(s)), ALock(1));
      T(s', 2).wait == Some(MutexKey(0)) && T(s', 2).prio == 3 && Owner(s', 0) == Some(1) && T(s', 1).prio == 2
  {
    hide Park, SetPriority, Lock;
    LiftAndPark(Taken(Joined(s)), 1, 2, 3);
  }

  lemma TwoMore(s: State)
    requires Boosted(s) && Inv(s) && Exact(s)
    ensures Run(s, [ACreate(3, 3), ASwitch]) && Exec(s, [ACreate(3, 3), ASwitch]) == Taken(Joined(s))
    ensures Inv(Taken(Joined(s))) && Exact(Taken(Joined(s)))
  {
    hide Joined, Taken, Boosted, Step, Enabled, Inv, Exact, Exec, Run;
    CreatedTop(s);
    StepInv(s, ACreate(3, 3));
    ExactStep(s, ACreate(3, 3));
    PreemptedAgain(s);
    StepInv(Joined(s), ASwitch);
    ExactStep(Joined(s), ASwitch);
    OneThenOther(s, ACreate(3, 3), ASwitch);
  }

  lemma OneThenOther(s: State, a: Action, b: Action)
    requires Enabled(s, a) && Enabled(Step(s, a), b)
    ensures Run(s, [a, b]) && Exec(s, [a, b]) == Step(Step(s, a), b)
  {
    hide Enabled, Step;
    assert [a, b][1..] == [b] && [b][1..] == [];
    assert Run(Step(s, a), [b]) && Exec(Step(s, a), [b]) == Step(Step(s, a), b);
  }

  /** Inheritance is not transitive: task 3 lifts task 2 when it blocks on mutex 1, and the
      owner of the mutex that task 2 waits for stays at priority 2 below its waiter's 3. */
  lemma OwnerStaysBelow()
    ensures var acts := Story() + [ACreate(3, 3), ASwitch]; var s := Exec(S0(), acts);
      && Init(S0()) && Run(S0(), acts) && Exact(s) && Enabled(s, ALock(1)) && Chains(s, 1)
      && var s' := Step(s, ALock(1));
      && !Exact(s') && T(s', 2).wait == Some(MutexKey(0)) && T(s', 2).prio == 3 && Owner(s', 0) == Some(1) && T(s', 1).prio == 2
  {
    hide S9, Joined, Taken, Boosted, Step, Enabled, Inv, Exact, Exec, Run, Chains, Story, T, Owner;
    StoryRuns();
    StoryInv();
    StoryBoosts();
    Owes(S9());
    TwoMore(S9());
    RunSplit(S0(), Story(), [ACreate(3, 3), ASwitch]);
    LockChains(S9());
    ExactStep(Taken(Joined(S9())), ALock(1));
  }
}
