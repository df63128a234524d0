/** When exactly priority inheritance is exact: an action keeps every task at the highest of
    its base priority and its waiters' unless it is one of the two kinds named here. */
module Exactness {
  import opened Lists
  import opened Model
  import opened Structure
  import opened Delays
  import opened Invariant
  import opened Preservation
  import opened Mutexes
  import opened Scheduling
  import opened Evolution
  import opened Runs
  import opened Inheritance

  /** Every task runs at what recompute_priority gives for it. */
  ghost predicate Exact(s: State) {
    forall t :: t in s.tasks ==> s.tasks[t].prio == Recompute(s, t)
  }

  /** `w` waits for a mutex whose owner is boosted, and is the only one who justifies that. */
  ghost predicate SoleLender(s: State, w: Tid) {
    && w in s.tasks && MutexWait(s.tasks[w])
    && exists o :: o in s.tasks && OwedTo(s, o, w)
  }

  ghost predicate OwedTo(s: State, o: Tid, w: Tid)
    requires o in s.tasks
  {
    s.tasks[o].prio != s.tasks[o].base && Lends(s.tasks, o, w) && forall x :: Lends(s.tasks, o, x) ==> x == w
  }

  /** The actions that leave some task at another priority: suspending or deleting the one
      waiter an owner owes its boost to, and a lock() that lifts an owner over the next one. */
  ghost predicate Breaks(s: State, a: Action) {
    match a
    case ASuspend(t) => SoleLender(s, t)
    case ADelete(t) => SoleLender(s, t)
    case ALock(m) => Chains(s, m)
    case _ => false
  }

  // ---------------------------------------------------------------- two halves

  lemma ExactFromHalves(s: State)
    requires Inv(s) && NotBelow(s.tasks, s.owners, false) && NotAbove(s.tasks)
    ensures Exact(s)
  {
    hide Inv, NotBelow, NotAbove, Recompute;
    forall t | t in s.tasks ensures s.tasks[t].prio == Recompute(s, t) {
      BoundFromAbove(s, t);
      BoundFromBelow(s, t, false);
    }
  }

  lemma HalvesFromExact(s: State)
    requires Inv(s) && Exact(s)
    ensures NotBelow(s.tasks, s.owners, false) && NotAbove(s.tasks)
  {
    hide Inv, Exact;
    forall w | w in s.tasks && MutexWait(s.tasks[w]) ensures Lent(s.tasks, s.owners, s.tasks[w], false) { ExactLent(s, w); }
    forall t | t in s.tasks && s.tasks[t].prio != s.tasks[t].base ensures exists w :: Lends(s.tasks, t, w) {
      var w := ExactLends(s, t);
    }
  }

  lemma ExactLent(s: State, w: Tid)
    requires Inv(s) && Exact(s) && w in s.tasks && MutexWait(s.tasks[w])
    ensures Lent(s.tasks, s.owners, s.tasks[w], false)
  {
    hide Positive, Preemptive, Objects, Present, Clock;
    assert TaskOk(s, w, s.tasks[w]);
    var m := s.tasks[w].wait.value.mutex;
    var o := s.owners[m].value;
    assert OwnAt(s.tasks, s.owners, m, o);
    InList(s, w);
    InheritCovers(s, s.tasks[o].held, s.tasks[o].base);
    assert T(s, w).prio <= Inherit(s, s.tasks[o].held, s.tasks[o].base);
  }

  lemma ExactLends(s: State, t: Tid) returns (w: Tid)
    requires Inv(s) && Exact(s) && t in s.tasks && s.tasks[t].prio != s.tasks[t].base
    ensures Lends(s.tasks, t, w)
  {
    hide Rest, Positive, Preemptive, TasksBut;
    var m;
    m, w := InheritAttained(s, s.tasks[t].held, s.tasks[t].base);
    assert Belongs(s, w, MutexKey(m));
  }

  // ---------------------------------------------------------------- one step

  /** Taking a waiter out leaves no one above its due exactly when nobody owed it a boost alone. */
  lemma HaltAbove(s: State, w: Tid, st: TaskState)
    requires Inv(s) && NotAbove(s.tasks) && w in s.tasks && MutexWait(s.tasks[w])
    ensures NotAbove(Halt(s, w, st).tasks) <==> !SoleLender(s, w)
  {
    hide Inv, Put;
    var s' := Halt(s, w, st);
    assert s'.tasks == s.tasks[w := Stopped(s.tasks[w], st)];
    if SoleLender(s, w) {
      var o :| o in s.tasks && OwedTo(s, o, w);
      forall x ensures !Lends(s'.tasks, o, x) {
        assert Lends(s'.tasks, o, x) ==> Lends(s.tasks, o, x);
      }
      assert s'.tasks[o].prio != s'.tasks[o].base && !exists x :: Lends(s'.tasks, o, x);
    } else {
      forall t | t in s'.tasks && s'.tasks[t].prio != s'.tasks[t].base ensures exists x :: Lends(s'.tasks, t, x) {
        assert !OwedTo(s, t, w);
        var x :| Lends(s.tasks, t, x) && x != w;
        assert Lends(s'.tasks, t, x);
      }
    }
  }

  lemma HaltBelow(s: State, a: Action)
    requires Inv(s) && Enabled(s, a) && Cancels(s, a) && NotBelow(s.tasks, s.owners, false)
    ensures NotBelow(Step(s, a).tasks, Step(s, a).owners, false)
  {
    hide Inv, NotBelow, GentleStep;
    StepGentle(s, a);
    GentleBelow(s, Step(s, a), false, false);
  }

  /** Cancelling a mutex wait. */
  lemma CancelExact(s: State, a: Action)
    requires Inv(s) && Enabled(s, a) && Cancels(s, a) && NotBelow(s.tasks, s.owners, false) && NotAbove(s.tasks)
    ensures Step(s, a) == Halt(s, a.t, if a.ASuspend? then Suspended else Deleted)
    ensures NotBelow(Step(s, a).tasks, Step(s, a).owners, false)
    ensures NotAbove(Step(s, a).tasks) <==> !SoleLender(s, a.t)
  {
    hide Inv, NotBelow, NotAbove, Halt, SoleLender;
    HaltBelow(s, a);
    CancelIsHalt(s, a);
    HaltAbove(s, a.t, if a.ASuspend? then Suspended else Deleted);
  }

  lemma CancelIsHalt(s: State, a: Action)
    requires Inv(s) && Enabled(s, a) && Cancels(s, a)
    ensures Step(s, a) == Halt(s, a.t, if a.ASuspend? then Suspended else Deleted)
  {
    hide Halt, Linked, Rest, Positive, Preemptive;
    assert TaskOk(s, a.t, s.tasks[a.t]);
  }

  /** Every other action keeps both halves, but for a lock() that chains. */
  lemma OtherExact(s: State, a: Action)
    requires Inv(s) && Enabled(s, a) && !Cancels(s, a) && NotBelow(s.tasks, s.owners, false) && NotAbove(s.tasks)
    ensures NotBelow(Step(s, a).tasks, Step(s, a).owners, false) <==> !(a.ALock? && Chains(s, a.m))
    ensures NotAbove(Step(s, a).tasks)
  {
    hide Inv, NotBelow, NotAbove, GentleStep, Lock, Unlock, Chains;
    if a.ALock? {
      LockBoth(s, a.m, false);
    } else if a.AUnlock? {
      UnlockBoth(s, a.m, false);
    } else if a.AReturn? {
      ReturnBoth(s, false);
    } else {
      StepGentle(s, a);
      GentleBelow(s, Step(s, a), true, false);
      GentleAbove(s, Step(s, a));
    }
  }

  /** From a state where all priorities are exact, an action keeps them exact if and only if
      it is not one of those that `Breaks` names by the state before the call. */
  lemma ExactStep(s: State, a: Action)
    requires Inv(s) && Enabled(s, a) && Exact(s)
    ensures Exact(Step(s, a)) <==> !Breaks(s, a)
  {
    hide Inv, Step, Enabled, Exact, NotBelow, NotAbove, Chains;
    HalvesFromExact(s);
    StepInv(s, a);
    if Cancels(s, a) {
      CancelExact(s, a);
    } else {
      OtherExact(s, a);
    }
    var s' := Step(s, a);
    if NotBelow(s'.tasks, s'.owners, false) && NotAbove(s'.tasks) { ExactFromHalves(s'); }
    else if Exact(s') { HalvesFromExact(s'); }
  }

  // ---------------------------------------------------------------- runs

  ghost predicate Unbroken(s: State, acts: seq<Action>)
    decreases |acts|
  {
    acts == [] || (!Breaks(s, acts[0]) && Unbroken(Step(s, acts[0]), acts[1..]))
  }

  /** A run without such actions keeps priorities exact throughout; with one, they are not exact after the first. */
  lemma {:induction false} ExactRun(s: State, acts: seq<Action>)
    requires Inv(s) && Run(s, acts) && Exact(s)
    ensures Unbroken(s, acts) <==> forall n :: 0 <= n <= |acts| ==> Exact(Exec(s, acts[..n]))
    decreases |acts|
  {
    hide Inv, Step, Enabled, Exact, Breaks;
    if acts == [] {
      assert forall n :: 0 <= n <= |acts| ==> Exec(s, acts[..n]) == s;
    } else {
      StepInv(s, acts[0]);
      ExactStep(s, acts[0]);
      var s1, rest := Step(s, acts[0]), acts[1..];
      forall n | 0 <= n < |acts| ensures Exec(s, acts[..n + 1]) == Exec(s1, rest[..n]) {
        assert acts[..n + 1][1..] == rest[..n];
      }
      if Exact(s1) {
        ExactRun(s1, rest);
        forall n | 0 < n <= |acts| ensures Exec(s, acts[..n]) == Exec(s1, rest[..n - 1]) {}
      } else {
        assert Exec(s, acts[..1]) == Exec(s1, rest[..0]);
      }
    }
  }
}
