/** Tasks of the top priority share the CPU round-robin, one tick each. */
module Fairness {
  import opened Lists
  import opened Model
  import opened Structure
  import opened Delays
  import opened Invariant
  import opened Preservation
  import opened Scheduling
  import opened Timing

  /** The running task followed by the ready tasks of its priority, oldest first. */
  function Ring(s: State): seq<Tid> {
    [Cur(s)] + L(s, ReadyKey(T(s, Cur(s)).prio))
  }

  function Rotate(l: seq<Tid>): seq<Tid>
    requires l != []
  {
    l[1..] + [l[0]]
  }

  /** One tick and, if it asks for one, the switch that follows. */
  function Round(s: State): State {
    var s1 := Tick(s);
    if s1.yieldDue then Switch(s1) else s1
  }

  function Rounds(s: State, n: nat): State
    decreases n
  {
    if n == 0 then s else Rounds(Round(s), n - 1)
  }

  /** The system is running, and nothing will happen for `n` ticks but the ticks. */
  ghost predicate Quiet(s: State, n: nat) {
    && Inv(s) && s.started && !s.yieldDue
    && forall t :: t in Due(s.delay) ==> Due(s.delay)[t] > n
  }

  // ---------------------------------------------------------------- the tick

  /** A tick that releases nobody only counts, and asks for a switch if an equal is ready. */
  lemma IdleTick(s: State)
    requires Quiet(s, 1)
    ensures var s1 := Tick(s);
      && s1 == s.(tick := s1.tick, delay := DelayDown(s.delay), yieldDue := s1.yieldDue)
      && (s1.yieldDue <==> NeedsPreemption(s1))
      && forall t :: t in Due(s1.delay) ==> t in Due(s.delay) && Due(s1.delay)[t] == Due(s.delay)[t] - 1
  {
    hide Inv, TopReady, DelayDown, Due;
    ClockOf(s);
    DownDue(s.delay);
    DownGood(s.delay);
    var d := DelayDown(s.delay);
    if d != [] { FrontDue(d); }
    SameTop(s.(tick := (s.tick + 1) % TWO_32, delay := d), Tick(s), MAX_PRIORITIES);
  }

  /** The ready tasks' highest priority is the running task's if it has ready equals. */
  lemma TopEquals(s: State)
    requires Quiet(s, 0)
    ensures s.current.Some? && Cur(s) in s.tasks && s.tasks[Cur(s)].state == Running
    ensures s.tasks[Cur(s)].prio < MAX_PRIORITIES
    ensures var q, top := L(s, ReadyKey(s.tasks[Cur(s)].prio)), TopReady(s, MAX_PRIORITIES);
      if q != [] then top == Some(s.tasks[Cur(s)].prio) else top.Some? ==> top.value < s.tasks[Cur(s)].prio
  {
    hide Rest, Positive, Reason, Ticket;
    var p := s.tasks[Cur(s)].prio;
    assert TaskOk(s, Cur(s), s.tasks[Cur(s)]);
    TopIsHighest(s);
    if L(s, ReadyKey(p)) != [] { assert Belongs(s, L(s, ReadyKey(p))[0], ReadyKey(p)); }
  }

  // ---------------------------------------------------------------- the switch

  /** The running task is in no list; its equals are distinct. */
  lemma RingDistinct(s: State)
    requires Quiet(s, 0)
    ensures NoDup(Ring(s))
  {
    hide Rest, Positive, Reason, Ticket;
    TopEquals(s);
    var p := s.tasks[Cur(s)].prio;
    assert Cur(s) in L(s, ReadyKey(p)) <==> Belongs(s, Cur(s), ReadyKey(p));
  }

  lemma VacateList(s: State, p: nat)
    requires s.current.Some? && Cur(s) in s.tasks && s.tasks[Cur(s)].state == Running && s.tasks[Cur(s)].prio == p
    ensures var s1 := Vacate(s);
      && (forall k :: k != ReadyKey(p) ==> L(s1, k) == L(s, k))
      && L(s1, ReadyKey(p)) == L(s, ReadyKey(p)) + [Cur(s)]
      && s1 == s.(tasks := s.tasks[Cur(s) := s.tasks[Cur(s)].(state := Ready)], lists := s1.lists)
  {
  }

  lemma DispatchList(s: State, t: Tid, p: nat)
    requires t in s.tasks && s.tasks[t].state == Ready && s.tasks[t].prio == p
    ensures var s1 := Put(s, t, s.tasks[t].(state := Running));
      L(s1, ReadyKey(p)) == Without(L(s, ReadyKey(p)), t)
  {
  }

  lemma TopUnchanged(s: State, s1: State, p: nat, n: nat)
    requires p < n && TopReady(s, n) == Some(p) && L(s1, ReadyKey(p)) != []
    requires forall k: Key :: k != ReadyKey(p) ==> L(s1, k) == L(s, k)
    ensures TopReady(s1, n) == Some(p)
  {
  }

  /** A switch with ready equals: the oldest of them runs, the running task goes last. */
  lemma SwitchRotates(s: State)
    requires Inv(s) && s.started && s.current.Some? && Cur(s) in s.tasks && s.tasks[Cur(s)].state == Running
    requires var p := s.tasks[Cur(s)].prio; p < MAX_PRIORITIES && L(s, ReadyKey(p)) != [] && TopReady(s, MAX_PRIORITIES) == Some(p)
    requires NoDup(Ring(s))
    ensures Switch(s).current.Some? && Ring(Switch(s)) == Rotate(Ring(s)) && Switch(s).delay == s.delay && !Switch(s).yieldDue
  {
    hide Inv, Put, Vacate, TopReady, NoDup, Without;
    var p, q := s.tasks[Cur(s)].prio, L(s, ReadyKey(s.tasks[Cur(s)].prio));
    var s1 := Vacate(s);
    VacateList(s, p);
    TopUnchanged(s, s1, p, MAX_PRIORITIES);
    ReadyHead(s, p);
    FrontLeaves(Cur(s), q);
    DispatchList(s1, q[0], p);
  }

  lemma FrontLeaves(t: Tid, q: seq<Tid>)
    requires q != [] && NoDup([t] + q)
    ensures Without(q + [t], q[0]) == q[1..] + [t] && q[0] != t
    ensures Rotate([t] + q) == q + [t]
  {
    assert ([t] + q)[0] == t && ([t] + q)[1] == q[0];
    assert (q + [t])[1..] == q[1..] + [t];
  }

  lemma ReadyHead(s: State, p: nat)
    requires Inv(s) && L(s, ReadyKey(p)) != []
    ensures var t := L(s, ReadyKey(p))[0]; t in s.tasks && s.tasks[t].state == Ready && s.tasks[t].prio == p
  {
    assert Belongs(s, L(s, ReadyKey(p))[0], ReadyKey(p));
  }

  // ---------------------------------------------------------------- rounds

  /** One round moves the running task behind its equals. */
  lemma RoundRotates(s: State, n: nat)
    requires Quiet(s, n) && n > 0
    ensures Quiet(Round(s), n - 1) && Ring(Round(s)) == Rotate(Ring(s))
  {
    hide Inv, Tick, Switch, TopReady, Due, DelayDown;
    var s1 := Tick(s);
    TopEquals(s);
    RingDistinct(s);
    IdleTick(s);
    TickInv(s);
    SameTop(s, s1, MAX_PRIORITIES);
    assert Ring(s1) == Ring(s);
    if s1.yieldDue {
      SwitchInv(s1);
      SwitchRotates(s1);
      StartedStays(s1);
    }
  }

  lemma StartedStays(s: State)
    ensures Switch(s).started == s.started
  {
    hide Put, TopReady;
  }

  lemma {:induction false} SameTop(s: State, s1: State, n: nat)
    requires s1.lists == s.lists
    ensures TopReady(s1, n) == TopReady(s, n)
  {
    if n > 0 { SameTop(s, s1, n - 1); }
  }

  lemma {:induction false} RoundsRotate(s: State, n: nat, m: nat)
    requires Quiet(s, n) && m <= n && m <= |Ring(s)|
    ensures Ring(Rounds(s, m)) == Ring(s)[m..] + Ring(s)[..m]
    decreases m
  {
    hide Quiet, Ring, Round;
    if m > 0 {
      RoundRotates(s, n);
      var l, l1 := Ring(s), Ring(Round(s));
      RoundsRotate(Round(s), n - 1, m - 1);
      assert l1[m - 1..] == l[m..] + [l[0]];
      assert l1[..m - 1] == l[1..m];
      assert l[..m] == [l[0]] + l[1..m];
    }
  }

  /** With k tasks at the top priority and nothing else happening, k ticks and their
      switches run each of them exactly once, in order, and restore the original order. */
  lemma RoundRobin(s: State)
    requires Quiet(s, |Ring(s)|)
    ensures NoDup(Ring(s))
    ensures forall j :: 0 <= j < |Ring(s)| ==> Cur(Rounds(s, j)) == Ring(s)[j]
    ensures Ring(Rounds(s, |Ring(s)|)) == Ring(s)
  {
    hide Inv, Rounds;
    var l := Ring(s);
    RingDistinct(s);
    forall j | 0 <= j < |l| ensures Cur(Rounds(s, j)) == l[j] {
      RoundsRotate(s, |l|, j);
      assert Ring(Rounds(s, j))[0] == l[j];
    }
    RoundsRotate(s, |l|, |l|);
  }
}
