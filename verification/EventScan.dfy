/** The event group: one pass over the waiters is enough. */
module EventScan {
  import opened Lists
  import opened Model
  import opened Structure
  import opened Delays
  import opened Invariant
  import opened Preservation

  /** A condition met by some bits is met by more bits. */
  lemma Monotone(b: bv32, m: bv32, mask: bv32, all: bool)
    requires Satisfies(Minus(b, m), mask, all)
    ensures Satisfies(b, mask, all)
  {
  }

  ghost function Elems(l: seq<Tid>): set<Tid> {
    set x | x in l
  }

  /** In the middle of a scan only the waiters still to be visited may be satisfied. */
  ghost predicate Scanning(s: State, e: nat, l: seq<Tid>) {
    && Linked(s) && Rest(s) && Positive(s.delay) && Preemptive(s)
    && e in s.events && NoDup(l) && TasksBut(s, Elems(l))
    && forall x :: x in l ==> x in s.tasks && Unvisited(s, e, x, s.tasks[x])
  }

  ghost predicate Unvisited(s: State, e: nat, t: Tid, c: Tcb) {
    c.wait == Some(EventKey(e)) && TcbOk(c) && Sited(Due(s.delay), s.current, t, c)
  }

  /** Who had no reason to wake up still has none when bits are cleared. */
  lemma LessBits(s: State, e: nat, m: bv32, c: Tcb)
    requires ReasonIn(s, c) && e in s.events
    ensures ReasonIn(SetBits(s, e, Minus(s.events[e], m)), c)
  {
    hide Satisfies;
    if c.wait == Some(EventKey(e)) && Satisfies(Minus(s.events[e], m), c.mask, c.all) {
      Monotone(s.events[e], m, c.mask, c.all);
    }
  }

  lemma ClearTasks(s: State, e: nat, m: bv32, ex: set<Tid>)
    requires TasksBut(s, ex) && e in s.events
    ensures TasksBut(SetBits(s, e, Minus(s.events[e], m)), ex)
  {
    forall x | x in s.tasks && x !in ex ensures ReasonIn(SetBits(s, e, Minus(s.events[e], m)), s.tasks[x]) {
      assert TaskOk(s, x, s.tasks[x]);
      LessBits(s, e, m, s.tasks[x]);
    }
    TasksObjects(s, SetBits(s, e, Minus(s.events[e], m)), ex);
  }

  /** A task outside the invariant for the moment may be edited, its held chain apart. */
  lemma EditTasks(s: State, t: Tid, c: Tcb, ex: set<Tid>)
    requires TasksBut(s, ex + {t})
    ensures TasksBut(Edit(s, t, c), ex + {t})
  {
    forall x | x in s.tasks && x !in ex + {t} ensures TaskOk(Edit(s, t, c), x, s.tasks[x]) {
      assert TaskOk(s, x, s.tasks[x]);
    }
  }

  lemma EditRest(s: State, t: Tid, b: bv32)
    requires Rest(s) && t in s.tasks
    ensures Rest(Edit(s, t, s.tasks[t].(bits := b)))
  {
    OwnFrame(s.tasks, s.owners, t, s.tasks[t].(bits := b));
  }

  lemma MarkTasks(s: State, e: nat, t: Tid, ex: set<Tid>)
    requires TasksBut(s, ex + {t}) && Rest(s) && e in s.events && t in s.tasks
    ensures TasksBut(Mark(s, e, t), ex + {t}) && Rest(Mark(s, e, t))
  {
    hide TasksBut;
    var c := s.tasks[t].(bits := Bits(s, e));
    EditTasks(s, t, c, ex);
    EditRest(s, t, Bits(s, e));
    ClearTasks(Edit(s, t, c), e, c.mask, ex + {t});
  }

  lemma MarkLinked(s: State, e: nat, t: Tid)
    requires Linked(s) && t in s.tasks
    ensures Linked(Mark(s, e, t))
  {
    hide Linked;
    var c := s.tasks[t].(bits := Bits(s, e));
    EditLinked(s, t, c);
    LinkedFrame(Edit(s, t, c), Mark(s, e, t));
  }

  lemma MarkWoken(s: State, e: nat, t: Tid)
    requires t in s.tasks && Unvisited(s, e, t, s.tasks[t])
    requires Satisfies(Bits(s, e), s.tasks[t].mask, s.tasks[t].all)
    ensures var c := Mark(s, e, t).tasks[t];
      c.state == Blocked && TcbOk(Woken(c, Handoff)) && Ticket(s.queues, Woken(c, Handoff))
  {
    hide Mark;
  }

  lemma MarkPreemptive(s: State, e: nat, t: Tid)
    requires Preemptive(s) && t in s.tasks
    ensures Preemptive(Mark(s, e, t))
  {
    hide Mark;
  }

  lemma ElemsHead(l: seq<Tid>)
    requires l != [] && NoDup(l)
    ensures Elems(l) == Elems(l[1..]) + {l[0]} && l[0] !in l[1..] && NoDup(l[1..])
  {
  }

  /** Serving `t` leaves the control blocks and sleeping times of the others alone. */
  lemma ServeEffect(s: State, e: nat, t: Tid)
    requires Rest(s) && Positive(s.delay) && e in s.events
    ensures var s' := Serve(s, e, t);
      && e in s'.events && s'.current == s.current && Positive(s'.delay)
      && (forall x :: x != t && x in s.tasks ==> x in s'.tasks && s'.tasks[x] == s.tasks[x])
      && Due(s'.delay) == Due(s.delay) - {t}
  {
    hide Wake;
    WithoutDue(s.delay, t);
  }

  /** Serving a satisfied waiter takes it out of the scan and leaves the others as they were. */
  lemma ServeScanning(s: State, e: nat, l: seq<Tid>)
    requires Scanning(s, e, l) && l != []
    requires Satisfies(Bits(s, e), T(s, l[0]).mask, T(s, l[0]).all)
    ensures Scanning(Serve(s, e, l[0]), e, l[1..])
  {
    hide Wake, Mark, TasksBut, Linked, Rest, Positive, Preemptive, Satisfies;
    var t, s1 := l[0], Mark(s, e, l[0]);
    ElemsHead(l);
    assert Unvisited(s, e, t, s.tasks[t]);
    MarkTasks(s, e, t, Elems(l[1..]));
    MarkLinked(s, e, t);
    MarkWoken(s, e, t);
    MarkPreemptive(s, e, t);
    WakeNotifyRest(s1, t, Handoff, Elems(l[1..]));
    WakeLinked(s1, t, Handoff);
    WakePreemptive(s1, t, Handoff);
    ServeEffect(s, e, t);
  }

  /** A waiter whose condition is not met is in order and stays. */
  lemma SkipScanning(s: State, e: nat, l: seq<Tid>)
    requires Scanning(s, e, l) && l != []
    requires !Satisfies(Bits(s, e), T(s, l[0]).mask, T(s, l[0]).all)
    ensures Scanning(s, e, l[1..])
  {
    hide Linked, Rest, Positive, Preemptive;
    ElemsHead(l);
    assert Unvisited(s, e, l[0], s.tasks[l[0]]);
  }

  lemma {:induction false} ScanInv(s: State, e: nat, l: seq<Tid>)
    requires Scanning(s, e, l)
    ensures Inv(Scan(s, e, l))
    decreases |l|
  {
    hide Linked, Rest, Positive, Preemptive, TasksBut, Serve, Satisfies;
    if l == [] {
      assert Elems(l) == {};
    } else if Satisfies(Bits(s, e), T(s, l[0]).mask, T(s, l[0]).all) {
      ServeScanning(s, e, l);
      ScanInv(Serve(s, e, l[0]), e, l[1..]);
    } else {
      SkipScanning(s, e, l);
      ScanInv(s, e, l[1..]);
    }
  }

  /** Setting bits may satisfy waiters of this group, nobody else. */
  lemma StartScanning(s: State, e: nat, b: bv32)
    requires Inv(s) && e in s.events
    ensures Scanning(SetBits(s, e, b), e, L(s, EventKey(e)))
  {
    hide Positive;
    var s', l := SetBits(s, e, b), L(s, EventKey(e));
    forall x | x in l ensures x in s.tasks && Unvisited(s', e, x, s.tasks[x]) {
      assert Belongs(s, x, EventKey(e));
      assert TaskOk(s, x, s.tasks[x]);
    }
    forall x | x in s.tasks && x !in Elems(l) ensures ReasonIn(s', s.tasks[x]) {
      assert TaskOk(s, x, s.tasks[x]);
      assert x in l <==> Belongs(s, x, EventKey(e));
    }
    assert TasksBut(s, Elems(l)) by {
      forall x | x in s.tasks ensures TaskOk(s, x, s.tasks[x]) {}
    }
    TasksObjects(s, s', Elems(l));
    LinkedFrame(s, s');
  }

  /** No waiter is stranded: after set_bits nobody waits for a condition that holds. */
  lemma EventSetInv(s: State, e: nat, mask: bv32)
    requires Inv(s) && e in s.events
    ensures Inv(EventSet(s, e, mask))
  {
    hide Inv, Scanning;
    StartScanning(s, e, Plus(Bits(s, e), mask));
    ScanInv(SetBits(s, e, Plus(Bits(s, e), mask)), e, L(s, EventKey(e)));
  }

  lemma EventClearInv(s: State, e: nat, mask: bv32)
    requires Inv(s) && e in s.events
    ensures Inv(EventClear(s, e, mask))
  {
    ClearTasks(s, e, mask, {});
    LinkedFrame(s, EventClear(s, e, mask));
  }

  lemma EventWaitInv(s: State, e: nat, mask: bv32, all: bool, clear: bool, ms: nat)
    requires Inv(s) && Enabled(s, AEventWait(e, mask, all, clear, ms))
    ensures Inv(EventWait(s, e, mask, all, clear, ms))
  {
    hide Inv, Park, Satisfies;
    if mask != 0 && Satisfies(Bits(s, e), mask, all) {
      EventClearInv(s, e, mask);
    } else if mask != 0 && ms != 0 {
      Calling(s);
      CallPark(s, T(s, Cur(s)).(mask := mask, all := all, clear := clear), EventKey(e), ms);
    }
  }
}
