/** Every action keeps the invariant. */
module Preservation {
  import opened Lists
  import opened Model
  import opened Structure
  import opened Delays
  import opened Invariant

  // ---------------------------------------------------------------- what the invariant gives

  /** The one who heads a wait list waits there, with reason. */
  lemma Waiting(s: State, k: Key)
    requires Inv(s) && !k.ReadyKey? && L(s, k) != []
    ensures var t := L(s, k)[0];
      t in s.tasks && s.tasks[t].state == Blocked && s.tasks[t].wait == Some(k) && TaskOk(s, t, s.tasks[t])
  {
    Head(s, k);
    assert TaskOk(s, L(s, k)[0], s.tasks[L(s, k)[0]]);
  }

  ghost predicate Unwaited(s: State, k: Key) {
    forall x :: x in s.tasks ==> s.tasks[x].wait != Some(k)
  }

  lemma Idle(s: State, k: Key)
    requires Inv(s) && L(s, k) == []
    ensures Unwaited(s, k)
  {
    forall x | x in s.tasks ensures s.tasks[x].wait != Some(k) { NoWaiter(s, k, x); }
  }

  /** What is available has no waiter. */
  lemma Available(s: State)
    requires Inv(s)
    ensures forall i :: i in s.sems && s.sems[i].count > 0 ==> Unwaited(s, SemKey(i))
    ensures forall q :: q in s.queues && s.queues[q].ring != [] ==> Unwaited(s, RecvKey(q))
    ensures forall q :: q in s.queues && |s.queues[q].ring| != s.queues[q].capacity ==> Unwaited(s, SendKey(q))
    ensures forall m :: m in s.owners && s.owners[m] == None ==> Unwaited(s, MutexKey(m))
  {
    forall x | x in s.tasks ensures ReasonIn(s, s.tasks[x]) { assert TaskOk(s, x, s.tasks[x]); }
  }

  lemma Sound(s: State)
    requires Inv(s)
    ensures Objects(s.sems, s.queues)
  {
  }

  lemma Calling(s: State)
    requires Inv(s) && TaskCalls(s)
    ensures Cur(s) in s.tasks && TaskOk(s, Cur(s), s.tasks[Cur(s)]) && Cur(s) !in Due(s.delay)
  {
    assert TaskOk(s, Cur(s), s.tasks[Cur(s)]);
  }

  /** Blocking with a control block that differs from the caller's only in call parameters. */
  lemma CallPark(s: State, c: Tcb, k: Key, ms: nat)
    requires Inv(s) && TaskCalls(s) && 0 < ms <= UINT32_MAX && !k.ReadyKey? && !k.MutexKey?
    requires TcbOk(c) && c.held == s.tasks[Cur(s)].held && ReasonIn(s, Parked(c, k))
    ensures Inv(Park(s, c, k, ms))
  {
    ParkInv(s, c, k, ms);
  }

  // ---------------------------------------------------------------- semaphore

  /** Changing one semaphore disturbs only its own waiters. */
  lemma SemChange(s: State, i: nat, m: Sem)
    requires Inv(s) && i in s.sems && SemOk(m) && (m.count == 0 || Unwaited(s, SemKey(i)))
    ensures Inv(s.(sems := s.sems[i := m]))
  {
    var s' := s.(sems := s.sems[i := m]);
    forall x | x in s.tasks ensures ReasonIn(s', s.tasks[x]) { assert TaskOk(s, x, s.tasks[x]); }
    TasksObjects(s, s', {});
    LinkedFrame(s, s');
  }

  lemma SemTryTakeInv(s: State, i: nat)
    requires Inv(s) && i in s.sems
    ensures Inv(SemTryTake(s, i))
  {
    hide Inv;
    var m := s.sems[i];
    Sound(s);
    if m.count > 0 {
      Available(s);
      SemChange(s, i, m.(count := m.count - 1, granted := m.granted + 1));
    }
  }

  lemma SemTakeInv(s: State, i: nat, ms: nat)
    requires Inv(s) && Enabled(s, ASemTake(i, ms))
    ensures Inv(SemTake(s, i, ms))
  {
    hide Inv, Park;
    SemTryTakeInv(s, i);
    if ms != 0 && s.sems[i].count == 0 {
      Calling(s);
      CallPark(s, T(s, Cur(s)), SemKey(i), ms);
    }
  }

  lemma SemGiveInv(s: State, i: nat)
    requires Inv(s) && i in s.sems
    ensures Inv(SemGive(s, i))
  {
    hide Inv, Wake;
    var m := s.sems[i].(gives := s.sems[i].gives + 1);
    var l := L(s, SemKey(i));
    Sound(s);
    if l != [] {
      Waiting(s, SemKey(i));
      SemChange(s, i, m.(granted := m.granted + 1));
      HandoverInv(s.(sems := s.sems[i := m.(granted := m.granted + 1)]), l[0]);
    } else {
      Idle(s, SemKey(i));
      SemChange(s, i, if m.count < UINT32_MAX then m.(count := m.count + 1) else m.(dropped := m.dropped + 1));
    }
  }

  // ---------------------------------------------------------------- queue

  lemma QueueChange(s: State, q: nat, b: Queue)
    requires Inv(s) && q in s.queues && QueueOk(b)
    requires b.ring == [] || Unwaited(s, RecvKey(q))
    requires |b.ring| == b.capacity || Unwaited(s, SendKey(q))
    requires s.queues[q].accepted <= b.accepted && s.queues[q].delivered <= b.delivered
    ensures Inv(s.(queues := s.queues[q := b]))
  {
    var s' := s.(queues := s.queues[q := b]);
    forall x | x in s.tasks ensures ReasonIn(s', s.tasks[x]) { assert TaskOk(s, x, s.tasks[x]); }
    TasksObjects(s, s', {});
    LinkedFrame(s, s');
  }

  /** Writing into the buffer of a waiting task. */
  lemma EditItem(s: State, t: Tid, x: Bytes, n: nat)
    requires Inv(s) && t in s.tasks && s.tasks[t].wait.Some?
    ensures Inv(Edit(s, t, s.tasks[t].(item := x, ticket := n)))
  {
    hide TasksBut, Own, Objects, Clock, Linked;
    var c := s.tasks[t].(item := x, ticket := n);
    OwnFrame(s.tasks, s.owners, t, c);
    EditItemTasks(s, t, x, n);
    EditLinked(s, t, c);
    EditClock(s, t, c);
  }

  lemma EditClock(s: State, t: Tid, c: Tcb)
    requires Clock(s.tasks, s.delay, s.tick)
    ensures Clock(s.tasks[t := c], s.delay, s.tick)
  {
  }

  lemma EditItemTasks(s: State, t: Tid, x: Bytes, n: nat)
    requires TasksOk(s) && t in s.tasks && s.tasks[t].wait.Some?
    ensures TasksOk(Edit(s, t, s.tasks[t].(item := x, ticket := n)))
  {
    var c := s.tasks[t].(item := x, ticket := n);
    assert TaskOk(s, t, s.tasks[t]);
    forall y | y in s.tasks ensures ReasonIn(s, s.tasks[y]) { assert TaskOk(s, y, s.tasks[y]); }
    TasksChange(s, Edit(s, t, c), t, c, {});
  }

  /** The item goes straight into the buffer of the highest waiting receiver. */
  lemma SendHandoff(s: State, q: nat, x: Bytes)
    requires Inv(s) && q in s.queues && L(s, RecvKey(q)) != []
    ensures Inv(QueueSend(s, q, x, 0))
  {
    hide Inv, Wake;
    var b, r := s.queues[q], L(s, RecvKey(q))[0];
    Sound(s);
    Waiting(s, RecvKey(q));
    EditItem(s, r, x, |b.delivered|);
    var s0 := Edit(s, r, s.tasks[r].(item := x, ticket := |b.delivered|));
    Available(s0);
    var b1 := b.(accepted := b.accepted + [x], delivered := b.delivered + [x]);
    QueueChange(s0, q, b1);
    HandoverInv(s0.(queues := s.queues[q := b1]), r);
  }

  lemma QueueSendInv(s: State, q: nat, x: Bytes, ms: nat)
    requires Inv(s) && Enabled(s, AQueueSend(q, x, ms))
    ensures Inv(QueueSend(s, q, x, ms))
  {
    hide Inv, Wake, Park;
    var b := s.queues[q];
    Sound(s);
    if L(s, RecvKey(q)) != [] {
      SendHandoff(s, q, x);
    } else if |b.ring| < b.capacity {
      Idle(s, RecvKey(q));
      Available(s);
      assert b.accepted + [x] == b.delivered + (b.ring + [x]);
      QueueChange(s, q, b.(ring := b.ring + [x], accepted := b.accepted + [x]));
    } else if ms != 0 {
      Calling(s);
      CallPark(s, T(s, Cur(s)).(item := x), SendKey(q), ms);
    }
  }

  /** The slot freed by a receive is refilled by the highest waiting sender. */
  lemma ReceiveRefill(s: State, q: nat)
    requires Inv(s) && q in s.queues && s.queues[q].ring != [] && L(s, SendKey(q)) != []
    ensures Inv(QueueReceive(s, q, 0))
  {
    hide Inv, Wake;
    var b, t := s.queues[q], L(s, SendKey(q))[0];
    Sound(s);
    Waiting(s, SendKey(q));
    var x := s.tasks[t].item;
    EditItem(s, t, x, |b.accepted|);
    var s0 := Edit(s, t, s.tasks[t].(item := x, ticket := |b.accepted|));
    Available(s0);
    var b1 := b.(ring := b.ring[1..] + [x], delivered := b.delivered + [b.ring[0]], accepted := b.accepted + [x]);
    assert b1.delivered + b1.ring == (b.delivered + b.ring) + [x];
    QueueChange(s0, q, b1);
    HandoverInv(s0.(queues := s.queues[q := b1]), t);
  }

  lemma QueueReceiveInv(s: State, q: nat, ms: nat)
    requires Inv(s) && Enabled(s, AQueueReceive(q, ms))
    ensures Inv(QueueReceive(s, q, ms))
  {
    hide Inv, Wake, Park;
    var b := s.queues[q];
    Sound(s);
    if b.ring != [] {
      if L(s, SendKey(q)) != [] {
        ReceiveRefill(s, q);
      } else {
        Available(s);
        Idle(s, SendKey(q));
        var b1 := b.(ring := b.ring[1..], delivered := b.delivered + [b.ring[0]]);
        assert b1.delivered + b1.ring == b.delivered + b.ring;
        QueueChange(s, q, b1);
      }
    } else if ms != 0 {
      Calling(s);
      CallPark(s, T(s, Cur(s)), RecvKey(q), ms);
    }
  }
}
