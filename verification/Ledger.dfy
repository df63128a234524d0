/** Conservation told by the calls themselves: every token and every item is accounted for
    by the calls that were answered true and those that will be. */
module Ledger {
  import opened Lists
  import opened Model
  import opened Structure
  import opened Delays
  import opened Invariant
  import opened Preservation
  import opened Scheduling
  import opened Evolution
  import opened Runs
  import opened Calls
  import opened Handoffs
  import opened Histories

  /** A call on `k` returns now and answers true. */
  predicate ReturnsTrue(s: State, a: Action, k: Key) {
    a == AReturn && T(s, Cur(s)).call == Some(k) && !T(s, Cur(s)).expired
  }

  lemma ReturnsPending(s: State, a: Action, k: Key)
    requires Inv(s) && Enabled(s, a)
    ensures ReturnsTrue(s, a, k) <==> a == AReturn && Pends(T(s, Cur(s)), k)
  {
    hide Linked, Rest, Positive, Preemptive;
    if a == AReturn { assert TaskOk(s, Cur(s), s.tasks[Cur(s)]); }
  }

  // ---------------------------------------------------------------- who pends after a step

  /** The control block of a task that has been handed something. */
  lemma HandedTcb(s1: State, t: Tid)
    ensures t in Notify(Wake(s1, t, Handoff), t).tasks
    ensures Notify(Wake(s1, t, Handoff), t).tasks[t] == Woken(T(s1, t), Handoff)
  {
    hide Wake;
  }

  /** Whoever is handed something was waiting before and pends after, with its place in the log. */
  ghost predicate Handed(s: State, s': State, t: Tid, k: Key, item: Bytes, ticket: nat) {
    && t in s.tasks && !Pends(s.tasks[t], k) && t in s'.tasks && Pends(s'.tasks[t], k)
    && (!k.SemKey? ==> s'.tasks[t].item == item && s'.tasks[t].ticket == ticket)
  }

  lemma GiveHands(s: State, i: nat)
    requires Inv(s) && L(s, SemKey(i)) != []
    ensures Handed(s, SemGive(s, i), L(s, SemKey(i))[0], SemKey(i), [], 0)
  {
    hide Inv, Wake, Notify, SemGive;
    var t, m := L(s, SemKey(i))[0], TheSem(s, i);
    HeadCalls(s, SemKey(i));
    GiveShape(s, i);
    HandedTcb(s.(sems := s.sems[i := m.(gives := m.gives + 1, granted := m.granted + 1)]), t);
  }

  lemma SendHands(s: State, q: nat, x: Bytes, ms: nat)
    requires Inv(s) && L(s, RecvKey(q)) != []
    ensures Handed(s, QueueSend(s, q, x, ms), L(s, RecvKey(q))[0], RecvKey(q), x, |TheQueue(s, q).delivered|)
  {
    hide Inv, Wake, Notify, Park, QueueSend;
    var t, b := L(s, RecvKey(q))[0], TheQueue(s, q);
    HeadCalls(s, RecvKey(q));
    SendShape(s, q, x, ms);
    HandedTcb(Edit(s, t, T(s, t).(item := x, ticket := |b.delivered|))
      .(queues := s.queues[q := b.(accepted := b.accepted + [x], delivered := b.delivered + [x])]), t);
  }

  lemma ReceiveHands(s: State, q: nat, ms: nat)
    requires Inv(s) && L(s, SendKey(q)) != [] && CanReceive(s, q)
    ensures var t := L(s, SendKey(q))[0];
      Handed(s, QueueReceive(s, q, ms), t, SendKey(q), T(s, t).item, |TheQueue(s, q).accepted|)
  {
    hide Inv, Wake, Notify, Park, QueueReceive;
    var t, b := L(s, SendKey(q))[0], TheQueue(s, q);
    HeadCalls(s, SendKey(q));
    ReceiveShape(s, q, ms);
    HandedTcb(Edit(s, t, T(s, t).(ticket := |b.accepted|)).(queues := QueueReceive(s, q, ms).queues), t);
  }

  /** What is handed over, and its place in the log of `k`. */
  function Gift(s: State, a: Action, k: Key): Bytes {
    if a.AQueueSend? then a.x else if L(s, k) != [] then T(s, L(s, k)[0]).item else []
  }

  /** The items that went through `k`: what senders put in, or what receivers got. */
  function Log(s: State, k: Key): seq<Bytes> {
    match k
    case SendKey(q) => TheQueue(s, q).accepted
    case RecvKey(q) => TheQueue(s, q).delivered
    case _ => []
  }

  lemma StepHands(s: State, a: Action, k: Key, t: Tid)
    requires Inv(s) && Counted(k) && HandsTo(s, a, k) == Some(t)
    ensures Handed(s, Step(s, a), t, k, Gift(s, a, k), |Log(s, k)|)
  {
    hide Inv, Handed, SemGive, QueueSend, QueueReceive;
    match k
    case SemKey(i) => GiveHands(s, i); NoItem(s, Step(s, a), t, i, Gift(s, a, k), |Log(s, k)|);
    case RecvKey(q) => SendHands(s, q, a.x, a.ms);
    case SendKey(q) => ReceiveHands(s, q, a.ms);
  }

  lemma NoItem(s: State, s': State, t: Tid, i: nat, item: Bytes, ticket: nat)
    requires Handed(s, s', t, SemKey(i), [], 0)
    ensures Handed(s, s', t, SemKey(i), item, ticket)
  {
  }

  /** Who pends on `k` after a step: the one something was handed to, and those who did before
      and did not return. */
  lemma StepPends(s: State, a: Action, k: Key, t: Tid)
    requires Inv(s) && Enabled(s, a) && Counted(k)
    ensures Pends(T(Step(s, a), t), k) <==>
      HandsTo(s, a, k) == Some(t) || (Pends(T(s, t), k) && !(a == AReturn && s.current == Some(t)))
  {
    hide Inv, Step, Enabled, HandsTo;
    StepNew(s, a, k, t);
    if HandsTo(s, a, k) == Some(t) {
      StepHands(s, a, k, t);
    } else if a == AReturn && s.current == Some(t) {
      Returned(s);
    } else if Pends(T(s, t), k) {
      CallKept(s, t);
      StepLater(s, a, t);
    }
  }

  lemma Returned(s: State)
    ensures T(Step(s, AReturn), Cur(s)).call == None
  {
  }

  /** Those who keep their place in the log after a step. */
  lemma StepTickets(s: State, a: Action, k: Key, t: Tid)
    requires Inv(s) && Enabled(s, a) && Pends(T(s, t), k) && !(a == AReturn && s.current == Some(t))
    ensures var c, c' := T(s, t), T(Step(s, a), t); c'.ticket == c.ticket && c'.item == c.item
  {
    hide Inv, Step, Enabled;
    CallKept(s, t);
    StepLater(s, a, t);
  }

  /** One task more or one task less. */
  function Less(s: State, a: Action, k: Key): set<Tid> {
    if ReturnsTrue(s, a, k) then {Cur(s)} else {}
  }

  function More(s: State, a: Action, k: Key): set<Tid> {
    if HandsTo(s, a, k).Some? then {HandsTo(s, a, k).value} else {}
  }

  lemma InPending(s: State, k: Key, t: Tid)
    ensures t in Pending(s, k) <==> Pends(T(s, t), k)
  {
  }

  lemma Exchanged(p: set<Tid>, less: set<Tid>, more: set<Tid>)
    requires less <= p && more !! p
    ensures |p - less + more| + |less| == |p| + |more|
  {
    assert (p - less) + less == p;
  }

  lemma StepPendingIn(s: State, a: Action, k: Key, t: Tid)
    requires Inv(s) && Enabled(s, a) && Counted(k)
    ensures t in Pending(Step(s, a), k) <==> t in Pending(s, k) - Less(s, a, k) + More(s, a, k)
    ensures (t in Less(s, a, k) ==> t in Pending(s, k)) && (t in More(s, a, k) ==> t !in Pending(s, k))
  {
    hide Inv, Step, Enabled, HandsTo, Pending, Pends;
    InPending(s, k, t);
    InPending(Step(s, a), k, t);
    InPending(s, k, Cur(s));
    StepPends(s, a, k, t);
    ReturnsPending(s, a, k);
    ReturnIsCurrent(s, a);
    if HandsTo(s, a, k) == Some(t) { StepHands(s, a, k, t); }
  }

  lemma StepPending(s: State, a: Action, k: Key)
    requires Inv(s) && Enabled(s, a) && Counted(k)
    ensures Pending(Step(s, a), k) == Pending(s, k) - Less(s, a, k) + More(s, a, k)
    ensures |Pending(Step(s, a), k)| + |Less(s, a, k)| == |Pending(s, k)| + |More(s, a, k)|
  {
    hide Inv, Step, Enabled, HandsTo, Pending, Less, More;
    var p, p', less, more := Pending(s, k), Pending(Step(s, a), k), Less(s, a, k), More(s, a, k);
    forall t: Tid ensures (t in p' <==> t in p - less + more) && (t in less ==> t in p) && (t in more ==> t !in p) {
      StepPendingIn(s, a, k, t);
    }
    assert p' == p - less + more;
    Exchanged(p, less, more);
  }

  lemma ReturnIsCurrent(s: State, a: Action)
    requires Enabled(s, a)
    ensures a == AReturn ==> s.current == Some(Cur(s))
  {
  }

  // ---------------------------------------------------------------- tokens

  /** A take on semaphore `i` that finds a token. */
  predicate TakesNow(s: State, a: Action, i: nat) {
    (a == ASemTryTake(i) || (a.ASemTake? && a.i == i)) && TheSem(s, i).count > 0
  }

  /** A give on `i` that finds neither a waiter nor room in the count. */
  predicate Saturates(s: State, a: Action, i: nat) {
    a == ASemGive(i) && L(s, SemKey(i)) == [] && TheSem(s, i).count == UINT32_MAX
  }

  function One(b: bool): nat { if b then 1 else 0 }

  /** The takes of a run that got a token: at once, or on returning true from their wait. */
  function Took(s: State, acts: seq<Action>, i: nat): nat
    decreases |acts|
  {
    if acts == [] then 0
    else One(TakesNow(s, acts[0], i)) + One(ReturnsTrue(s, acts[0], SemKey(i))) + Took(Step(s, acts[0]), acts[1..], i)
  }

  function Saturated(s: State, acts: seq<Action>, i: nat): nat
    decreases |acts|
  {
    if acts == [] then 0 else One(Saturates(s, acts[0], i)) + Saturated(Step(s, acts[0]), acts[1..], i)
  }

  /** What one action does to a semaphore, told by what it does to its callers. */
  ghost predicate SemChanged(m: Sem, m': Sem, gave: bool, took: bool, handed: bool, lost: bool) {
    && m'.count + One(took) + One(handed) + One(lost) == m.count + One(gave)
    && m'.granted == m.granted + One(took) + One(handed)
    && m'.dropped == m.dropped + One(lost)
  }

  lemma TakeSems(s: State, j: nat, ms: nat, i: nat)
    ensures SemChanged(TheSem(s, i), TheSem(SemTryTake(s, j), i), false, i == j && TheSem(s, i).count > 0, false, false)
    ensures SemChanged(TheSem(s, i), TheSem(SemTake(s, j, ms), i), false, i == j && TheSem(s, i).count > 0, false, false)
  {
    hide Park, T;
  }

  lemma GiveChanges(s: State, j: nat, i: nat)
    requires TheSem(s, i).count <= UINT32_MAX
    ensures SemChanged(TheSem(s, i), TheSem(SemGive(s, j), i), i == j, false, i == j && L(s, SemKey(i)) != [],
                       i == j && L(s, SemKey(i)) == [] && TheSem(s, i).count == UINT32_MAX)
  {
    hide SemGive;
    GiveSems(s, j);
  }

  lemma SameSems(s: State, s': State, i: nat)
    requires s'.sems == s.sems
    ensures SemChanged(TheSem(s, i), TheSem(s', i), false, false, false, false)
  {
  }

  lemma StepSems(s: State, a: Action, i: nat)
    requires TheSem(s, i).count <= UINT32_MAX
    ensures SemChanged(TheSem(s, i), TheSem(Step(s, a), i), a == ASemGive(i), TakesNow(s, a, i), HandsTo(s, a, SemKey(i)).Some?, Saturates(s, a, i))
  {
    hide SemGive, SemTake, SemTryTake, QueueSend, QueueReceive, SemChanged, TheSem;
    if a.ASemGive? { GiveChanges(s, a.i, i); }
    else if a.ASemTake? { TakeSems(s, a.i, a.ms, i); }
    else if a.ASemTryTake? { TakeSems(s, a.i, 0, i); }
    else if a.AQueueSend? { QueueSems(s, a.q, a.x, a.ms); SameSems(s, Step(s, a), i); }
    else if a.AQueueReceive? { QueueSems(s, a.q, [], a.ms); SameSems(s, Step(s, a), i); }
    else { StepStores(s, a); SameSems(s, Step(s, a), i); }
  }

  lemma CountFits(s: State, i: nat)
    requires Inv(s)
    ensures TheSem(s, i).count <= UINT32_MAX
  {
    if i in s.sems { assert SemOk(s.sems[i]); }
  }

  /** Tokens pending on the way to their takers. */
  ghost function Owed(s: State, i: nat): nat {
    |Pending(s, SemKey(i))|
  }

  lemma StepTokens(s: State, a: Action, i: nat)
    requires Inv(s) && Enabled(s, a)
    ensures var m, m', took := TheSem(s, i), TheSem(Step(s, a), i), One(TakesNow(s, a, i)) + One(ReturnsTrue(s, a, SemKey(i)));
      && m'.count + Owed(Step(s, a), i) + took + One(Saturates(s, a, i)) == m.count + Owed(s, i) + One(a == ASemGive(i))
      && m'.granted + Owed(s, i) == m.granted + took + Owed(Step(s, a), i)
      && m'.dropped == m.dropped + One(Saturates(s, a, i))
  {
    hide Inv, Step, Enabled, TakesNow, Saturates, HandsTo, TheSem, ReturnsTrue, Pending;
    CountFits(s, i);
    StepSems(s, a, i);
    StepPending(s, a, SemKey(i));
  }

  lemma {:induction false} RunTokens(s: State, acts: seq<Action>, i: nat)
    requires Inv(s) && Run(s, acts)
    ensures var s', took, lost := Exec(s, acts), Took(s, acts, i), Saturated(s, acts, i);
      var m, m' := TheSem(s, i), TheSem(s', i);
      && m'.count + Owed(s', i) + took + lost == m.count + Owed(s, i) + Gives(acts, i)
      && m'.granted + Owed(s, i) == m.granted + took + Owed(s', i) && m'.dropped == m.dropped + lost
    decreases |acts|
  {
    hide Inv, Step, Enabled, TakesNow, Saturates, TheSem, ReturnsTrue, Owed;
    if acts != [] {
      StepInv(s, acts[0]);
      StepTokens(s, acts[0], i);
      RunTokens(Step(s, acts[0]), acts[1..], i);
    }
  }

  /** Conservation over every run: the initial tokens and the gives of the run are the takes
      that answered true, the tokens handed to tasks that have not yet returned, those left,
      and the gives that found the count saturated. */
  lemma TokensAccounted(s: State, acts: seq<Action>, i: nat)
    requires Init(s) && Run(s, acts) && i in s.sems
    ensures var s' := Exec(s, acts);
      s.sems[i].count + Gives(acts, i) == Took(s, acts, i) + |Pending(s', SemKey(i))| + TheSem(s', i).count + Saturated(s, acts, i)
  {
    hide Inv, Run, Exec, Took, Saturated, Gives;
    InitInv(s);
    RunTokens(s, acts, i);
    assert Pending(s, SemKey(i)) == {};
  }

  /** The history counters of a semaphore say the same. */
  lemma CountersTrue(s: State, acts: seq<Action>, i: nat)
    requires Init(s) && Run(s, acts) && i in s.sems
    ensures var s' := Exec(s, acts);
      && TheSem(s', i).granted == Took(s, acts, i) + |Pending(s', SemKey(i))|
      && TheSem(s', i).dropped == Saturated(s, acts, i)
  {
    hide Inv, Run, Exec, Took, Saturated, Gives;
    InitInv(s);
    RunTokens(s, acts, i);
    assert Pending(s, SemKey(i)) == {};
  }

  // ---------------------------------------------------------------- items

  predicate OnQueue(k: Key) {
    k.SendKey? || k.RecvKey?
  }

  /** The item of a call on `k` that is answered true at once. */
  function AtOnce(s: State, a: Action, k: Key): Option<Bytes> {
    match k
    case SendKey(q) => if a.AQueueSend? && a.q == q && CanSend(s, q) then Some(a.x) else None
    case RecvKey(q) => if a.AQueueReceive? && a.q == q && CanReceive(s, q) then Some(TheQueue(s, q).ring[0]) else None
    case _ => None
  }

  /** What one action adds to the log of `k`. */
  function Entry(s: State, a: Action, k: Key): seq<Bytes> {
    match AtOnce(s, a, k)
    case Some(x) => [x]
    case None => if HandsTo(s, a, k).Some? then [Gift(s, a, k)] else []
  }

  lemma SendLogs(s: State, j: nat, x: Bytes, ms: nat, k: Key)
    requires OnQueue(k)
    ensures Log(QueueSend(s, j, x, ms), k) == Log(s, k) + Entry(s, AQueueSend(j, x, ms), k)
  {
    hide QueueSend;
    SendQueues(s, j, x, ms);
  }

  lemma ReceiveLogs(s: State, j: nat, ms: nat, k: Key)
    requires OnQueue(k)
    ensures Log(QueueReceive(s, j, ms), k) == Log(s, k) + Entry(s, AQueueReceive(j, ms), k)
  {
    hide QueueReceive;
    ReceiveQueues(s, j, ms);
  }

  lemma SameLog(s: State, s': State, k: Key)
    requires s'.queues == s.queues
    ensures Log(s', k) == Log(s, k) + []
  {
  }

  lemma StepLog(s: State, a: Action, k: Key)
    requires OnQueue(k)
    ensures Log(Step(s, a), k) == Log(s, k) + Entry(s, a, k)
  {
    hide SemGive, SemTake, SemTryTake, QueueSend, QueueReceive, Log;
    if a.AQueueSend? { SendLogs(s, a.q, a.x, a.ms, k); }
    else if a.AQueueReceive? { ReceiveLogs(s, a.q, a.ms, k); }
    else if a.ASemGive? { SemQueues(s, a.i, 0); SameLog(s, Step(s, a), k); }
    else if a.ASemTake? { SemQueues(s, a.i, a.ms); SameLog(s, Step(s, a), k); }
    else if a.ASemTryTake? { SemQueues(s, a.i, 0); SameLog(s, Step(s, a), k); }
    else { StepStores(s, a); SameLog(s, Step(s, a), k); }
  }

  /** A call on a queue that was answered true: its place in the log, and the item that the
      caller passed or got. */
  datatype Receipt = Receipt(place: nat, item: Bytes)

  /** The receipt an action hands out on `k`, if any. */
  function Issued(s: State, a: Action, k: Key): seq<Receipt> {
    match AtOnce(s, a, k)
    case Some(x) => [Receipt(|Log(s, k)|, x)]
    case None => if ReturnsTrue(s, a, k) then [Receipt(T(s, Cur(s)).ticket, T(s, Cur(s)).item)] else []
  }

  /** The receipts of a run. */
  function Receipts(s: State, acts: seq<Action>, k: Key): seq<Receipt>
    decreases |acts|
  {
    if acts == [] then [] else Issued(s, acts[0], k) + Receipts(Step(s, acts[0]), acts[1..], k)
  }

  ghost predicate HasReceipt(rs: seq<Receipt>, n: nat) {
    exists j :: 0 <= j < |rs| && rs[j].place == n
  }

  ghost predicate HasTicket(owed: map<Tid, nat>, n: nat) {
    exists t :: t in owed && owed[t] == n
  }

  /** The books of a log: every receipt names an entry with its item, no two the same, and
      every entry belongs to exactly one receipt or one call still owed its answer. */
  ghost predicate Booked(log: seq<Bytes>, rs: seq<Receipt>, owed: map<Tid, nat>) {
    && (forall j :: 0 <= j < |rs| ==> At(log, rs[j].place, rs[j].item))
    && (forall i, j :: 0 <= i < j < |rs| ==> rs[i].place != rs[j].place)
    && (forall t, u :: t in owed && u in owed && t != u ==> owed[t] != owed[u])
    && (forall t :: t in owed ==> owed[t] < |log| && !HasReceipt(rs, owed[t]))
    && (forall n: nat :: n < |log| ==> HasReceipt(rs, n) || HasTicket(owed, n))
    && |log| == |rs| + |owed|
  }

  /** A call is answered at once. */
  lemma BookNow(log: seq<Bytes>, rs: seq<Receipt>, owed: map<Tid, nat>, x: Bytes)
    requires Booked(log, rs, owed)
    ensures Booked(log + [x], rs + [Receipt(|log|, x)], owed)
  {
    var rs' := rs + [Receipt(|log|, x)];
    forall n: nat | n < |log| + 1 ensures HasReceipt(rs', n) || HasTicket(owed, n) {
      if n < |log| { BookMore(rs, Receipt(|log|, x), n); } else { assert rs'[|rs|].place == n; }
    }
    forall t | t in owed ensures !HasReceipt(rs', owed[t]) { BookMore(rs, Receipt(|log|, x), owed[t]); }
    forall j | 0 <= j < |rs'| ensures At(log + [x], rs'[j].place, rs'[j].item) { assert j < |rs| ==> At(log, rs[j].place, rs[j].item); }
  }

  lemma BookMore(rs: seq<Receipt>, r: Receipt, n: nat)
    ensures HasReceipt(rs + [r], n) <==> HasReceipt(rs, n) || r.place == n
  {
    var rs' := rs + [r];
    if HasReceipt(rs, n) {
      var j :| 0 <= j < |rs| && rs[j].place == n;
      assert rs'[j].place == n;
    } else if r.place == n {
      assert rs'[|rs|].place == n;
    }
  }

  /** A place past the end of the log is on no receipt. */
  lemma NoneBeyond(log: seq<Bytes>, rs: seq<Receipt>)
    requires forall j :: 0 <= j < |rs| ==> At(log, rs[j].place, rs[j].item)
    ensures !HasReceipt(rs, |log|)
  {
    forall j | 0 <= j < |rs| ensures rs[j].place != |log| { assert At(log, rs[j].place, rs[j].item); }
  }

  lemma StillAt(log: seq<Bytes>, y: Bytes, r: Receipt)
    requires At(log, r.place, r.item)
    ensures At(log + [y], r.place, r.item)
  {
  }

  lemma OneMoreTicket(owed: map<Tid, nat>, t: Tid, n: nat, m: nat)
    requires t !in owed
    ensures HasTicket(owed[t := n], m) <==> HasTicket(owed, m) || m == n
    ensures |owed[t := n]| == |owed| + 1
  {
    var owed' := owed[t := n];
    if HasTicket(owed, m) {
      var u :| u in owed && owed[u] == m;
      assert owed'[u] == m;
    }
    assert owed'[t] == n;
    assert owed'.Keys == owed.Keys + {t};
  }

  /** Something is handed to a waiter. */
  lemma BookHand(log: seq<Bytes>, rs: seq<Receipt>, owed: map<Tid, nat>, y: Bytes, t: Tid)
    requires Booked(log, rs, owed) && t !in owed
    ensures Booked(log + [y], rs, owed[t := |log|])
  {
    hide At, HasReceipt, HasTicket;
    NoneBeyond(log, rs);
    OneMoreTicket(owed, t, |log|, 0);
    forall n: nat | n < |log| + 1 ensures HasReceipt(rs, n) || HasTicket(owed[t := |log|], n) {
      OneMoreTicket(owed, t, |log|, n);
    }
    forall j | 0 <= j < |rs| ensures At(log + [y], rs[j].place, rs[j].item) { StillAt(log, y, rs[j]); }
  }

  /** A call that was handed its item returns. */
  lemma BookReturn(log: seq<Bytes>, rs: seq<Receipt>, owed: map<Tid, nat>, t: Tid, item: Bytes)
    requires Booked(log, rs, owed) && t in owed && At(log, owed[t], item)
    ensures Booked(log, rs + [Receipt(owed[t], item)], owed - {t})
  {
    var r, owed' := Receipt(owed[t], item), owed - {t};
    forall n: nat | n < |log| ensures HasReceipt(rs + [r], n) || HasTicket(owed', n) {
      BookMore(rs, r, n);
      if HasTicket(owed, n) && n != owed[t] {
        var u :| u in owed && owed[u] == n;
        assert owed'[u] == n;
      }
    }
    forall u | u in owed' ensures !HasReceipt(rs + [r], owed'[u]) { BookMore(rs, r, owed'[u]); }
    forall j | 0 <= j < |rs| ensures rs[j].place != r.place { assert HasReceipt(rs, rs[j].place); }
    assert owed'.Keys == owed.Keys - {t};
  }

  /** The calls on `k` whose item has been handed over and that have not returned, with their places. */
  ghost function Owing(s: State, k: Key): map<Tid, nat> {
    map t | t in Pending(s, k) :: T(s, t).ticket
  }

  /** How the calls that are owed an answer change in one step. */
  ghost function StillOwed(s: State, a: Action, k: Key): map<Tid, nat> {
    if HandsTo(s, a, k).Some? then Owing(s, k)[HandsTo(s, a, k).value := |Log(s, k)|]
    else Owing(s, k) - Less(s, a, k)
  }

  lemma OwingAt(s: State, k: Key, t: Tid)
    ensures t in Owing(s, k) <==> Pends(T(s, t), k)
    ensures t in Owing(s, k) ==> Owing(s, k)[t] == T(s, t).ticket
  {
    InPending(s, k, t);
  }

  lemma StepOwing(s: State, a: Action, k: Key)
    requires Inv(s) && Enabled(s, a) && OnQueue(k)
    ensures Owing(Step(s, a), k) == StillOwed(s, a, k)
    ensures HandsTo(s, a, k).Some? ==> HandsTo(s, a, k).value !in Owing(s, k)
  {
    hide Inv, Step, Enabled, HandsTo, Owing, Pending, Pends, Log;
    forall t: Tid ensures
      && (t in Owing(Step(s, a), k) <==> t in StillOwed(s, a, k))
      && (t in Owing(Step(s, a), k) ==> Owing(Step(s, a), k)[t] == StillOwed(s, a, k)[t])
      && (HandsTo(s, a, k) == Some(t) ==> t !in Owing(s, k))
    {
      StepOwingAt(s, a, k, t);
    }
    assert Owing(Step(s, a), k) == StillOwed(s, a, k);
  }

  lemma StepOwingAt(s: State, a: Action, k: Key, t: Tid)
    requires Inv(s) && Enabled(s, a) && OnQueue(k)
    ensures var o, r := Owing(Step(s, a), k), StillOwed(s, a, k);
      (t in o <==> t in r) && (t in o ==> o[t] == r[t]) && (HandsTo(s, a, k) == Some(t) ==> t !in Owing(s, k))
  {
    hide Inv, Step, Enabled, HandsTo, Owing, Pending, Log;
    OwingAt(s, k, t);
    OwingAt(Step(s, a), k, t);
    StepPends(s, a, k, t);
    ReturnsPending(s, a, k);
    ReturnIsCurrent(s, a);
    HandsOrReturns(s, a, k);
    if HandsTo(s, a, k) == Some(t) {
      StepHands(s, a, k, t);
    } else if Pends(T(s, t), k) && !(a == AReturn && s.current == Some(t)) {
      StepTickets(s, a, k, t);
    }
  }

  lemma HandsOrReturns(s: State, a: Action, k: Key)
    ensures a == AReturn ==> HandsTo(s, a, k) == None && AtOnce(s, a, k) == None
    ensures AtOnce(s, a, k).Some? ==> HandsTo(s, a, k) == None
    ensures ReturnsTrue(s, a, k) ==> a == AReturn
  {
  }

  lemma StepBooked(s: State, a: Action, k: Key, rs: seq<Receipt>)
    requires Inv(s) && Enabled(s, a) && OnQueue(k) && Booked(Log(s, k), rs, Owing(s, k))
    ensures Booked(Log(Step(s, a), k), rs + Issued(s, a, k), Owing(Step(s, a), k))
  {
    hide Inv, Step, Enabled, HandsTo, Owing, Pending, Pends, Log, Booked, ReturnsTrue, AtOnce;
    var log, owed := Log(s, k), Owing(s, k);
    StepLog(s, a, k);
    StepOwing(s, a, k);
    HandsOrReturns(s, a, k);
    assert rs + [] == rs && log + [] == log && owed - {} == owed;
    if AtOnce(s, a, k).Some? {
      BookNow(log, rs, owed, AtOnce(s, a, k).value);
    } else if HandsTo(s, a, k).Some? {
      BookHand(log, rs, owed, Gift(s, a, k), HandsTo(s, a, k).value);
    } else if ReturnsTrue(s, a, k) {
      ReturnsItem(s, a, k);
      BookReturn(log, rs, owed, Cur(s), T(s, Cur(s)).item);
    }
  }

  /** A call that returns true finds its item at its place. */
  lemma ReturnsItem(s: State, a: Action, k: Key)
    requires Inv(s) && Enabled(s, a) && OnQueue(k) && ReturnsTrue(s, a, k)
    ensures Cur(s) in Owing(s, k) && Owing(s, k)[Cur(s)] == T(s, Cur(s)).ticket
    ensures At(Log(s, k), T(s, Cur(s)).ticket, T(s, Cur(s)).item)
  {
    hide Inv, Owing, Pending, At;
    ReturnsPending(s, a, k);
    OwingAt(s, k, Cur(s));
    HandedItem(s, Cur(s));
    RunsUnparked(s, a);
  }

  lemma RunsUnparked(s: State, a: Action)
    requires Inv(s) && Enabled(s, a) && a == AReturn
    ensures Cur(s) in s.tasks && T(s, Cur(s)).wait == None
  {
    hide Linked, Rest, Positive, Preemptive;
    assert TaskOk(s, Cur(s), s.tasks[Cur(s)]);
  }

  lemma {:induction false} RunBooked(s: State, acts: seq<Action>, k: Key, rs: seq<Receipt>)
    requires Inv(s) && Run(s, acts) && OnQueue(k) && Booked(Log(s, k), rs, Owing(s, k))
    ensures var s' := Exec(s, acts); Booked(Log(s', k), rs + Receipts(s, acts, k), Owing(s', k))
    decreases |acts|
  {
    hide Inv, Step, Enabled, Booked, Log, Owing, Issued;
    if acts == [] {
      assert rs + [] == rs;
    } else {
      var s1, i := Step(s, acts[0]), Issued(s, acts[0], k);
      StepInv(s, acts[0]);
      StepBooked(s, acts[0], k, rs);
      RunBooked(s1, acts[1..], k, rs + i);
      assert (rs + i) + Receipts(s1, acts[1..], k) == rs + Receipts(s, acts, k);
    }
  }

  lemma NothingBooked(s: State, k: Key)
    requires Init(s) && OnQueue(k)
    ensures Booked(Log(s, k), [], Owing(s, k))
  {
    assert Owing(s, k) == map[];
    assert Log(s, k) == [];
  }

  /** No loss and no duplicate, over every run. For the sends of a queue and for its receives
      alike: every call answered true has a place of its own in the log, with the item it
      passed or got; every entry of the log is the place of such a call or of exactly one
      whose handover has happened and that has not yet returned. So a call that was refused,
      timed out or was cancelled has left nothing, and there are as many entries as calls. */
  lemma ItemsAccounted(s: State, acts: seq<Action>, k: Key)
    requires Init(s) && Run(s, acts) && OnQueue(k)
    ensures var s' := Exec(s, acts); Booked(Log(s', k), Receipts(s, acts, k), Owing(s', k))
  {
    hide Inv, Run, Exec, Booked, Receipts, Owing, Log;
    InitInv(s);
    NothingBooked(s, k);
    RunBooked(s, acts, k, []);
    assert [] + Receipts(s, acts, k) == Receipts(s, acts, k);
  }
}
