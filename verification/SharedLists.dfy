/** Ready lists, wait lists and the delay list over the same control blocks, as the kernel has
    them: a task is in at most one ready or wait list, whose links it holds, and may be in the
    delay list besides. */
module SharedLists {
  import opened Lists
  import opened Model
  import opened Delays
  import opened TaskLists
  import opened ReadyManagers
  import opened DelayLists
  import opened Structure
  import opened Invariant
  import opened Scheduling
  import opened Fields

  class Heap {
    const ready: ReadyManager
    const waits: map<Key, TaskList>
    const sleepers: DelayList
    ghost const table: set<Task>

    ghost predicate Separate() {
      && ready.table == table
      && (forall k :: k in waits ==> !k.ReadyKey? && waits[k] !in ready.lists)
      && (forall k, j :: k in waits && j in waits && k != j ==> waits[k] != waits[j])
      && (forall x, y :: x in table && y in table && x != y ==> x.id != y.id)
    }

    ghost predicate WaitOk(k: Key)
      requires k in waits
      reads waits[k], waits[k].nodes`prev, waits[k].nodes`next, waits[k].nodes`waitList
    {
      (forall x :: x in waits[k].nodes ==> x in table && x.waitList == waits[k]) && waits[k].Valid()
    }

    /** A task knows the wait list it is in. */
    ghost predicate Known(x: Task)
      reads x`waitList, waits.Values
    {
      x.waitList != null ==> x.waitList in waits.Values && x in x.waitList.nodes
    }

    ghost predicate Waiting()
      reads waits.Values, table`prev, table`next, table`waitList
    {
      && (forall k, x :: k in waits && x in waits[k].nodes ==> x in table)
      && (forall k :: k in waits ==> WaitOk(k)) && (forall x :: x in table ==> Known(x))
    }

    ghost predicate Sleeping()
      reads sleepers, table`delayPrev, table`delayNext, table`delayTicks, table`inDelayList
    {
      (forall x :: x in sleepers.nodes ==> x in table) && sleepers.Linked()
      && (forall x :: x in table ==> (x.inDelayList <==> x in sleepers.nodes))
    }

    /** Who is ready neither waits nor sleeps. */
    ghost predicate Apart()
      reads ready.lists, table`waitList, table`inDelayList
    {
      forall p, x :: x in ready.Level(p) && x in table ==> x.waitList == null && !x.inDelayList
    }

    ghost predicate Valid()
      reads this, ready, ready.lists, waits.Values, sleepers
      reads table`prio, table`prev, table`next, table`waitList, table`delayPrev, table`delayNext, table`delayTicks, table`inDelayList
    {
      Separate() && ready.Valid() && Waiting() && Sleeping() && Apart()
    }

    /** Empty lists: the ready lists, one wait list for each name, and the delay list. */
    constructor (names: seq<Key>, ghost table: set<Task>)
      requires forall k :: k in names ==> !k.ReadyKey?
      requires forall x, y :: x in table && y in table && x != y ==> x.id != y.id
      requires forall x :: x in table ==> x.state == Suspended && x.waitList == null && !x.inDelayList
      ensures Settled() && this.table == table && (forall k :: k in waits <==> k in names)
      ensures forall s :: Init(s) ==> Shows(s)
    {
      var r := new ReadyManager(table);
      var d := new DelayList();
      var ws := NewLists(names, r.lists);
      ready, waits, sleepers, this.table := r, ws, d, table;
      new;
      NothingYet();
    }

    lemma NothingYet()
      requires Separate() && ready.Valid() && (forall p :: ready.Level(p) == []) && sleepers.Linked() && sleepers.nodes == []
      requires forall k :: k in waits ==> waits[k].Valid() && waits[k].nodes == []
      requires forall x :: x in table ==> x.state == Suspended && x.waitList == null && !x.inDelayList
      ensures Settled() && forall s :: Init(s) ==> Shows(s)
    {
      hide ReadyManager.Valid, ReadyManager.Level;
      forall k ensures Nodes(k) == [] {}
      assert Settled();
      forall s | Init(s) ensures Shows(s) { EmptyShows(s); }
    }

    lemma EmptyShows(s: State)
      requires Init(s) && (forall k :: Nodes(k) == []) && |sleepers.lefts| == |sleepers.nodes| && sleepers.nodes == []
      requires forall x :: x in table ==> x.state == Suspended && x.waitList == null
      ensures Shows(s)
    {
      hide Nodes;
      forall k ensures L(s, k) == Ids(Nodes(k)) {}
    }

    /** The members of the list `k`, front to back. */
    ghost function Nodes(k: Key): seq<Task>
      reads ready.lists, waits.Values
    {
      if k.ReadyKey? then ready.Level(k.level) else if k in waits then waits[k].nodes else []
    }

    /** Waiting tasks are in no ready list. */
    lemma WaitersApart(k: Key, x: Task)
      requires Separate() && Waiting() && Apart() && k in waits && x in waits[k].nodes
      ensures x in table && x.waitList == waits[k] && forall p :: x !in ready.Level(p)
    {
      assert WaitOk(k);
    }

    /** In no list, and not asleep. */
    ghost predicate Free(t: Task)
      reads ready.lists, t`waitList, t`inDelayList
    {
      t.waitList == null && !t.inDelayList && forall p :: t !in ready.Level(p)
    }

    lemma ReadyApart(p: int)
      requires Valid()
      ensures ready.Valid() && forall k :: k in waits ==> WaitOk(k) && waits[k] !in ready.lists
      ensures forall k, x :: k in waits && x in waits[k].nodes ==> x in table && x.waitList != null && x !in ready.Level(p)
    {
      hide Sleeping, Known, ReadyManager.Valid, ReadyManager.Level;
      forall k, x | k in waits && x in waits[k].nodes ensures x in table && x.waitList != null && x !in ready.Level(p) { WaitersApart(k, x); }
    }

    /** ready_mgr_.add() leaves the wait lists alone. */
    method AddKeepsWaits(t: Task)
      requires Valid() && t in table && t.prio < MAX_PRIORITIES && Free(t)
      modifies ready`mask, ready.lists, t`prev, t`next, ready.Level(t.prio)`next
      ensures ready.Valid() && forall k :: k in waits ==> WaitOk(k)
      ensures forall k :: k in waits ==> waits[k].nodes == old(waits[k].nodes)
      ensures ready.Level(t.prio) == old(ready.Level(t.prio)) + [t]
      ensures forall p :: p != t.prio ==> ready.Level(p) == old(ready.Level(p))
    {
      hide ReadyManager.Valid, ReadyManager.Level, NoDup, TaskLists.At;
      ReadyApart(t.prio);
      IsTable();
      hide Valid;
      ready.Add(t);
      forall k | k in waits ensures WaitOk(k) {
        assert old(WaitOk(k));
        var l := waits[k];
        assert l.nodes == old(l.nodes) && l.head == old(l.head) && l.tail == old(l.tail);
        forall x | x in l.nodes ensures x.prev == old(x.prev) && x.next == old(x.next) {}
        assert forall j :: 0 <= j < |l.nodes| ==> l.nodes[j] in l.nodes;
      }
    }

    lemma IsTable()
      requires Valid()
      ensures ready.table == table
    {
    }

    method AddReady(t: Task)
      requires Valid() && t in table && t.prio < MAX_PRIORITIES && Free(t)
      modifies ready`mask, ready.lists, t`prev, t`next, ready.Level(t.prio)`next
      ensures Valid()
      ensures forall k :: Nodes(k) == if k == ReadyKey(t.prio) then old(Nodes(k)) + [t] else old(Nodes(k))
    {
      hide Sleeping, WaitOk, Known, ReadyManager.Valid, ReadyManager.Level;
      AddKeepsWaits(t);
    }

    /** A task that is in no list becomes ready. */
    method MakeReady(t: Task)
      requires Valid() && t in table && t.prio < MAX_PRIORITIES && Free(t)
      modifies ready`mask, ready.lists, t`prev, t`next, ready.Level(t.prio)`next, t`state
      ensures Valid() && t.state == Ready && (old(Settled()) ==> Settled())
      ensures forall k :: Nodes(k) == if k == ReadyKey(t.prio) then old(Nodes(k)) + [t] else old(Nodes(k))
    {
      hide Separate, Waiting, Sleeping, Apart, Free, ReadyManager.Valid;
      AddReady(t);
      t.state := Ready;
    }

    /** The name of the wait list a waiting task is in. */
    lemma InItsList(t: Task)
      requires Waiting() && t in table && t.waitList != null
      ensures exists k :: k in waits && waits[k] == t.waitList
      ensures t in t.waitList.nodes && t.waitList.Valid()
      ensures forall x :: x in t.waitList.nodes ==> x in table && x.waitList == t.waitList
    {
      assert Known(t);
      var k :| k in waits && waits[k] == t.waitList;
      assert WaitOk(k);
    }

    /** Taking a task out of its wait list, from the front or wherever it stands, leaves the
        ready lists alone. */
    method RemoveKeepsReady(t: Task, first: bool)
      requires Valid() && t in table && t.waitList != null && (first ==> t.waitList.nodes != [] && t == t.waitList.nodes[0])
      modifies t.waitList, t.waitList.nodes`prev, t.waitList.nodes`next
      ensures ready.Valid() && t.waitList.Valid() && t.waitList.nodes == Without(old(t.waitList.nodes), t)
    {
      hide Sleeping, NoDup, TaskLists.At, Without, ReadyManager.MaskAgrees, Known, WaitOk;
      InItsList(t);
      var w := t.waitList;
      forall p, x | x in ready.Level(p) ensures x !in w.nodes { ready.InTable(p); }
      Unlink(w, t, first);
      forall p | 0 <= p < MAX_PRIORITIES ensures ready.ListOk(p) {
        assert old(ready.ListOk(p));
        var l := ready.lists[p].nodes;
        forall j | 0 <= j < |l| ensures l[j].prev == old(l[j].prev) && l[j].next == old(l[j].next) {
          assert l[j] in ready.Level(p);
        }
      }
    }

    /** And the other wait lists. */
    method RemoveKeepsWaits(t: Task, first: bool)
      requires Valid() && t in table && t.waitList != null && (first ==> t.waitList.nodes != [] && t == t.waitList.nodes[0])
      modifies t.waitList, t.waitList.nodes`prev, t.waitList.nodes`next
      ensures ready.Valid() && t.waitList.nodes == Without(old(t.waitList.nodes), t)
      ensures forall k :: k in waits ==> WaitOk(k)
      ensures t !in t.waitList.nodes && forall k :: k in waits && waits[k] != t.waitList ==> waits[k].nodes == old(waits[k].nodes)
    {
      hide Sleeping, Apart, Without, ReadyManager.Valid, Known;
      InItsList(t);
      var w := t.waitList;
      RemoveKeepsReady(t, first);
      forall k | k in waits ensures WaitOk(k) {
        assert old(WaitOk(k));
        var l := waits[k];
        if l != w {
          forall x | x in l.nodes ensures x.prev == old(x.prev) && x.next == old(x.next) {}
          assert forall j :: 0 <= j < |l.nodes| ==> l.nodes[j] in l.nodes;
        }
      }
    }

    /** Everything in order but that `t` still points to a wait list it is no longer in. */
    ghost predicate ValidBut(t: Task)
      reads this, ready, ready.lists, waits.Values, sleepers
      reads table`prio, table`prev, table`next, table`waitList, table`delayPrev, table`delayNext, table`delayTicks, table`inDelayList
    {
      && Separate() && ready.Valid() && Sleeping() && Apart() && t in table
      && (forall k, x :: k in waits && x in waits[k].nodes ==> x in table && x != t)
      && (forall k :: k in waits ==> WaitOk(k)) && (forall x :: x in table && x != t ==> Known(x))
    }

    method Forget(t: Task)
      requires ValidBut(t)
      modifies t`waitList
      ensures Valid() && t.waitList == null
      ensures forall k :: Nodes(k) == old(Nodes(k))
      ensures forall p :: ready.Level(p) == old(ready.Level(p))
    {
      hide Sleeping, ReadyManager.Valid, NoDup;
      t.waitList := null;
      forall k | k in waits ensures WaitOk(k) { assert old(WaitOk(k)); }
    }

    /** A waiting task is unlinked, its pointer to the list still in place. */
    method Unhook(t: Task, first: bool)
      requires Valid() && t in table && t.waitList != null && (first ==> t.waitList.nodes != [] && t == t.waitList.nodes[0])
      modifies t.waitList, t.waitList.nodes`prev, t.waitList.nodes`next
      ensures ValidBut(t) && (forall p :: t !in ready.Level(p)) && forall p :: ready.Level(p) == old(ready.Level(p))
      ensures forall k :: Nodes(k) == if k in waits && waits[k] == t.waitList then Without(old(Nodes(k)), t) else old(Nodes(k))
    {
      hide Sleeping, ReadyManager.Valid, NoDup, WaitOk, Without;
      InItsList(t);
      RemoveKeepsWaits(t, first);
      forall x | x in table && x != t ensures Known(x) { assert old(Known(x)); }
      forall k, x | k in waits && x in waits[k].nodes ensures x in table && x != t { WaitMembers(k, x); }
    }

    /** A waiting task leaves its wait list; nothing else moves. */
    method LeaveWait(t: Task, first: bool)
      requires Valid() && t in table && t.waitList != null && (first ==> t.waitList.nodes != [] && t == t.waitList.nodes[0])
      modifies t.waitList, t.waitList.nodes`prev, t.waitList.nodes`next, t`waitList
      ensures Valid() && t.waitList == null && forall p :: ready.Level(p) == old(ready.Level(p))
      ensures forall k :: Nodes(k) == if k in waits && waits[k] == old(t.waitList) then Without(old(Nodes(k)), t) else old(Nodes(k))
    {
      hide Valid, ValidBut, Without, ReadyManager.Level;
      Unhook(t, first);
      Forget(t);
    }

    lemma WaitMembers(k: Key, x: Task)
      requires k in waits && WaitOk(k) && x in waits[k].nodes
      ensures x in table && x.waitList == waits[k]
    {
    }

    /** What a sleeper that has left the delay list goes through: off its wait list with the
        flag raised, if it was waiting, and onto its ready list. */
    method Expire(t: Task)
      requires Valid() && t in table && t.prio < MAX_PRIORITIES && !t.inDelayList && forall p :: t !in ready.Level(p)
      modifies ready`mask, ready.lists, waits.Values, table`prev, table`next, t`waitList, t`expired, t`state
      ensures Valid() && t.state == Ready && t.waitList == null && t.expired == (old(t.expired) || old(t.waitList) != null)
      ensures forall k :: Nodes(k) == Shifted(old(Nodes(k)), t, k in waits && waits[k] == old(t.waitList), k == ReadyKey(t.prio))
    {
      hide Separate, Waiting, Sleeping, Apart, ReadyManager.Valid, ReadyManager.Level, Without, Valid;
      TableHolds(t);
      if t.waitList != null {
        LeaveWait(t, false);
        t.expired := true;
      }
      MakeReady(t);
    }

    /** All links belong to tasks of the table. */
    lemma TableHolds(t: Task)
      requires Valid() && t in table
      ensures t.waitList != null ==> t.waitList in waits.Values && forall x :: x in t.waitList.nodes ==> x in table
      ensures forall p, x :: x in ready.Level(p) ==> x in table
    {
      hide Sleeping;
      if t.waitList != null { InItsList(t); }
      forall p ensures forall x :: x in ready.Level(p) ==> x in table { ready.InTable(p); }
    }

    // -------------------------------------------------------------- against the state machine

    ghost predicate Like(x: Task, c: Tcb)
      reads x`state, x`prio, x`expired, x`waitList
    {
      c.state == x.state && LikeButState(x, c)
    }

    ghost predicate LikeButState(x: Task, c: Tcb)
      reads x`prio, x`expired, x`waitList
    {
      && c.prio == x.prio && c.expired == x.expired
      && match c.wait
         case None => x.waitList == null
         case Some(k) => k in waits && x.waitList == waits[k]
    }

    /** The heap holds what the state machine has: lists, remaining times, tasks. */
    ghost predicate Shows(s: State)
      reads this, ready.lists, waits.Values, sleepers, table`state, table`prio, table`expired, table`waitList
    {
      && ShowsTasks(s) && (forall k :: L(s, k) == Ids(Nodes(k)))
      && |sleepers.lefts| == |sleepers.nodes| && s.delay == sleepers.View()
    }

    ghost predicate ShowsTasks(s: State)
      reads table`state, table`prio, table`expired, table`waitList
    {
      forall x :: x in table ==> Agrees(x, s)
    }

    /** A control block that no task has been created in is blank. */
    ghost predicate Agrees(x: Task, s: State)
      reads x`state, x`prio, x`expired, x`waitList
    {
      if x.id in s.tasks then Like(x, s.tasks[x.id]) else x.state == Suspended && x.waitList == null
    }

    method TakeSleeper() returns (t: Task)
      requires Sleeping() && sleepers.nodes != [] && |sleepers.lefts| == |sleepers.nodes| && sleepers.lefts[0] == 0
      modifies sleepers, sleepers.nodes`delayPrev, sleepers.nodes`delayNext, sleepers.nodes`inDelayList
      ensures Sleeping() && t in table && !t.inDelayList && t == old(sleepers.nodes)[0]
      ensures forall x :: x in table && x != t ==> x.inDelayList == old(x.inDelayList)
      ensures |sleepers.lefts| == |sleepers.nodes| && |old(sleepers.lefts)| == |old(sleepers.nodes)|
      ensures old(sleepers.nodes) == [t] + sleepers.nodes && old(sleepers.View()) == [Entry(t.id, 0)] + sleepers.View()
    {
      hide OneEach, Ascending, Strung, NoDup;
      ghost var all := sleepers.nodes;
      sleepers.FrontIsLeft();
      t := sleepers.PopDue(all);
      FirstOnce(all, t, sleepers.nodes);
      forall x | x in table ensures x.inDelayList <==> x in sleepers.nodes {
        assert old(x.inDelayList) <==> x in all;
      }
    }

    /** The first sleeper has come due and leaves the delay list. */
    method TakeDue() returns (t: Task)
      requires Valid() && sleepers.nodes != [] && |sleepers.lefts| == |sleepers.nodes| && sleepers.lefts[0] == 0
      modifies sleepers, sleepers.nodes`delayPrev, sleepers.nodes`delayNext, sleepers.nodes`inDelayList
      ensures Valid() && t in table && !t.inDelayList && t == old(sleepers.nodes)[0] && forall p :: t !in ready.Level(p)
      ensures |sleepers.lefts| == |sleepers.nodes| && |old(sleepers.lefts)| == |old(sleepers.nodes)|
      ensures old(sleepers.nodes) == [t] + sleepers.nodes && old(sleepers.View()) == [Entry(t.id, 0)] + sleepers.View()
      ensures forall k :: Nodes(k) == old(Nodes(k))
    {
      hide Waiting, Sleeping, ReadyManager.Valid, ReadyManager.Level, DelayList.View;
      FirstSleeps();
      t := TakeSleeper();
    }

    lemma FirstSleeps()
      requires Valid() && sleepers.nodes != []
      ensures sleepers.nodes[0] in table && sleepers.nodes[0].inDelayList
    {
      hide Waiting, ReadyManager.Valid, Apart;
    }

    /** The members of a list have different ids. */
    lemma DistinctIds(k: Key)
      requires Valid()
      ensures OneEach(Nodes(k)) && forall x :: x in Nodes(k) ==> x in table
    {
      hide Sleeping, Known, Apart;
      if k.ReadyKey? {
        ready.InTable(k.level);
        ready.DistinctLevel(k.level);
      } else if k in waits {
        assert WaitOk(k);
      }
      assert NoDup(Nodes(k));
      forall i, j | 0 <= i < j < |Nodes(k)| ensures Nodes(k)[i].id != Nodes(k)[j].id {
        assert Nodes(k)[i] in table && Nodes(k)[j] in table;
      }
    }

    /** What the sleeper at the front is to the state machine. */
    lemma FrontTask(s: State)
      requires Valid() && Shows(s) && Releasing(s) && sleepers.nodes != []
      ensures var t := sleepers.nodes[0];
        && t in table && s.delay != [] && s.delay[0] == Entry(t.id, sleepers.lefts[0]) && t.id in s.tasks && Like(t, s.tasks[t.id])
        && t.prio < MAX_PRIORITIES
    {
      hide Sleeping, Waiting, ReadyManager.Valid, Apart, Linked, Own, Objects, ReasonIn, WaitOk;
      var t := sleepers.nodes[0];
      assert t in table by { AllHere(); }
      FrontDue(s.delay);
      assert TaskOk(s, t.id, s.tasks[t.id]);
    }

    /** Expire() on the heap is the move of the state machine, list by list. */
    method ExpireShows(t: Task, ghost s: State)
      requires Valid() && t in table && t.prio < MAX_PRIORITIES && !t.inDelayList && forall p :: t !in ready.Level(p)
      requires Releasing(s) && s.delay != [] && s.delay[0].task == t.id && t.id in s.tasks && Like(t, s.tasks[t.id])
      requires forall k :: L(s, k) == Ids(Nodes(k))
      modifies ready`mask, ready.lists, waits.Values, table`prev, table`next, t`waitList, t`expired, t`state
      ensures Valid() && t.state == Ready && t.waitList == null && t.expired == (old(t.expired) || old(t.waitList) != null)
      ensures forall k :: L(Wake(s, t.id, Timeout), k) == Ids(Nodes(k))
    {
      hide Valid, Releasing, Wake, Without, Nodes, ReadyManager.Level, Shifted, OneEach, L;
      ghost var was := t.waitList;
      ghost var c := s.tasks[t.id];
      forall k ensures OneEach(Nodes(k)) && (k in waits && waits[k] == was ==> t in Nodes(k)) { HereAndThere(k, t); }
      forall k ensures c.wait == Some(k) <==> k in waits && waits[k] == was { WaitName(k, t, c); }
      Expire(t);
      forall k ensures L(Wake(s, t.id, Timeout), k) == Ids(Nodes(k)) {
        ReleasedList(s, k);
        ShiftedIds(old(Nodes(k)), t, k in waits && waits[k] == was, k == ReadyKey(t.prio));
      }
    }

    lemma WaitName(k: Key, t: Task, c: Tcb)
      requires Valid() && Like(t, c)
      ensures c.wait == Some(k) <==> k in waits && waits[k] == t.waitList
    {
      hide Waiting, Sleeping, Apart, ReadyManager.Valid;
    }

    lemma HereAndThere(k: Key, t: Task)
      requires Valid() && t in table
      ensures OneEach(Nodes(k)) && (k in waits && waits[k] == t.waitList ==> t in Nodes(k))
    {
      hide Sleeping, ReadyManager.Valid, OneEach;
      DistinctIds(k);
      assert Known(t);
    }

    /** One round of the loop of tick() on the heap is one release of the state machine. */
    method ReleaseFirst(ghost s: State)
      requires Valid() && Shows(s) && Releasing(s) && sleepers.nodes != [] && sleepers.lefts[0] == 0
      modifies ready`mask, ready.lists, waits.Values, sleepers
      modifies table`prev, table`next, table`delayPrev, table`delayNext, table`inDelayList, table`waitList, table`expired, table`state
      ensures s.delay != [] && Valid() && Shows(Wake(s, s.delay[0].task, Timeout)) && |sleepers.nodes| < old(|sleepers.nodes|)
    {
      hide Valid, Releasing, Wake, Nodes, ReadyManager.Level, L, Like, ShowsTasks, Entries, DelayList.View;
      FrontTask(s);
      AllHere();
      Shorter(s.delay);
      var t := TakeDue();
      ExpireTask(t, s);
    }

    /** And task by task. */
    method ExpireTask(t: Task, ghost s: State)
      requires Valid() && t in table && t.prio < MAX_PRIORITIES && !t.inDelayList && forall p :: t !in ready.Level(p)
      requires Releasing(s) && s.delay != [] && s.delay[0].task == t.id && t.id in s.tasks && ShowsTasks(s)
      requires forall k :: L(s, k) == Ids(Nodes(k))
      modifies ready`mask, ready.lists, waits.Values, table`prev, table`next, t`waitList, t`expired, t`state
      ensures Valid() && ShowsTasks(Wake(s, t.id, Timeout)) && forall k :: L(Wake(s, t.id, Timeout), k) == Ids(Nodes(k))
    {
      hide Valid, Releasing, Wake, Nodes, ReadyManager.Level, L;
      ExpireShows(t, s);
      forall x | x in table && x != t ensures Agrees(x, s) { assert old(Agrees(x, s)); }
      ShowsChange(s, t, Wake(s, t.id, Timeout), Woken(s.tasks[t.id], Timeout));
    }

    lemma AllHere()
      requires Valid()
      ensures forall x :: x in sleepers.nodes ==> x in table
    {
    }

    lemma ShowsChange(s: State, t: Task, s1: State, c: Tcb)
      requires Valid() && t in table && forall x :: x in table && x != t ==> Agrees(x, s)
      requires s1.tasks == s.tasks[t.id := c] && Like(t, c)
      ensures ShowsTasks(s1)
    {
      hide Valid, Like;
      forall x | x in table ensures Agrees(x, s1) {
        OneId(x, t);
      }
    }

    lemma OneId(x: Task, y: Task)
      requires Valid() && x in table && y in table
      ensures x.id == y.id ==> x == y
    {
    }

    /** Between critical sections nobody is overdue. */
    ghost predicate Settled()
      reads this, ready, ready.lists, waits.Values, sleepers
      reads table`prio, table`prev, table`next, table`waitList, table`delayPrev, table`delayNext, table`delayTicks, table`inDelayList
    {
      Valid() && AllPositive(sleepers.lefts)
    }

    method CountDown()
      requires Settled()
      modifies sleepers, sleepers.nodes`delayTicks
      ensures Valid() && |sleepers.lefts| == |sleepers.nodes| && |old(sleepers.lefts)| == |old(sleepers.nodes)|
      ensures sleepers.View() == DelayDown(old(sleepers.View()))
      ensures forall k :: Nodes(k) == old(Nodes(k))
    {
      hide Waiting, Apart, ReadyManager.Valid, DelayDown, AllPositive, Sorted, Strung;
      FrontLeft();
      sleepers.Decrement();
      FrontLeft();
    }

    /** Only tasks, lists and delay matter. */
    lemma ShowsOther(s: State, s1: State)
      requires Shows(s) && s1.tasks == s.tasks && s1.lists == s.lists && s1.delay == s.delay
      ensures Shows(s1)
    {
      forall k ensures L(s1, k) == L(s, k) {}
    }

    method ReleaseNext(ghost s: State) returns (ghost s1: State)
      requires Valid() && Shows(s) && Releasing(s) && sleepers.head != null && sleepers.head.delayTicks == 0
      modifies ready`mask, ready.lists, waits.Values, sleepers
      modifies table`prev, table`next, table`delayPrev, table`delayNext, table`inDelayList, table`waitList, table`expired, table`state
      ensures Valid() && Shows(s1) && Releasing(s1) && ReleaseDue(s1) == ReleaseDue(s) && |sleepers.nodes| < old(|sleepers.nodes|)
    {
      hide Valid, Shows, Releasing, Wake;
      FrontLeft();
      FrontTask(s);
      ReleaseOne(s);
      ReleaseFirst(s);
      s1 := Wake(s, s.delay[0].task, Timeout);
    }

    /** DelayList::tick on the shared control blocks: the sleepers that come due leave the delay
        list, their wait list if they are in one, with the flag raised, and go to the back of
        their ready list. On all lists, times and tasks this is the tick of the state machine. */
    method Tick(ghost s: State)
      requires Settled() && Shows(s) && Inv(s) && s.started
      modifies ready`mask, ready.lists, waits.Values, sleepers, table
      ensures Settled() && Shows(Model.Tick(s))
    {
      hide Valid, Releasing, ReleaseDue, Wake, Nodes, L, Like, ShowsTasks, Entries, DelayList.View, DelayDown, Inv, AllPositive, NeedsPreemption;
      AllHere();
      DownReleasing(s);
      CountDown();
      ghost var s1 := s.(tick := (s.tick + 1) % TWO_32, delay := DelayDown(s.delay));
      ghost var start := s1;
      FrontLeft();
      DownShows(s, s1);
      while sleepers.head != null && sleepers.head.delayTicks == 0
        invariant Valid() && Shows(s1) && Releasing(s1) && ReleaseDue(s1) == ReleaseDue(start)
        decreases |sleepers.nodes|
      {
        s1 := ReleaseNext(s1);
      }
      FrontLeft();
      Ends(s1);
      ShowsOther(s1, Model.Tick(s));
    }

    lemma DownShows(s: State, s1: State)
      requires ShowsTasks(s) && (forall k :: L(s, k) == Ids(Nodes(k))) && s1.tasks == s.tasks && s1.lists == s.lists
      requires |sleepers.lefts| == |sleepers.nodes| && s1.delay == sleepers.View()
      ensures Shows(s1)
    {
      forall k ensures L(s1, k) == L(s, k) {}
    }

    /** With nobody due at the front the release is over. */
    lemma Ends(s1: State)
      requires Valid() && Shows(s1) && (sleepers.head == null || sleepers.head.delayTicks != 0)
      ensures ReleaseDue(s1) == s1 && AllPositive(sleepers.lefts)
    {
      hide Waiting, Apart, ReadyManager.Valid;
      FrontLeft();
      sleepers.FrontPositive();
    }

    lemma FrontLeft()
      requires Valid()
      ensures |sleepers.lefts| == |sleepers.nodes| && (sleepers.head == null <==> sleepers.nodes == [])
      ensures sleepers.nodes != [] ==> sleepers.head.delayTicks as int == sleepers.lefts[0]
    {
      hide Waiting, Apart, ReadyManager.Valid;
      sleepers.FrontIsLeft();
    }

    // -------------------------------------------------------------- handing over

    method RemoveSleeper(t: Task)
      requires Separate() && Sleeping() && AllPositive(sleepers.lefts) && t in table
      modifies sleepers, sleepers.nodes`delayPrev, sleepers.nodes`delayNext, sleepers.nodes`delayTicks, t`inDelayList
      ensures Sleeping() && AllPositive(sleepers.lefts) && !t.inDelayList
      ensures |sleepers.lefts| == |sleepers.nodes| && |old(sleepers.lefts)| == |old(sleepers.nodes)|
      ensures sleepers.View() == DelayWithout(old(sleepers.View()), t.id)
    {
      hide Sorted, Strung, AllPositive, DelayWithout, Without, NoDup;
      ghost var l := sleepers.nodes;
      sleepers.FrontIsLeft();
      WithoutOnce(l, t);
      sleepers.Remove(t);
      sleepers.FrontIsLeft();
      forall x | x in table ensures x.inDelayList <==> x in sleepers.nodes { assert old(x.inDelayList) <==> x in l; }
    }

    /** cancel_timeout(): the delay list only. */
    method Cancel(t: Task)
      requires Settled() && t in table
      modifies sleepers, sleepers.nodes`delayPrev, sleepers.nodes`delayNext, sleepers.nodes`delayTicks, t`inDelayList
      ensures Settled() && !t.inDelayList && |sleepers.lefts| == |sleepers.nodes| && |old(sleepers.lefts)| == |old(sleepers.nodes)|
      ensures sleepers.View() == DelayWithout(old(sleepers.View()), t.id)
      ensures forall k :: Nodes(k) == old(Nodes(k))
    {
      hide Waiting, Sleeping, ReadyManager.Valid, ReadyManager.Level, AllPositive, DelayWithout;
      RemoveSleeper(t);
    }

    lemma FirstWaiter(k: Key)
      requires Valid() && k in waits
      ensures (waits[k].nodes == [] <==> waits[k].head == null) && !k.ReadyKey?
      ensures waits[k].nodes != [] ==>
        var t := waits[k].nodes[0];
        waits[k].head == t && t in table && t.waitList == waits[k] && forall p :: t !in ready.Level(p)
      ensures forall x :: x in waits[k].nodes ==> x in table
    {
      hide Sleeping, ReadyManager.Valid;
      assert WaitOk(k);
      if waits[k].nodes != [] { WaitersApart(k, waits[k].nodes[0]); }
    }

    /** WaitQueue::wake_highest: the first waiter leaves its wait list and the delay list. */
    method WakeHighest(k: Key) returns (t: Task?)
      requires Settled() && k in waits
      modifies waits[k], waits[k].nodes`prev, waits[k].nodes`next, waits[k].nodes`waitList
      modifies sleepers, sleepers.nodes`delayPrev, sleepers.nodes`delayNext, sleepers.nodes`delayTicks, waits[k].nodes`inDelayList
      ensures Settled() && |sleepers.lefts| == |sleepers.nodes| && |old(sleepers.lefts)| == |old(sleepers.nodes)|
      ensures if old(waits[k].nodes) == [] then t == null && sleepers.View() == old(sleepers.View()) && forall j :: Nodes(j) == old(Nodes(j))
              else t == old(waits[k].nodes)[0] && t in table && Free(t) && sleepers.View() == DelayWithout(old(sleepers.View()), t.id)
                   && forall j :: Nodes(j) == Shifted(old(Nodes(j)), t, j == k, false)
      ensures forall x :: x in table && x != t ==> x.waitList == old(x.waitList)
    {
      hide Valid, AllPositive, DelayWithout, Without, ReadyManager.Level;
      FrontLeft();
      FirstWaiter(k);
      t := waits[k].head;
      if t == null { return; }
      SameName(k);
      LeaveWait(t, true);
      Cancel(t);
    }

    lemma SameName(k: Key)
      requires Valid() && k in waits
      ensures forall j :: j in waits && waits[j] == waits[k] ==> j == k
      ensures waits[k] in waits.Values
    {
      hide Sleeping, Waiting, Apart, ReadyManager.Valid;
    }

    lemma FirstLike(s: State, k: Key)
      requires Valid() && Shows(s) && Inv(s) && k in waits && waits[k].nodes != []
      ensures var t := waits[k].nodes[0];
        && t in table && L(s, k) != [] && L(s, k)[0] == t.id && t.id in s.tasks && Waits(s.tasks[t.id], k)
        && s.tasks[t.id].prio == t.prio < MAX_PRIORITIES && s.tasks[t.id].expired == t.expired
    {
      hide Valid, Rest, Positive, Preemptive, Linked, ReasonIn, Sited;
      FirstWaiter(k);
      var t := waits[k].nodes[0];
      assert L(s, k) == Ids(Nodes(k)) && Nodes(k) == waits[k].nodes;
      Head(s, k);
      assert TaskOk(s, t.id, s.tasks[t.id]);
    }

    method MoveFirst(k: Key) returns (t: Task)
      requires Settled() && k in waits && waits[k].nodes != [] && waits[k].nodes[0].prio < MAX_PRIORITIES
      modifies ready`mask, ready.lists, waits[k], sleepers
      modifies table`prev, table`next, table`delayPrev, table`delayNext, table`delayTicks
      modifies waits[k].nodes`waitList, waits[k].nodes`inDelayList, waits[k].nodes`state
      ensures Settled() && t == old(waits[k].nodes)[0] && t in table && t.state == Ready && t.waitList == null
      ensures forall x :: x in table && x != t ==> x.waitList == old(x.waitList) && x.state == old(x.state)
      ensures forall j :: Nodes(j) == Shifted(old(Nodes(j)), t, j == k, j == ReadyKey(t.prio))
      ensures |sleepers.lefts| == |sleepers.nodes| && |old(sleepers.lefts)| == |old(sleepers.nodes)|
      ensures sleepers.View() == DelayWithout(old(sleepers.View()), t.id)
    {
      hide Valid, Nodes, AllPositive, DelayWithout, ReadyManager.Level;
      AllHere();
      FirstWaiter(k);
      var first := WakeHighest(k);
      t := first;
      TableHolds(t);
      MakeReady(t);
    }

    /** A handoff: the first waiter leaves the wait list and the delay list and goes to the back
        of its ready list. On all lists, times and tasks this is the move of the state machine. */
    method HandOver(k: Key, ghost s: State) returns (t: Task)
      requires Settled() && Shows(s) && Inv(s) && k in waits && waits[k].nodes != []
      modifies ready`mask, ready.lists, waits[k], sleepers, table
      ensures Settled() && t == old(waits[k].nodes)[0] && L(s, k) != [] && Shows(Wake(s, L(s, k)[0], Handoff))
    {
      hide Valid, Inv, Nodes, L, Like, Shifted, OneEach, Wake, AllPositive, DelayWithout, ReadyManager.Level;
      FirstLike(s, k);
      ghost var x := waits[k].nodes[0];
      FirstWaiter(k);
      AllHere();
      forall j ensures OneEach(Nodes(j)) && (j == k ==> x in Nodes(j)) { HereAndThere(j, x); }
      t := MoveFirst(k);
      forall y | y in table && y != t ensures Agrees(y, s) { assert old(Agrees(y, s)); }
      LikeWoken(t, s.tasks[t.id]);
      ShowsChange(s, t, Wake(s, t.id, Handoff), Woken(s.tasks[t.id], Handoff));
      forall j ensures L(Wake(s, t.id, Handoff), j) == Ids(Nodes(j)) {
        HandedList(s, k, t.id, j);
        ShiftedIds(old(Nodes(j)), t, j == k, j == ReadyKey(t.prio));
      }
    }

    lemma LikeWoken(t: Task, c: Tcb)
      requires t.state == Ready && t.waitList == null && c.prio == t.prio && c.expired == t.expired
      ensures Like(t, Woken(c, Handoff))
    {
    }

    // -------------------------------------------------------------- parking

    lemma ApartFrom(t: Task, k: Key)
      requires ValidBut(t) && k in waits
      ensures ready.Valid() && waits[k].Valid() && waits[k] !in ready.lists && t !in waits[k].nodes
      ensures forall p, x :: x in ready.Level(p) ==> x !in waits[k].nodes
      ensures forall j :: j in waits && j != k ==> waits[j] != waits[k] && forall x :: x in waits[j].nodes ==> x !in waits[k].nodes && x != t
    {
      hide Sleeping, ReadyManager.Valid;
      assert WaitOk(k);
      forall p, x | x in ready.Level(p) ensures x !in waits[k].nodes { ready.InTable(p); }
      forall j, x | j in waits && j != k && x in waits[j].nodes ensures x !in waits[k].nodes { assert WaitOk(j); }
    }

    method InsertKeepsReady(t: Task, ghost k: Key)
      requires ValidBut(t) && k in waits && t.waitList == waits[k] && forall p :: t !in ready.Level(p)
      modifies waits[k], t`prev, t`next, waits[k].nodes`prev, waits[k].nodes`next
      ensures ready.Valid() && waits[k].Valid()
      ensures waits[k].nodes == Splice(old(waits[k].nodes), InsertPos(Levels(old(waits[k].nodes)), t.prio), t)
    {
      hide ValidBut, NoDup, TaskLists.At, Splice, InsertPos, ReadyManager.MaskAgrees, Levels;
      ApartFrom(t, k);
      t.waitList.InsertByPriority(t);
      forall p | 0 <= p < MAX_PRIORITIES ensures ready.ListOk(p) {
        assert old(ready.ListOk(p));
        var l := ready.lists[p].nodes;
        assert ready.lists[p] in ready.lists;
        assert l == old(ready.Level(p));
        forall j | 0 <= j < |l| ensures l[j].prev == old(l[j].prev) && l[j].next == old(l[j].next) {
          var x := l[j];
          assert x in old(ready.Level(p));
          assert x != t;
          assert x !in old(waits[k].nodes);
        }
      }
    }

    /** insert_by_priority() of a task that already points to the wait list: everybody else stays linked. */
    method InsertKeepsWaits(t: Task, ghost k: Key)
      requires ValidBut(t) && k in waits && t.waitList == waits[k] && forall p :: t !in ready.Level(p)
      modifies waits[k], t`prev, t`next, waits[k].nodes`prev, waits[k].nodes`next
      ensures ready.Valid() && forall j :: j in waits ==> WaitOk(j)
      ensures waits[k].nodes == Splice(old(waits[k].nodes), InsertPos(Levels(old(waits[k].nodes)), t.prio), t)
      ensures forall j :: j in waits && j != k ==> waits[j].nodes == old(waits[j].nodes)
    {
      hide ValidBut, NoDup, TaskLists.At, Splice, InsertPos, ReadyManager.Valid, Levels;
      ApartFrom(t, k);
      WaitsOf(t);
      InsertKeepsReady(t, k);
      forall j | j in waits ensures WaitOk(j) {
        assert old(WaitOk(j));
        var l := waits[j];
        if j != k {
          forall x | x in l.nodes ensures x.prev == old(x.prev) && x.next == old(x.next) {}
          assert forall i :: 0 <= i < |l.nodes| ==> l.nodes[i] in l.nodes;
        } else {
          SpliceHas(old(l.nodes), InsertPos(Levels(old(l.nodes)), t.prio), t);
        }
      }
    }

    lemma WaitsOf(t: Task)
      requires ValidBut(t)
      ensures t in table && forall j :: j in waits ==> WaitOk(j)
    {
    }

    /** WaitQueue::park, for a task that is in no list. */
    method ParkOn(t: Task, k: Key)
      requires Settled() && t in table && k in waits && Free(t)
      modifies waits[k], t`prev, t`next, t`state, t`waitList, t`expired, waits[k].nodes`prev, waits[k].nodes`next
      ensures Settled() && t.state == Blocked && t.waitList == waits[k] && !t.expired
      ensures waits[k].nodes == Splice(old(waits[k].nodes), InsertPos(Levels(old(waits[k].nodes)), t.prio), t)
      ensures forall j :: Nodes(j) == if j == k then waits[k].nodes else old(Nodes(j))
    {
      hide Waiting, Splice, InsertPos, ReadyManager.Valid, ReadyManager.Level, Levels, Sleeping, AllPositive, ValidBut;
      SetWait(t, k);
      JoinWait(t, k);
      t.state, t.expired := Blocked, false;
    }

    method JoinWait(t: Task, ghost k: Key)
      requires ValidBut(t) && k in waits && t.waitList == waits[k] && forall p :: t !in ready.Level(p)
      modifies waits[k], t`prev, t`next, waits[k].nodes`prev, waits[k].nodes`next
      ensures Valid()
      ensures waits[k].nodes == Splice(old(waits[k].nodes), InsertPos(Levels(old(waits[k].nodes)), t.prio), t)
      ensures forall j :: Nodes(j) == if j == k then waits[k].nodes else old(Nodes(j))
    {
      hide Splice, InsertPos, ReadyManager.Valid, Levels, Sleeping, WaitOk;
      InsertKeepsWaits(t, k);
      SpliceHas(old(waits[k].nodes), InsertPos(Levels(old(waits[k].nodes)), t.prio), t);
      forall x | x in table ensures Known(x) { assert x != t ==> old(Known(x)); }
      forall j, x | j in waits && x in waits[j].nodes ensures x in table { WaitMembers(j, x); }
    }

    method SetWait(t: Task, k: Key)
      requires Valid() && t in table && k in waits && Free(t)
      modifies t`waitList
      ensures ValidBut(t) && t.waitList == waits[k]
    {
      hide NoDup, ReadyManager.Valid, Sleeping;
      forall j, x | j in waits && x in waits[j].nodes ensures x in table && x != t { assert WaitOk(j); }
      t.waitList := waits[k];
      forall j | j in waits ensures WaitOk(j) { assert old(WaitOk(j)); }
    }

    /** start_timeout_for_current_task(): the delay list only. */
    method Arm(t: Task, n: Ticks)
      requires Settled() && t in table && !t.inDelayList && n > 0 && forall p :: t !in ready.Level(p)
      modifies sleepers, t`delayPrev, t`delayNext, t`delayTicks, t`inDelayList
      modifies sleepers.nodes`delayPrev, sleepers.nodes`delayNext, sleepers.nodes`delayTicks
      ensures Settled() && |sleepers.lefts| == |sleepers.nodes| && |old(sleepers.lefts)| == |old(sleepers.nodes)|
      ensures sleepers.View() == DelayInsert(old(sleepers.View()), t.id, n as nat)
      ensures forall j :: Nodes(j) == old(Nodes(j))
    {
      hide Waiting, Sleeping, ReadyManager.Valid, ReadyManager.Level, AllPositive, DelayInsert;
      AddSleeper(t, n);
    }

    method AddSleeper(t: Task, n: Ticks)
      requires Separate() && Sleeping() && AllPositive(sleepers.lefts) && t in table && !t.inDelayList && n > 0
      modifies sleepers, t`delayPrev, t`delayNext, t`delayTicks, t`inDelayList
      modifies sleepers.nodes`delayPrev, sleepers.nodes`delayNext, sleepers.nodes`delayTicks
      ensures Sleeping() && AllPositive(sleepers.lefts)
      ensures |sleepers.lefts| == |sleepers.nodes| && |old(sleepers.lefts)| == |old(sleepers.nodes)|
      ensures sleepers.View() == DelayInsert(old(sleepers.View()), t.id, n as nat)
    {
      hide Sorted, Strung, AllPositive, DelayInsert, NoDup, Splice, Later;
      ghost var l, i := sleepers.nodes, Later(sleepers.lefts, n as nat);
      sleepers.FrontIsLeft();
      sleepers.Insert(t, n);
      sleepers.FrontIsLeft();
      SpliceHas(l, i, t);
      forall x | x in table ensures x.inDelayList <==> x in sleepers.nodes { assert old(x.inDelayList) <==> x in l; }
    }

    /** A task that runs or is suspended is in no list. */
    lemma Unattached(s: State, t: Task)
      requires Valid() && Shows(s) && Inv(s) && t in table && t.id in s.tasks && (t.state == Running || t.state == Suspended)
      ensures Free(t) && s.tasks[t.id].state == t.state && s.tasks[t.id].prio == t.prio < MAX_PRIORITIES
    {
      hide Valid, Rest, Positive, Preemptive, ReasonIn, Linked;
      var c := s.tasks[t.id];
      assert TaskOk(s, t.id, c) && Like(t, c);
      Standing(s, t);
      AwakeNotListed(s, t);
    }

    lemma CallerRuns(s: State, t: Task)
      requires Shows(s) && TaskCalls(s) && t in table && t.id == Cur(s)
      ensures t.state == Running
    {
      assert Like(t, s.tasks[t.id]);
    }

    lemma AwakeNotListed(s: State, t: Task)
      requires Valid() && Shows(s) && t in table && t.id !in Due(s.delay)
      ensures !t.inDelayList
    {
      hide Waiting, ReadyManager.Valid, Apart;
      if t in sleepers.nodes {
        var i :| 0 <= i < |sleepers.nodes| && sleepers.nodes[i] == t;
        assert s.delay[i].task == t.id;
        InDue(s.delay, i);
      }
    }

    method ParkTimed(t: Task, k: Key, ms: nat)
      requires Settled() && t in table && k in waits && Free(t) && 0 < ms <= UINT32_MAX
      modifies waits[k], sleepers, t`prev, t`next, t`state, t`waitList, t`expired, waits[k].nodes`prev, waits[k].nodes`next
      modifies t`delayPrev, t`delayNext, t`delayTicks, t`inDelayList
      modifies sleepers.nodes`delayPrev, sleepers.nodes`delayNext, sleepers.nodes`delayTicks
      ensures Settled() && t.state == Blocked && t.waitList == waits[k] && !t.expired
      ensures |sleepers.lefts| == |sleepers.nodes| && |old(sleepers.lefts)| == |old(sleepers.nodes)|
      ensures sleepers.View() == if ms == WAIT_FOREVER then old(sleepers.View()) else DelayInsert(old(sleepers.View()), t.id, MsToTicks(ms))
      ensures forall j :: Nodes(j) == if j == k then Splice(old(Nodes(k)), InsertPos(Levels(old(Nodes(k))), t.prio), t) else old(Nodes(j))
    {
      hide Valid, AllPositive, DelayInsert, Splice, InsertPos, Levels;
      FrontLeft();
      FirstWaiter(k);
      ParkOn(t, k);
      forall p: nat ensures ready.Level(p) == old(ready.Level(p)) { assert Nodes(ReadyKey(p)) == old(Nodes(ReadyKey(p))); }
      if ms != WAIT_FOREVER { Arm(t, MsToTicks(ms) as Ticks); }
    }

    /** Blocking on `k` with a timeout, or for ever: the running task joins the wait list behind
        its equals and, with a timeout, the delay list too. On all lists, times and tasks this
        is the move of the state machine. */
    method Park(t: Task, k: Key, ms: nat, ghost s: State)
      requires Settled() && Shows(s) && Inv(s) && TaskCalls(s) && t in table && t.id == Cur(s) && k in waits && 0 < ms <= UINT32_MAX
      modifies waits[k], sleepers, table
      ensures Settled() && Shows(Model.Park(s, s.tasks[t.id], k, ms))
    {
      hide Valid, Inv, L, Like, AllPositive, DelayInsert, ReadyManager.Level, Model.Park, Free, Splice, InsertPos, InsertByPriority, Levels;
      CallerRuns(s, t);
      Unattached(s, t);
      AllHere();
      FirstWaiter(k);
      ParkedLists(s, t, k, ms);
      ParkTimed(t, k, ms);
      forall x | x in table && x != t ensures Agrees(x, s) { assert old(Agrees(x, s)); }
      LikeParked(t, k, s.tasks[t.id]);
      ShowsChange(s, t, Model.Park(s, s.tasks[t.id], k, ms), Parked(s.tasks[t.id], k));
    }

    lemma LikeParked(t: Task, k: Key, c: Tcb)
      requires t.state == Blocked && k in waits && t.waitList == waits[k] && c.prio == t.prio && !t.expired
      ensures Like(t, Parked(c, k))
    {
    }

    /** Who is in a wait list has been created. */
    lemma WaitersKnown(s: State, k: Key)
      requires Valid() && Shows(s) && k in waits
      ensures Nodes(k) == waits[k].nodes && forall x :: x in waits[k].nodes ==> x in table && x.id in s.tasks && Like(x, s.tasks[x.id])
    {
      hide Sleeping, Apart, ReadyManager.Valid;
      forall x | x in waits[k].nodes ensures x in table && x.id in s.tasks && Like(x, s.tasks[x.id]) {
        assert WaitOk(k);
        assert Agrees(x, s);
      }
    }

    /** What parking does to the lists of the state machine. */
    lemma ParkedLists(s: State, t: Task, k: Key, ms: nat)
      requires Valid() && Shows(s) && Inv(s) && TaskCalls(s) && t in table && t.id == Cur(s) && k in waits && 0 < ms <= UINT32_MAX
      ensures var s1 := Model.Park(s, s.tasks[t.id], k, ms);
        && L(s1, k) == Ids(Splice(waits[k].nodes, InsertPos(Levels(waits[k].nodes), t.prio), t))
        && (forall j :: j != k ==> L(s1, j) == L(s, j))
        && s1.delay == (if ms == WAIT_FOREVER then s.delay else DelayInsert(s.delay, t.id, MsToTicks(ms)))
    {
      hide Valid, Inv, Linked, InsertByPriority, DelayInsert, Splice, InsertPos, Levels, Model.Park;
      LinksOf(s);
      FirstWaiter(k);
      ParkFields(s, s.tasks[t.id], k, ms);
      var tasks' := s.tasks[t.id := Parked(s.tasks[t.id], k)];
      assert L(s, k) == Ids(Nodes(k)) && Nodes(k) == waits[k].nodes;
      WaitersKnown(s, k);
      InsertIds(waits[k].nodes, t, tasks');
    }

    // -------------------------------------------------------------- leaving the ready lists

    /** ready_mgr_.remove() leaves the wait lists alone. */
    method RemoveReady(t: Task)
      requires Valid() && t in ready.Level(t.prio)
      modifies ready`mask, ready.lists, ready.Level(t.prio)`prev, ready.Level(t.prio)`next
      ensures ready.Valid() && forall k :: k in waits ==> WaitOk(k)
      ensures forall k :: k in waits ==> waits[k].nodes == old(waits[k].nodes)
      ensures ready.Level(t.prio) == Without(old(ready.Level(t.prio)), t) && (forall p :: t !in ready.Level(p)) && t in table
      ensures forall p :: p != t.prio ==> ready.Level(p) == old(ready.Level(p))
    {
      hide ReadyManager.Valid, ReadyManager.Level, NoDup, TaskLists.At, Without;
      ReadyApart(t.prio);
      IsTable();
      hide Valid;
      ready.ApartLevels(t.prio, t);
      ready.DistinctLevel(t.prio);
      ready.Remove(t);
      forall k | k in waits ensures WaitOk(k) {
        assert old(WaitOk(k));
        var l := waits[k];
        assert l.nodes == old(l.nodes) && l.head == old(l.head) && l.tail == old(l.tail);
        forall x | x in l.nodes ensures x.prev == old(x.prev) && x.next == old(x.next) {}
        assert forall j :: 0 <= j < |l.nodes| ==> l.nodes[j] in l.nodes;
      }
    }

    method LeaveReady(t: Task)
      requires Valid() && t in ready.Level(t.prio)
      modifies ready`mask, ready.lists, ready.Level(t.prio)`prev, ready.Level(t.prio)`next
      ensures Valid() && (forall p :: t !in ready.Level(p)) && t in table && t.waitList == null && !t.inDelayList
      ensures forall k :: Nodes(k) == if k == ReadyKey(t.prio) then Without(old(Nodes(k)), t) else old(Nodes(k))
    {
      hide Sleeping, WaitOk, Known, ReadyManager.Valid, ReadyManager.Level, Without;
      RemoveReady(t);
    }

    /** ready_mgr_.get_highest_priority_task() leaves the wait lists alone. */
    method PopReady() returns (t: Task?)
      requires Valid()
      modifies ready`mask, ready.lists, table`prev, table`next
      ensures ready.Valid() && forall k :: k in waits ==> WaitOk(k)
      ensures t == null <==> forall p :: old(ready.Level(p)) == []
      ensures t != null ==> var top := t.prio;
        && old(ready.Level(top)) == [t] + ready.Level(top) && (forall q :: q > top ==> old(ready.Level(q)) == [])
      ensures forall p :: t == null || p != t.prio ==> ready.Level(p) == old(ready.Level(p))
    {
      hide Sleeping, Known, ReadyManager.Valid, ReadyManager.Level, NoDup, TaskLists.At;
      forall k, x | k in waits && x in waits[k].nodes ensures forall p :: x !in ready.Level(p) { WaitersApart(k, x); }
      t := ready.GetHighestPriorityTask();
      forall k | k in waits ensures WaitOk(k) {
        assert old(WaitOk(k));
        var l := waits[k];
        assert l.nodes == old(l.nodes) && l.head == old(l.head) && l.tail == old(l.tail);
        forall x | x in l.nodes ensures x.prev == old(x.prev) && x.next == old(x.next) {}
        assert forall j :: 0 <= j < |l.nodes| ==> l.nodes[j] in l.nodes;
      }
    }

    method TakeReady() returns (t: Task?)
      requires Settled()
      modifies ready`mask, ready.lists, table`prev, table`next
      ensures Settled() && (t == null <==> forall p :: old(ready.Level(p)) == [])
      ensures t != null ==> t in table && t.prio < MAX_PRIORITIES && forall q :: q > t.prio ==> old(ready.Level(q)) == []
      ensures forall k :: if t != null && k == ReadyKey(t.prio) then old(Nodes(k)) == [t] + Nodes(k) else Nodes(k) == old(Nodes(k))
    {
      hide Sleeping, WaitOk, Known, ReadyManager.Valid, ReadyManager.Level, AllPositive;
      forall p ensures forall x :: x in ready.Level(p) ==> x.prio == p < MAX_PRIORITIES && x in table { LevelPrio(p); }
      t := PopReady();
    }

    /** The oldest task of the highest level leaves its list and runs. */
    method Dispatch() returns (t: Task?)
      requires Settled()
      modifies ready`mask, ready.lists, table`prev, table`next, table`state
      ensures Settled() && (t == null <==> forall p :: old(ready.Level(p)) == [])
      ensures t != null ==> t in table && t.state == Running && t.prio < MAX_PRIORITIES && forall q :: q > t.prio ==> old(ready.Level(q)) == []
      ensures forall x :: x in table && x != t ==> x.state == old(x.state)
      ensures forall k :: if t != null && k == ReadyKey(t.prio) then old(Nodes(k)) == [t] + Nodes(k) else Nodes(k) == old(Nodes(k))
    {
      hide Settled, ReadyManager.Level;
      t := TakeReady();
      if t != null { t.state := Running; }
    }

    lemma LevelPrio(p: int)
      requires Valid()
      ensures forall x :: x in ready.Level(p) ==> x.prio == p < MAX_PRIORITIES && x in table
    {
      forall x | x in ready.Level(p) ensures x.prio == p && x in table { ready.ApartLevels(p, x); }
    }

    // -------------------------------------------------------------- the switch

    /** The outgoing task goes to the back of its ready list if it is still running. */
    method PutBack(t: Task, ghost s: State)
      requires Settled() && Shows(s) && Inv(s) && t in table && s.current == Some(t.id) && t.id in s.tasks
      modifies ready`mask, ready.lists, table`prev, table`next, t`state
      ensures Settled() && Shows(Vacate(s))
    {
      hide Settled, Valid, Inv, L, Like, ReadyManager.Level, Vacate, Entries, Nodes, Ids, DelayList.View;
      ValidNow();
      StateOf(s, t);
      VacateLists(s);
      if t.state != Running { return; }
      Unattached(s, t);
      TableHolds(t);
      MakeReady(t);
      ValidNow();
      forall x | x in table && x != t ensures Agrees(x, s) { assert old(Agrees(x, s)); }
      forall k ensures L(Vacate(s), k) == Ids(Nodes(k)) { IdsAppend(old(Nodes(k)), t); }
      LikeReady(t, s.tasks[t.id]);
      ShowsChange(s, t, Vacate(s), s.tasks[t.id].(state := Ready));
    }

    lemma StateOf(s: State, t: Task)
      requires Shows(s) && t in table && t.id in s.tasks
      ensures s.tasks[t.id].state == t.state && s.tasks[t.id].prio == t.prio
      ensures t.waitList == null <==> s.tasks[t.id].wait == None
      ensures s.tasks[t.id].expired == t.expired
    {
      assert Like(t, s.tasks[t.id]);
    }

    lemma LikeReady(t: Task, c: Tcb)
      requires t.state == Ready && t.waitList == null && c.wait == None && c.prio == t.prio && c.expired == t.expired
      ensures Like(t, c.(state := Ready))
    {
    }

    /** schedule_next_task() on the shared control blocks is the switch of the state machine. */
    method Switch(cur: Task?, ghost s: State) returns (next: Task?)
      requires Settled() && Shows(s) && Inv(s) && s.started
      requires if cur == null then s.current == None else cur in table && s.current == Some(cur.id)
      modifies ready`mask, ready.lists, table`prev, table`next, table`state
      ensures Settled() && next != null && next in table
      ensures Shows(Model.Switch(s)) && Model.Switch(s).current == Some(next.id)
    {
      hide Valid, Inv, L, Shows, AllPositive, ReadyManager.Level, Vacate, Entries, DelayList.View, Model.Switch, TopReady, Put;
      SwitchFacts(s);
      if cur != null { PutBack(cur, s); } else { VacateLists(s); }
      next := RunNext(Vacate(s));
      SwitchIs(s);
      ShowsOther(Put(Vacate(s), next.id, Vacate(s).tasks[next.id].(state := Running)), Model.Switch(s));
    }

    method RunNext(ghost s: State) returns (next: Task?)
      requires Settled() && Shows(s) && CanDispatch(s)
      modifies ready`mask, ready.lists, table`prev, table`next, table`state
      ensures Settled() && next != null && next in table && next.id in s.tasks
      ensures Shows(Put(s, next.id, s.tasks[next.id].(state := Running)))
      ensures var top := TopReady(s, MAX_PRIORITIES); L(s, ReadyKey(top.value))[0] == next.id
    {
      hide Settled, Valid, L, ReadyManager.Level, Entries, DelayList.View, Put, CanDispatch, Ids;
      SomeReady(s);
      next := Dispatch();
      ValidNow();
      ghost var p := next.prio;
      forall x | x in table && x != next ensures Agrees(x, s) { assert old(Agrees(x, s)); }
      forall q: nat | q > p ensures L(s, ReadyKey(q)) == [] { assert old(Nodes(ReadyKey(q))) == old(ready.Level(q)); }
      IdsCons(next, Nodes(ReadyKey(p)));
      DispatchLists(s, p, next.id);
      forall k ensures L(Put(s, next.id, s.tasks[next.id].(state := Running)), k) == Ids(Nodes(k)) {}
      assert old(Agrees(next, s)) && LikeButState(next, s.tasks[next.id]);
      ShowsChange(s, next, Put(s, next.id, s.tasks[next.id].(state := Running)), s.tasks[next.id].(state := Running));
    }

    /** What can be dispatched is in a ready list. */
    lemma SomeReady(s: State)
      requires Shows(s) && CanDispatch(s)
      ensures exists p :: ready.Level(p) != []
    {
      var p := TopReady(s, MAX_PRIORITIES).value;
      assert L(s, ReadyKey(p)) == Ids(Nodes(ReadyKey(p)));
      assert ready.Level(p) != [];
    }

    // -------------------------------------------------------------- suspend and delete

    /** A task leaves whatever ready or wait list it is in; a wait that is cut short raises the flag. */
    method LeaveList(t: Task)
      requires Settled() && t in table && (t.state == Ready ==> t in ready.Level(t.prio))
      requires t.state != Ready ==> forall p :: t !in ready.Level(p)
      modifies ready`mask, ready.lists, waits.Values, table`prev, table`next, t`waitList, t`expired
      ensures Settled() && t.waitList == null && (forall p :: t !in ready.Level(p))
      ensures t.expired == (old(t.expired) || old(t.waitList) != null)
      ensures forall k :: Nodes(k) == Shifted(old(Nodes(k)), t, In(k, t.state, t.prio, old(t.waitList)), false)
    {
      hide Valid, AllPositive, ReadyManager.Level, Without;
      TableHolds(t);
      if t.state == Ready {
        LeaveReady(t);
      } else if t.waitList != null {
        LeaveWait(t, false);
        t.expired := true;
      }
    }

    lemma InLevel(s: State, t: Task, p: nat)
      requires Valid() && Shows(s) && t in table
      ensures t in ready.Level(p) <==> t.id in L(s, ReadyKey(p))
    {
      hide Waiting, Sleeping, Apart, ReadyManager.Valid;
      assert L(s, ReadyKey(p)) == Ids(Nodes(ReadyKey(p)));
      ByIdIn(ReadyKey(p), t);
    }

    lemma ByIdIn(k: Key, t: Task)
      requires Valid() && t in table
      ensures t in Nodes(k) <==> t.id in Ids(Nodes(k))
    {
      hide OneEach;
      DistinctIds(k);
      if t.id in Ids(Nodes(k)) {
        var i :| 0 <= i < |Nodes(k)| && Ids(Nodes(k))[i] == t.id;
        OneId(Nodes(k)[i], t);
      } else {
        NotById(Nodes(k), t);
      }
    }

    /** A task is in the ready list of its priority if it is ready, and in no other. */
    lemma Standing(s: State, t: Task)
      requires Valid() && Shows(s) && Inv(s) && t in table && t.id in s.tasks
      ensures t.state == Ready ==> t in ready.Level(t.prio) && t.waitList == null
      ensures t.state != Ready ==> forall p :: t !in ready.Level(p)
    {
      hide Valid, Rest, Positive, Preemptive, ReasonIn, Linked, L;
      var c := s.tasks[t.id];
      assert Like(t, c) && TaskOk(s, t.id, c);
      forall p: nat ensures t in ready.Level(p) <==> Where(c) == Some(ReadyKey(p)) {
        InLevel(s, t, p);
        Listed(s, t.id, ReadyKey(p));
      }
    }

    /** The list a task in this state is in. */
    predicate In(k: Key, state: TaskState, prio: nat, list: TaskList?) {
      if state == Ready then k == ReadyKey(prio) else k in waits && waits[k] == list
    }

    method TakeOut(t: Task, st: TaskState)
      requires Settled() && t in table && (t.state == Ready ==> t in ready.Level(t.prio))
      requires t.state != Ready ==> forall p :: t !in ready.Level(p)
      modifies ready`mask, ready.lists, waits.Values, sleepers, table`prev, table`next, t`waitList, t`expired, t`state
      modifies table`delayPrev, table`delayNext, table`delayTicks, t`inDelayList
      ensures Settled() && t.state == st && t.waitList == null && t.expired == (old(t.expired) || old(t.waitList) != null)
      ensures |sleepers.lefts| == |sleepers.nodes| && |old(sleepers.lefts)| == |old(sleepers.nodes)|
      ensures sleepers.View() == DelayWithout(old(sleepers.View()), t.id)
      ensures forall k :: Nodes(k) == Shifted(old(Nodes(k)), t, In(k, old(t.state), t.prio, old(t.waitList)), false)
    {
      hide Valid, AllPositive, ReadyManager.Level, Shifted, In, DelayWithout, Nodes;
      AllHere();
      FrontLeft();
      LeaveList(t);
      Cancel(t);
      t.state := st;
    }

    /** Suspending or deleting a task: out of its list and the delay list. On all lists, times
        and tasks this is the move of the state machine. */
    method Halt(t: Task, st: TaskState, ghost s: State)
      requires Settled() && Shows(s) && Inv(s) && t in table && t.id in s.tasks && (st == Suspended || st == Deleted)
      modifies ready`mask, ready.lists, waits.Values, sleepers, table
      ensures Settled() && Shows(Model.Halt(s, t.id, st))
    {
      hide Settled, Valid, Inv, L, Like, ReadyManager.Level, Entries, DelayList.View, Model.Halt, Shifted, In, OneEach, DelayWithout, Ended, Nodes;
      ValidNow();
      StateOf(s, t);
      Standing(s, t);
      HaltRestFields(s, t.id, st);
      forall k ensures OneEach(Nodes(k)) && (In(k, t.state, t.prio, t.waitList) ==> t in Nodes(k)) { StandsIn(s, k, t); }
      forall k ensures L(Model.Halt(s, t.id, st), k) == if In(k, t.state, t.prio, t.waitList) then Without(L(s, k), t.id) else L(s, k) {
        HaltedList(s, t, st, k);
      }
      TakeOut(t, st);
      ValidNow();
      forall x | x in table && x != t ensures Agrees(x, s) { assert old(Agrees(x, s)); }
      forall k ensures L(Model.Halt(s, t.id, st), k) == Ids(Nodes(k)) {
        ShiftedIds(old(Nodes(k)), t, In(k, old(t.state), t.prio, old(t.waitList)), false);
      }
      LikeEnded(t, s.tasks[t.id], st);
      ShowsChange(s, t, Model.Halt(s, t.id, st), Ended(s.tasks[t.id], Cancelled).(state := st));
    }

    lemma ValidNow()
      requires Settled()
      ensures Valid()
    {
    }

    // -------------------------------------------------------------- sleep and resume

    /** delay_ms() and delay_until(): the running task joins the delay list only. */
    method Sleep(t: Task, n: Ticks, ghost s: State)
      requires Settled() && Shows(s) && Inv(s) && TaskCalls(s) && t in table && t.id == Cur(s) && n > 0
      modifies sleepers, table
      ensures Settled() && Shows(Model.Sleep(s, n as nat))
    {
      hide Valid, Inv, L, AllPositive, DelayInsert, ReadyManager.Level, Model.Sleep, Entries, DelayList.View;
      CallerRuns(s, t);
      Unattached(s, t);
      AllHere();
      SleepFields(s, n as nat);
      SleepLists(s, n as nat);
      FrontLeft();
      Arm(t, n);
      t.state := Blocked;
      forall x | x in table && x != t ensures Agrees(x, s) { assert old(Agrees(x, s)); }
      assert old(Agrees(t, s));
      ShowsChange(s, t, Model.Sleep(s, n as nat), s.tasks[t.id].(state := Blocked));
    }

    /** resume(): a suspended task goes to the back of its ready list. */
    method Resume(t: Task, ghost s: State)
      requires Settled() && Shows(s) && Inv(s) && t in table && t.id in s.tasks
      modifies ready`mask, ready.lists, table`prev, table`next, t`state
      ensures Settled() && Shows(ResumeTask(s, t.id))
    {
      hide Valid, Inv, L, AllPositive, ReadyManager.Level, ResumeTask, Entries, DelayList.View, Nodes, Ids;
      StateOf(s, t);
      ResumeLists(s, t.id);
      if t.state != Suspended { return; }
      Unattached(s, t);
      TableHolds(t);
      MakeReady(t);
      forall x | x in table && x != t ensures Agrees(x, s) { assert old(Agrees(x, s)); }
      assert old(Agrees(t, s));
      forall k ensures L(ResumeTask(s, t.id), k) == Ids(Nodes(k)) { IdsAppend(old(Nodes(k)), t); }
      ShowsChange(s, t, ResumeTask(s, t.id), s.tasks[t.id].(state := Ready));
    }

    /** create_task(): a blank control block becomes a ready task. */
    method Create(t: Task, p: nat, ghost s: State)
      requires Settled() && Shows(s) && Inv(s) && t in table && t.id !in s.tasks && p < MAX_PRIORITIES && |s.tasks| < s.maxTasks
      modifies ready`mask, ready.lists, table`prev, table`next, t`state, t`prio, t`expired
      ensures Settled() && Shows(Model.Create(s, t.id, p))
    {
      hide Settled, Valid, Inv, L, ReadyManager.Level, Model.Create, Entries, DelayList.View, Nodes, Ids;
      ValidNow();
      BlankFree(s, t);
      CreateLists(s, t.id, p);
      Relabel(t, p);
      t.expired := false;
      ValidNow();
      TableHolds(t);
      MakeReady(t);
      ValidNow();
      forall x | x in table && x != t ensures Agrees(x, s) { assert old(Agrees(x, s)); }
      forall k ensures L(Model.Create(s, t.id, p), k) == Ids(Nodes(k)) { IdsAppend(old(Nodes(k)), t); }
      ShowsChange(s, t, Model.Create(s, t.id, p), FreshTcb(p).(state := Ready));
    }

    lemma BlankFree(s: State, t: Task)
      requires Valid() && Shows(s) && Inv(s) && t in table && t.id !in s.tasks
      ensures Free(t)
    {
      hide Valid, TasksBut, Own, Objects, Positive, Preemptive, Present;
      assert Agrees(t, s);
      AwakeNotListed(s, t);
      forall p: nat ensures t !in ready.Level(p) {
        InLevel(s, t, p);
        assert t.id in L(s, ReadyKey(p)) <==> Belongs(s, t.id, ReadyKey(p));
      }
    }

    // -------------------------------------------------------------- priorities

    /** A waiting task goes to its place in the same wait list. */
    method Requeue(t: Task, ghost k: Key)
      requires Settled() && t in table && k in waits && t.waitList == waits[k]
      modifies waits[k], table`prev, table`next
      ensures Settled()
      ensures forall j :: Nodes(j) == if j == k then Inserted(Without(old(Nodes(k)), t), t) else old(Nodes(j))
    {
      hide Valid, ValidBut, AllPositive, ReadyManager.Level, Without, Splice, InsertPos, Levels;
      SameName(k);
      NamedList(k);
      TableHolds(t);
      Unhook(t, false);
      MembersBut(t, k);
      JoinWait(t, k);
    }

    lemma MembersBut(t: Task, k: Key)
      requires ValidBut(t) && k in waits
      ensures forall x :: x in waits[k].nodes ==> x in table
    {
    }

    lemma NamedList(k: Key)
      requires Valid() && k in waits
      ensures Nodes(k) == waits[k].nodes && !k.ReadyKey?
    {
      hide Waiting, Sleeping, Apart, ReadyManager.Valid;
    }

    /** The priority of a task that is in no ready list may be changed freely. */
    method Relabel(t: Task, p: nat)
      requires Settled() && t in table && forall q :: t !in ready.Level(q)
      modifies t`prio
      ensures Settled() && t.prio == p && (forall q :: ready.Level(q) == old(ready.Level(q))) && forall k :: Nodes(k) == old(Nodes(k))
    {
      hide Waiting, Sleeping, Apart, AllPositive, ReadyManager.Valid, ReadyManager.Level;
      ready.Relabel(t, p);
    }

    /** A ready task goes to the back of its new level. */
    method Relevel(t: Task, p: nat)
      requires Settled() && t in table && t in ready.Level(t.prio) && p < MAX_PRIORITIES
      modifies ready`mask, ready.lists, table`prev, table`next, t`prio
      ensures Settled() && t.prio == p
      ensures forall k :: Nodes(k) == Shifted(old(Nodes(k)), t, k == ReadyKey(old(t.prio)), k == ReadyKey(p))
    {
      hide Valid, AllPositive, ReadyManager.Level, Without;
      TableHolds(t);
      LeaveReady(t);
      Relabel(t, p);
      TableHolds(t);
      AddReady(t);
    }

    /** set_task_priority() on the shared control blocks: a ready task changes its level, a
        waiting one its place in its wait list. On all lists and tasks this is the move of the
        state machine. */
    method SetPriority(t: Task, p: nat, ghost s: State)
      requires Settled() && Shows(s) && Inv(s) && t in table && t.id in s.tasks && p < MAX_PRIORITIES
      modifies ready`mask, ready.lists, waits.Values, table`prev, table`next, t`prio
      ensures Settled() && Shows(Model.SetPriority(s, t.id, p))
    {
      hide Settled, Valid, Inv, L, Like, ReadyManager.Level, Entries, DelayList.View, Model.SetPriority, OneEach, Nodes;
      ValidNow();
      StateOf(s, t);
      Standing(s, t);
      if t.prio == p {
        SamePriority(s, t.id);
      } else if t.state == Ready {
        SetReady(t, p, s);
      } else if t.waitList != null {
        SetWaiting(t, p, s);
      } else {
        SetOther(t, p, s);
      }
    }

    method SetOther(t: Task, p: nat, ghost s: State)
      requires Settled() && Shows(s) && Inv(s) && t in table && t.id in s.tasks && p != t.prio && t.state != Ready && t.waitList == null
      modifies t`prio
      ensures Settled() && Shows(Model.SetPriority(s, t.id, p))
    {
      hide Settled, Valid, Inv, L, ReadyManager.Level, Entries, DelayList.View, Model.SetPriority, Nodes;
      ValidNow();
      StateOf(s, t);
      Standing(s, t);
      ghost var s1 := Model.SetPriority(s, t.id, p);
      PriorityLists(s, t.id, p);
      Relabel(t, p);
      ValidNow();
      forall x | x in table && x != t ensures Agrees(x, s) { assert old(Agrees(x, s)); }
      assert old(Agrees(t, s));
      ShowsChange(s, t, s1, s.tasks[t.id].(prio := p));
    }

    method SetReady(t: Task, p: nat, ghost s: State)
      requires Settled() && Shows(s) && Inv(s) && t in table && t.id in s.tasks && p < MAX_PRIORITIES && p != t.prio && t.state == Ready
      modifies ready`mask, ready.lists, table`prev, table`next, t`prio
      ensures Settled() && Shows(Model.SetPriority(s, t.id, p))
    {
      hide Settled, Valid, Inv, L, ReadyManager.Level, Entries, DelayList.View, Model.SetPriority, Shifted, OneEach, Nodes;
      ValidNow();
      StateOf(s, t);
      Standing(s, t);
      ghost var s1 := Model.SetPriority(s, t.id, p);
      forall k ensures OneEach(Nodes(k)) && (k == ReadyKey(t.prio) ==> t in Nodes(k)) { StandsIn(s, k, t); }
      PriorityLists(s, t.id, p);
      Relevel(t, p);
      ValidNow();
      forall k ensures L(s1, k) == Ids(Nodes(k)) { ShiftedIds(old(Nodes(k)), t, k == ReadyKey(old(t.prio)), k == ReadyKey(p)); }
      forall x | x in table && x != t ensures Agrees(x, s) { assert old(Agrees(x, s)); }
      assert old(Agrees(t, s));
      ShowsChange(s, t, s1, s.tasks[t.id].(prio := p));
    }

    method SetWaiting(t: Task, p: nat, ghost s: State)
      requires Settled() && Shows(s) && Inv(s) && t in table && t.id in s.tasks && p != t.prio && t.state != Ready && t.waitList != null
      modifies waits.Values, table`prev, table`next, t`prio
      ensures Settled() && Shows(Model.SetPriority(s, t.id, p))
    {
      hide Settled, Valid, Inv, L, ReadyManager.Level, Entries, DelayList.View, Model.SetPriority, OneEach, Nodes;
      hide InsertByPriority, Inserted, Reranked, Without;
      ValidNow();
      StateOf(s, t);
      Standing(s, t);
      ghost var s1, c, k := Model.SetPriority(s, t.id, p), s.tasks[t.id], s.tasks[t.id].wait.value;
      WaitName(k, t, c) by { assert Like(t, c); }
      PriorityLists(s, t.id, p);
      ghost var l := Nodes(k);
      WaitersKnown(s, k);
      DistinctIds(k);
      StandsIn(s, k, t);
      Relabel(t, p);
      Requeue(t, k);
      ValidNow();
      forall x | x in table && x != t ensures Agrees(x, s) { assert old(Agrees(x, s)); }
      forall x | x in l && x != t ensures Like(x, s.tasks[x.id]) { assert Agrees(x, s); }
      RequeuedIds(s, t, p, k, l);
      forall j ensures L(s1, j) == Ids(Nodes(j)) { RerankedWait(s, t.id, p, j); }
      assert old(Agrees(t, s));
      ShowsChange(s, t, s1, c.(prio := p));
    }

    /** The new order of a wait list, by ids. */
    lemma RequeuedIds(s: State, t: Task, p: nat, k: Key, l: seq<Task>)
      requires Valid() && t in table && t.id in s.tasks && t.prio == p && OneEach(l) && t in l && forall x :: x in l ==> x in table
      requires forall x :: x in l && x != t ==> x.id in s.tasks && Like(x, s.tasks[x.id])
      ensures Ids(Inserted(Without(l, t), t))
        == InsertByPriority(s.tasks[t.id := s.tasks[t.id].(prio := p)], Without(Ids(l), t.id), t.id, p)
    {
      hide Valid, InsertByPriority, Without, OneEach, Levels;
      var tasks' := s.tasks[t.id := s.tasks[t.id].(prio := p)];
      WithoutIds(l, t);
      forall x | x in Without(l, t) ensures x.id in tasks' && tasks'[x.id].prio == x.prio {
        OneId(x, t);
        assert x != t ==> Like(x, s.tasks[x.id]);
      }
      InsertIds(Without(l, t), t, tasks');
    }

    lemma StandsIn(s: State, k: Key, t: Task)
      requires Valid() && Shows(s) && Inv(s) && t in table && t.id in s.tasks
      ensures OneEach(Nodes(k)) && (In(k, t.state, t.prio, t.waitList) ==> t in Nodes(k))
    {
      hide Valid, Inv, Shows, OneEach;
      DistinctIds(k);
      Standing(s, t);
      HereAndThere(k, t);
    }

    lemma HaltedList(s: State, t: Task, st: TaskState, k: Key)
      requires Valid() && Shows(s) && Inv(s) && t in table && t.id in s.tasks && (st == Suspended || st == Deleted)
      ensures L(Model.Halt(s, t.id, st), k) == if In(k, t.state, t.prio, t.waitList) then Without(L(s, k), t.id) else L(s, k)
    {
      hide Valid, Inv, Without, Model.Halt, Ended, DelayWithout;
      HaltFields(s, t.id, st);
      WaitName(k, t, s.tasks[t.id]);
      Standing(s, t);
    }

    lemma LikeEnded(t: Task, c: Tcb, st: TaskState)
      requires t.state == st && t.waitList == null && c.prio == t.prio && t.expired == (c.expired || c.wait.Some?)
      ensures Like(t, Ended(c, Cancelled).(state := st))
    {
    }
  }

  lemma SamePriority(s: State, t: Tid)
    ensures Model.SetPriority(s, t, T(s, t).prio) == s
  {
  }

  lemma SleepLists(s: State, n: nat)
    requires Inv(s) && TaskCalls(s)
    ensures forall k :: L(Model.Sleep(s, n), k) == L(s, k)
  {
    hide Inv, Model.Sleep;
    SleepFields(s, n);
  }

  lemma CreateLists(s: State, t: Tid, p: nat)
    requires t !in s.tasks && |s.tasks| < s.maxTasks
    ensures var s1 := Model.Create(s, t, p);
      s1.tasks == s.tasks[t := FreshTcb(p).(state := Ready)] && s1.delay == s.delay
    ensures forall k :: L(Model.Create(s, t, p), k) == L(s, k) + (if k == ReadyKey(p) then [t] else [])
  {
    hide Model.Create;
    CreateFields(s, t, p);
  }

  lemma ResumeLists(s: State, t: Tid)
    requires t in s.tasks
    ensures var s1, c := ResumeTask(s, t), s.tasks[t];
      && (c.state != Suspended ==> s1 == s)
      && (c.state == Suspended ==> s1.tasks == s.tasks[t := c.(state := Ready)] && s1.delay == s.delay)
      && (c.state == Suspended ==> forall k :: L(s1, k) == L(s, k) + (if k == ReadyKey(c.prio) then [t] else []))
  {
    hide Put;
    if s.tasks[t].state == Suspended { ResumeFields(s, t); }
  }

  function Reranked(s: State, t: Tid, p: nat, k: Key): seq<Tid>
    requires t in s.tasks
  {
    var c, l := s.tasks[t], L(s, k);
    if c.state == Ready then (if k == ReadyKey(c.prio) then Without(l, t) else l) + (if k == ReadyKey(p) then [t] else [])
    else if c.wait == Some(k) then InsertByPriority(s.tasks[t := c.(prio := p)], Without(l, t), t, p)
    else l
  }

  lemma RerankedWait(s: State, t: Tid, p: nat, k: Key)
    requires t in s.tasks && s.tasks[t].state != Ready
    ensures s.tasks[t].wait == Some(k) ==>
      Reranked(s, t, p, k) == InsertByPriority(s.tasks[t := s.tasks[t].(prio := p)], Without(L(s, k), t), t, p)
    ensures s.tasks[t].wait != Some(k) ==> Reranked(s, t, p, k) == L(s, k)
  {
  }

  /** What a new priority does to the lists of the state machine. */
  lemma PriorityLists(s: State, t: Tid, p: nat)
    requires Inv(s) && t in s.tasks && s.tasks[t].prio != p
    ensures var s1, c := Model.SetPriority(s, t, p), s.tasks[t];
      s1.tasks == s.tasks[t := c.(prio := p)] && s1.delay == s.delay && forall k :: L(s1, k) == Reranked(s, t, p, k)
  {
    hide Linked, Without, InsertByPriority, Rest, Positive, Preemptive, ReasonIn, Model.SetPriority;
    assert TaskOk(s, t, s.tasks[t]);
    PriorityFields(s, t, p);
  }

  lemma HaltRestFields(s: State, t: Tid, st: TaskState)
    requires Inv(s) && t in s.tasks && (st == Suspended || st == Deleted)
    ensures var s1 := Model.Halt(s, t, st);
      s1.tasks == s.tasks[t := Ended(s.tasks[t], Cancelled).(state := st)] && s1.delay == DelayWithout(s.delay, t)
  {
    hide Inv, Model.Halt, Ended, Detached, DelayWithout;
    HaltFields(s, t, st);
  }

  lemma Listed(s: State, t: Tid, k: Key)
    requires Inv(s) && t in s.tasks
    ensures t in L(s, k) <==> Where(s.tasks[t]) == Some(k)
  {
    hide TasksBut, Rest, Positive, Preemptive;
    assert t in L(s, k) <==> Belongs(s, t, k);
  }

  lemma SwitchIs(s: State)
    requires CanDispatch(Vacate(s))
    ensures var s1 := Vacate(s);
      var t := L(s1, ReadyKey(TopReady(s1, MAX_PRIORITIES).value))[0];
      t in s1.tasks && Model.Switch(s) == Put(s1, t, s1.tasks[t].(state := Running)).(current := Some(t), yieldDue := false)
  {
    hide Vacate, TopReady, Put;
  }

  /** The topmost ready list is the one whose level is given; its first task is taken out. */
  lemma DispatchLists(s: State, p: nat, t: Tid)
    requires CanDispatch(s) && p < MAX_PRIORITIES && L(s, ReadyKey(p)) != [] && L(s, ReadyKey(p))[0] == t
    requires forall q :: p < q < MAX_PRIORITIES ==> L(s, ReadyKey(q)) == []
    ensures TopReady(s, MAX_PRIORITIES) == Some(p) && t in s.tasks
    ensures var s1 := Put(s, t, s.tasks[t].(state := Running));
      forall k :: L(s1, k) == if k == ReadyKey(p) then L(s, k)[1..] else L(s, k)
  {
    hide Put, TopReady;
    TopUnique(s, MAX_PRIORITIES, p);
    DispatchFields(s, p);
  }

  /** What putting the running task back does to the lists of the state machine. */
  lemma VacateLists(s: State)
    ensures var s1 := Vacate(s);
      if s.current.Some? && T(s, Cur(s)).state == Running then
        && s1 == s.(tasks := s.tasks[Cur(s) := T(s, Cur(s)).(state := Ready)], lists := s1.lists)
        && forall k :: L(s1, k) == if k == ReadyKey(T(s, Cur(s)).prio) then L(s, k) + [Cur(s)] else L(s, k)
      else s1 == s
  {
    hide Put;
    var t := Cur(s);
    PutReady(s, t, T(s, t).(state := Ready));
    UnlinkedFrom(s, t);
  }

  lemma NotById(l: seq<Task>, t: Task)
    requires t.id !in Ids(l)
    ensures t !in l
  {
    forall i | 0 <= i < |l| ensures l[i] != t { assert Ids(l)[i] == l[i].id; }
  }

  lemma {:induction false} InDue(d: seq<Entry>, i: nat)
    requires i < |d|
    ensures d[i].task in Due(d)
  {
    if i > 0 { InDue(d[1..], i - 1); }
  }

  lemma SpliceHas(l: seq<Task>, i: nat, t: Task)
    requires i <= |l|
    ensures t in Splice(l, i, t) && (forall x :: x in Splice(l, i, t) ==> x in l || x == t) && forall x :: x in l ==> x in Splice(l, i, t)
  {
    var r := Splice(l, i, t);
    forall x | x in l ensures x in r {
      var j :| 0 <= j < |l| && l[j] == x;
      assert r[if j < i then j else j + 1] == x;
    }
    forall x | x in r ensures x in l || x == t {
      var j :| 0 <= j < |r| && r[j] == x;
      assert j != i ==> l[if j < i then j else j - 1] == x;
    }
  }

  lemma WithoutOnce(l: seq<Task>, t: Task)
    requires NoDup(l)
    ensures forall x :: x in Without(l, t) <==> x in l && x != t
  {
  }

  /** An empty list for each name, none of them among `others`. */
  method NewLists(names: seq<Key>, others: seq<TaskList>) returns (ws: map<Key, TaskList>)
    ensures forall k :: k in ws <==> k in names
    ensures forall k :: k in ws ==> fresh(ws[k]) && ws[k].Valid() && ws[k].nodes == [] && ws[k] !in others
    ensures forall k, j :: k in ws && j in ws && k != j ==> ws[k] != ws[j]
  {
    hide NoDup, Chained;
    ws := map[];
    var i := 0;
    while i < |names|
      invariant i <= |names| && (forall k :: k in ws <==> k in names[..i])
      invariant forall k :: k in ws ==> fresh(ws[k]) && ws[k].Valid() && ws[k].nodes == [] && ws[k] !in others
      invariant forall k, j :: k in ws && j in ws && k != j ==> ws[k] != ws[j]
    {
      if names[i] !in ws {
        var l := new TaskList();
        ws := ws[names[i] := l];
      }
      i := i + 1;
    }
  }

  /** pop_front() or remove(): the task leaves the list. */
  method Unlink(w: TaskList, t: Task, first: bool)
    requires w.Valid() && t in w.nodes && (first ==> t == w.nodes[0])
    modifies w, w.nodes`prev, w.nodes`next
    ensures w.Valid() && w.nodes == Without(old(w.nodes), t)
  {
    hide NoDup, Chained;
    if first { var _ := w.PopFront(); } else { w.Remove(t); }
  }

  /** What the release of the first sleeper does to a list of the state machine. */
  lemma ReleasedList(s: State, k: Key)
    requires Releasing(s) && s.delay != []
    ensures var t := s.delay[0].task;
      && t in s.tasks
      && var c := s.tasks[t];
      && L(Wake(s, t, Timeout), k)
         == (if c.wait == Some(k) then Without(L(s, k), t) else L(s, k)) + (if k == ReadyKey(c.prio) then [t] else [])
  {
    hide Linked, Own, Objects, ReasonIn, Without, Wake;
    var t := s.delay[0].task;
    ReleaseFields(s);
    FrontDue(s.delay);
    assert TaskOk(s, t, s.tasks[t]);
  }

  /** What waking a waiter of `k` does to a list of the state machine. */
  lemma HandedList(s: State, k: Key, t: Tid, j: Key)
    requires t in s.tasks && Waits(s.tasks[t], k)
    ensures L(Wake(s, t, Handoff), j)
      == (if j == k then Without(L(s, j), t) else L(s, j)) + (if j == ReadyKey(s.tasks[t].prio) then [t] else [])
  {
    hide Without, Wake;
    WakeFields(s, k, t, s.tasks[t]);
    assert s.tasks[t := s.tasks[t]] == s.tasks;
  }

  lemma IdsCons(t: Task, l: seq<Task>)
    ensures Ids([t] + l) == [t.id] + Ids(l) && ([t.id] + Ids(l))[1..] == Ids(l) && Ids([]) == []
  {
  }

  lemma IdsAppend(l: seq<Task>, t: Task)
    ensures Ids(l + [t]) == Ids(l) + [t.id]
  {
  }

  lemma ShiftedIds(l: seq<Task>, t: Task, off: bool, on: bool)
    requires OneEach(l) && (off ==> t in l)
    ensures Ids(Shifted(l, t, off, on)) == (if off then Without(Ids(l), t.id) else Ids(l)) + (if on then [t.id] else [])
  {
    hide Without;
    if off { WithoutIds(l, t); }
  }

  lemma FirstOnce(l: seq<Task>, t: Task, rest: seq<Task>)
    requires NoDup(l) && l == [t] + rest
    ensures forall x :: x in rest <==> x in l && x != t
  {
    forall x | x in l && x != t ensures x in rest {
      var j :| 0 <= j < |l| && l[j] == x;
      assert rest[j - 1] == x;
    }
    forall j | 0 <= j < |rest| ensures rest[j] in l && rest[j] != t { assert l[j + 1] == rest[j] && l[0] == t; }
  }

  /** `l` with `t` in front of the first member of lower priority. */
  ghost function Inserted(l: seq<Task>, t: Task): seq<Task>
    reads l`prio, t`prio
  {
    Splice(l, InsertPos(Levels(l), t.prio), t)
  }

  function Shifted(l: seq<Task>, t: Task, off: bool, on: bool): seq<Task> {
    (if off then Without(l, t) else l) + (if on then [t] else [])
  }
}
