/** What set_bits() does to the waiters of an event group, as a fold over their conditions. */
module EventFold {
  import opened Lists
  import opened Model
  import opened Structure
  import opened Delays
  import opened Invariant
  import opened Preservation
  import opened EventScan
  import opened EventBits

  /** What a waiter asked for. */
  datatype Ask = Ask(mask: bv32, all: bool, clear: bool)

  /** The bits left over, and for each condition the bits it was met by, if it was. */
  datatype Outcome = Outcome(bits: bv32, answers: seq<Option<bv32>>)

  /** Conditions are tried in order; who is satisfied gets the bits as they are, then its own
      mask is cleared if it asked for that. */
  ghost function Fold(bits: bv32, asks: seq<Ask>): (r: Outcome)
    ensures |r.answers| == |asks|
  {
    if asks == [] then Outcome(bits, [])
    else if Met(bits, asks[0].mask, asks[0].all) then
      var r := Fold(if asks[0].clear then Minus(bits, asks[0].mask) else bits, asks[1..]);
      Outcome(r.bits, [Some(bits)] + r.answers)
    else
      var r := Fold(bits, asks[1..]);
      Outcome(r.bits, [None] + r.answers)
  }

  function AskOf(c: Tcb): Ask {
    Ask(c.mask, c.all, c.clear)
  }

  function Asks(s: State, l: seq<Tid>): (r: seq<Ask>)
    ensures |r| == |l| && forall i :: 0 <= i < |l| ==> r[i] == AskOf(T(s, l[i]))
  {
    if l == [] then [] else [AskOf(T(s, l[0]))] + Asks(s, l[1..])
  }

  /** A served waiter is ready and has its answer; one that is not is as it was. */
  ghost predicate Answered(c: Tcb, c': Tcb, answer: Option<bv32>) {
    if answer.Some? then c'.state == Ready && c'.wait == None && c'.cause == Some(Handoff) && c'.bits == answer.value else c' == c
  }

  lemma ServeOne(s: State, e: nat, t: Tid)
    requires e in s.events && t in s.tasks && s.tasks[t].wait == Some(EventKey(e))
    ensures var s' := Serve(s, e, t);
      && (forall x :: x != t ==> T(s', x) == T(s, x))
      && t in s'.tasks && Answered(s.tasks[t], s'.tasks[t], Some(s.events[e]))
      && e in s'.events && Bits(s', e) == if s.tasks[t].clear then Minus(s.events[e], s.tasks[t].mask) else s.events[e]
  {
    hide Wake, Minus;
  }

  lemma {:induction false} ScanOthers(s: State, e: nat, l: seq<Tid>, x: Tid)
    requires Scanning(s, e, l) && x !in l
    ensures T(Scan(s, e, l), x) == T(s, x)
    decreases |l|
  {
    hide Scanning, Serve, Satisfies, Minus;
    if l != [] {
      if Satisfies(Bits(s, e), T(s, l[0]).mask, T(s, l[0]).all) {
        ServeScanning(s, e, l);
        FirstWaits(s, e, l);
        ServeOne(s, e, l[0]);
        ScanOthers(Serve(s, e, l[0]), e, l[1..], x);
      } else {
        SkipScanning(s, e, l);
        ScanOthers(s, e, l[1..], x);
      }
    }
  }

  lemma FirstWaits(s: State, e: nat, l: seq<Tid>)
    requires Scanning(s, e, l) && l != []
    ensures e in s.events && l[0] in s.tasks && s.tasks[l[0]].wait == Some(EventKey(e)) && l[0] !in l[1..]
  {
    hide Rest, Linked, Positive, Preemptive, TasksBut;
    assert Unvisited(s, e, l[0], s.tasks[l[0]]);
  }

  lemma {:induction false} SameAsks(s: State, s': State, l: seq<Tid>)
    requires forall x :: x in l ==> T(s', x) == T(s, x)
    ensures Asks(s', l) == Asks(s, l)
  {
    if l != [] { SameAsks(s, s', l[1..]); }
  }

  /** Every waiter of `l` got its answer between `s` and `s'`. */
  ghost predicate AllAnswered(s: State, s': State, l: seq<Tid>, answers: seq<Option<bv32>>) {
    |answers| == |l| && forall i :: 0 <= i < |l| ==> Answered(T(s, l[i]), T(s', l[i]), answers[i])
  }

  lemma LaterAnswer(s: State, s1: State, s': State, l: seq<Tid>, others: seq<Option<bv32>>, i: nat)
    requires 0 < i < |l| && AllAnswered(s1, s', l[1..], others)
    requires forall x :: x in l[1..] ==> T(s1, x) == T(s, x)
    ensures |others| == |l| - 1 && Answered(T(s, l[i]), T(s', l[i]), others[i - 1])
  {
    hide Answered, T;
    var rest := l[1..];
    assert rest[i - 1] == l[i];
  }

  /** The answer of the first waiter in front of the answers of the others. */
  lemma OneMoreAnswer(s: State, s1: State, s': State, l: seq<Tid>, first: Option<bv32>, others: seq<Option<bv32>>)
    requires l != [] && Answered(T(s, l[0]), T(s', l[0]), first) && AllAnswered(s1, s', l[1..], others)
    requires forall x :: x in l[1..] ==> T(s1, x) == T(s, x)
    ensures AllAnswered(s, s', l, [first] + others)
  {
    hide Answered, AllAnswered, T;
    var answers := [first] + others;
    assert |others| == |l| - 1 by { SameLength(s1, s', l[1..], others); }
    forall i | 0 <= i < |l| ensures Answered(T(s, l[i]), T(s', l[i]), answers[i]) {
      if i > 0 { LaterAnswer(s, s1, s', l, others, i); }
    }
    EachAnswered(s, s', l, answers);
  }

  lemma SameLength(s: State, s': State, l: seq<Tid>, answers: seq<Option<bv32>>)
    requires AllAnswered(s, s', l, answers)
    ensures |answers| == |l|
  {
  }

  lemma EachAnswered(s: State, s': State, l: seq<Tid>, answers: seq<Option<bv32>>)
    requires |answers| == |l| && forall i :: 0 <= i < |l| ==> Answered(T(s, l[i]), T(s', l[i]), answers[i])
    ensures AllAnswered(s, s', l, answers)
  {
  }

  /** The first waiter is served or passed over; the others wait as before. */
  lemma FirstAnswered(s: State, e: nat, l: seq<Tid>)
    requires Scanning(s, e, l) && l != []
    ensures var c := T(s, l[0]);
      var met := Met(Bits(s, e), c.mask, c.all);
      var s1 := if met then Serve(s, e, l[0]) else s;
      && Scanning(s1, e, l[1..]) && l[0] !in l[1..]
      && Bits(s1, e) == (if met && c.clear then Minus(Bits(s, e), c.mask) else Bits(s, e))
      && Answered(c, T(s1, l[0]), if met then Some(Bits(s, e)) else None)
      && forall x :: x in l[1..] ==> T(s1, x) == T(s, x)
  {
    hide Scanning, Serve, Satisfies, Minus, Met;
    FirstWaits(s, e, l);
    MetBits(Bits(s, e), T(s, l[0]).mask, T(s, l[0]).all);
    if Met(Bits(s, e), T(s, l[0]).mask, T(s, l[0]).all) {
      ServeScanning(s, e, l);
      ServeOne(s, e, l[0]);
    } else {
      SkipScanning(s, e, l);
      Untouched(T(s, l[0]));
    }
  }

  lemma AskFirst(s: State, s1: State, l: seq<Tid>)
    requires l != [] && forall x :: x in l[1..] ==> T(s1, x) == T(s, x)
    ensures Asks(s, l)[0] == AskOf(T(s, l[0])) && Asks(s, l)[1..] == Asks(s1, l[1..])
  {
    SameAsks(s, s1, l[1..]);
    assert Asks(s, l) == [AskOf(T(s, l[0]))] + Asks(s, l[1..]);
  }

  /** The walk over the waiters is the fold over their conditions. */
  lemma {:induction false} ScanFolds(s: State, e: nat, l: seq<Tid>)
    requires Scanning(s, e, l)
    ensures var r, s' := Fold(Bits(s, e), Asks(s, l)), Scan(s, e, l);
      Bits(s', e) == r.bits && AllAnswered(s, s', l, r.answers)
    decreases |l|
  {
    hide Scanning, Serve, Satisfies, Met, Minus, Answered, AllAnswered, Asks, T;
    if l == [] {
      NoneAnswered(s);
    } else {
      var c := T(s, l[0]);
      var met := Met(Bits(s, e), c.mask, c.all);
      var s1 := if met then Serve(s, e, l[0]) else s;
      MetBits(Bits(s, e), c.mask, c.all);
      FirstAnswered(s, e, l);
      AskFirst(s, s1, l);
      ScanFolds(s1, e, l[1..]);
      ScanOthers(s1, e, l[1..], l[0]);
      OneMoreAnswer(s, s1, Scan(s, e, l), l, if met then Some(Bits(s, e)) else None, Fold(Bits(s1, e), Asks(s1, l[1..])).answers);
    }
  }

  lemma NoneAnswered(s: State)
    ensures Asks(s, []) == [] && AllAnswered(s, s, [], [])
  {
  }

  lemma Untouched(c: Tcb)
    ensures Answered(c, c, None)
  {
  }

  /** set_bits(): the waiters, highest priority first, are answered by one fold that starts
      from the old bits with those of `mask` added, and the group keeps the bits the fold leaves. */
  lemma SetBitsFolds(s: State, e: nat, mask: bv32, start: bv32)
    requires Inv(s) && e in s.events && Added(s.events[e], mask, start)
    ensures var l, s' := L(s, EventKey(e)), EventSet(s, e, mask);
      var r := Fold(start, Asks(s, l));
      && Bits(s', e) == r.bits
      && forall i :: 0 <= i < |l| ==> Answered(T(s, l[i]), T(s', l[i]), r.answers[i])
  {
    hide Inv, Scanning, Scan, Plus, Added, Answered, Fold;
    var s1, l := SetBits(s, e, Plus(s.events[e], mask)), L(s, EventKey(e));
    PlusBits(s.events[e], mask, start);
    StartScanning(s, e, Plus(s.events[e], mask));
    ScanFolds(s1, e, l);
    SameAsks(s, s1, l);
  }

  /** With nobody to serve, a bit is set after set_bits() if it was set or is in the mask, and
      nothing else changes. */
  lemma SetBitsAdds(s: State, e: nat, mask: bv32, start: bv32)
    requires Inv(s) && e in s.events && Added(s.events[e], mask, start)
    requires forall t :: t in L(s, EventKey(e)) ==> !Met(start, T(s, t).mask, T(s, t).all)
    ensures EventSet(s, e, mask) == s.(events := s.events[e := start])
  {
    hide Inv, Met, Added, Plus;
    PlusBits(s.events[e], mask, start);
    ScanNobody(SetBits(s, e, start), e, L(s, EventKey(e)));
  }

  lemma {:induction false} ScanNobody(s: State, e: nat, l: seq<Tid>)
    requires forall t :: t in l ==> !Met(Bits(s, e), T(s, t).mask, T(s, t).all)
    ensures Scan(s, e, l) == s
    decreases |l|
  {
    hide Met, Satisfies, Serve;
    if l != [] {
      MetBits(Bits(s, e), T(s, l[0]).mask, T(s, l[0]).all);
      ScanNobody(s, e, l[1..]);
    }
  }
}
