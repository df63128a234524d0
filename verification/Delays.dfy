/** The delay list as a map from task to remaining ticks. */
module Delays {
  import opened Lists
  import opened Model

  /** Ordered by remaining time, each task at most once, every time within 32 bits. */
  ghost predicate GoodDelay(d: seq<Entry>) {
    d == [] ||
    (&& d[0].task !in Due(d[1..])
     && d[0].left <= UINT32_MAX
     && (forall t :: t in Due(d[1..]) ==> d[0].left <= Due(d[1..])[t])
     && GoodDelay(d[1..]))
  }

  /** Inserting adds one entry and leaves every other remaining time alone. */
  lemma {:induction false} InsertDue(d: seq<Entry>, t: Tid, n: nat)
    requires GoodDelay(d) && t !in Due(d) && n <= UINT32_MAX
    ensures Due(DelayInsert(d, t, n)) == Due(d)[t := n]
    ensures GoodDelay(DelayInsert(d, t, n))
  {
    var r := DelayInsert(d, t, n);
    if d == [] || n < d[0].left {
      assert r[1..] == d;
    } else {
      InsertDue(d[1..], t, n);
      assert r[1..] == DelayInsert(d[1..], t, n);
    }
  }

  /** Removing deletes exactly the entry of `t`. */
  lemma {:induction false} WithoutDue(d: seq<Entry>, t: Tid)
    requires GoodDelay(d)
    ensures Due(DelayWithout(d, t)) == Due(d) - {t}
    ensures GoodDelay(DelayWithout(d, t))
    ensures t !in Due(d) ==> DelayWithout(d, t) == d
  {
    var r := DelayWithout(d, t);
    if d != [] && d[0].task != t {
      WithoutDue(d[1..], t);
      assert r[1..] == DelayWithout(d[1..], t);
    } else if d != [] {
      assert Due(d) - {t} == Due(d[1..]);
    }
  }

  function OneLess(n: nat): nat {
    if n > 0 then n - 1 else 0
  }

  /** A tick takes one from every remaining time. */
  lemma {:induction false} DownDue(d: seq<Entry>)
    ensures Due(DelayDown(d)) == map t | t in Due(d) :: OneLess(Due(d)[t])
  {
    if d != [] {
      DownDue(d[1..]);
      assert DelayDown(d)[1..] == DelayDown(d[1..]);
    }
  }

  lemma {:induction false} DownGood(d: seq<Entry>)
    requires GoodDelay(d)
    ensures GoodDelay(DelayDown(d))
  {
    if d != [] {
      DownGood(d[1..]);
      DownDue(d[1..]);
      assert DelayDown(d)[1..] == DelayDown(d[1..]);
    }
  }

  /** The front entry has the smallest remaining time. */
  lemma FrontDue(d: seq<Entry>)
    requires GoodDelay(d) && d != []
    ensures d[0].task in Due(d) && Due(d)[d[0].task] == d[0].left
    ensures forall t :: t in Due(d) ==> d[0].left <= Due(d)[t]
  {
  }
}
