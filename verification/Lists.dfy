/** Sequences as the kernel's lists use them: unlinking one member, and the two
    ordered insertions (by descending priority, by ascending deadline). */
module Lists {

  ghost predicate NoDup<T>(l: seq<T>) {
    forall i, j :: 0 <= i < j < |l| ==> l[i] != l[j]
  }

  /** The list with the first occurrence of `x` unlinked. */
  function Without<T(==)>(l: seq<T>, x: T): (r: seq<T>)
    ensures x !in l ==> r == l
    ensures forall y :: y in r ==> y in l
    ensures forall y :: y in l && y != x ==> y in r
    ensures NoDup(l) ==> NoDup(r) && x !in r
  {
    if l == [] then []
    else if l[0] == x then l[1..]
    else
      assert NoDup(l) ==> NoDup(l[1..]) && l[0] !in l[1..];
      var r := Without(l[1..], x);
      assert NoDup(l) ==> l[0] !in r;
      [l[0]] + r
  }

  /** Unlinking is the usual splice around the place where `x` stands. */
  lemma {:induction false} WithoutAt<T>(l: seq<T>, i: nat)
    requires i < |l| && NoDup(l)
    ensures Without(l, l[i]) == l[..i] + l[i + 1..]
  {
    if i > 0 {
      WithoutAt(l[1..], i - 1);
      assert l[..i] == [l[0]] + l[1..][..i - 1];
    }
  }

  /** How many leading members have at least priority `p`. */
  function InsertPos(ps: seq<nat>, p: nat): (i: nat)
    ensures i <= |ps|
    ensures forall j :: 0 <= j < i ==> ps[j] >= p
    ensures i < |ps| ==> ps[i] < p
  {
    if ps == [] || ps[0] < p then 0 else 1 + InsertPos(ps[1..], p)
  }

  lemma InsertPosUnique(ps: seq<nat>, p: nat, i: nat)
    requires i <= |ps|
    requires forall j :: 0 <= j < i ==> ps[j] >= p
    requires i < |ps| ==> ps[i] < p
    ensures i == InsertPos(ps, p)
  {
  }

  function Splice<T>(l: seq<T>, i: nat, x: T): (r: seq<T>)
    requires i <= |l|
    ensures |r| == |l| + 1 && r[i] == x
    ensures forall j :: 0 <= j < i ==> r[j] == l[j]
    ensures forall j :: i < j < |r| ==> r[j] == l[j - 1]
  {
    l[..i] + [x] + l[i..]
  }

  lemma SpliceMembers<T(!new)>(l: seq<T>, i: nat, x: T)
    requires i <= |l|
    ensures forall y :: y in Splice(l, i, x) <==> y in l || y == x
  {
    var r := Splice(l, i, x);
    forall y | y in l ensures y in r {
      var j :| 0 <= j < |l| && l[j] == y;
      assert r[if j < i then j else j + 1] == y;
    }
  }

  lemma SpliceNoDup<T>(l: seq<T>, i: nat, x: T)
    requires i <= |l| && NoDup(l) && x !in l
    ensures NoDup(Splice(l, i, x))
  {
  }

  ghost predicate Descending(ps: seq<nat>) {
    forall i, j :: 0 <= i < j < |ps| ==> ps[i] >= ps[j]
  }

  /** Insertion before the first smaller member keeps the order. */
  lemma SpliceDescending(ps: seq<nat>, p: nat)
    requires Descending(ps)
    ensures Descending(Splice(ps, InsertPos(ps, p), p))
  {
  }
}
