/** Measures of machines with many jobs: what all jobs still have to do, added up, and sizes of sets. */
module Measures {

  function Sum<T>(rank: T -> nat, jobs: seq<T>): nat {
    if jobs == [] then 0 else rank(jobs[0]) + Sum(rank, jobs[1..])
  }

  /** Nobody gains work, and job `v` loses some. */
  lemma {:induction false} SumFalls<T>(rank: T -> nat, a: seq<T>, b: seq<T>, v: nat)
    requires |a| == |b| && forall u :: 0 <= u < |a| ==> rank(b[u]) <= rank(a[u])
    ensures Sum(rank, b) <= Sum(rank, a)
    ensures v < |a| && rank(b[v]) < rank(a[v]) ==> Sum(rank, b) < Sum(rank, a)
  {
    if a != [] {
      SumFalls(rank, a[1..], b[1..], if v > 0 then v - 1 else |a|);
    }
  }

  /** Only the work of job `v` changes. */
  lemma {:induction false} SumChanges<T>(rank: T -> nat, a: seq<T>, b: seq<T>, v: nat)
    requires |a| == |b| && forall u: nat :: u < |a| && u != v ==> rank(b[u]) == rank(a[u])
    ensures Sum(rank, b) - Sum(rank, a) == if v < |a| then rank(b[v]) - rank(a[v]) else 0
  {
    if a != [] {
      SumChanges(rank, a[1..], b[1..], if v > 0 then v - 1 else |a|);
    }
  }

  lemma {:induction false} SumOfEqual<T>(rank: T -> nat, jobs: seq<T>, r: nat)
    requires forall u :: 0 <= u < |jobs| ==> rank(jobs[u]) == r
    ensures Sum(rank, jobs) == r * |jobs|
  {
    if jobs != [] {
      SumOfEqual(rank, jobs[1..], r);
    }
  }

  lemma {:induction false} SubsetSize<T>(a: set<T>, b: set<T>)
    requires a <= b
    ensures |a| <= |b| && (a != b ==> |a| < |b|)
  {
    if a != {} {
      var x :| x in a;
      SubsetSize(a - {x}, b - {x});
    } else if b != {} {
      var x :| x in b;
      assert |b| == |b - {x}| + 1;
    }
  }
}
