/** Counting facts about sets of node numbers below n. */
module Quorums {

  ghost predicate Below(q: set<nat>, n: nat) {
    forall v :: v in q ==> v < n
  }

  ghost predicate Majority(q: set<nat>, n: nat) {
    2 * |q| > n && Below(q, n)
  }

  lemma {:induction false} BelowSize(q: set<nat>, n: nat)
    requires Below(q, n)
    ensures |q| <= n
  {
    if n == 0 {
      assert q == {};
    } else {
      BelowSize(q - {n - 1}, n - 1);
    }
  }

  /** Any two majorities share a member. */
  lemma MajoritiesMeet(q1: set<nat>, q2: set<nat>, n: nat) returns (v: nat)
    requires Majority(q1, n) && Majority(q2, n)
    ensures v in q1 && v in q2
  {
    if q1 * q2 == {} {
      assert |q1 + q2| == |q1| + |q2|;
      BelowSize(q1 + q2, n);
      assert false;
    }
    v :| v in q1 * q2;
  }

  lemma {:induction false} SubsetSize<T>(a: set<T>, b: set<T>)
    requires a <= b
    ensures |a| <= |b|
  {
    assert b == a + (b - a);
    assert |b| == |a| + |b - a|;
  }

  /** n distinct numbers below n are all of them. */
  lemma {:induction false} Pigeonhole(q: set<nat>, n: nat, v: nat)
    requires Below(q, n) && |q| == n && v < n
    ensures v in q
  {
    if v !in q {
      BelowSize(q + {v}, n);
      assert false;
    }
  }

  /** A set with every number below n has at least n members. */
  lemma {:induction false} AtLeastAll(q: set<nat>, n: nat)
    requires forall v: nat :: v < n ==> v in q
    ensures |q| >= n
  {
    if n > 0 {
      AtLeastAll(q - {n - 1}, n - 1);
    }
  }
}
