/** Majorities of a fixed membership. */
module Quorums {
  import opened Types

  /** The vote count startElection needs, and the commit count: total/2 + 1. */
  function Majority(total: nat): nat {
    total / 2 + 1
  }

  predicate Distinct(ids: seq<Id>) {
    forall i, j | 0 <= i < j < |ids| :: ids[i] != ids[j]
  }

  function Ids(ids: seq<Id>): set<Id> {
    set v | v in ids
  }

  lemma {:induction false} DistinctSize(ids: seq<Id>)
    requires Distinct(ids)
    ensures |Ids(ids)| == |ids|
  {
    if ids != [] {
      DistinctSize(ids[1..]);
      assert ids == [ids[0]] + ids[1..];
      assert Ids(ids) == Ids(ids[1..]) + {ids[0]};
    }
  }

  predicate IsQuorum(members: set<Id>, q: set<Id>) {
    q <= members && |q| >= Majority(|members|)
  }

  lemma SubsetSize<T>(a: set<T>, b: set<T>)
    requires a <= b
    ensures |a| <= |b|
  {
    assert b == a + (b - a);
  }

  lemma QuorumsMeet(members: set<Id>, a: set<Id>, b: set<Id>) returns (v: Id)
    requires IsQuorum(members, a) && IsQuorum(members, b)
    ensures v in a && v in b
  {
    if a !! b {
      assert |a + b| == |a| + |b|;
      SubsetSize(a + b, members);
      assert false;
    }
    v :| v in a && v in b;
  }
}
