/** The commit candidate is the greatest index a majority holds, for every cluster size. */
module MajorityRule {
  import opened Types
  import opened Quorums
  import opened Protocol

  predicate Ascending(xs: seq<nat>) {
    forall i, j | 0 <= i < j < |xs| :: xs[i] <= xs[j]
  }

  lemma {:induction false} InsertKeeps(x: nat, xs: seq<nat>, k: nat)
    ensures HeldBy(Insert(x, xs), k) == HeldBy([x] + xs, k)
    ensures multiset(Insert(x, xs)) == multiset([x] + xs)
  {
    assert ([x] + xs)[1..] == xs;
    if xs != [] && x > xs[0] {
      var r := Insert(x, xs[1..]);
      InsertKeeps(x, xs[1..], k);
      assert xs == [xs[0]] + xs[1..];
      assert ([xs[0]] + r)[1..] == r;
      assert ([x] + xs[1..])[1..] == xs[1..];
    }
  }

  lemma {:induction false} InsertAscends(x: nat, xs: seq<nat>, low: nat)
    requires Ascending(xs) && low <= x && (xs != [] ==> low <= xs[0])
    ensures Ascending(Insert(x, xs))
    ensures forall i | 0 <= i < |Insert(x, xs)| :: low <= Insert(x, xs)[i]
  {
    if xs != [] && x > xs[0] {
      InsertAscends(x, xs[1..], xs[0]);
    }
  }

  lemma {:induction false} SortKeeps(xs: seq<nat>, k: nat)
    ensures Ascending(Sort(xs))
    ensures HeldBy(Sort(xs), k) == HeldBy(xs, k)
    ensures multiset(Sort(xs)) == multiset(xs)
  {
    if xs != [] {
      SortKeeps(xs[1..], k);
      InsertKeeps(xs[0], Sort(xs[1..]), k);
      InsertAscends(xs[0], Sort(xs[1..]), 0);
      assert xs == [xs[0]] + xs[1..];
      assert ([xs[0]] + Sort(xs[1..]))[1..] == Sort(xs[1..]);
    }
  }

  /** In an ascending list, exactly the elements from some position on reach k. */
  lemma {:induction false} HeldByAscending(xs: seq<nat>, p: nat, k: nat)
    requires Ascending(xs) && p < |xs|
    ensures k <= xs[p] ==> HeldBy(xs, k) >= |xs| - p
    ensures k > xs[p] ==> HeldBy(xs, k) < |xs| - p
  {
    if p > 0 {
      HeldByAscending(xs[1..], p - 1, k);
    } else if k <= xs[0] {
      AllHeld(xs, k);
    }
  }

  lemma {:induction false} AllHeld(xs: seq<nat>, k: nat)
    requires forall i | 0 <= i < |xs| :: k <= xs[i]
    ensures HeldBy(xs, k) == |xs|
  {
    if xs != [] {
      AllHeld(xs[1..], k);
    }
  }

  /** A majority holds index k exactly when k does not exceed the commit candidate. */
  lemma MajorityIndexIsGreatest(xs: seq<nat>, k: nat)
    requires xs != []
    ensures HeldBy(xs, k) >= Majority(|xs|) <==> k <= MajorityIndex(xs)
  {
    SortKeeps(xs, k);
    HeldByAscending(Sort(xs), (|xs| - 1) / 2, k);
  }

  /** The commit candidate is one of the match indices. */
  lemma MajorityIndexIsHeld(xs: seq<nat>)
    requires xs != []
    ensures MajorityIndex(xs) in xs
  {
    SortKeeps(xs, 0);
    assert MajorityIndex(xs) in multiset(Sort(xs));
  }

  /** The members behind a count. */
  ghost function Holders(ids: seq<Id>, xs: seq<nat>, k: nat): set<Id>
    requires |ids| == |xs|
  {
    set i | 0 <= i < |ids| && xs[i] >= k :: ids[i]
  }

  lemma {:induction false} HoldersCounted(ids: seq<Id>, xs: seq<nat>, k: nat)
    requires |ids| == |xs| && Distinct(ids)
    ensures |Holders(ids, xs, k)| == HeldBy(xs, k)
  {
    if ids != [] {
      HoldersCounted(ids[1..], xs[1..], k);
      var rest := Holders(ids[1..], xs[1..], k);
      assert ids[0] !in rest;
      assert Holders(ids, xs, k) == rest + if xs[0] >= k then {ids[0]} else {} by {
        forall v | v in rest ensures v in Holders(ids, xs, k) {
          var i :| 0 <= i < |ids[1..]| && xs[1..][i] >= k && ids[1..][i] == v;
          assert ids[i + 1] == v && xs[i + 1] >= k;
        }
        forall v | v in Holders(ids, xs, k) ensures v in rest + if xs[0] >= k then {ids[0]} else {} {
          var i :| 0 <= i < |ids| && xs[i] >= k && ids[i] == v;
          if i > 0 {
            assert ids[1..][i - 1] == v && xs[1..][i - 1] >= k;
          }
        }
      }
    }
  }
}
