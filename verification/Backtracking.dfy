/**
 Fast backtracking, for a leader log L and a follower log F as they can meet in a run: each refusal
 lowers nextIndex, never below the first index on which the logs differ, and the number of refusals
 is bounded by the terms the follower has to give up.
 */
module Backtracking {
  import opened Types
  import opened Quorums
  import opened Protocol

  predicate TermsAscend(log: seq<Entry>) {
    forall i, j | 0 <= i <= j < |log| :: 0 < log[i].term <= log[j].term
  }

  /** Entries of one term stem from one leader: where both logs hold some, they share a prefix. */
  predicate Coherent(a: seq<Entry>, b: seq<Entry>) {
    && TermsAscend(a) && TermsAscend(b)
    && forall i: nat, j: nat | i < |a| && j < |b| && a[i].term == b[j].term :: Agree(a, b, Min(i, j) + 1)
  }

  /** How far two logs agree. */
  function Common(a: seq<Entry>, b: seq<Entry>): (m: nat)
    ensures Agree(a, b, m)
    ensures forall k | m < k :: !Agree(a, b, k)
  {
    if a == [] || b == [] || a[0] != b[0] then 0
    else
      var m := 1 + Common(a[1..], b[1..]);
      assert Agree(a, b, m) by {
        forall i | 0 <= i < m ensures a[i] == b[i] {
          if i > 0 { assert a[1..][i - 1] == b[1..][i - 1]; }
        }
      }
      assert forall k | m < k :: !Agree(a, b, k) by {
        forall k | m < k ensures !Agree(a, b, k) {
          if Agree(a, b, k) {
            assert Agree(a[1..], b[1..], k - 1);
          }
        }
      }
      m
  }

  function Whole(entries: seq<Entry>): Log {
    Log(0, 0, entries)
  }

  // ---------------------------------------------------------------- the two scans

  lemma {:induction false} StartOfRunScan(log: Log, i: nat)
    requires log.FirstIndex() <= i <= log.LastIndex()
    ensures var r := StartOfRun(log, i);
            && log.FirstIndex() <= r <= i
            && (forall j | r <= j <= i :: log.TermAt(j) == log.TermAt(i))
            && (log.FirstIndex() < r ==> log.TermAt(r - 1) != log.TermAt(i))
  {
    if log.FirstIndex() < i && log.TermAt(i - 1) == log.TermAt(i) {
      StartOfRunScan(log, i - 1);
    }
  }

  /** Giving up at the first older term misses nothing, because terms ascend. */
  lemma {:induction false} FindTermScan(log: Log, i: nat, term: nat)
    requires TermsAscend(log.entries) && i <= log.LastIndex()
    ensures match FindTerm(log, i, term)
            case Some(x) =>
              && log.FirstIndex() <= x <= i && log.At(x).term == term
              && forall j | x < j <= i :: log.At(j).term > term
            case None => forall j | log.FirstIndex() <= j <= i :: log.At(j).term != term
  {
    if log.FirstIndex() <= i && log.At(i).term > term {
      FindTermScan(log, i - 1, term);
    }
  }

  lemma FindInWhole(L: seq<Entry>, term: nat)
    requires TermsAscend(L)
    ensures match FindTerm(Whole(L), |L|, term)
            case Some(x) => 0 < x <= |L| && L[x - 1].term == term && forall j | x <= j < |L| :: L[j].term != term
            case None => forall j | 0 <= j < |L| :: L[j].term != term
  {
    FindTermScan(Whole(L), |L|, term);
    assert forall j | 0 <= j < |L| :: L[j] == Whole(L).At(j + 1);
  }

  // ---------------------------------------------------------------- one refusal

  /** The hint a refusal carries describes F around prevIndex. */
  predicate HintFits(F: seq<Entry>, prev: nat, prevTerm: nat, reply: AppendReply) {
    if reply.conflictTerm == 0 then |F| < reply.conflictIndex
    else
      && 0 < reply.conflictIndex <= prev <= |F|
      && F[prev - 1].term == reply.conflictTerm != prevTerm
      && F[reply.conflictIndex - 1].term == reply.conflictTerm
  }

  /** The leader's last entry of the conflict term comes before prevIndex, and the logs part right after it. */
  lemma PartAfterTerm(L: seq<Entry>, F: seq<Entry>, x: nat, prev: nat)
    requires Coherent(L, F) && 0 < x <= |L| && 0 < prev <= |L| && prev <= |F|
    requires L[x - 1].term == F[prev - 1].term != L[prev - 1].term
    requires forall j | x <= j < |L| :: L[j].term != L[x - 1].term
    ensures x < prev && !SameTermAt(F, L, x + 1)
  {
    assert Agree(L, F, Min(x - 1, prev - 1) + 1);
  }

  /** Wherever the hint sends nextIndex, the logs do not agree there: no shared entry is passed over. */
  lemma BacktrackLands(L: seq<Entry>, F: seq<Entry>, next: nat, prev: nat, reply: AppendReply)
    requires Coherent(L, F) && 0 < prev <= |L| && 0 < reply.conflictIndex <= prev
    requires HintFits(F, prev, L[prev - 1].term, reply)
    ensures var to := Backtrack(Whole(L), next, reply);
            0 < to <= prev && !SameTermAt(F, L, to)
  {
    assert TermsAscend(L);
    hide Coherent, TermsAscend, FindTerm, Common;
    var to := Backtrack(Whole(L), next, reply);
    if reply.conflictTerm != 0 {
      var found := FindTerm(Whole(L), |L|, reply.conflictTerm);
      FindInWhole(L, reply.conflictTerm);
      if found.Some? {
        PartAfterTerm(L, F, found.value, prev);
      }
    }
  }

  /** The request at `next` is refused by a follower in the same term. */
  predicate Refused(L: seq<Entry>, F: seq<Entry>, next: nat)
    requires 0 < next <= |L| + 1
  {
    Refusal(L, F, next).Some?
  }

  function Refusal(L: seq<Entry>, F: seq<Entry>, next: nat): Option<AppendReply>
    requires 0 < next <= |L| + 1
  {
    Conflict(Whole(F), 0, next - 1, if next == 1 then 0 else L[next - 2].term)
  }

  function NextAfter(L: seq<Entry>, F: seq<Entry>, next: nat): nat
    requires 0 < next <= |L| + 1 && Refused(L, F, next)
  {
    Backtrack(Whole(L), next, Refusal(L, F, next).value)
  }

  lemma RefusalFits(L: seq<Entry>, F: seq<Entry>, next: nat)
    requires Coherent(L, F) && 0 < next <= |L| + 1 && Refused(L, F, next)
    ensures var reply := Refusal(L, F, next).value;
            && 1 < next
            && 0 < reply.conflictIndex <= next - 1
            && HintFits(F, next - 1, L[next - 2].term, reply)
            && (reply.conflictTerm != 0 && 1 < reply.conflictIndex ==> F[reply.conflictIndex - 2].term < reply.conflictTerm)
  {
    var prev := next - 1;
    if prev <= |F| {
      StartOfRunScan(Whole(F), prev);
      var r := StartOfRun(Whole(F), prev);
      assert Whole(F).TermAt(r) == Whole(F).TermAt(prev);
    }
  }

  /** Each refusal strictly lowers nextIndex, and never below the first differing index. */
  lemma RefusalLowers(L: seq<Entry>, F: seq<Entry>, next: nat)
    requires Coherent(L, F) && 0 < next <= |L| + 1 && Refused(L, F, next)
    ensures Common(L, F) + 1 <= NextAfter(L, F, next) < next
  {
    RefusalFits(L, F, next);
    BacktrackLands(L, F, next, next - 1, Refusal(L, F, next).value);
    var m := Common(L, F);
    assert 0 < m ==> forall i | 0 <= i < m :: L[i].term == F[i].term;
  }

  predicate Holds(log: seq<Entry>, term: nat) {
    exists i :: 0 <= i < |log| && log[i].term == term
  }

  /** If the leader holds the conflict term, one refusal finds the differing index exactly. */
  lemma RefusalExact(L: seq<Entry>, F: seq<Entry>, next: nat)
    requires Coherent(L, F) && 0 < next <= |L| + 1 && Refused(L, F, next)
    requires Refusal(L, F, next).value.conflictTerm != 0 && Holds(L, Refusal(L, F, next).value.conflictTerm)
    ensures NextAfter(L, F, next) == Common(L, F) + 1
    ensures !Refused(L, F, NextAfter(L, F, next))
  {
    hide Conflict, FindTerm, StartOfRun, Common, Agree;
    RefusalLowers(L, F, next);
    var x := LastOf(L, Refusal(L, F, next).value.conflictTerm);
    assert NextAfter(L, F, next) == x + 1;
    FoundIsCommon(L, F, next, x);
    CommonAccepted(L, F, x + 1);
  }

  lemma FoundIsCommon(L: seq<Entry>, F: seq<Entry>, next: nat, x: nat)
    requires Coherent(L, F) && 0 < next <= |L| + 1 && Refused(L, F, next)
    requires Refusal(L, F, next).value.conflictTerm != 0
    requires 0 < x < next - 1 && L[x - 1].term == Refusal(L, F, next).value.conflictTerm
    ensures x <= Common(L, F)
  {
    hide FindTerm, StartOfRun;
    RefusalFits(L, F, next);
    assert Agree(L, F, Min(x - 1, next - 2) + 1);
  }

  lemma LastOf(L: seq<Entry>, term: nat) returns (x: nat)
    requires TermsAscend(L) && Holds(L, term)
    ensures FindTerm(Whole(L), |L|, term) == Some(x) && 0 < x <= |L| && L[x - 1].term == term
  {
    FindInWhole(L, term);
    x := FindTerm(Whole(L), |L|, term).value;
  }

  /** At or below the common prefix nothing is refused. */
  lemma CommonAccepted(L: seq<Entry>, F: seq<Entry>, next: nat)
    requires 0 < next <= Common(L, F) + 1
    ensures next <= |L| + 1 && !Refused(L, F, next)
  {
    if next > 1 {
      assert L[next - 2] == F[next - 2];
    }
  }

  // ---------------------------------------------------------------- all refusals

  /** How often the follower refuses before it accepts. */
  function Refusals(L: seq<Entry>, F: seq<Entry>, next: nat): nat
    requires Coherent(L, F) && 0 < next <= |L| + 1
    decreases next
  {
    if !Refused(L, F, next) then 0
    else
      RefusalLowers(L, F, next);
      1 + Refusals(L, F, NextAfter(L, F, next))
  }

  /** The distinct terms among the entries of `log` at indices lo+1 .. hi. */
  ghost function TermsIn(log: seq<Entry>, lo: nat, hi: nat): set<nat>
    requires hi <= |log|
  {
    set i | lo <= i < hi :: log[i].term
  }

  /** From within the follower's log: one refusal for each term given up. */
  lemma {:induction false} RefusalsWithin(L: seq<Entry>, F: seq<Entry>, next: nat)
    requires Coherent(L, F) && 0 < next <= |L| + 1 && next - 1 <= |F|
    ensures Refusals(L, F, next) <= |TermsIn(F, Common(L, F), next - 1)|
    decreases next
  {
    if Refused(L, F, next) {
      var m, prev := Common(L, F), next - 1;
      RefusalFits(L, F, next);
      RefusalLowers(L, F, next);
      var reply := Refusal(L, F, next).value;
      var term := reply.conflictTerm;
      var all := TermsIn(F, m, prev);
      assert F[prev - 1].term in all;
      if Holds(L, term) {
        RefusalExact(L, F, next);
        assert |all| >= |{term}| by { assert {term} <= all; SubsetSize({term}, all); }
      } else {
        var to := NextAfter(L, F, next);
        assert to == reply.conflictIndex by { FindInWhole(L, term); }
        RefusalsWithin(L, F, to);
        var rest := TermsIn(F, m, to - 1);
        assert term !in rest;
        assert rest + {term} <= all;
        SubsetSize(rest + {term}, all);
      }
    }
  }

  /** Catch-up takes at most one refusal, plus one for each term of the follower's divergent suffix. */
  lemma RefusalsBounded(L: seq<Entry>, F: seq<Entry>, next: nat)
    requires Coherent(L, F) && 0 < next <= |L| + 1
    ensures Refusals(L, F, next) <= 1 + |TermsIn(F, Common(L, F), |F|)|
  {
    var m := Common(L, F);
    if next - 1 <= |F| {
      RefusalsWithin(L, F, next);
      SubsetSize(TermsIn(F, m, next - 1), TermsIn(F, m, |F|));
    } else if Refused(L, F, next) {
      RefusalLowers(L, F, next);
      assert NextAfter(L, F, next) == |F| + 1;
      RefusalsWithin(L, F, |F| + 1);
    }
  }
}
