/**
 The heartbeat of a read carries no entries but does carry a commit index, which the follower caps by its own last
 index only. What the sender can check on its own log to know that this harms nobody, and why that is enough.
 */
module Heartbeats {
  import opened Types
  import opened Protocol
  import B = Backtracking
  import C = Core
  import CoreSteps

  /** The term the sender puts beside prevIndex: 0 where its log has no such entry. */
  function PrevTerm(L: seq<Entry>, prev: nat): nat {
    if 0 < prev <= |L| then L[prev - 1].term else 0
  }

  /** The heartbeat in term t of a node whose log is L now. */
  function Heartbeat(L: seq<Entry>, t: nat, leader: Id, prev: nat, c: nat): AppendRequest {
    AppendRequest(t, leader, prev, PrevTerm(L, prev), [], c)
  }

  /** The term at index prev; before the first entry, the first term there can be. */
  function TermBelow(L: seq<Entry>, prev: nat): nat
    requires prev <= |L|
  {
    if prev == 0 then 1 else L[prev - 1].term
  }

  /** The entries after prev up to c have the term at prev. */
  predicate OneTerm(L: seq<Entry>, prev: nat, c: nat) {
    prev < c <= |L| && forall i | prev <= i < c :: L[i].term == TermBelow(L, prev)
  }

  /**
   For a leader in term t: the commit index does not pass prevIndex; or it does so within one term, and from that term on
   the log skips none before the last it holds below the leader's own.
   */
  predicate Seamless(L: seq<Entry>, t: nat, prev: nat, c: nat) {
    || c <= prev
    || (OneTerm(L, prev, c) && forall u, v | TermBelow(L, prev) <= u < v < t && B.Holds(L, v) :: B.Holds(L, u))
  }

  /** In particular: a prevIndex of the leader's own term, and a log with nothing between that term and the leader's. */
  lemma SeamlessCases(L: seq<Entry>, t: nat, prev: nat, c: nat)
    requires B.TermsAscend(L) && (forall i | 0 <= i < |L| :: L[i].term <= t) && prev <= |L| && c <= |L|
    ensures c <= prev ==> Seamless(L, t, prev, c)
    ensures 0 < prev && L[prev - 1].term == t ==> Seamless(L, t, prev, c)
    ensures OneTerm(L, prev, c) && (forall v | TermBelow(L, prev) < v < t :: !B.Holds(L, v)) ==> Seamless(L, t, prev, c)
  {
  }

  /** No node in a term up to t can pass the check: the sender has no term at prevIndex, or a later one. */
  predicate Refused(t: nat, prev: nat, prevTerm: nat) {
    0 < prev && (prevTerm == 0 || t < prevTerm)
  }

  /**
   For a node that has led term t and is in term `now`: its log skips no term from t on, or, if the commit index passes
   prevIndex, no term from the one there on and the commit index stays within that.
   */
  predicate Unbroken(L: seq<Entry>, t: nat, now: nat, prev: nat, c: nat) {
    || c == 0
    || Refused(t, prev, PrevTerm(L, prev))
    || (c <= prev && forall u | t <= u < now :: B.Holds(L, u))
    || (OneTerm(L, prev, c) && forall u | TermBelow(L, prev) <= u < now :: B.Holds(L, u))
  }

  // ---------------------------------------------------------------- what protects a follower

  /** The first term whose leaders matter: the heartbeat's, or the one at prev if entries after prev are announced. */
  function From(t: nat, prev: nat, prevTerm: nat, c: nat): nat {
    var a := if prev == 0 then 1 else prevTerm;
    if c <= prev || t < a then t else a
  }

  /**
   The c entries announced were committed in term w, are what follows from the check at prev, and were held by every leader
   from the first that matters up to w.
   */
  predicate AnnouncedBy(k: C.State, t: nat, prev: nat, prevTerm: nat, c: nat, w: nat) {
    && w in k.commits && w in k.ledger && c <= k.commits[w] && c <= |k.ledger[w]|
    && (0 < prev ==> prevTerm in k.ledger && Agree(k.ledger[prevTerm], k.ledger[w], Min(c, prev)))
    && forall u | From(t, prev, prevTerm, c) <= u < w :: u in k.ledger && Agree(k.ledger[u], k.ledger[w], c)
  }

  /** A heartbeat that can do no harm. */
  ghost predicate Announced(k: C.State, t: nat, prev: nat, prevTerm: nat, c: nat) {
    c == 0 || Refused(t, prev, prevTerm) || exists w :: AnnouncedBy(k, t, prev, prevTerm, c, w)
  }

  lemma AnnouncedLasts(k: C.State, k': C.State, t: nat, prev: nat, prevTerm: nat, c: nat)
    requires C.Evolves(k, k') && Announced(k, t, prev, prevTerm, c)
    ensures Announced(k', t, prev, prevTerm, c)
  {
    if c != 0 && !Refused(t, prev, prevTerm) {
      var w :| AnnouncedBy(k, t, prev, prevTerm, c, w);
      assert AnnouncedBy(k', t, prev, prevTerm, c, w);
    }
  }

  /** Whoever passes the check, in the heartbeat's term, shares all it may commit: its last entry there stems from a leader that held it. */
  lemma AnnouncedShares(k: C.State, p: Id, t: nat, prev: nat, prevTerm: nat, c: nat, w: nat, x: nat)
    requires C.Inv(k) && (forall v | v in k.ledger :: 0 < v) && AnnouncedBy(k, t, prev, prevTerm, c, w)
    requires p in k.replicas && k.replicas[p].term <= t && Passes(k.replicas[p].log, prev, prevTerm)
    requires x <= c && x <= |k.replicas[p].log|
    ensures C.DecidedIn(k, k.replicas[p].log, x, t, w)
  {
    hide C.VotesOk, C.ElectionsOk, C.AcksOk, C.BallotsOk, C.SuccessionOk, C.DecisionsOk, C.CommitsOk, C.ShapeOk;
    var F := k.replicas[p].log;
    assert C.Grounded(k.ledger, F, k.replicas[p].term);
    if x > prev {
      var u := F[x - 1].term;
      if prev > 0 {
        CoreSteps.TermsAscend(k, F, k.replicas[p].term, prev - 1, x - 1);
      }
      if u >= w {
        CoreSteps.LeaderCompleteness(k, w, u);
      }
    }
  }

  predicate Passes(log: seq<Entry>, prev: nat, prevTerm: nat) {
    prev == 0 || (prev <= |log| && log[prev - 1].term == prevTerm)
  }

  lemma RefusedFails(k: C.State, p: Id, t: nat, prev: nat, prevTerm: nat)
    requires C.Inv(k) && (forall v | v in k.ledger :: 0 < v) && p in k.replicas && k.replicas[p].term <= t
    requires Passes(k.replicas[p].log, prev, prevTerm)
    ensures !Refused(t, prev, prevTerm)
  {
    hide C.VotesOk, C.ElectionsOk, C.AcksOk, C.BallotsOk, C.SuccessionOk, C.DecisionsOk, C.CommitsOk, C.ShapeOk;
    assert C.Grounded(k.ledger, k.replicas[p].log, k.replicas[p].term);
  }

  // ---------------------------------------------------------------- what the sender can check

  /** An entry of term u in a log shows that u's leader held all before it. */
  lemma HolderHeld(k: C.State, v: Id, u: nat, c: nat)
    requires C.LogsOk(k) && v in k.replicas && B.Holds(k.replicas[v].log, u)
    requires 0 < c <= |k.replicas[v].log| && k.replicas[v].log[c - 1].term <= u
    ensures u in k.ledger && Agree(k.replicas[v].log, k.ledger[u], c)
  {
    var r := k.replicas[v];
    assert C.Grounded(k.ledger, r.log, r.term);
    var i: nat :| i < |r.log| && r.log[i].term == u;
    if i < c - 1 {
      CoreSteps.TermsAscend(k, r.log, r.term, i, c - 1);
    }
  }

  lemma PrevHeld(k: C.State, v: Id, prev: nat)
    requires C.LogsOk(k) && v in k.replicas && 0 < prev <= |k.replicas[v].log|
    ensures var log := k.replicas[v].log; log[prev - 1].term in k.ledger && Agree(log, k.ledger[log[prev - 1].term], prev)
    ensures forall i | 0 <= i < prev :: k.replicas[v].log[i].term <= k.replicas[v].log[prev - 1].term
  {
    var r := k.replicas[v];
    assert C.Grounded(k.ledger, r.log, r.term);
    forall i: nat | i < prev ensures r.log[i].term <= r.log[prev - 1].term {
      CoreSteps.TermsAscend(k, r.log, r.term, i, prev - 1);
    }
  }

  /** A log unbroken from the heartbeat's term on shows that what the node knows to be committed is safe to announce. */
  lemma UnbrokenAnnounced(k: C.State, v: Id, t: nat, prev: nat)
    requires C.Inv(k) && 0 < t && v in k.replicas && Unbroken(k.replicas[v].log, t, k.replicas[v].term, prev, k.replicas[v].commit)
    ensures Announced(k, t, prev, PrevTerm(k.replicas[v].log, prev), k.replicas[v].commit)
  {
    hide C.VotesOk, C.ElectionsOk, C.AcksOk, C.BallotsOk, C.SuccessionOk, C.CommitsOk, C.ShapeOk, C.LogsOk, B.Holds;
    var r := k.replicas[v];
    var L, c, pt := r.log, r.commit, PrevTerm(r.log, prev);
    CoreSteps.KnownDecided(k, v);
    hide C.DecisionsOk;
    if c != 0 && !Refused(t, prev, pt) {
      var w: nat :| C.DecidedIn(k, L, c, r.term, w);
      if prev > 0 {
        PrevHeld(k, v, prev);
      }
      forall u | From(t, prev, pt, c) <= u < w ensures u in k.ledger && Agree(k.ledger[u], k.ledger[w], c) {
        if u < r.term {
          HolderHeld(k, v, u, c);
        }
      }
      assert AnnouncedBy(k, t, prev, pt, c, w);
    }
  }

  /** A leader in office: its log is its term's ledger, and its commit index covers what it committed itself. */
  ghost predicate InOffice(k: C.State, l: Id, t: nat, c: nat) {
    && C.Inv(k) && (forall v | v in k.ledger :: 0 < v)
    && C.Leading(k, l) && t in k.ledger && (t in k.commits ==> k.commits[t] <= c)
    && var r := k.replicas[l]; r.term == t && r.log == k.ledger[t] && r.commit == c
  }

  /** Its commit index was learned in an earlier term, unless the entry there is its own; the log shows which terms those may be. */
  lemma SeamlessAnnounced(k: C.State, l: Id, t: nat, prev: nat, c: nat)
    requires InOffice(k, l, t, c) && prev <= |k.ledger[t]| && Seamless(k.ledger[t], t, prev, c)
    ensures Announced(k, t, prev, PrevTerm(k.ledger[t], prev), c)
  {
    hide C.VotesOk, C.ElectionsOk, C.AcksOk, C.BallotsOk, C.SuccessionOk, C.CommitsOk, C.ShapeOk, C.LogsOk, B.Holds;
    var L := k.ledger[t];
    var pt := PrevTerm(L, prev);
    if c != 0 {
      assert C.Known(k, l, c);
      var w: nat :| C.DecidedIn(k, L, c, t, w) && w <= t;
      hide C.DecisionsOk;
      if prev > 0 {
        PrevHeld(k, l, prev);
      }
      if c > prev {
        CommitTerm(k, t, w, c);
        CoreSteps.LeaderCompleteness(k, w, t);
        forall u | TermBelow(L, prev) <= u < w ensures u in k.ledger && Agree(k.ledger[u], k.ledger[w], c) {
          HoldsOwn(k, w, t);
          HolderHeld(k, l, u, c);
        }
      }
      assert AnnouncedBy(k, t, prev, pt, c, w);
    }
  }

  lemma HoldsOwn(k: C.State, w: nat, t: nat)
    requires C.CommitsOk(k) && w in k.commits && w in k.ledger && t in k.ledger && Agree(k.ledger[w], k.ledger[t], k.commits[w])
    ensures B.Holds(k.ledger[t], w)
  {
    assert C.OwnEntry(k, w, k.commits[w]);
    assert k.ledger[t][k.commits[w] - 1].term == w;
  }

  /** The committing term's own entry is in t's ledger, at or above c; it is t itself only if the entry at c is. */
  lemma CommitTerm(k: C.State, t: nat, w: nat, c: nat)
    requires C.Inv(k) && t in k.ledger && 0 < c <= |k.ledger[t]| && C.DecidedIn(k, k.ledger[t], c, t, w)
    requires t in k.commits ==> k.commits[t] <= c
    ensures w in k.ledger && c <= k.commits[w] <= |k.ledger[w]| && k.ledger[w][k.commits[w] - 1].term == w
    ensures k.ledger[t][c - 1].term <= w && (w == t ==> k.ledger[t][c - 1].term == t)
  {
    hide C.VotesOk, C.ElectionsOk, C.AcksOk, C.BallotsOk, C.SuccessionOk, C.DecisionsOk, C.ShapeOk;
    assert C.OwnEntry(k, w, k.commits[w]);
    assert C.Grounded(k.ledger, k.ledger[w], w);
  }
}
