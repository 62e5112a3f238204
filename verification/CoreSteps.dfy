/** Every step of the core keeps its invariant and takes nothing back. */
module CoreSteps {
  import opened Types
  import opened Quorums
  import opened Core

  // ---------------------------------------------------------------- what lasts

  lemma EvolvesTransitive(a: State, b: State, c: State)
    requires Evolves(a, b) && Evolves(b, c)
    ensures Evolves(a, c)
  {
    forall t | t in a.ledger ensures t in c.ledger && Agree(a.ledger[t], c.ledger[t], |a.ledger[t]|) {
      assert t in b.ledger && t in c.ledger;
    }
    forall x | x in c.acks && x.node in a.replicas && x.term < a.replicas[x.node].term
      ensures x in a.acks && c.acks[x] == a.acks[x]
    {
      assert x.node in b.replicas;
      assert x in b.acks;
    }
  }

  lemma BlockedLasts(s: State, s': State, t: nat, k: nat)
    requires Evolves(s, s') && Blocked(s, t, k)
    ensures Blocked(s', t, k)
  {
    var q :| BlockedBy(s, t, k, q);
    forall v | v in q ensures v in s'.replicas && t < s'.replicas[v].term && !Acked(s', t, v, k) {
      assert v in s.replicas && !Acked(s, t, v, k);
    }
    assert BlockedBy(s', t, k, q);
  }

  lemma KeptLasts(s: State, s': State, t: nat, k: nat, log: seq<Entry>)
    requires Evolves(s, s') && OwnEntry(s, t, k) && KeptIn(s, t, k, log)
    ensures OwnEntry(s', t, k) && KeptIn(s', t, k, log)
  {
    if !Agree(s.ledger[t], log, k) {
      BlockedLasts(s, s', t, k);
    }
  }

  lemma GroundedLasts(s: State, s': State, log: seq<Entry>, bound: nat)
    requires Evolves(s, s') && Grounded(s.ledger, log, bound)
    ensures Grounded(s'.ledger, log, bound)
  {
    forall i | 0 <= i < |log|
      ensures log[i].term in s'.ledger && Agree(log, s'.ledger[log[i].term], i + 1)
    {
      assert Agree(log, s.ledger[log[i].term], i + 1);
    }
  }

  lemma DecidedLasts(s: State, s': State, log: seq<Entry>, c: nat, bound: nat)
    requires Evolves(s, s') && CommitsOk(s) && Decided(s, log, c, bound)
    ensures Decided(s', log, c, bound)
  {
    if c != 0 {
      var t :| DecidedIn(s, log, c, bound, t);
      DecidedInLasts(s, s', log, c, bound, t);
    }
  }

  lemma DecidedInLasts(s: State, s': State, log: seq<Entry>, c: nat, bound: nat, t: nat)
    requires Evolves(s, s') && DecidedIn(s, log, c, bound, t)
    ensures DecidedIn(s', log, c, bound, t)
  {
  }

  /** What a node has committed is decided. */
  lemma KnownDecided(s: State, v: Id)
    requires DecisionsOk(s) && v in s.replicas
    ensures Decided(s, s.replicas[v].log, s.replicas[v].commit, s.replicas[v].term)
  {
    assert Known(s, v, s.replicas[v].commit);
  }

  // ---------------------------------------------------------------- consequences

  /** Log matching: an index and a term determine everything up to that index. */
  lemma LogMatching(ledger: map<nat, seq<Entry>>, a: seq<Entry>, b: seq<Entry>, x: nat, y: nat, i: nat)
    requires Grounded(ledger, a, x) && Grounded(ledger, b, y) && SameTermAt(a, b, i)
    ensures Agree(a, b, i)
  {
    var t := a[i - 1].term;
    assert Agree(a, ledger[t], i) && Agree(b, ledger[t], i);
  }

  /** Terms never decrease along a grounded log. */
  lemma TermsAscend(s: State, log: seq<Entry>, bound: nat, i: nat, j: nat)
    requires LogsOk(s) && Grounded(s.ledger, log, bound) && i <= j < |log|
    ensures log[i].term <= log[j].term
  {
    var t := log[j].term;
    assert Agree(log, s.ledger[t], j + 1);
    assert log[i] == s.ledger[t][i];
    assert Grounded(s.ledger, s.ledger[t], t);
  }

  /** A committed index cannot be blocked: the two quorums would share a member. */
  lemma CommittedNotBlocked(s: State, t: nat, k: nat, q: set<Id>)
    requires AckedBy(s, t, k, q)
    ensures !Blocked(s, t, k)
  {
    if Blocked(s, t, k) {
      var b :| BlockedBy(s, t, k, b);
      var v := QuorumsMeet(s.members, q, b);
      assert false;
    }
  }

  /** Leader completeness: what a leader committed is in the log of every later leader. */
  lemma LeaderCompleteness(s: State, t: nat, u: nat)
    requires Inv(s) && t in s.commits && u in s.ledger && t <= u
    ensures t in s.ledger && Agree(s.ledger[t], s.ledger[u], s.commits[t])
  {
    var k := s.commits[t];
    assert OwnEntry(s, t, k);
    if t < u {
      var q :| AckedBy(s, t, k, q);
      CommittedNotBlocked(s, t, k, q);
      assert KeptIn(s, t, k, s.ledger[u]);
    }
  }

  /** Everything ever decided lies on one line. */
  lemma DecisionsAgree(s: State, a: seq<Entry>, i: nat, x: nat, b: seq<Entry>, j: nat, y: nat)
    requires Inv(s) && Decided(s, a, i, x) && Decided(s, b, j, y) && i <= j
    ensures i <= |a| || i == 0
    ensures j <= |b| || j == 0
    ensures Agree(a, b, i)
  {
    hide Inv;
    if i != 0 {
      var t :| DecidedIn(s, a, i, x, t);
      var u :| DecidedIn(s, b, j, y, u);
      if t <= u {
        LeaderCompleteness(s, t, u);
        AgreeVia(a, s.ledger[t], s.ledger[u], b, i);
      } else {
        LeaderCompleteness(s, u, t);
        AgreeVia(b, s.ledger[u], s.ledger[t], a, i);
      }
    }
  }

  lemma AgreeVia(a: seq<Entry>, x: seq<Entry>, y: seq<Entry>, b: seq<Entry>, i: nat)
    requires Agree(x, a, i) && Agree(x, y, i) && Agree(y, b, i)
    ensures Agree(a, b, i) && Agree(b, a, i)
  {
  }

  /** A term has one leader. */
  lemma OneLeader(s: State, t: nat, c: Id, q: set<Id>)
    requires t in s.leaders && ElectionsOk(s) && IsQuorum(s.members, q)
    requires forall v | v in q :: Seat(t, v) in s.ballots && s.ballots[Seat(t, v)].candidate == c
    ensures s.leaders[t] == c
  {
    var p :| ElectedBy(s, t, p);
    var v := QuorumsMeet(s.members, p, q);
    assert Seat(t, v) in s.ballots;
  }

  // ---------------------------------------------------------------- Bump, Cast

  lemma BumpEvolves(s: State, v: Id, t: nat)
    requires ShapeOk(s) && VotesOk(s) && v in s.replicas && s.replicas[v].term < t
    ensures Evolves(s, Bump(s, v, t)) && ShapeOk(Bump(s, v, t)) && VotesOk(Bump(s, v, t))
  {
  }

  lemma BumpKeeps(s: State, v: Id, t: nat)
    requires Inv(s) && v in s.replicas && s.replicas[v].term < t
    ensures Inv(Bump(s, v, t)) && Evolves(s, Bump(s, v, t))
  {
    hide Evolves, VotesOk, ElectionsOk, LogsOk, AcksOk, BallotsOk, SuccessionOk, CommitsOk, DecisionsOk;
    var s' := Bump(s, v, t);
    BumpEvolves(s, v, t);
    FrameElections(s, s');
    FrameLogs(s, s');
    FrameAcks(s, s');
    FrameBallots(s, s');
    FrameSuccession(s, s');
    FrameCommits(s, s');
    assert forall w | w in s.replicas && Leading(s', w) :: w != v by {
      NotYetLed(s, v, t);
    }
    FrameDecisions(s, s');
  }

  lemma NotYetLed(s: State, v: Id, t: nat)
    requires ElectionsOk(s) && v in s.replicas && s.replicas[v].term < t
    ensures t in s.leaders ==> s.leaders[t] != v
  {
  }

  // Invariants that outlive a step which leaves their subject alone.

  lemma FrameElections(s: State, s': State)
    requires ElectionsOk(s) && Evolves(s, s') && s'.leaders == s.leaders
    ensures ElectionsOk(s')
  {
    forall t | t in s'.leaders ensures exists q :: ElectedBy(s', t, q) {
      var q :| ElectedBy(s, t, q);
      assert ElectedBy(s', t, q);
    }
  }

  lemma FrameLogs(s: State, s': State)
    requires LogsOk(s) && Evolves(s, s') && s'.ledger == s.ledger && s'.replicas.Keys == s.replicas.Keys
    requires forall v | v in s'.replicas :: s'.replicas[v].log == s.replicas[v].log
    requires forall b | b in s'.ballots && b !in s.ballots ::
               b.node in s.replicas && b.term == s.replicas[b.node].term && s'.ballots[b].log == s.replicas[b.node].log
    ensures LogsOk(s')
  {
    forall b | b in s'.ballots ensures Grounded(s'.ledger, s'.ballots[b].log, b.term) {
      if b in s.ballots {
        assert Grounded(s.ledger, s.ballots[b].log, b.term);
      }
    }
  }

  lemma FrameAcks(s: State, s': State)
    requires AcksOk(s) && Evolves(s, s') && s'.ledger == s.ledger && s'.acks == s.acks
    requires forall v | v in s.replicas :: s'.replicas[v].log == s.replicas[v].log
    ensures AcksOk(s')
  {
    forall b, k: nat | b in s'.acks && k <= s'.acks[b] && OwnEntry(s', b.term, k)
      ensures KeptIn(s', b.term, k, s'.replicas[b.node].log)
    {
      assert OwnEntry(s, b.term, k);
      KeptLasts(s, s', b.term, k, s.replicas[b.node].log);
    }
  }

  lemma FrameCommits(s: State, s': State)
    requires CommitsOk(s) && Evolves(s, s') && s'.commits == s.commits
    ensures CommitsOk(s')
  {
    forall t | t in s'.commits
      ensures OwnEntry(s', t, s'.commits[t]) && exists q :: AckedBy(s', t, s'.commits[t], q)
    {
      var q :| AckedBy(s, t, s.commits[t], q);
      assert AckedBy(s', t, s'.commits[t], q);
    }
  }

  lemma FrameBallots(s: State, s': State)
    requires BallotsOk(s) && Evolves(s, s')
    requires s'.ledger == s.ledger && s'.acks == s.acks && s'.ballots == s.ballots
    ensures BallotsOk(s')
  {
    forall b, t: nat, k: nat | b in s'.ballots && t < b.term && OwnEntry(s', t, k) && Acked(s', t, b.node, k)
      ensures KeptIn(s', t, k, s'.ballots[b].log)
    {
      assert OwnEntry(s, t, k) && Acked(s, t, b.node, k);
      KeptLasts(s, s', t, k, s.ballots[b].log);
    }
  }

  lemma FrameSuccession(s: State, s': State)
    requires SuccessionOk(s) && Evolves(s, s') && s'.ledger == s.ledger
    ensures SuccessionOk(s')
  {
    forall t: nat, u: nat, k: nat | t < u && u in s'.ledger && OwnEntry(s', t, k)
      ensures KeptIn(s', t, k, s'.ledger[u])
    {
      assert OwnEntry(s, t, k);
      KeptLasts(s, s', t, k, s.ledger[u]);
    }
  }

  lemma FrameDecisions(s: State, s': State)
    requires DecisionsOk(s) && CommitsOk(s) && Evolves(s, s') && s'.replicas.Keys == s.replicas.Keys
    requires forall v | v in s.replicas ::
               && s'.replicas[v].commit == s.replicas[v].commit
               && s.replicas[v].log <= s'.replicas[v].log
    requires forall v | v in s.replicas && Leading(s', v) ::
               s'.replicas[v].term == s.replicas[v].term && (Leading(s, v) || s.replicas[v].term !in s.ledger)
    ensures DecisionsOk(s')
  {
    hide CommitsOk;
    forall v | v in s'.replicas ensures Known(s', v, s'.replicas[v].commit) {
      var r, r' := s.replicas[v], s'.replicas[v];
      assert Known(s, v, s.replicas[v].commit);
      if r.commit != 0 {
        var t: nat :| DecidedIn(s, r.log, r.commit, r.term, t) && (Leading(s, v) ==> t <= r.term);
        DecidedInLasts(s, s', r.log, r.commit, r.term, t);
        assert DecidedIn(s', r'.log, r'.commit, r'.term, t);
      }
    }
  }

  // ---------------------------------------------------------------- Cast

  lemma CastEvolves(s: State, v: Id, c: Id)
    requires ShapeOk(s) && VotesOk(s) && v in s.replicas && c != NOBODY && s.replicas[v].vote == NOBODY
    ensures Evolves(s, Cast(s, v, c)) && ShapeOk(Cast(s, v, c)) && VotesOk(Cast(s, v, c))
    ensures Seat(s.replicas[v].term, v) !in s.ballots
  {
  }

  lemma CastBallots(s: State, v: Id, c: Id)
    requires BallotsOk(s) && AcksOk(s) && v in s.replicas && Evolves(s, Cast(s, v, c))
    requires Seat(s.replicas[v].term, v) !in s.ballots
    ensures BallotsOk(Cast(s, v, c))
  {
    var s' := Cast(s, v, c);
    forall b, t: nat, k: nat | b in s'.ballots && t < b.term && OwnEntry(s', t, k) && Acked(s', t, b.node, k)
      ensures KeptIn(s', t, k, s'.ballots[b].log)
    {
      assert OwnEntry(s, t, k) && Acked(s, t, b.node, k);
      if b !in s.ballots {
        assert Seat(t, v) in s.acks && KeptIn(s, t, k, s.replicas[v].log);
      }
      KeptLasts(s, s', t, k, s'.ballots[b].log);
    }
  }

  lemma CastKeeps(s: State, v: Id, c: Id)
    requires Inv(s) && v in s.replicas && c != NOBODY && s.replicas[v].vote == NOBODY
    ensures Inv(Cast(s, v, c)) && Evolves(s, Cast(s, v, c))
  {
    hide Evolves, VotesOk, ElectionsOk, LogsOk, AcksOk, BallotsOk, SuccessionOk, CommitsOk, DecisionsOk;
    var s' := Cast(s, v, c);
    CastEvolves(s, v, c);
    FrameElections(s, s');
    FrameLogs(s, s');
    FrameAcks(s, s');
    CastBallots(s, v, c);
    FrameSuccession(s, s');
    FrameCommits(s, s');
    FrameDecisions(s, s');
  }

  // ---------------------------------------------------------------- Commit, Learn

  lemma CommitVotes(s: State, t: nat, k: nat)
    requires VotesOk(s)
    ensures VotesOk(Commit(s, t, k))
  {
  }

  lemma CommitCommits(s: State, t: nat, k: nat, q: set<Id>)
    requires CommitsOk(s) && CanCommit(s, t, k, q)
    ensures CommitsOk(Commit(s, t, k)) && Evolves(s, Commit(s, t, k))
  {
    var s' := Commit(s, t, k);
    forall u | u in s'.commits
      ensures OwnEntry(s', u, s'.commits[u]) && exists p :: AckedBy(s', u, s'.commits[u], p)
    {
      if u == t {
        assert AckedBy(s', u, k, q);
      } else {
        var p :| AckedBy(s, u, s.commits[u], p);
        assert AckedBy(s', u, s.commits[u], p);
      }
    }
  }

  lemma CommitKeeps(s: State, t: nat, k: nat, q: set<Id>)
    requires Inv(s) && CanCommit(s, t, k, q)
    ensures Inv(Commit(s, t, k)) && Evolves(s, Commit(s, t, k))
  {
    hide Evolves, VotesOk, ElectionsOk, LogsOk, AcksOk, BallotsOk, SuccessionOk, CommitsOk, DecisionsOk;
    var s' := Commit(s, t, k);
    CommitCommits(s, t, k, q);
    CommitVotes(s, t, k);
    FrameElections(s, s');
    FrameLogs(s, s');
    FrameAcks(s, s');
    FrameBallots(s, s');
    FrameSuccession(s, s');
    FrameDecisions(s, s');
  }

  lemma LearnDecisions(s: State, v: Id, c: nat)
    requires CommitsOk(s) && DecisionsOk(s) && CanLearn(s, v, c)
    ensures DecisionsOk(Learn(s, v, c)) && Evolves(s, Learn(s, v, c))
  {
    hide CommitsOk;
    var s' := Learn(s, v, c);
    forall w | w in s'.replicas ensures Known(s', w, s'.replicas[w].commit) {
      var r, i := s.replicas[w], s'.replicas[w].commit;
      assert Known(s, w, i);
      if i != 0 {
        var t: nat :| DecidedIn(s, r.log, i, r.term, t) && (Leading(s, w) ==> t <= r.term);
        DecidedInLasts(s, s', r.log, i, r.term, t);
      }
    }
  }

  lemma LearnKeeps(s: State, v: Id, c: nat)
    requires Inv(s) && CanLearn(s, v, c)
    ensures Inv(Learn(s, v, c)) && Evolves(s, Learn(s, v, c))
  {
    hide Evolves, ElectionsOk, LogsOk, AcksOk, BallotsOk, SuccessionOk, CommitsOk, DecisionsOk, Decided;
    var s' := Learn(s, v, c);
    LearnDecisions(s, v, c);
    FrameElections(s, s');
    FrameLogs(s, s');
    FrameAcks(s, s');
    FrameBallots(s, s');
    FrameSuccession(s, s');
    FrameCommits(s, s');
  }

  // ---------------------------------------------------------------- Extend

  /** A ledger grows by an entry of its own term, at its own leader. */
  lemma ExtendEvolves(s: State, c: Id, e: Entry)
    requires ShapeOk(s) && VotesOk(s) && AcksOk(s) && CanExtend(s, c, e)
    ensures Evolves(s, Extend(s, c, e)) && ShapeOk(Extend(s, c, e)) && VotesOk(Extend(s, c, e))
  {
    hide KeptIn, OwnEntry;
  }

  /** A log that grows together with its term's ledger leaves every other log grounded. */
  lemma LogsGrow(s: State, s': State, c: Id, log: seq<Entry>)
    requires LogsOk(s) && Evolves(s, s') && c in s.replicas && Grounded(s'.ledger, log, s.replicas[c].term)
    requires s'.replicas == s.replicas[c := s.replicas[c].(log := log)]
    requires s'.ledger == s.ledger[s.replicas[c].term := log] && s'.ballots == s.ballots
    ensures LogsOk(s')
  {
    hide Grounded, Evolves;
    forall v | v in s'.replicas && v != c ensures Grounded(s'.ledger, s.replicas[v].log, s.replicas[v].term) {
      GroundedLasts(s, s', s.replicas[v].log, s.replicas[v].term);
    }
    forall t | t in s.ledger ensures Grounded(s'.ledger, s.ledger[t], t) {
      GroundedLasts(s, s', s.ledger[t], t);
    }
    forall b | b in s.ballots ensures Grounded(s'.ledger, s.ballots[b].log, b.term) {
      GroundedLasts(s, s', s.ballots[b].log, b.term);
    }
  }

  lemma GroundedTop(ledger: map<nat, seq<Entry>>, log: seq<Entry>, e: Entry)
    requires Grounded(ledger, log, e.term) && e.index == |log| + 1 && e.term in ledger && ledger[e.term] == log + [e]
    ensures Grounded(ledger, log + [e], e.term)
  {
  }

  lemma ExtendLogs(s: State, c: Id, e: Entry)
    requires LogsOk(s) && CanExtend(s, c, e) && Evolves(s, Extend(s, c, e))
    ensures LogsOk(Extend(s, c, e))
  {
    hide Grounded, Evolves;
    var s', r := Extend(s, c, e), s.replicas[c];
    GroundedLasts(s, s', r.log, r.term);
    GroundedTop(s'.ledger, r.log, e);
    LogsGrow(s, s', c, r.log + [e]);
  }

  /** The new index was acknowledged by nobody who has left the term, so a later leader's voters block it. */
  lemma NewIndexBlocked(s: State, c: Id, e: Entry, u: nat)
    requires ShapeOk(s) && VotesOk(s) && ElectionsOk(s) && AcksOk(s) && CanExtend(s, c, e)
    requires u in s.ledger && s.replicas[c].term < u
    ensures Blocked(Extend(s, c, e), e.term, e.index)
  {
    var s' := Extend(s, c, e);
    assert u in s.leaders;
    var q :| ElectedBy(s, u, q);
    forall v | v in q ensures v in s'.replicas && e.term < s'.replicas[v].term && !Acked(s', e.term, v, e.index) {
      assert Seat(u, v) in s.ballots;
    }
    assert BlockedBy(s', e.term, e.index, q);
  }

  lemma ExtendSuccession(s: State, c: Id, e: Entry)
    requires ShapeOk(s) && VotesOk(s) && ElectionsOk(s) && AcksOk(s) && SuccessionOk(s)
    requires CanExtend(s, c, e) && Evolves(s, Extend(s, c, e))
    ensures SuccessionOk(Extend(s, c, e))
  {
    hide Evolves, ElectionsOk, VotesOk, AcksOk;
    var s' := Extend(s, c, e);
    forall t: nat, u: nat, k: nat | t < u && u in s'.ledger && OwnEntry(s', t, k)
      ensures KeptIn(s', t, k, s'.ledger[u])
    {
      if t == e.term && k == e.index {
        NewIndexBlocked(s, c, e, u);
      } else {
        assert OwnEntry(s, t, k);
        assert KeptIn(s, t, k, s.ledger[u]);
        KeptLasts(s, s', t, k, s.ledger[u]);
      }
    }
  }

  lemma ExtendAcks(s: State, c: Id, e: Entry)
    requires ShapeOk(s) && AcksOk(s) && CanExtend(s, c, e) && Evolves(s, Extend(s, c, e))
    ensures AcksOk(Extend(s, c, e))
  {
    var s' := Extend(s, c, e);
    forall b, k: nat | b in s'.acks && k <= s'.acks[b] && OwnEntry(s', b.term, k)
      ensures KeptIn(s', b.term, k, s'.replicas[b.node].log)
    {
      if b != Seat(e.term, c) {
        assert OwnEntry(s, b.term, k);
        assert KeptIn(s, b.term, k, s.replicas[b.node].log);
        KeptLasts(s, s', b.term, k, s.replicas[b.node].log);
      }
    }
  }

  lemma ExtendBallots(s: State, c: Id, e: Entry)
    requires ShapeOk(s) && VotesOk(s) && AcksOk(s) && BallotsOk(s) && CanExtend(s, c, e)
    requires Evolves(s, Extend(s, c, e))
    ensures BallotsOk(Extend(s, c, e))
  {
    var s' := Extend(s, c, e);
    forall b, t: nat, k: nat | b in s'.ballots && t < b.term && OwnEntry(s', t, k) && Acked(s', t, b.node, k)
      ensures KeptIn(s', t, k, s'.ballots[b].log)
    {
      assert b in s.ballots && t < s.replicas[b.node].term;
      assert Acked(s, t, b.node, k);
      assert OwnEntry(s, t, k);
      KeptLasts(s, s', t, k, s.ballots[b].log);
    }
  }

  lemma ExtendKeeps(s: State, c: Id, e: Entry)
    requires Inv(s) && CanExtend(s, c, e)
    ensures Inv(Extend(s, c, e)) && Evolves(s, Extend(s, c, e))
  {
    hide Evolves, VotesOk, ElectionsOk, LogsOk, AcksOk, BallotsOk, SuccessionOk, CommitsOk, DecisionsOk;
    var s' := Extend(s, c, e);
    ExtendEvolves(s, c, e);
    FrameElections(s, s');
    ExtendLogs(s, c, e);
    ExtendAcks(s, c, e);
    ExtendBallots(s, c, e);
    ExtendSuccession(s, c, e);
    FrameCommits(s, s');
    FrameDecisions(s, s');
  }

  // ---------------------------------------------------------------- Accept

  /**
   Unconditional truncation loses no agreement: what the follower shared with its leader's ledger
   lies within the first j entries.
   */
  lemma TruncationKeepsAgreement(s: State, v: Id, j: nat, k: nat)
    requires LogsOk(s) && CanAccept(s, v, j)
    requires Agree(s.ledger[s.replicas[v].term], s.replicas[v].log, k)
    ensures k <= j
    ensures Agree(s.ledger[s.replicas[v].term], Accept(s, v, j).replicas[v].log, k)
  {
  }

  lemma AcceptEvolves(s: State, v: Id, j: nat)
    requires ShapeOk(s) && VotesOk(s) && CanAccept(s, v, j)
    ensures Evolves(s, Accept(s, v, j)) && ShapeOk(Accept(s, v, j)) && VotesOk(Accept(s, v, j))
  {
  }

  lemma AcceptLogs(s: State, v: Id, j: nat)
    requires LogsOk(s) && CanAccept(s, v, j)
    ensures LogsOk(Accept(s, v, j))
  {
    var s' := Accept(s, v, j);
    var t := s.replicas[v].term;
    assert Grounded(s.ledger, s.ledger[t], t);
    forall i | 0 <= i < j ensures Agree(s.ledger[t][..j], s.ledger[s.ledger[t][i].term], i + 1) {
      assert Agree(s.ledger[t], s.ledger[s.ledger[t][i].term], i + 1);
    }
  }

  /** Whatever another term's leader may still commit and v held, v still holds. */
  lemma AcceptKeepsAck(s: State, v: Id, j: nat, t: nat, k: nat)
    requires LogsOk(s) && SuccessionOk(s) && CanAccept(s, v, j) && Evolves(s, Accept(s, v, j))
    requires t <= s.replicas[v].term && OwnEntry(s, t, k) && KeptIn(s, t, k, s.replicas[v].log)
    ensures KeptIn(Accept(s, v, j), t, k, Accept(s, v, j).replicas[v].log)
  {
    var s' := Accept(s, v, j);
    var u := s.replicas[v].term;
    if Blocked(s, t, k) {
      BlockedLasts(s, s', t, k);
    } else {
      if t < u {
        assert KeptIn(s, t, k, s.ledger[u]);
      }
      assert Agree(s.ledger[u], s.replicas[v].log, k);
      TruncationKeepsAgreement(s, v, j, k);
    }
  }

  lemma AcceptAcks(s: State, v: Id, j: nat)
    requires LogsOk(s) && SuccessionOk(s) && AcksOk(s) && CanAccept(s, v, j) && Evolves(s, Accept(s, v, j))
    ensures AcksOk(Accept(s, v, j))
  {
    hide Evolves, LogsOk, SuccessionOk;
    var s' := Accept(s, v, j);
    forall b, k: nat | b in s'.acks && k <= s'.acks[b] && OwnEntry(s', b.term, k)
      ensures KeptIn(s', b.term, k, s'.replicas[b.node].log)
    {
      assert OwnEntry(s, b.term, k);
      if b.node == v {
        if b == Seat(s.replicas[v].term, v) && k <= j {
        } else {
          assert b in s.acks && KeptIn(s, b.term, k, s.replicas[v].log);
          AcceptKeepsAck(s, v, j, b.term, k);
        }
      } else {
        assert KeptIn(s, b.term, k, s.replicas[b.node].log);
        KeptLasts(s, s', b.term, k, s.replicas[b.node].log);
      }
    }
  }

  lemma AcceptBallots(s: State, v: Id, j: nat)
    requires VotesOk(s) && BallotsOk(s) && CanAccept(s, v, j) && Evolves(s, Accept(s, v, j))
    ensures BallotsOk(Accept(s, v, j))
  {
    var s' := Accept(s, v, j);
    forall b, t: nat, k: nat | b in s'.ballots && t < b.term && OwnEntry(s', t, k) && Acked(s', t, b.node, k)
      ensures KeptIn(s', t, k, s'.ballots[b].log)
    {
      assert b in s.ballots && t < s.replicas[b.node].term;
      assert OwnEntry(s, t, k) && Acked(s, t, b.node, k);
      KeptLasts(s, s', t, k, s.ballots[b].log);
    }
  }

  lemma AcceptDecisions(s: State, v: Id, j: nat)
    requires Inv(s) && CanAccept(s, v, j) && Evolves(s, Accept(s, v, j))
    ensures DecisionsOk(Accept(s, v, j))
  {
    hide VotesOk, ElectionsOk, AcksOk, BallotsOk, SuccessionOk, LogsOk, CommitsOk;
    var s' := Accept(s, v, j);
    forall w | w in s'.replicas ensures Known(s', w, s'.replicas[w].commit) {
      var r := s.replicas[w];
      assert Known(s, w, r.commit);
      if r.commit != 0 {
        var t: nat :| DecidedIn(s, r.log, r.commit, r.term, t) && (Leading(s, w) ==> t <= r.term);
        if w != v {
          DecidedInLasts(s, s', r.log, r.commit, r.term, t);
        } else {
          if t <= r.term {
            LeaderCompleteness(s, t, r.term);
          }
          TruncationKeepsAgreement(s, v, j, r.commit);
          assert DecidedIn(s', s'.replicas[w].log, r.commit, r.term, t);
        }
      }
    }
  }

  lemma AcceptKeeps(s: State, v: Id, j: nat)
    requires Inv(s) && CanAccept(s, v, j)
    ensures Inv(Accept(s, v, j)) && Evolves(s, Accept(s, v, j))
  {
    hide Evolves, VotesOk, ElectionsOk, LogsOk, AcksOk, BallotsOk, SuccessionOk, CommitsOk, DecisionsOk;
    var s' := Accept(s, v, j);
    AcceptEvolves(s, v, j);
    FrameElections(s, s');
    AcceptLogs(s, v, j);
    AcceptAcks(s, v, j);
    AcceptBallots(s, v, j);
    FrameSuccession(s, s');
    FrameCommits(s, s');
    AcceptDecisions(s, v, j);
  }

  // ---------------------------------------------------------------- Elect

  lemma ElectEvolves(s: State, c: Id, e: Entry, q: set<Id>)
    requires ShapeOk(s) && VotesOk(s) && AcksOk(s) && CanElect(s, c, e, q)
    ensures Evolves(s, Elect(s, c, e)) && ShapeOk(Elect(s, c, e)) && VotesOk(Elect(s, c, e))
  {
    hide KeptIn, OwnEntry, IsQuorum, UpToDate;
  }

  lemma ElectElections(s: State, c: Id, e: Entry, q: set<Id>)
    requires ShapeOk(s) && ElectionsOk(s) && CanElect(s, c, e, q) && Evolves(s, Elect(s, c, e))
    ensures ElectionsOk(Elect(s, c, e))
  {
    var s' := Elect(s, c, e);
    forall t | t in s'.leaders ensures exists p :: ElectedBy(s', t, p) {
      if t == e.term {
        assert ElectedBy(s', t, q);
      } else {
        var p :| ElectedBy(s, t, p);
        assert ElectedBy(s', t, p);
      }
    }
  }

  lemma ElectLogs(s: State, c: Id, e: Entry, q: set<Id>)
    requires LogsOk(s) && CanElect(s, c, e, q) && Evolves(s, Elect(s, c, e))
    ensures LogsOk(Elect(s, c, e))
  {
    hide Grounded, Evolves, IsQuorum, UpToDate;
    var s', r := Elect(s, c, e), s.replicas[c];
    GroundedLasts(s, s', r.log, r.term);
    GroundedTop(s'.ledger, r.log, e);
    LogsGrow(s, s', c, r.log + [e]);
  }

  /** An up-to-date candidate holds what its voter held of an earlier leader's entries. */
  lemma VoterPassesOn(s: State, c: seq<Entry>, x: nat, v: seq<Entry>, y: nat, t: nat, k: nat)
    requires LogsOk(s) && SuccessionOk(s) && OwnEntry(s, t, k)
    requires Grounded(s.ledger, c, x) && Grounded(s.ledger, v, y) && UpToDate(c, v)
    requires Agree(s.ledger[t], v, k)
    ensures KeptIn(s, t, k, c)
  {
    TermsAscend(s, v, y, k - 1, |v| - 1);
    var u := LastTermOf(c);
    assert t <= LastTermOf(v) <= u && c != [];
    assert Agree(c, s.ledger[u], |c|);
    if u == LastTermOf(v) {
      assert Agree(v, s.ledger[u], |v|);
    } else {
      assert KeptIn(s, t, k, s.ledger[u]);
    }
  }

  /** Every voter left earlier terms; if one acknowledged index k there, the candidate has it. */
  lemma CandidateKeeps(s: State, c: Id, e: Entry, q: set<Id>, t: nat, k: nat)
    requires ShapeOk(s) && VotesOk(s) && LogsOk(s) && BallotsOk(s) && SuccessionOk(s) && CanElect(s, c, e, q)
    requires t < e.term && OwnEntry(s, t, k)
    ensures KeptIn(s, t, k, s.replicas[c].log)
  {
    if v :| v in q && Acked(s, t, v, k) {
      var b := Seat(e.term, v);
      assert KeptIn(s, t, k, s.ballots[b].log);
      if !Blocked(s, t, k) {
        VoterPassesOn(s, s.replicas[c].log, s.replicas[c].term, s.ballots[b].log, e.term, t, k);
      }
    } else {
      assert BlockedBy(s, t, k, q);
    }
  }

  lemma ElectSuccession(s: State, c: Id, e: Entry, q: set<Id>)
    requires ShapeOk(s) && VotesOk(s) && ElectionsOk(s) && AcksOk(s)
    requires LogsOk(s) && BallotsOk(s) && SuccessionOk(s) && CanElect(s, c, e, q)
    requires Evolves(s, Elect(s, c, e))
    ensures SuccessionOk(Elect(s, c, e))
  {
    hide VotesOk, ElectionsOk, AcksOk, BallotsOk, Evolves, IsQuorum, Blocked;
    var s' := Elect(s, c, e);
    forall t: nat, u: nat, k: nat | t < u && u in s'.ledger && OwnEntry(s', t, k)
      ensures KeptIn(s', t, k, s'.ledger[u])
    {
      if t == e.term {
        assert k == e.index by {
          assert Grounded(s.ledger, s.replicas[c].log, e.term);
        }
        LaterVotersBlock(s, c, e, u);
      } else {
        assert OwnEntry(s, t, k);
        if u == e.term {
          CandidateKeeps(s, c, e, q, t, k);
          KeptLasts(s, s', t, k, s.replicas[c].log);
        } else {
          KeptLasts(s, s', t, k, s.ledger[u]);
        }
      }
    }
  }

  /** A leader elected late, below an existing later leader, finds its own entry blocked. */
  lemma LaterVotersBlock(s: State, c: Id, e: Entry, u: nat)
    requires ShapeOk(s) && VotesOk(s) && ElectionsOk(s) && AcksOk(s) && c in s.replicas
    requires e.term == s.replicas[c].term && e.term !in s.ledger && e.index == |s.replicas[c].log| + 1
    requires u in s.ledger && e.term < u
    ensures Blocked(Elect(s, c, e), e.term, e.index)
  {
    var s' := Elect(s, c, e);
    assert u in s.leaders;
    var q :| ElectedBy(s, u, q);
    forall v | v in q ensures v in s'.replicas && e.term < s'.replicas[v].term && !Acked(s', e.term, v, e.index) {
      assert Seat(u, v) in s.ballots;
    }
    assert BlockedBy(s', e.term, e.index, q);
  }

  lemma KeptLonger(s: State, t: nat, k: nat, log: seq<Entry>, e: Entry)
    requires t in s.ledger && KeptIn(s, t, k, log)
    ensures KeptIn(s, t, k, log + [e])
  {
  }

  lemma KeptByItself(s: State, t: nat, k: nat)
    requires t in s.ledger && k <= |s.ledger[t]|
    ensures KeptIn(s, t, k, s.ledger[t])
  {
  }

  lemma ElectAcks(s: State, c: Id, e: Entry, q: set<Id>)
    requires ShapeOk(s) && AcksOk(s) && CanElect(s, c, e, q) && Evolves(s, Elect(s, c, e))
    ensures AcksOk(Elect(s, c, e))
  {
    hide Evolves, KeptIn, IsQuorum;
    var s' := Elect(s, c, e);
    forall b, k: nat | b in s'.acks && k <= s'.acks[b] && OwnEntry(s', b.term, k)
      ensures KeptIn(s', b.term, k, s'.replicas[b.node].log)
    {
      if b == Seat(e.term, c) {
        KeptByItself(s', b.term, k);
      } else {
        assert OwnEntry(s, b.term, k);
        assert KeptIn(s, b.term, k, s.replicas[b.node].log);
        KeptLasts(s, s', b.term, k, s.replicas[b.node].log);
        KeptLonger(s', b.term, k, s.replicas[b.node].log, e);
      }
    }
  }

  lemma ElectBallots(s: State, c: Id, e: Entry, q: set<Id>)
    requires ShapeOk(s) && VotesOk(s) && AcksOk(s) && BallotsOk(s) && CanElect(s, c, e, q)
    requires Evolves(s, Elect(s, c, e))
    ensures BallotsOk(Elect(s, c, e))
  {
    var s' := Elect(s, c, e);
    forall b, t: nat, k: nat | b in s'.ballots && t < b.term && OwnEntry(s', t, k) && Acked(s', t, b.node, k)
      ensures KeptIn(s', t, k, s'.ballots[b].log)
    {
      assert b in s.ballots && t < s.replicas[b.node].term;
      assert Acked(s, t, b.node, k);
      assert OwnEntry(s, t, k);
      KeptLasts(s, s', t, k, s.ballots[b].log);
    }
  }

  lemma ElectKeeps(s: State, c: Id, e: Entry, q: set<Id>)
    requires Inv(s) && CanElect(s, c, e, q)
    ensures Inv(Elect(s, c, e)) && Evolves(s, Elect(s, c, e))
  {
    hide Evolves, VotesOk, ElectionsOk, LogsOk, AcksOk, BallotsOk, SuccessionOk, CommitsOk, DecisionsOk;
    var s' := Elect(s, c, e);
    ElectEvolves(s, c, e, q);
    ElectElections(s, c, e, q);
    ElectLogs(s, c, e, q);
    ElectAcks(s, c, e, q);
    ElectBallots(s, c, e, q);
    ElectSuccession(s, c, e, q);
    FrameCommits(s, s');
    FrameDecisions(s, s');
  }

  lemma InitHolds(members: set<Id>)
    requires NOBODY !in members
    ensures Inv(Init(members))
  {
  }
}
