/** Linearizable reads: when the recorded read index covers everything committed before the read. */
module ReadIndex {
  import opened Types
  import opened Quorums
  import opened Protocol
  import opened Cluster
  import opened Simulation
  import opened Steps
  import S = Safety
  import C = Core
  import CoreSteps

  /** The leader's commit index covers an entry of its own term: what the election's no-op is for. */
  predicate OwnTermCommitted(n: Node) {
    n.log.TermAt(n.commitIndex) == Some(n.term)
  }

  /** Nothing beyond the leader's commit index is from an earlier term. */
  predicate InheritedCommitted(n: Node) {
    n.log.TermAt(n.commitIndex + 1).Some? ==> n.log.TermAt(n.commitIndex + 1) == Some(n.term)
  }

  // ---------------------------------------------------------------- queries last

  lemma QueryLasts(s: State, step: Step, r: ReadId)
    requires Enabled(s, step) && r in s.queries
    ensures r in Next(s, step).queries && Next(s, step).queries[r] == s.queries[r]
  {
  }

  lemma {:induction false} QueryStays(ss: seq<State>, steps: seq<Step>, i: nat, j: nat, r: ReadId)
    requires IsRun(ss, steps) && i <= j < |ss| && r in ss[i].queries
    ensures r in ss[j].queries && ss[j].queries[r] == ss[i].queries[r]
    decreases j - i
  {
    hide Enabled, Next;
    if i < j {
      QueryStays(ss, steps, i, j - 1, r);
      S.Taken(ss, steps, j - 1);
      QueryLasts(ss[j - 1], steps[j - 1], r);
    }
  }

  // ---------------------------------------------------------------- the argument

  /** A confirmed read shuts out every later term that was elected before it began. */
  lemma NoLaterLeader(start: C.State, t: nat, q: set<Id>, u: nat)
    requires C.ElectionsOk(start) && IsQuorum(start.members, q) && u in start.leaders
    requires forall p | p in q :: Untouched(start, p, t)
    ensures u <= t
  {
    var e :| C.ElectedBy(start, u, e);
    var w := QuorumsMeet(start.members, q, e);
    assert C.Seat(u, w) in start.ballots && Untouched(start, w, t);
  }

  /** So everything committed by then lies at or below the leader's commit index. */
  lemma CoversCommits(k: C.State, n: Node, q: set<Id>, u: nat)
    requires C.Inv(k) && OfficeOk(k, n) && n.role.Leader? && n.log.base == 0 && n.log.baseTerm == 0
    requires InheritedCommitted(n) && n.commitIndex <= |n.log.entries| && (forall t | t in k.ledger :: 0 < t)
    requires IsQuorum(k.members, q) && (forall p | p in q :: Untouched(k, p, n.term)) && u in k.commits
    ensures k.commits[u] <= n.commitIndex
  {
    hide C.VotesOk, C.AcksOk, C.BallotsOk, C.SuccessionOk, C.DecisionsOk, C.LogsOk, Untouched, IsQuorum;
    var t := n.term;
    assert C.OwnEntry(k, u, k.commits[u]);
    NoLaterLeader(k, t, q, u);
    if u < t {
      CoreSteps.LeaderCompleteness(k, u, t);
      var c := k.commits[u];
      if n.commitIndex < c {
        LedgerAscends(k, t, n.commitIndex, c - 1);
      }
    }
  }

  lemma LedgerAscends(k: C.State, t: nat, i: nat, j: nat)
    requires C.Inv(k) && t in k.ledger && i <= j < |k.ledger[t]|
    ensures k.ledger[t][i].term <= k.ledger[t][j].term
  {
    CoreSteps.TermsAscend(k, k.ledger[t], t, i, j);
  }

  /** Whoever confirmed the read had not voted in a later term when it began. */
  lemma ConfirmersUntouched(s: State, sh: Shadow, r: ReadId, q: set<Id>, p: Id)
    requires Inv(s, sh) && ConfirmedBy(s, r, q) && p in q
    ensures r in sh.starts && Untouched(sh.starts[r], p, s.queries[r].term)
  {
    hide C.Inv, C.Evolves, NodesOk, OfficesOk, VotesOk, ProgressOk, ExchangesOk, FlightsOk, AllProposalsOk, ProbesOk, Untouched;
    if p != s.queries[r].leader {
      var a :| a in s.probeAnswers && a.read == r && a.peer == p && a.term <= s.queries[r].term;
      assert ProbeAnswerOk(s, sh, a);
    }
  }

  lemma LeaderFacts(s: State, sh: Shadow, v: Id)
    requires Inv(s, sh) && v in s.nodes
    ensures C.Inv(sh.core) && sh.core.members == s.nodes.Keys && OfficeOk(sh.core, s.nodes[v])
    ensures s.nodes[v].log.base == 0 && s.nodes[v].log.baseTerm == 0
    ensures s.nodes[v].commitIndex <= |s.nodes[v].log.entries|
    ensures forall t | t in sh.core.ledger :: 0 < t
  {
    About(s, sh, v);
  }

  /** When the read began, the core had committed nothing beyond the read index, in any term. */
  lemma ReadIndexCovers(ss: seq<State>, steps: seq<Step>, shs: seq<Shadow>, i: nat, j: nat, l: Id, r: ReadId, u: nat)
    requires IsRun(ss, steps) && S.Shadowed(ss, steps, shs) && i < j < |ss| && steps[i] == StartRead(l, r)
    requires l in ss[i].nodes && ss[i].nodes[l].role.Leader? && InheritedCommitted(ss[i].nodes[l])
    requires Confirmed(ss[j], r) && u in shs[i].core.commits
    ensures shs[i].core.commits[u] <= ss[i].nodes[l].commitIndex
  {
    hide IsRun, Inv, C.Inv, C.Evolves, Next, Enabled, OfficeOk, InheritedCommitted, IsQuorum, Untouched;
    S.Taken(ss, steps, i);
    StartedRead(ss[i], l, r);
    QueryStays(ss, steps, i + 1, j, r);
    assert S.Follows(shs[i], shs[i + 1], steps[i]);
    S.EvolvesAlong(ss, steps, shs, i + 1, j);
    S.EvolvesAlong(ss, steps, shs, i, j);
    var q :| ConfirmedBy(ss[j], r, q);
    forall p | p in q ensures Untouched(shs[i].core, p, ss[i].nodes[l].term) {
      ConfirmersUntouched(ss[j], shs[j], r, q, p);
    }
    LeaderFacts(ss[i], shs[i], l);
    SameMembers(ss[j], shs[j], shs[i].core);
    CoversCommits(shs[i].core, ss[i].nodes[l], q, u);
  }

  lemma SameMembers(s: State, sh: Shadow, k: C.State)
    requires Inv(s, sh) && C.Evolves(k, sh.core)
    ensures k.members == s.nodes.Keys
  {
  }

  lemma StartedRead(s: State, l: Id, r: ReadId)
    requires Enabled(s, StartRead(l, r))
    ensures l in s.nodes
    ensures r in Next(s, StartRead(l, r)).queries
    ensures Next(s, StartRead(l, r)).queries[r] == Read(l, s.nodes[l].term, s.nodes[l].commitIndex)
  {
  }

  // ---------------------------------------------------------------- theorems

  /** Having committed an entry of its own term is enough: terms ascend along the log. */
  lemma OwnTermSuffices(ss: seq<State>, steps: seq<Step>, i: nat, l: Id)
    requires IsRun(ss, steps) && i < |ss| && l in ss[i].nodes && OwnTermCommitted(ss[i].nodes[l])
    ensures ss[i].nodes[l].role.Leader? ==> InheritedCommitted(ss[i].nodes[l])
  {
    hide IsRun, Inv, C.Inv, OfficeOk;
    var shs := S.Shadows(ss, steps);
    LeaderFacts(ss[i], shs[i], l);
    var n := ss[i].nodes[l];
    if n.role.Leader? && n.commitIndex < |n.log.entries| {
      S.LeaderLog(ss[i], shs[i], l);
      TermsWithin(shs[i].core, n.term, n.commitIndex);
      if n.commitIndex > 0 {
        LedgerAscends(shs[i].core, n.term, n.commitIndex - 1, n.commitIndex);
      }
    }
  }

  lemma TermsWithin(k: C.State, t: nat, x: nat)
    requires C.Inv(k) && t in k.ledger && x < |k.ledger[t]|
    ensures k.ledger[t][x].term <= t
  {
    hide C.VotesOk, C.ElectionsOk, C.AcksOk, C.BallotsOk, C.SuccessionOk, C.DecisionsOk, C.CommitsOk;
    assert C.Grounded(k.ledger, k.ledger[t], t);
  }

  /** What a read was started with is what it goes by until the end. */
  lemma ReadRecorded(ss: seq<State>, steps: seq<Step>, i: nat, j: nat, l: Id, r: ReadId)
    requires IsRun(ss, steps) && i < j < |ss| && steps[i] == StartRead(l, r)
    ensures l in ss[i].nodes && r in ss[j].queries
    ensures ss[j].queries[r] == Read(l, ss[i].nodes[l].term, ss[i].nodes[l].commitIndex)
  {
    assert i < |steps|;
    hide IsRun, Next, Enabled;
    S.Taken(ss, steps, i);
    StartedRead(ss[i], l, r);
    QueryStays(ss, steps, i + 1, j, r);
  }

  /**
   ReadIndex safety: if nothing from an earlier term lies beyond the leader's commit index when the
   read starts, then a confirmed read's index is at least the commit index any node had reached by
   then, and at least the index of every write acknowledged by then.
   */
  lemma ReadIndexSafety(ss: seq<State>, steps: seq<Step>, i: nat, j: nat, l: Id, r: ReadId, h: nat, v: Id)
    requires IsRun(ss, steps) && i < j < |ss| && steps[i] == StartRead(l, r)
    requires l in ss[i].nodes && ss[i].nodes[l].role.Leader? && InheritedCommitted(ss[i].nodes[l])
    requires Confirmed(ss[j], r) && h <= i && v in ss[h].nodes
    ensures r in ss[j].queries && ss[h].nodes[v].commitIndex <= ss[j].queries[r].index
    ensures forall t | t in ss[h].nodes[v].proposals && Committed in ss[h].nodes[v].proposals[t].sends ::
              ss[h].nodes[v].proposals[t].entry.index <= ss[j].queries[r].index
  {
    hide IsRun, Inv, C.Inv, C.Evolves, InheritedCommitted, Confirmed;
    ReadRecorded(ss, steps, i, j, l, r);
    var shs := S.Shadows(ss, steps);
    S.EvolvesAlong(ss, steps, shs, h, i);
    var k, n := shs[i].core, ss[h].nodes[v];
    S.SeenLater(ss[h], shs[h], k, v);
    if n.commitIndex != 0 {
      var u :| C.DecidedIn(k, n.log.entries, n.commitIndex, n.term, u);
      ReadIndexCovers(ss, steps, shs, i, j, l, r, u);
    }
    About(ss[h], shs[h], v);
    forall t | t in n.proposals && Committed in n.proposals[t].sends
      ensures n.proposals[t].entry.index <= ss[j].queries[r].index
    {
      S.F.SettledLasts(shs[h].core, k, n.proposals[t].entry);
      var u :| SettledIn(k, n.proposals[t].entry, u);
      ReadIndexCovers(ss, steps, shs, i, j, l, r, u);
    }
  }

  /** Linearizable: a read that returns has applied, entry for entry, all that any node had committed when it began. */
  lemma ReadSeesEverything(ss: seq<State>, steps: seq<Step>, i: nat, j: nat, l: Id, r: ReadId, h: nat, v: Id)
    requires IsRun(ss, steps) && i < j < |ss| && steps[i] == StartRead(l, r)
    requires l in ss[i].nodes && ss[i].nodes[l].role.Leader? && InheritedCommitted(ss[i].nodes[l])
    requires Confirmed(ss[j], r) && h <= i && v in ss[h].nodes
    requires l in ss[j].nodes && r in ss[j].queries && ss[j].nodes[l].lastApplied >= ss[j].queries[r].index
    ensures ss[h].nodes[v].commitIndex <= ss[j].nodes[l].lastApplied
    ensures Agree(ss[h].nodes[v].log.entries, ss[j].nodes[l].log.entries, ss[h].nodes[v].commitIndex)
  {
    hide IsRun, InheritedCommitted, Confirmed;
    ReadIndexSafety(ss, steps, i, j, l, r, h, v);
    S.StateMachineSafety(ss, steps, h, j, v, l);
    AppliedWithinCommit(ss, steps, j, l);
  }

  lemma AppliedWithinCommit(ss: seq<State>, steps: seq<Step>, j: nat, l: Id)
    requires IsRun(ss, steps) && j < |ss| && l in ss[j].nodes
    ensures ss[j].nodes[l].lastApplied <= ss[j].nodes[l].commitIndex
  {
    hide IsRun, Inv;
    var shs := S.Shadows(ss, steps);
    About(ss[j], shs[j], l);
  }
}
