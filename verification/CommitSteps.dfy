/** Commit, apply, crash, and the client's side of a proposal. */
module CommitSteps {
  import opened Types
  import opened Quorums
  import opened Protocol
  import opened Cluster
  import opened Simulation
  import opened Frames
  import opened Steps
  import opened ElectionSteps
  import opened ReplicationSteps
  import opened FollowerSteps
  import opened MajorityRule
  import C = Core
  import CoreSteps

  // ---------------------------------------------------------------- TryCommit

  /** The members behind the commit candidate. */
  ghost function CommitHolders(n: Node): set<Id> {
    Holders([n.id] + n.peers, MatchList(n), MajorityIndex(MatchList(n)))
  }

  lemma MatchListAt(n: Node, i: nat)
    requires i < |n.peers| + 1
    ensures MatchList(n)[i] == if i == 0 then n.log.LastIndex() else MatchIndex(n, n.peers[i - 1])
  {
  }

  /** They are a quorum, and each has matched that far. */
  lemma HoldersQuorum(n: Node, members: set<Id>)
    requires Distinct(n.peers) && Ids(n.peers) == members - {n.id} && n.id in members
    ensures IsQuorum(members, CommitHolders(n))
    ensures forall w | w in CommitHolders(n) ::
              if w == n.id then MajorityIndex(MatchList(n)) <= n.log.LastIndex()
              else w in n.peers && MajorityIndex(MatchList(n)) <= MatchIndex(n, w)
  {
    var ids, xs := [n.id] + n.peers, MatchList(n);
    var m := MajorityIndex(xs);
    assert n.id !in n.peers by { assert n.id !in Ids(n.peers); }
    forall i, j | 0 <= i < j < |ids| ensures ids[i] != ids[j] {
      if i == 0 { assert ids[j] in n.peers; }
    }
    HoldersCounted(ids, xs, m);
    MajorityIndexIsGreatest(xs, m);
    DistinctSize(n.peers);
    assert members == Ids(n.peers) + {n.id};
    forall w | w in CommitHolders(n)
      ensures w in members
      ensures if w == n.id then m <= n.log.LastIndex() else w in n.peers && m <= MatchIndex(n, w)
    {
      var i :| 0 <= i < |ids| && xs[i] >= m && ids[i] == w;
      MatchListAt(n, i);
      if i > 0 { assert w in n.peers; assert w in Ids(n.peers); }
    }
  }

  lemma CommitQuorum(s: State, sh: Shadow, v: Id)
    requires Inv(s, sh) && v in s.nodes && s.nodes[v].role.Leader?
    requires var n := s.nodes[v]; var m := MajorityIndex(MatchList(n));
             m > n.commitIndex && n.log.TermAt(m) == Some(n.term)
    ensures var n := s.nodes[v];
            C.CanCommit(sh.core, n.term, MajorityIndex(MatchList(n)), CommitHolders(n))
  {
    hide Inv, C.Inv, C.ShapeOk, ProposalsOk, MatchList, CommitHolders, MajorityIndex;
    var k, n := sh.core, s.nodes[v];
    var m, q := MajorityIndex(MatchList(n)), CommitHolders(n);
    About(s, sh, v);
    HoldersQuorum(n, s.nodes.Keys);
    forall w | w in q ensures C.Acked(k, n.term, w, m) {
      if w != v {
        PeerFacts(s, sh, v, w);
      }
    }
  }

  lemma CommitLocal(k: C.State, v: Id, t: nat, m: nat, q: set<Id>)
    requires C.CanCommit(k, t, m, q) && v in k.replicas && t in k.leaders && k.leaders[t] == v
    ensures Local(k, C.Commit(k, t, m), v, NO_LINK)
  {
  }

  /** A leader commits index m of its term and moves its own commit index there. */
  lemma Committing(k: C.State, n: Node, m: nat, q: set<Id>) returns (k': C.State)
    requires C.Inv(k) && n.id in k.replicas && Mirrors(k.replicas[n.id], n) && OfficeOk(k, n) && n.role.Leader?
    requires C.CanCommit(k, n.term, m, q)
    ensures k' == C.Learn(C.Commit(k, n.term, m), n.id, m)
    ensures C.Inv(k') && Local(k, k', n.id, NO_LINK)
  {
    hide C.Inv, C.Evolves, Local, C.CanCommit, C.Decided;
    var c := C.Commit(k, n.term, m);
    CoreSteps.CommitKeeps(k, n.term, m, q);
    CommitLocal(k, n.id, n.term, m, q);
    CommittedDecides(k, n, m, q);
    k' := C.Learn(c, n.id, m);
    CoreSteps.LearnKeeps(c, n.id, m);
    LearnLocal(c, n.id, m, NO_LINK);
    LocalTransitive(k, c, k', n.id, NO_LINK);
  }

  lemma CommittedDecides(k: C.State, n: Node, m: nat, q: set<Id>)
    requires n.id in k.replicas && Mirrors(k.replicas[n.id], n) && OfficeOk(k, n) && n.role.Leader?
    requires C.CanCommit(k, n.term, m, q)
    ensures C.CanLearn(C.Commit(k, n.term, m), n.id, m)
  {
    assert C.DecidedIn(C.Commit(k, n.term, m), n.log.entries, m, n.term, n.term);
  }

  lemma CommitNode(s: State, s': State, k: C.State, v: Id, m: nat)
    requires v in s.nodes && v in k.replicas && NodeOk(s, k, v) && OfficeOk(k, s.nodes[v]) && s.nodes[v].role.Leader?
    requires s.nodes[v].commitIndex < m && s'.nodes == s.nodes[v := s.nodes[v].(commitIndex := m)]
    ensures var k' := C.Learn(C.Commit(k, s.nodes[v].term, m), v, m);
            NodeOk(s', k', v) && OfficeOk(k', s'.nodes[v])
  {
  }

  lemma TryCommitStep(s: State, s': State, sh: Shadow, v: Id) returns (k': C.State)
    requires Inv(s, sh) && v in s.nodes && s' == s.(nodes := s.nodes[v := AdvanceCommit(s.nodes[v])])
    ensures Inv(s', sh.(core := k')) && C.Evolves(sh.core, k')
  {
    hide Inv, C.Inv, C.Evolves, C.ShapeOk, Local, NodeOk, OfficeOk, ProposalsOk, PeerOk, FlightOk, ExchangeOk,
         MatchList, MajorityIndex, CommitHolders, C.CanCommit;
    var k, n := sh.core, s.nodes[v];
    var m := MajorityIndex(MatchList(n));
    if AdvanceCommit(n) == n {
      assert s'.nodes == s.nodes;
      k' := k;
      assert sh.(core := k) == sh;
      StutterStep(s, s', sh);
      SelfEvolves(k);
    } else {
      About(s, sh, v);
      Mirrored(s, k, v);
      CommitQuorum(s, sh, v);
      k' := Committing(k, n, m, CommitHolders(n));
      CommitNode(s, s', k, v, m);
      LocalEvolves(k, k', v, NO_LINK);
      ProposalsMoveOn(k, k', n, s'.nodes[v]);
      OwnPeers(s, sh, k', v, s'.nodes[v]);
      OwnFlights(s, s', sh, v);
      Assemble(s, s', sh, k', v, NO_LINK);
    }
  }

  lemma SelfEvolves(k: C.State)
    ensures C.Evolves(k, k)
  {
  }

  lemma ProposalsMoveOn(k: C.State, k': C.State, n: Node, n': Node)
    requires C.Evolves(k, k') && ProposalsOk(k, n)
    requires n'.waiters == n.waiters && n'.proposals == n.proposals && n'.log == n.log && n'.role == n.role
    ensures ProposalsOk(k', n')
  {
    ProposalsLast(k, k', n);
  }

  // ---------------------------------------------------------------- ApplyOne

  /** What is applied is settled: the waiter at that index waits for just this entry. */
  lemma AppliedSettled(k: C.State, n: Node, i: nat)
    requires C.Decided(k, n.log.entries, n.commitIndex, n.term) && n.log.base == 0
    requires 0 < i <= n.commitIndex && i <= |n.log.entries| && n.log.entries[i - 1].index == i
    ensures Settled(k, n.log.entries[i - 1])
  {
    var t :| C.DecidedIn(k, n.log.entries, n.commitIndex, n.term, t);
    assert SettledIn(k, n.log.entries[i - 1], t);
  }

  lemma NotifyProposals(k: C.State, n: Node, i: nat)
    requires ProposalsOk(k, n) && 0 < i <= |n.log.entries| && Settled(k, n.log.entries[i - 1])
    ensures ProposalsOk(k, NotifyWriter(n.(lastApplied := i), i))
  {
    var n' := NotifyWriter(n.(lastApplied := i), i);
    forall j | j in n'.waiters
      ensures n'.waiters[j] in n'.proposals && n'.proposals[n'.waiters[j]] == n.proposals[n.waiters[j]]
    {
      assert j in n.waiters && n.proposals[n.waiters[j]].entry.index == j;
    }
  }

  lemma ApplyNode(s: State, s': State, sh: Shadow, v: Id)
    requires Inv(s, sh) && v in s.nodes && s'.nodes == s.nodes[v := ApplyNext(s.nodes[v])]
    ensures v in sh.core.replicas && NodeOk(s', sh.core, v) && OfficeOk(sh.core, s'.nodes[v])
    ensures ProposalsOk(sh.core, s'.nodes[v])
  {
    hide Inv, C.VotesOk, C.ElectionsOk, C.AcksOk, C.BallotsOk, C.SuccessionOk, C.CommitsOk, C.ShapeOk;
    var k, n := sh.core, s.nodes[v];
    About(s, sh, v);
    var i := n.lastApplied + 1;
    if i <= n.commitIndex {
      assert C.Grounded(k.ledger, n.log.entries, n.term);
      AppliedSettled(k, n, i);
      NotifyProposals(k, n, i);
    }
  }

  lemma ApplyStep(s: State, s': State, sh: Shadow, v: Id)
    requires Inv(s, sh) && v in s.nodes && s' == s.(nodes := s.nodes[v := ApplyNext(s.nodes[v])])
    ensures Inv(s', sh)
  {
    hide Inv, NodeOk, OfficeOk, ProposalsOk, ApplyNext;
    ApplyNode(s, s', sh, v);
    ApplyShape(s.nodes[v]);
    QuietStep(s, s', sh, v);
  }

  lemma ApplyShape(n: Node)
    ensures var n' := ApplyNext(n);
            n' == n.(lastApplied := n'.lastApplied, waiters := n'.waiters, proposals := n'.proposals)
  {
  }

  /** A step that changes nothing of a node but what it has applied and whom it has told. */
  lemma QuietStep(s: State, s': State, sh: Shadow, v: Id)
    requires Inv(s, sh) && v in s.nodes && v in s'.nodes && v in sh.core.replicas
    requires s' == s.(nodes := s.nodes[v := s'.nodes[v]])
    requires var n := s.nodes[v];
             s'.nodes[v] == n.(lastApplied := s'.nodes[v].lastApplied, waiters := s'.nodes[v].waiters,
                               proposals := s'.nodes[v].proposals)
    requires NodeOk(s', sh.core, v) && OfficeOk(sh.core, s'.nodes[v]) && ProposalsOk(sh.core, s'.nodes[v])
    ensures Inv(s', sh)
  {
    hide Inv, C.Inv, C.Evolves, C.ShapeOk, Local, NodeOk, OfficeOk, ProposalsOk, PeerOk, FlightOk, ExchangeOk;
    About(s, sh, v);
    StutterLocal(sh.core, v, NO_LINK);
    OwnPeers(s, sh, sh.core, v, s'.nodes[v]);
    OwnFlights(s, s', sh, v);
    Assemble(s, s', sh, sh.core, v, NO_LINK);
    assert sh.(core := sh.core) == sh;
  }

  lemma CancelNode(s: State, s': State, sh: Shadow, v: Id, ticket: Ticket)
    requires Inv(s, sh) && v in s.nodes && s'.nodes == s.nodes[v := Cancel(s.nodes[v], ticket)]
    ensures v in sh.core.replicas && NodeOk(s', sh.core, v) && OfficeOk(sh.core, s'.nodes[v])
    ensures ProposalsOk(sh.core, s'.nodes[v])
  {
    hide Inv, C.Inv, C.ShapeOk;
    About(s, sh, v);
  }

  lemma CancelStep(s: State, s': State, sh: Shadow, v: Id, ticket: Ticket)
    requires Inv(s, sh) && v in s.nodes && s' == s.(nodes := s.nodes[v := Cancel(s.nodes[v], ticket)])
    ensures Inv(s', sh)
  {
    CancelNode(s, s', sh, v, ticket);
    QuietStep(s, s', sh, v);
  }

  // ---------------------------------------------------------------- Crash

  lemma CrashNode(s: State, s': State, k: C.State, v: Id)
    requires v in s.nodes && v in k.replicas && NodeOk(s, k, v) && OfficeOk(k, s.nodes[v])
    requires s'.nodes == s.nodes[v := Protocol.Restart(s.nodes[v])]
    ensures NodeOk(s', C.Learn(k, v, 0), v) && OfficeOk(C.Learn(k, v, 0), s'.nodes[v])
    ensures CandidacyOk(s.nodes[v], s'.nodes[v])
  {
  }

  lemma CrashProposals(k: C.State, k': C.State, n: Node)
    requires C.Evolves(k, k') && ProposalsOk(k, n)
    ensures ProposalsOk(k', Protocol.Restart(n))
  {
    ProposalsLast(k, k', n);
  }

  lemma CrashStep(s: State, s': State, sh: Shadow, v: Id) returns (k': C.State)
    requires Inv(s, sh) && v in s.nodes && s' == s.(nodes := s.nodes[v := Protocol.Restart(s.nodes[v])])
    ensures Inv(s', sh.(core := k')) && C.Evolves(sh.core, k')
  {
    hide Inv, C.Inv, C.Evolves, C.ShapeOk, Local, NodeOk, OfficeOk, ProposalsOk, PeerOk, FlightOk, ExchangeOk;
    About(s, sh, v);
    k' := C.Learn(sh.core, v, 0);
    CoreSteps.LearnKeeps(sh.core, v, 0);
    LearnLocal(sh.core, v, 0, NO_LINK);
    CrashNode(s, s', sh.core, v);
    CrashProposals(sh.core, k', s.nodes[v]);
    OwnFlights(s, s', sh, v);
    Assemble(s, s', sh, k', v, NO_LINK);
  }
}
