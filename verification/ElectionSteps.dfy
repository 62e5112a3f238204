/** Candidacies, votes, elections and the leader's own appends. */
module ElectionSteps {
  import opened Types
  import opened Quorums
  import opened Protocol
  import opened Cluster
  import opened Simulation
  import opened Frames
  import opened Steps
  import C = Core
  import CoreSteps

  // ---------------------------------------------------------------- Timeout

  /** A candidate moves to the next term and votes for itself. */
  lemma CandidacyKeeps(k: C.State, v: Id) returns (k': C.State)
    requires C.Inv(k) && v in k.replicas && v != NOBODY
    ensures k' == C.Cast(C.Bump(k, v, k.replicas[v].term + 1), v, v)
    ensures C.Inv(k') && Local(k, k', v, NO_LINK)
  {
    var t := k.replicas[v].term + 1;
    var b := C.Bump(k, v, t);
    k' := C.Cast(b, v, v);
    hide C.Evolves, Local, C.LogsOk, C.AcksOk, C.BallotsOk, C.SuccessionOk, C.CommitsOk, C.DecisionsOk, C.ElectionsOk,
      C.VotesOk, C.ShapeOk;
    CoreSteps.BumpKeeps(k, v, t);
    BumpLocal(k, v, t, NO_LINK);
    CoreSteps.CastKeeps(b, v, v);
    CastLocal(b, v, v, NO_LINK);
    LocalTransitive(k, b, k', v, NO_LINK);
  }

  lemma TimeoutNode(s: State, s': State, k: C.State, k': C.State, v: Id)
    requires v in s.nodes && v in k.replicas && v != NOBODY && NodeOk(s, k, v) && OfficeOk(k, s.nodes[v])
    requires ProposalsOk(k, s.nodes[v]) && !s.nodes[v].role.Leader? && C.Evolves(k, k')
    requires C.ElectionsOk(k)
    requires k' == C.Cast(C.Bump(k, v, k.replicas[v].term + 1), v, v)
    requires s'.nodes == s.nodes[v := BecomeCandidate(s.nodes[v])]
    ensures NodeOk(s', k', v) && OfficeOk(k', s'.nodes[v]) && CandidacyOk(s.nodes[v], s'.nodes[v])
    ensures forall b | b in k'.ballots && b !in k.ballots :: BallotOk(s', k', b)
    ensures VoteRequestOk(s', VoteRequestOf(s'.nodes[v]))
    ensures ProposalsOk(k', s'.nodes[v])
  {
    ProposalsLast(k, k', s.nodes[v]);
  }

  lemma TimeoutStep(s: State, s': State, sh: Shadow, v: Id) returns (k': C.State)
    requires Inv(s, sh) && v in s.nodes && !s.nodes[v].role.Leader?
    requires s' == s.(nodes := s.nodes[v := BecomeCandidate(s.nodes[v])],
                      voteRequests := s.voteRequests + {VoteRequestOf(BecomeCandidate(s.nodes[v]))})
    ensures Inv(s', sh.(core := k')) && C.Evolves(sh.core, k')
  {
    hide Inv, C.Evolves, Local, NodeOk, OfficeOk, ProposalsOk, PeerOk, ExchangeOk, FlightOk, BallotOk, VoteRequestOk,
         C.VotesOk, C.LogsOk, C.AcksOk, C.BallotsOk, C.SuccessionOk, C.CommitsOk, C.DecisionsOk, C.ElectionsOk;
    About(s, sh, v);
    k' := CandidacyKeeps(sh.core, v);
    LocalEvolves(sh.core, k', v, NO_LINK);
    TimeoutNode(s, s', sh.core, k', v);
    OwnFlights(s, s', sh, v);
    Assemble(s, s', sh, k', v, NO_LINK);
  }

  // ---------------------------------------------------------------- votes

  /** The core's side of answering a vote request. */
  function Voted(k: C.State, v: Id, req: VoteRequest, granted: bool): C.State
    requires v in k.replicas
  {
    var b := Seen(k, v, req.term);
    if granted && b.replicas[v].vote == NOBODY then C.Cast(b, v, req.candidate) else b
  }

  lemma VotedKeeps(k: C.State, v: Id, req: VoteRequest, granted: bool)
    requires C.Inv(k) && v in k.replicas && req.candidate != NOBODY
    ensures C.Inv(Voted(k, v, req, granted)) && Local(k, Voted(k, v, req, granted), v, NO_LINK)
    ensures Voted(k, v, req, granted).ledger == k.ledger
  {
    hide C.Evolves, Local, C.LogsOk, C.AcksOk, C.BallotsOk, C.SuccessionOk, C.CommitsOk, C.DecisionsOk, C.ElectionsOk,
      C.VotesOk, C.ShapeOk;
    var b := Seen(k, v, req.term);
    SeenKeeps(k, v, req.term, NO_LINK);
    if granted && b.replicas[v].vote == NOBODY {
      CoreSteps.CastKeeps(b, v, req.candidate);
      CastLocal(b, v, req.candidate, NO_LINK);
      LocalTransitive(k, b, Voted(k, v, req, granted), v, NO_LINK);
    }
  }

  lemma ObserveNode(s: State, k: C.State, v: Id, t: nat)
    requires v in s.nodes && v in k.replicas && NodeOk(s, k, v) && OfficeOk(k, s.nodes[v])
    ensures var s' := s.(nodes := s.nodes[v := ObserveTerm(s.nodes[v], t)]);
            NodeOk(s', Seen(k, v, t), v) && OfficeOk(Seen(k, v, t), s'.nodes[v])
  {
  }

  lemma CastNode(s: State, s': State, k: C.State, v: Id, c: Id)
    requires v in s.nodes && v in k.replicas && NodeOk(s, k, v) && OfficeOk(k, s.nodes[v])
    requires s.nodes[v].votedFor == NOBODY && v != NOBODY
    requires s'.nodes == s.nodes[v := s.nodes[v].(votedFor := c)]
    ensures NodeOk(s', C.Cast(k, v, c), v) && OfficeOk(C.Cast(k, v, c), s'.nodes[v])
  {
  }

  lemma VoteNode(s: State, s': State, k: C.State, v: Id, req: VoteRequest)
    requires v in s.nodes && v in k.replicas && NodeOk(s, k, v) && OfficeOk(k, s.nodes[v])
    requires req.candidate != NOBODY && v != NOBODY
    requires s'.nodes == s.nodes[v := HandleVote(s.nodes[v], req).0]
    ensures var k' := Voted(k, v, req, HandleVote(s.nodes[v], req).1.granted);
            v in k'.replicas && NodeOk(s', k', v) && OfficeOk(k', s'.nodes[v]) && CandidacyOk(s.nodes[v], s'.nodes[v])
  {
    var s1 := s.(nodes := s.nodes[v := ObserveTerm(s.nodes[v], req.term)]);
    ObserveNode(s, k, v, req.term);
    hide OfficeOk;
    if s1.nodes[v].votedFor == NOBODY && HandleVote(s.nodes[v], req).1.granted {
      CastNode(s1, s', Seen(k, v, req.term), v, req.candidate);
    }
  }

  /** A granted vote was given to a candidate whose log the voter found up to date. */
  lemma VoteMessages(s: State, s': State, k: C.State, v: Id, req: VoteRequest)
    requires v in s.nodes && v in k.replicas && NodeOk(s, k, v) && OfficeOk(k, s.nodes[v])
    requires VoteRequestOk(s, req) && req.candidate != v && req.candidate != NOBODY
    requires s.nodes[req.candidate].log.base == 0 && s.nodes[req.candidate].log.baseTerm == 0
    requires s'.nodes == s.nodes[v := HandleVote(s.nodes[v], req).0]
    ensures var reply := HandleVote(s.nodes[v], req).1;
            var k' := Voted(k, v, req, reply.granted);
            && VoteAnswerOk(k', VoteAnswer(v, req.candidate, req.term, reply))
            && forall b | b in k'.ballots && b !in k.ballots :: BallotOk(s', k', b)
  {
    ObserveNode(s, k, v, req.term);
    var m, b := ObserveTerm(s.nodes[v], req.term), Seen(k, v, req.term);
    assert b.ballots == k.ballots;
    assert m.votedFor != NOBODY ==> C.Seat(m.term, v) in b.ballots && b.ballots[C.Seat(m.term, v)].candidate == m.votedFor;
    hide NodeOk, OfficeOk;
  }

  lemma VoteProposals(k: C.State, k': C.State, n: Node, req: VoteRequest)
    requires C.Evolves(k, k') && ProposalsOk(k, n)
    ensures ProposalsOk(k', HandleVote(n, req).0)
  {
    if n.term < req.term {
      LeavingSettles(k, k', n, HandleVote(n, req).0);
    } else {
      ProposalsLast(k, k', n);
    }
  }

  lemma VoteRequestFacts(s: State, sh: Shadow, req: VoteRequest)
    requires Inv(s, sh) && req in s.voteRequests
    ensures VoteRequestOk(s, req) && req.candidate != NOBODY && req.candidate in s.nodes
    ensures s.nodes[req.candidate].log.base == 0 && s.nodes[req.candidate].log.baseTerm == 0
  {
    About(s, sh, req.candidate);
  }

  /** What a node that stays leader through a step keeps: its view of every peer. */
  lemma OwnPeers(s: State, sh: Shadow, k': C.State, v: Id, n': Node)
    requires Inv(s, sh) && C.Inv(k') && v in s.nodes && Local(sh.core, k', v, NO_LINK)
    requires n'.peers == s.nodes[v].peers
    requires n'.role.Leader? ==>
               var n := s.nodes[v];
               n.role.Leader? && n'.term == n.term && n'.nextIndex == n.nextIndex && n'.matchIndex == n.matchIndex
    ensures n'.role.Leader? ==> forall p | p in n'.peers :: PeerOk(k', s.batch, n', p)
  {
    if n'.role.Leader? {
      SameOffice(s, sh.core, k', v, n');
    }
  }

  lemma VoteShape(n: Node, req: VoteRequest)
    ensures var n' := HandleVote(n, req).0;
            && n'.peers == n.peers
            && (n'.role.Leader? ==>
                  && n.role.Leader? && n'.term == n.term && n'.log == n.log
                  && n'.nextIndex == n.nextIndex && n'.matchIndex == n.matchIndex)
  {
  }

  lemma VoteRequestStep(s: State, s': State, sh: Shadow, v: Id, req: VoteRequest) returns (k': C.State)
    requires Inv(s, sh) && v in s.nodes && req in s.voteRequests && req.candidate != v
    requires var (n, reply) := HandleVote(s.nodes[v], req);
             s' == s.(nodes := s.nodes[v := n],
                      voteAnswers := s.voteAnswers + {VoteAnswer(v, req.candidate, req.term, reply)})
    ensures Inv(s', sh.(core := k')) && C.Evolves(sh.core, k')
  {
    hide Inv, C.Inv, HandleVote, Voted, C.Evolves, Local, NodeOk, OfficeOk, ProposalsOk, PeerOk, ExchangeOk, FlightOk, BallotOk,
         VoteRequestOk, VoteAnswerOk, C.ShapeOk;
    var reply := HandleVote(s.nodes[v], req).1;
    VoteRequestFacts(s, sh, req);
    About(s, sh, v);
    k' := Voted(sh.core, v, req, reply.granted);
    VotedKeeps(sh.core, v, req, reply.granted);
    LocalEvolves(sh.core, k', v, NO_LINK);
    VoteNode(s, s', sh.core, v, req);
    VoteMessages(s, s', sh.core, v, req);
    VoteProposals(sh.core, k', s.nodes[v], req);
    VoteShape(s.nodes[v], req);
    OwnPeers(s, sh, k', v, s'.nodes[v]);
    OwnFlights(s, s', sh, v);
    Assemble(s, s', sh, k', v, NO_LINK);
  }

  // ---------------------------------------------------------------- WinElection

  lemma Electable(s: State, sh: Shadow, c: Id, q: set<Id>)
    requires Inv(s, sh) && c in s.nodes && s.nodes[c].role.Candidate? && HasVotes(s, c, q)
    ensures c in sh.core.replicas
    ensures C.CanElect(sh.core, c, Entry(|sh.core.replicas[c].log| + 1, sh.core.replicas[c].term, Noop), q)
    ensures s.nodes[c].term !in sh.core.ledger
  {
    var k, n := sh.core, s.nodes[c];
    About(s, sh, c);
    forall v | v in q
      ensures && C.Seat(n.term, v) in k.ballots
              && k.ballots[C.Seat(n.term, v)].candidate == c
              && C.UpToDate(n.log.entries, k.ballots[C.Seat(n.term, v)].log)
    {
      if v != c {
        assert VoteAnswerOk(k, VoteAnswer(v, c, n.term, VoteReply(n.term, true)));
      }
      assert BallotOk(s, k, C.Seat(n.term, v));
    }
    if n.term in k.leaders {
      CoreSteps.OneLeader(k, n.term, c, q);
    }
  }

  lemma ElectLocal(k: C.State, c: Id, e: Entry, q: set<Id>)
    requires C.ShapeOk(k) && C.CanElect(k, c, e, q) && C.Evolves(k, C.Elect(k, c, e))
    ensures Local(k, C.Elect(k, c, e), c, NO_LINK)
  {
  }

  lemma PeersAreNodes(s: State, k: C.State, v: Id, p: Id)
    requires v in s.nodes && v in k.replicas && NodeOk(s, k, v) && p in s.nodes[v].peers
    ensures p in s.nodes && p != v
  {
    assert p in Ids(s.nodes[v].peers);
  }

  lemma WinNode(s: State, s': State, k: C.State, c: Id, e: Entry)
    requires c in s.nodes && c in k.replicas && NodeOk(s, k, c) && OfficeOk(k, s.nodes[c]) && s.nodes[c].role.Candidate?
    requires e == Entry(|k.replicas[c].log| + 1, k.replicas[c].term, Noop)
    requires e.term !in k.commits
    requires s'.nodes == s.nodes[c := BecomeLeader(s.nodes[c])]
    ensures NodeOk(s', C.Elect(k, c, e), c) && OfficeOk(C.Elect(k, c, e), s'.nodes[c])
    ensures CandidacyOk(s.nodes[c], s'.nodes[c]) && s'.nodes[c].peers == s.nodes[c].peers
    ensures s'.nodes[c].term == s.nodes[c].term
    ensures s.nodes.Keys == k.replicas.Keys ==>
              forall p | p in s'.nodes[c].peers :: PeerOk(C.Elect(k, c, e), s.batch, s'.nodes[c], p)
  {
    var n, n' := s.nodes[c], s'.nodes[c];
    assert n'.log.entries == n.log.entries + [e];
    forall p | p in n'.peers ensures p in s.nodes && p in n'.nextIndex {
      PeersAreNodes(s, k, c, p);
    }
  }

  lemma WinProposals(k: C.State, k': C.State, n: Node)
    requires C.Evolves(k, k') && ProposalsOk(k, n) && n.role.Candidate?
    ensures ProposalsOk(k', BecomeLeader(n))
  {
    ProposalsLast(k, k', n);
  }

  lemma NewTerm(s: State, sh: Shadow, c: Id)
    requires Inv(s, sh) && c in s.nodes && s.nodes[c].role.Candidate? && s.nodes[c].term !in sh.core.ledger
    ensures c in sh.core.replicas && sh.core.replicas[c].term == s.nodes[c].term
    ensures s.nodes[c].term !in sh.core.commits && 0 < s.nodes[c].term
  {
    About(s, sh, c);
  }

  /** No request of a term precedes its election. */
  lemma NoFlightsYet(s: State, s': State, sh: Shadow, c: Id)
    requires Inv(s, sh) && c in s.nodes && s.nodes[c].term !in sh.core.ledger
    requires c in s'.nodes && s'.nodes[c].term == s.nodes[c].term && s'.exchanges == s.exchanges
    ensures forall link | link in s'.exchanges && link.leader == c :: FlightOk(s', link)
  {
    forall link | link in s'.exchanges && link.leader == c ensures FlightOk(s', link) {
      assert ExchangeOk(sh.core, link, s.exchanges[link]);
    }
  }

  lemma WinStep(s: State, s': State, sh: Shadow, c: Id, q: set<Id>) returns (k': C.State)
    requires Inv(s, sh) && c in s.nodes && s.nodes[c].role.Candidate? && HasVotes(s, c, q)
    requires s' == s.(nodes := s.nodes[c := BecomeLeader(s.nodes[c])])
    ensures Inv(s', sh.(core := k')) && C.Evolves(sh.core, k')
  {
    hide Inv, C.Inv, HasVotes, BecomeLeader, C.Evolves, Local, NodeOk, OfficeOk, ProposalsOk, PeerOk, ExchangeOk, FlightOk, BallotOk,
         VoteRequestOk, VoteAnswerOk, C.ShapeOk, C.CanElect;
    var k := sh.core;
    Electable(s, sh, c, q);
    About(s, sh, c);
    NewTerm(s, sh, c);
    var e := Entry(|k.replicas[c].log| + 1, k.replicas[c].term, Noop);
    k' := C.Elect(k, c, e);
    CoreSteps.ElectKeeps(k, c, e, q);
    ElectLocal(k, c, e, q);
    WinNode(s, s', k, c, e);
    WinProposals(k, k', s.nodes[c]);
    NoFlightsYet(s, s', sh, c);
    Assemble(s, s', sh, k', c, NO_LINK);
  }

  // ---------------------------------------------------------------- ClientPropose

  lemma ExtendLocal(k: C.State, c: Id, e: Entry)
    requires C.ShapeOk(k) && C.CanExtend(k, c, e) && C.Evolves(k, C.Extend(k, c, e))
    ensures Local(k, C.Extend(k, c, e), c, NO_LINK)
  {
  }

  lemma ProposeNode(s: State, s': State, k: C.State, v: Id, command: Command, ticket: Ticket, e: Entry)
    requires v in s.nodes && v in k.replicas && NodeOk(s, k, v) && OfficeOk(k, s.nodes[v]) && s.nodes[v].role.Leader?
    requires e == Entry(|k.replicas[v].log| + 1, k.replicas[v].term, command) && C.ShapeOk(k)
    requires s'.nodes == s.nodes[v := Propose(s.nodes[v], command, ticket).value]
    ensures C.CanExtend(k, v, e)
    ensures NodeOk(s', C.Extend(k, v, e), v) && OfficeOk(C.Extend(k, v, e), s'.nodes[v])
  {
    assert s'.nodes[v].log.entries == s.nodes[v].log.entries + [e];
  }

  lemma ProposeProposals(k: C.State, k': C.State, n: Node, command: Command, ticket: Ticket)
    requires C.Evolves(k, k') && ProposalsOk(k, n) && n.role.Leader? && ticket !in n.proposals && n.log.base == 0
    ensures ProposalsOk(k', Propose(n, command, ticket).value)
  {
    var n' := Propose(n, command, ticket).value;
    assert n'.log.entries[..|n.log.entries|] == n.log.entries;
    forall t | t in n'.proposals && Committed in n'.proposals[t].sends ensures Settled(k', n'.proposals[t].entry) {
      SettledLasts(k, k', n.proposals[t].entry);
    }
  }

  lemma ProposeShape(n: Node, command: Command, ticket: Ticket)
    requires n.role.Leader? && n.log.base == 0
    ensures var n' := Propose(n, command, ticket).value;
            && n'.peers == n.peers && n'.role.Leader? && n'.term == n.term && |n.log.entries| <= |n'.log.entries|
            && n'.nextIndex == n.nextIndex && n'.matchIndex == n.matchIndex
  {
  }

  lemma ProposeStep(s: State, s': State, sh: Shadow, v: Id, command: Command, ticket: Ticket) returns (k': C.State)
    requires Inv(s, sh) && v in s.nodes && ticket !in s.nodes[v].proposals && s.nodes[v].role.Leader?
    requires s' == s.(nodes := s.nodes[v := Propose(s.nodes[v], command, ticket).value])
    ensures Inv(s', sh.(core := k')) && C.Evolves(sh.core, k')
  {
    hide Inv, C.Inv, Propose, C.Evolves, Local, NodeOk, OfficeOk, ProposalsOk, PeerOk, ExchangeOk, FlightOk, BallotOk, VoteRequestOk,
         VoteAnswerOk, C.LogsOk, C.ShapeOk, C.CanExtend;
    var k := sh.core;
    About(s, sh, v);
    ProposeShape(s.nodes[v], command, ticket);
    var e := Entry(|k.replicas[v].log| + 1, k.replicas[v].term, command);
    k' := C.Extend(k, v, e);
    ProposeNode(s, s', k, v, command, ticket, e);
    CoreSteps.ExtendKeeps(k, v, e);
    ExtendLocal(k, v, e);
    ProposeProposals(k, k', s.nodes[v], command, ticket);
    OwnPeers(s, sh, k', v, s'.nodes[v]);
    OwnFlights(s, s', sh, v);
    Assemble(s, s', sh, k', v, NO_LINK);
  }
}
