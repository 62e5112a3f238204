/** Delivery of replication requests, read probes and replies. */
module DeliverySteps {
  import opened Types
  import opened Quorums
  import opened Protocol
  import opened Cluster
  import opened Simulation
  import opened Frames
  import opened Steps
  import opened ElectionSteps
  import opened ReplicationSteps
  import opened FollowerSteps
  import C = Core

  // ---------------------------------------------------------------- the follower's node

  /** A leader never takes entries in its own term: they would be its own. */
  lemma NotOwnTerm(k: C.State, l: Id, p: Id, n: Node, req: AppendRequest)
    requires OfficeOk(k, n) && n.id == p != l && Leads(k, l, req.term)
    ensures n.role.Leader? ==> n.term != req.term
  {
  }

  /** What handling an append leaves of the node apart from its log. */
  lemma HandledShape(n: Node, req: AppendRequest)
    requires Wellformed(n.log, req)
    ensures var n' := HandleAppend(n, req).0;
            && n'.id == n.id && n'.peers == n.peers
            && n'.lastApplied == n.lastApplied && n.commitIndex <= n'.commitIndex && n.term <= n'.term
            && n'.log.base == n.log.base && n'.log.baseTerm == n.log.baseTerm
            && (n'.term == n.term ==> n'.votedFor == n.votedFor)
            && (n.term < n'.term ==> n'.votedFor == NOBODY)
            && (req.term < n.term ==> n' == n)
            && (req.term >= n.term ==> !n'.role.Candidate?)
            && (req.term > n.term ==> n'.role.Follower?)
            && (req.term == n.term && n'.role.Leader? ==> n.role.Leader?)
  {
    hide Conflict, Recognize;
    if n.term <= req.term {
      RecognizeShape(n, req.term);
    }
  }

  lemma RecognizeShape(n: Node, term: nat)
    requires n.term <= term
    ensures var m := Recognize(n, term);
            && m.id == n.id && m.peers == n.peers && m.lastApplied == n.lastApplied && m.commitIndex == n.commitIndex
            && m.log == n.log && m.term == term && !m.role.Candidate?
            && (term == n.term ==> m.votedFor == n.votedFor && (m.role.Leader? ==> n.role.Leader?))
            && (n.term < term ==> m.votedFor == NOBODY && m.role.Follower?)
  {
  }

  lemma FollowedNode(s: State, s': State, k: C.State, k': C.State, p: Id, req: AppendRequest)
    requires p in s.nodes && p in k.replicas && NodeOk(s, k, p) && OfficeOk(k, s.nodes[p])
    requires s.nodes[p].role.Leader? ==> s.nodes[p].term != req.term
    requires Wellformed(s.nodes[p].log, req)
    requires s'.nodes == s.nodes[p := HandleAppend(s.nodes[p], req).0]
    requires p in k'.replicas && Mirrors(k'.replicas[p], s'.nodes[p]) && k'.ballots == k.ballots
    requires req.term < s.nodes[p].term ==> k' == k
    ensures NodeOk(s', k', p) && OfficeOk(k', s'.nodes[p])
    ensures CandidacyOk(s.nodes[p], s'.nodes[p]) && s'.nodes[p].peers == s.nodes[p].peers
    ensures s'.nodes[p].role.Leader? ==> s'.nodes[p] == s.nodes[p]
  {
    hide HandleAppend;
    HandledShape(s.nodes[p], req);
  }

  lemma FollowedProposals(k: C.State, k': C.State, n: Node, req: AppendRequest)
    requires C.Evolves(k, k') && ProposalsOk(k, n) && Wellformed(n.log, req)
    requires n.role.Leader? ==> n.term != req.term
    ensures ProposalsOk(k', HandleAppend(n, req).0)
  {
    hide Conflict, C.Evolves;
    if n.role.Leader? && n.term < req.term {
      LeavingSettles(k, k', n, HandleAppend(n, req).0);
    } else {
      ProposalsLast(k, k', n);
    }
  }

  // ---------------------------------------------------------------- DeliverAppend

  /** After the delivery the leader, if still in office, again has nothing to fear from its next batch. */
  lemma WrittenPeer(s: State, k: C.State, k': C.State, link: Link, req: AppendRequest)
    requires C.LogsOk(k) && C.LogsOk(k') && Local(k, k', link.peer, link)
    requires link.leader in s.nodes && link.peer in k.replicas && link.peer in k'.replicas
    requires var n := s.nodes[link.leader];
             && n.role.Leader? && n.id == link.leader != link.peer
             && OfficeOk(k, n) && PeerOk(k, s.batch, n, link.peer)
             && (n.term == req.term && req.entries != [] ==>
                   req.prevIndex + |req.entries| <= BatchEnd(n.nextIndex[link.peer], |n.log.entries|, s.batch))
    requires k'.ledger == k.ledger
    requires k'.replicas[link.peer].log == k.replicas[link.peer].log
             || (k'.replicas[link.peer].term == req.term && req.entries != []
                 && |k'.replicas[link.peer].log| == req.prevIndex + |req.entries|)
    ensures PeerOk(k', s.batch, s.nodes[link.leader], link.peer)
  {
    var n, p := s.nodes[link.leader], link.peer;
    if k'.replicas[p].log == k.replicas[p].log {
      LocalSameLog(k, k', p, link);
      PeerFrame(k, k', p, NO_LINK, s.batch, n, n, p);
    } else if k'.replicas[p].term != n.term {
      PeerFrame(k, k', p, link, s.batch, n, n, p);
    }
  }

  lemma LocalSameLog(k: C.State, k': C.State, v: Id, x: Link)
    requires Local(k, k', v, x) && k'.replicas[v].log == k.replicas[v].log
    ensures Local(k, k', v, NO_LINK)
  {
  }

  lemma ExchangeFacts(s: State, sh: Shadow, link: Link)
    requires Inv(s, sh) && link in s.exchanges
    ensures ExchangeOk(sh.core, link, s.exchanges[link]) && FlightOk(s, link)
    ensures link.leader in s.nodes && link.leader != link.peer && link.peer in s.nodes && link.peer in sh.core.replicas
    ensures link.peer in s.nodes[link.leader].peers
    ensures s.nodes[link.leader].role.Leader? ==> PeerOk(sh.core, s.batch, s.nodes[link.leader], link.peer)
    ensures forall t | t in sh.core.ledger :: 0 < t
  {
    hide Inv, C.Inv, ExchangeOk, FlightOk, NodeOk, OfficeOk, ProposalsOk, PeerOk, C.ShapeOk;
    ExchangeHolds(s, sh, link);
    About(s, sh, link.leader);
    IsPeer(s, sh.core, link.leader, link.peer);
    PeerFacts(s, sh, link.leader, link.peer);
  }

  lemma ExchangeHolds(s: State, sh: Shadow, link: Link)
    requires Inv(s, sh) && link in s.exchanges
    ensures ExchangeOk(sh.core, link, s.exchanges[link]) && FlightOk(s, link)
    ensures link.leader in s.nodes && link.leader != link.peer && link.peer in s.nodes && link.peer in sh.core.replicas
    ensures forall t | t in sh.core.ledger :: 0 < t
  {
    hide C.Inv, OfficesOk, VotesOk, ProgressOk, ProbesOk, ReadsOk, AllProposalsOk;
  }

  lemma IsPeer(s: State, k: C.State, v: Id, p: Id)
    requires v in s.nodes && v in k.replicas && NodeOk(s, k, v) && p in s.nodes && p != v
    ensures p in s.nodes[v].peers
  {
    assert p in Ids(s.nodes[v].peers);
  }

  lemma AnsweredFlight(s: State, link: Link)
    requires link in s.exchanges && s.exchanges[link].Answered?
    ensures FlightOk(s, link)
  {
  }

  /** A request in flight can always be delivered. */
  lemma Deliverable(s: State, sh: Shadow, link: Link)
    requires Inv(s, sh) && link in s.exchanges
    ensures link.peer in s.nodes && Wellformed(s.nodes[link.peer].log, s.exchanges[link].req)
  {
    hide Inv, C.Inv, C.LogsOk, Wellformed, NodeOk, OfficeOk, ProposalsOk, FlightOk, PeerOk, SentOk, C.ShapeOk;
    ExchangeFacts(s, sh, link);
    About(s, sh, link.peer);
    Parts(sh.core);
    SentWellformed(sh.core, link.leader, s.exchanges[link].req, s.nodes[link.peer].log);
  }

  lemma AppendStep(s: State, s': State, sh: Shadow, link: Link) returns (k': C.State)
    requires Inv(s, sh) && link in s.exchanges && s.exchanges[link].Asked? && link.peer in s.nodes
    requires Wellformed(s.nodes[link.peer].log, s.exchanges[link].req)
    requires var req := s.exchanges[link].req;
             var (n, reply) := HandleAppend(s.nodes[link.peer], req);
             s' == s.(nodes := s.nodes[link.peer := n], exchanges := s.exchanges[link := Answered(req, reply)])
    ensures Inv(s', sh.(core := k')) && C.Evolves(sh.core, k')
  {
    hide Inv, C.Inv, C.LogsOk, C.CommitsOk, C.DecisionsOk, C.ShapeOk, C.Evolves, Local, Wellformed, HandleAppend, SentOk,
         AskedOk, AnsweredOk, NodeOk, OfficeOk, ProposalsOk, PeerOk, FlightOk, BatchEnd, Conflict, Leads;
    var k, l, p, req := sh.core, link.leader, link.peer, s.exchanges[link].req;
    ExchangeFacts(s, sh, link);
    About(s, sh, p);
    Mirrored(s, k, p);
    k' := Follow(k, l, p, s.nodes[p], req);
    SentLeads(k, l, req);
    NotOwnTerm(k, l, p, s.nodes[p], req);
    FollowedNode(s, s', k, k', p, req);
    LocalEvolves(k, k', p, link);
    FollowedProposals(k, k', s.nodes[p], req);
    SentSame(k, k', l, req);
    WrittenLink(s, sh, k', link);
    StillInOffice(s, s', sh, k', p, link);
    AnsweredFlight(s', link);
    Assemble(s, s', sh, k', p, link);
  }

  /** A node that handled a request and is still leader changed nothing. */
  lemma StillInOffice(s: State, s': State, sh: Shadow, k': C.State, p: Id, x: Link)
    requires Inv(s, sh) && C.Inv(k') && p in s.nodes && p in s'.nodes
    requires Local(sh.core, k', p, x) && (x == NO_LINK || x.peer == p)
    requires s'.batch == s.batch
    requires s'.nodes[p].role.Leader? ==> s'.nodes[p] == s.nodes[p]
    requires s'.nodes[p].role.Leader? ==> k'.replicas[p].log == sh.core.replicas[p].log
    requires forall link | link in s'.exchanges && link.leader == p ::
               link in s.exchanges && s'.exchanges[link] == s.exchanges[link]
    ensures s'.nodes[p].role.Leader? ==> forall q | q in s'.nodes[p].peers :: PeerOk(k', s.batch, s'.nodes[p], q)
    ensures forall link | link in s'.exchanges && link.leader == p :: FlightOk(s', link)
  {
    hide Inv, C.Inv, Local, PeerOk, FlightOk;
    if s'.nodes[p].role.Leader? {
      LocalSameLog(sh.core, k', p, x);
      OwnPeers(s, sh, k', p, s'.nodes[p]);
    }
    OwnFlights(s, s', sh, p);
  }

  lemma WrittenLink(s: State, sh: Shadow, k': C.State, link: Link)
    requires Inv(s, sh) && C.Inv(k') && link in s.exchanges && s.exchanges[link].Asked? && link.peer in sh.core.replicas
    requires Local(sh.core, k', link.peer, link) && link.peer in k'.replicas && k'.ledger == sh.core.ledger
    requires var req := s.exchanges[link].req;
             k'.replicas[link.peer].log == sh.core.replicas[link.peer].log
             || (k'.replicas[link.peer].term == req.term && req.entries != []
                 && |k'.replicas[link.peer].log| == req.prevIndex + |req.entries|)
    ensures link.leader in s.nodes && s.nodes[link.leader].role.Leader? ==>
              PeerOk(k', s.batch, s.nodes[link.leader], link.peer)
  {
    hide Inv, C.Inv, C.LogsOk, C.CommitsOk, C.DecisionsOk, C.ShapeOk, C.Evolves, Local, SentOk, NodeOk, OfficeOk, ProposalsOk;
    ExchangeFacts(s, sh, link);
    About(s, sh, link.leader);
    Parts(sh.core);
    Parts(k');
    if s.nodes[link.leader].role.Leader? {
      WrittenPeer(s, sh.core, k', link, s.exchanges[link].req);
    }
  }
}
