/** Replication exchanges: requests, their delivery, and their replies. */
module ReplicationSteps {
  import opened Types
  import opened Protocol
  import opened Cluster
  import opened Simulation
  import opened Steps
  import opened ElectionSteps
  import B = Backtracking
  import C = Core
  import CoreSteps

  // ---------------------------------------------------------------- logs that can meet

  lemma GroundedCoherent(k: C.State, a: seq<Entry>, x: nat, b: seq<Entry>, y: nat)
    requires C.LogsOk(k) && C.Grounded(k.ledger, a, x) && C.Grounded(k.ledger, b, y)
    requires forall t | t in k.ledger :: 0 < t
    ensures B.Coherent(a, b)
  {
    forall i: nat, j: nat | i <= j < |a| ensures 0 < a[i].term <= a[j].term {
      CoreSteps.TermsAscend(k, a, x, i, j);
    }
    forall i: nat, j: nat | i <= j < |b| ensures 0 < b[i].term <= b[j].term {
      CoreSteps.TermsAscend(k, b, y, i, j);
    }
    forall i: nat, j: nat | i < |a| && j < |b| && a[i].term == b[j].term ensures Agree(a, b, Min(i, j) + 1) {
      var t := a[i].term;
      assert Agree(a, k.ledger[t], i + 1) && Agree(b, k.ledger[t], j + 1);
    }
  }

  // ---------------------------------------------------------------- Replicate

  /** What replicateToPeer sends is a stretch of the ledger that no delivery can turn into a loss. */
  lemma RequestSent(k: C.State, batch: nat, n: Node, p: Id)
    requires C.LogsOk(k) && C.DecisionsOk(k) && OfficeOk(k, n) && n.role.Leader? && PeerOk(k, batch, n, p)
    requires n.log.base == 0 && n.log.baseTerm == 0 && n.id in k.replicas && n.commitIndex <= |n.log.entries|
    requires k.replicas[n.id] == C.Replica(n.term, n.votedFor, n.log.entries, n.commitIndex)
    ensures BuildRequest(n, p, batch).Some?
    ensures var req := BuildRequest(n, p, batch).value;
            && req.term == n.term && req.prevIndex + 1 == n.nextIndex[p]
            && req.prevIndex + |req.entries| == BatchEnd(n.nextIndex[p], |n.log.entries|, batch)
            && SentOk(k, n.id, req) && AskedOk(k, p, req)
  {
    CoreSteps.KnownDecided(k, n.id);
    hide C.DecisionsOk, C.LogsOk, C.Decided;
  }

  lemma PeerFacts(s: State, sh: Shadow, v: Id, p: Id)
    requires Inv(s, sh) && v in s.nodes && p in s.nodes[v].peers
    ensures p in s.nodes && p != v && p in sh.core.replicas
    ensures s.nodes[v].role.Leader? ==> PeerOk(sh.core, s.batch, s.nodes[v], p)
  {
    About(s, sh, v);
    PeersAreNodes(s, sh.core, v, p);
  }

  /** The exchange a leader may start at any time. */
  lemma LeaderCanReplicate(s: State, sh: Shadow, link: Link)
    requires Inv(s, sh) && link.leader in s.nodes && link.peer in s.nodes[link.leader].peers
    requires s.nodes[link.leader].role.Leader?
    ensures BuildRequest(s.nodes[link.leader], link.peer, s.batch).Some?
    ensures var req := BuildRequest(s.nodes[link.leader], link.peer, s.batch).value;
            var s' := s.(exchanges := s.exchanges[link := Asked(req)]);
            ExchangeOk(sh.core, link, Asked(req)) && FlightOk(s', link)
  {
    hide Inv, C.LogsOk, C.DecisionsOk, SentOk, AskedOk, BuildRequest, C.ShapeOk, C.VotesOk, C.ElectionsOk, C.AcksOk,
         C.BallotsOk, C.SuccessionOk, C.CommitsOk;
    About(s, sh, link.leader);
    PeerFacts(s, sh, link.leader, link.peer);
    RequestSent(sh.core, s.batch, s.nodes[link.leader], link.peer);
  }

  // ---------------------------------------------------------------- steps that touch no node

  lemma SameNodes(s: State, s': State, k: C.State)
    requires NodesOk(s, k) && OfficesOk(s, k) && VotesOk(s, k) && ProgressOk(s, k) && AllProposalsOk(s, k)
    requires s'.nodes == s.nodes && s'.batch == s.batch
    requires s'.voteRequests == s.voteRequests && s'.voteAnswers == s.voteAnswers
    ensures NodesOk(s', k) && OfficesOk(s', k) && VotesOk(s', k) && ProgressOk(s', k) && AllProposalsOk(s', k)
  {
    hide OfficeOk, PeerOk, ProposalsOk;
    forall v | v in s'.nodes ensures NodeOk(s', k, v) {
      assert NodeOk(s, k, v);
    }
    forall b | b in k.ballots ensures BallotOk(s', k, b) {
      assert BallotOk(s, k, b);
    }
    forall req | req in s'.voteRequests ensures VoteRequestOk(s', req) {
      assert VoteRequestOk(s, req);
    }
  }

  lemma SameExchanges(s: State, s': State, k: C.State)
    requires ExchangesOk(s, k) && FlightsOk(s) && s'.nodes == s.nodes && s'.batch == s.batch
    requires forall link | link in s'.exchanges ::
               || (link in s.exchanges && s'.exchanges[link] == s.exchanges[link])
               || (ExchangeOk(k, link, s'.exchanges[link]) && FlightOk(s', link))
    ensures ExchangesOk(s', k) && FlightsOk(s')
  {
    hide ExchangeOk;
    forall link | link in s'.exchanges ensures FlightOk(s', link) {
      assert link in s.exchanges ==> FlightOk(s, link);
    }
  }

  lemma StutterStep(s: State, s': State, sh: Shadow)
    requires Inv(s, sh) && s' == s.(exchanges := s'.exchanges)
    requires forall link | link in s'.exchanges ::
               || (link in s.exchanges && s'.exchanges[link] == s.exchanges[link])
               || (ExchangeOk(sh.core, link, s'.exchanges[link]) && FlightOk(s', link))
    ensures Inv(s', sh)
  {
    hide NodesOk, OfficesOk, VotesOk, ProgressOk, AllProposalsOk, ExchangesOk, FlightsOk, ExchangeOk, FlightOk, C.Inv;
    SameNodes(s, s', sh.core);
    SameExchanges(s, s', sh.core);
  }

  lemma ReplicateStep(s: State, s': State, sh: Shadow, link: Link)
    requires Inv(s, sh) && link.leader in s.nodes && link.peer in s.nodes[link.leader].peers
    requires s.nodes[link.leader].role.Leader? && BuildRequest(s.nodes[link.leader], link.peer, s.batch).Some?
    requires s' == s.(exchanges :=
               s.exchanges[link := Asked(BuildRequest(s.nodes[link.leader], link.peer, s.batch).value)])
    ensures Inv(s', sh)
  {
    hide Inv, ExchangeOk, FlightOk, BuildRequest;
    LeaderCanReplicate(s, sh, link);
    StutterStep(s, s', sh);
  }
}
