/** What a step of one node leaves true of everybody else. */
module Frames {
  import opened Types
  import opened Quorums
  import opened Protocol
  import opened Cluster
  import opened Simulation
  import Heartbeats
  import C = Core
  import CoreSteps

  /**
   A peer that stays apart from its leader's ledger at index i, or only now hears of the term, is
   apart from it at every later index, however far the ledger has grown.
   */
  lemma StillApart(k: C.State, k': C.State, p: Id, t: nat, i: nat, i': nat)
    requires C.LogsOk(k) && C.LogsOk(k') && C.Evolves(k, k') && t in k.ledger && p in k.replicas && p in k'.replicas
    requires forall j | |k.ledger[t]| <= j < |k'.ledger[t]| :: k'.ledger[t][j].term == t
    requires k'.replicas[p].term == t && k'.replicas[p].log == k.replicas[p].log && 0 < i <= i'
    requires if k.replicas[p].term < t then exists j :: 0 <= j < i && j < |k.ledger[t]| && k.ledger[t][j].term == t
             else !SameTermAt(k.replicas[p].log, k.ledger[t], i)
    ensures !SameTermAt(k'.replicas[p].log, k'.ledger[t], i')
  {
    var log := k.replicas[p].log;
    if SameTermAt(log, k'.ledger[t], i') {
      CoreSteps.LogMatching(k'.ledger, log, k'.ledger[t], t, t, i');
    }
  }

  lemma PeerFrame(k: C.State, k': C.State, v: Id, x: Link, batch: nat, n: Node, n': Node, p: Id)
    requires C.LogsOk(k) && C.LogsOk(k') && Local(k, k', v, x) && PeerOk(k, batch, n, p)
    requires n.term in k.leaders && k.leaders[n.term] == n.id && n.id != p
    requires Link(n.id, p) == x ==> k'.replicas[p].term != n.term
    requires n'.term == n.term && p in n'.nextIndex && p in n'.matchIndex
    requires n'.nextIndex[p] == n.nextIndex[p] && n'.matchIndex[p] == n.matchIndex[p]
    ensures PeerOk(k', batch, n', p)
  {
    hide C.LogsOk, SameTermAt;
    var t, next := n.term, n.nextIndex[p];
    var r, r' := k.replicas[p], k'.replicas[p];
    assert t in k'.ledger && |k.ledger[t]| <= |k'.ledger[t]|;
    if r'.term == t {
      assert r'.log == r.log;
      StillApart(k, k', p, t, BatchEnd(next, |k.ledger[t]|, batch) + 1, BatchEnd(next, |k'.ledger[t]|, batch) + 1);
    }
  }

  lemma SentFrame(k: C.State, k': C.State, leader: Id, req: AppendRequest)
    requires C.Evolves(k, k') && C.CommitsOk(k) && SentOk(k, leader, req)
    ensures SentOk(k', leader, req)
  {
    var t := req.term;
    CoreSteps.DecidedLasts(k, k', k.ledger[t], req.leaderCommit, t);
    if req.leaderCommit != 0 {
      var u :| C.DecidedIn(k', k.ledger[t], req.leaderCommit, t, u);
      assert C.DecidedIn(k', k'.ledger[t], req.leaderCommit, t, u);
    }
  }

  lemma AskedFrame(k: C.State, k': C.State, v: Id, x: Link, p: Id, req: AppendRequest)
    requires C.LogsOk(k) && C.LogsOk(k') && Local(k, k', v, x) && AskedOk(k, p, req)
    requires req.term in k.leaders && k.leaders[req.term] != p && Link(k.leaders[req.term], p) != x
    ensures AskedOk(k', p, req)
  {
    var t, end := req.term, req.prevIndex + |req.entries|;
    if k'.replicas[p].term == t && req.entries != [] {
      assert k'.replicas[p].log == k.replicas[p].log;
      StillApart(k, k', p, t, end + 1, end + 1);
    }
  }

  lemma AnsweredFrame(k: C.State, k': C.State, v: Id, x: Link, p: Id, req: AppendRequest, reply: AppendReply)
    requires C.LogsOk(k) && C.LogsOk(k') && Local(k, k', v, x) && AnsweredOk(k, p, req, reply)
    requires req.term in k.leaders && k.leaders[req.term] != p && Link(k.leaders[req.term], p) != x
    ensures AnsweredOk(k', p, req, reply)
  {
    var t, end := req.term, req.prevIndex + |req.entries|;
    if k'.replicas[p].term == t {
      assert k'.replicas[p].log == k.replicas[p].log;
      if req.entries != [] && reply.success {
        StillApart(k, k', p, t, end + 1, end + 1);
      }
    }
  }

  lemma ExchangeFrame(k: C.State, k': C.State, v: Id, x: Link, link: Link, ex: Exchange)
    requires C.LogsOk(k) && C.LogsOk(k') && C.CommitsOk(k) && Local(k, k', v, x)
    requires ExchangeOk(k, link, ex) && link != x
    ensures ExchangeOk(k', link, ex)
  {
    hide C.LogsOk, C.CommitsOk, AskedOk, AnsweredOk;
    SentFrame(k, k', link.leader, ex.req);
    match ex
    case Asked(req) => AskedFrame(k, k', v, x, link.peer, req);
    case Answered(req, reply) => AnsweredFrame(k, k', v, x, link.peer, req, reply);
  }

  lemma OfficeFrame(k: C.State, k': C.State, v: Id, x: Link, n: Node)
    requires Local(k, k', v, x) && OfficeOk(k, n) && n.id != v
    ensures OfficeOk(k', n)
  {
  }

  lemma FrameNodes(s: State, s': State, k: C.State, k': C.State, v: Id, x: Link)
    requires NodesOk(s, k) && OfficesOk(s, k) && NodeStep(s, s', k, k', v, x)
    requires NodeOk(s', k', v) && OfficeOk(k', s'.nodes[v])
    requires forall t | t in k'.ledger && t !in k.ledger :: 0 < t
    ensures NodesOk(s', k') && OfficesOk(s', k')
  {
    hide NodeOk, OfficeOk;
    forall w | w in s'.nodes ensures NodeOk(s', k', w) && OfficeOk(k', s'.nodes[w]) {
      if w != v {
        assert NodeOk(s, k, w);
        OtherNode(s, s', k, k', v, x, w);
      }
    }
  }

  lemma OtherNode(s: State, s': State, k: C.State, k': C.State, v: Id, x: Link, w: Id)
    requires s.nodes.Keys == k.replicas.Keys
    requires NodeStep(s, s', k, k', v, x) && w in s.nodes && w != v && NodeOk(s, k, w) && OfficeOk(k, s.nodes[w])
    ensures NodeOk(s', k', w) && OfficeOk(k', s'.nodes[w])
  {
    assert OfficeOk(k', s'.nodes[w]) by {
      OfficeFrame(k, k', v, x, s.nodes[w]);
    }
    hide OfficeOk;
  }

  lemma FrameVotes(s: State, s': State, k: C.State, k': C.State, v: Id, x: Link)
    requires VotesOk(s, k) && NodeStep(s, s', k, k', v, x)
    requires forall b | b in k'.ballots && b !in k.ballots :: BallotOk(s', k', b)
    requires forall req | req in s'.voteRequests && req !in s.voteRequests :: VoteRequestOk(s', req)
    requires forall a | a in s'.voteAnswers && a !in s.voteAnswers :: VoteAnswerOk(k', a)
    ensures VotesOk(s', k')
  {
    forall b | b in k'.ballots ensures BallotOk(s', k', b) {
      if b in k.ballots {
        assert BallotOk(s, k, b);
      }
    }
    forall req | req in s'.voteRequests ensures VoteRequestOk(s', req) {
      if req in s.voteRequests {
        assert VoteRequestOk(s, req);
      }
    }
    forall a | a in s'.voteAnswers ensures VoteAnswerOk(k', a) {
      if a in s.voteAnswers {
        assert VoteAnswerOk(k, a);
      }
    }
  }

  /** Leaders other than v keep their bookkeeping, apart from the link v was written over. */
  lemma FrameProgress(s: State, s': State, k: C.State, k': C.State, v: Id, x: Link)
    requires C.LogsOk(k) && C.LogsOk(k') && NodesOk(s, k) && OfficesOk(s, k) && ProgressOk(s, k)
    requires NodeStep(s, s', k, k', v, x)
    requires s'.nodes[v].role.Leader? ==> forall p | p in s'.nodes[v].peers :: PeerOk(k', s.batch, s'.nodes[v], p)
    requires x.leader in s.nodes && x.leader != v && s.nodes[x.leader].role.Leader? && x.peer in s.nodes[x.leader].peers ==>
               PeerOk(k', s.batch, s.nodes[x.leader], x.peer)
    ensures ProgressOk(s', k')
  {
    forall w, p | w in s'.nodes && s'.nodes[w].role.Leader? && p in s'.nodes[w].peers
      ensures PeerOk(k', s'.batch, s'.nodes[w], p)
    {
      if w != v && Link(w, p) != x {
        var n := s.nodes[w];
        assert NodeOk(s, k, w) && OfficeOk(k, n);
        assert p in Ids(n.peers);
        PeerFrame(k, k', v, x, s.batch, n, n, p);
      }
    }
  }

  /** A leader that stays in office keeps its own bookkeeping too. */
  lemma SameOffice(s: State, k: C.State, k': C.State, v: Id, n': Node)
    requires C.LogsOk(k) && C.LogsOk(k') && NodesOk(s, k) && OfficesOk(s, k) && ProgressOk(s, k)
    requires v in s.nodes && Local(k, k', v, NO_LINK) && s.nodes[v].role.Leader?
    requires var n := s.nodes[v];
             n'.term == n.term && n'.nextIndex == n.nextIndex && n'.matchIndex == n.matchIndex && n'.peers == n.peers
    ensures forall p | p in n'.peers :: PeerOk(k', s.batch, n', p)
  {
    var n := s.nodes[v];
    assert NodeOk(s, k, v) && OfficeOk(k, n);
    forall p | p in n'.peers ensures PeerOk(k', s.batch, n', p) {
      assert p in Ids(n.peers);
      assert PeerOk(k, s.batch, n, p);
      assert p in k.replicas;
      NoLinkIsNone(s, k, v, p);
      PeerFrame(k, k', v, NO_LINK, s.batch, n, n', p);
    }
  }

  lemma NoLinkIsNone(s: State, k: C.State, v: Id, p: Id)
    requires NodesOk(s, k) && v in s.nodes
    ensures NOBODY !in k.members ==> Link(v, p) != NO_LINK
  {
  }

  lemma FrameExchanges(s: State, s': State, k: C.State, k': C.State, v: Id, x: Link)
    requires C.LogsOk(k) && C.LogsOk(k') && C.CommitsOk(k) && ExchangesOk(s, k) && NodeStep(s, s', k, k', v, x)
    requires forall link | link in s'.exchanges ::
               || (link in s.exchanges && s'.exchanges[link] == s.exchanges[link] && link != x)
               || ExchangeOk(k', link, s'.exchanges[link])
    ensures ExchangesOk(s', k')
  {
    forall link | link in s'.exchanges ensures ExchangeOk(k', link, s'.exchanges[link]) {
      if !ExchangeOk(k', link, s'.exchanges[link]) {
        ExchangeFrame(k, k', v, x, link, s.exchanges[link]);
      }
    }
  }

  lemma FrameFlights(s: State, s': State, k: C.State, k': C.State, v: Id, x: Link)
    requires FlightsOk(s) && NodeStep(s, s', k, k', v, x)
    requires forall link | link in s'.exchanges ::
               || (link in s.exchanges && s'.exchanges[link] == s.exchanges[link] && link.leader != v)
               || FlightOk(s', link)
    ensures FlightsOk(s')
  {
    forall link | link in s'.exchanges ensures FlightOk(s', link) {
      if link in s.exchanges {
        assert FlightOk(s, link);
      }
    }
  }

  /** A node's own requests stay within bounds if it leaves office, or keeps its indices and log. */
  lemma OwnFlights(s: State, s': State, sh: Shadow, v: Id)
    requires Inv(s, sh) && v in s.nodes && v in s'.nodes && s'.batch == s.batch
    requires forall link | link in s'.exchanges && link.leader == v ::
               link in s.exchanges && s'.exchanges[link] == s.exchanges[link]
    requires s'.nodes[v].role.Leader? ==>
               var n, n' := s.nodes[v], s'.nodes[v];
               n.role.Leader? && n'.term == n.term && n'.nextIndex == n.nextIndex && |n.log.entries| <= |n'.log.entries|
    ensures forall link | link in s'.exchanges && link.leader == v :: FlightOk(s', link)
  {
    hide C.Inv, NodesOk, OfficesOk, VotesOk, ProgressOk, ExchangesOk, ProbesOk, ReadsOk, AllProposalsOk;
    forall link | link in s'.exchanges && link.leader == v ensures FlightOk(s', link) {
      assert FlightOk(s, link);
    }
  }

  lemma FrameReads(s: State, s': State, sh: Shadow, k': C.State)
    requires C.CommitsOk(sh.core) && ProbesOk(s, sh.core) && ReadsOk(s, sh)
    requires C.Evolves(sh.core, k') && s'.queries == s.queries
    requires forall m | m in s'.probes && m !in s.probes :: ProbeOk(s', k', m)
    requires forall a | a in s'.probeAnswers && a !in s.probeAnswers :: ProbeAnswerOk(s', sh.(core := k'), a)
    ensures ProbesOk(s', k') && ReadsOk(s', sh.(core := k'))
  {
    var k := sh.core;
    forall m | m in s'.probes ensures ProbeOk(s', k', m) {
      if m in s.probes {
        assert ProbeOk(s, k, m);
        Heartbeats.AnnouncedLasts(k, k', m.req.term, m.req.prevIndex, m.req.prevTerm, m.req.leaderCommit);
      }
    }
    forall a | a in s'.probeAnswers ensures ProbeAnswerOk(s', sh.(core := k'), a) {
      if a in s.probeAnswers {
        assert ProbeAnswerOk(s, sh, a);
      }
    }
    forall r | r in s'.queries ensures C.Evolves(sh.starts[r], k') {
      CoreSteps.EvolvesTransitive(sh.starts[r], k, k');
    }
  }

  lemma SettledLasts(k: C.State, k': C.State, e: Entry)
    requires C.Evolves(k, k') && Settled(k, e)
    ensures Settled(k', e)
  {
    var t :| SettledIn(k, e, t);
    assert SettledIn(k', e, t);
  }

  lemma ProposalsLast(k: C.State, k': C.State, n: Node)
    requires C.Evolves(k, k') && ProposalsOk(k, n)
    ensures ProposalsOk(k', n)
  {
    forall t | t in n.proposals && Committed in n.proposals[t].sends ensures Settled(k', n.proposals[t].entry) {
      SettledLasts(k, k', n.proposals[t].entry);
    }
  }

  lemma FrameProposals(s: State, s': State, k: C.State, k': C.State, v: Id, x: Link)
    requires AllProposalsOk(s, k) && NodeStep(s, s', k, k', v, x) && ProposalsOk(k', s'.nodes[v])
    ensures AllProposalsOk(s', k')
  {
    forall w | w in s'.nodes ensures ProposalsOk(k', s'.nodes[w]) {
      if w != v {
        assert ProposalsOk(k, s.nodes[w]);
        ProposalsLast(k, k', s.nodes[w]);
      }
    }
  }

  /** What a node's step has to show of itself; the rest of the invariant follows. */
  ghost predicate Accounts(s: State, s': State, sh: Shadow, k': C.State, v: Id, x: Link) {
    && C.Inv(k')
    && NodeStep(s, s', sh.core, k', v, x)
    && v in k'.replicas && NodeOk(s', k', v) && OfficeOk(k', s'.nodes[v]) && ProposalsOk(k', s'.nodes[v])
    && (forall t | t in k'.ledger && t !in sh.core.ledger :: 0 < t)
    && (s'.nodes[v].role.Leader? ==> forall p | p in s'.nodes[v].peers :: PeerOk(k', s.batch, s'.nodes[v], p))
    && (x.leader in s.nodes && x.leader != v && s.nodes[x.leader].role.Leader? && x.peer in s.nodes[x.leader].peers ==>
          PeerOk(k', s.batch, s.nodes[x.leader], x.peer))
    && (forall b | b in k'.ballots && b !in sh.core.ballots :: BallotOk(s', k', b))
    && (forall req | req in s'.voteRequests && req !in s.voteRequests :: VoteRequestOk(s', req))
    && (forall a | a in s'.voteAnswers && a !in s.voteAnswers :: VoteAnswerOk(k', a))
    && (forall link | link in s'.exchanges ::
          || (link in s.exchanges && s'.exchanges[link] == s.exchanges[link] && link != x)
          || ExchangeOk(k', link, s'.exchanges[link]))
    && (forall link | link in s'.exchanges ::
          || (link in s.exchanges && s'.exchanges[link] == s.exchanges[link] && link.leader != v)
          || FlightOk(s', link))
    && s'.queries == s.queries
    && (forall m | m in s'.probes && m !in s.probes :: ProbeOk(s', k', m))
    && (forall a | a in s'.probeAnswers && a !in s.probeAnswers :: ProbeAnswerOk(s', sh.(core := k'), a))
  }

  lemma Assemble(s: State, s': State, sh: Shadow, k': C.State, v: Id, x: Link)
    requires Inv(s, sh) && Accounts(s, s', sh, k', v, x)
    ensures Inv(s', sh.(core := k'))
  {
    hide NodesOk, OfficesOk, VotesOk, ProgressOk, ExchangesOk, FlightsOk, FlightOk, ProbesOk, ReadsOk, AllProposalsOk, ProposalsOk,
         NodeOk, OfficeOk, PeerOk, BallotOk, VoteRequestOk, VoteAnswerOk, ExchangeOk, ProbeOk, ProbeAnswerOk,
         Local, C.LogsOk, C.CommitsOk, C.Evolves;
    var k := sh.core;
    assert C.Evolves(k, k') by { StepEvolves(s, s', k, k', v, x); }
    FrameNodes(s, s', k, k', v, x);
    FrameVotes(s, s', k, k', v, x);
    FrameProgress(s, s', k, k', v, x);
    FrameExchanges(s, s', k, k', v, x);
    FrameFlights(s, s', k, k', v, x);
    FrameReads(s, s', sh, k');
    FrameProposals(s, s', k, k', v, x);
  }

  lemma StepEvolves(s: State, s': State, k: C.State, k': C.State, v: Id, x: Link)
    requires NodeStep(s, s', k, k', v, x)
    ensures C.Evolves(k, k')
  {
  }
}
