/** The leader processes replies: its indices move without ever passing over a shared entry. */
module ReplySteps {
  import opened Types
  import opened Quorums
  import opened Protocol
  import opened Cluster
  import opened Simulation
  import opened Frames
  import opened Steps
  import opened ReplicationSteps
  import opened FollowerSteps
  import opened DeliverySteps
  import B = Backtracking
  import C = Core

  function Reindexed(n: Node, p: Id, next: nat, match': nat): Node {
    n.(nextIndex := n.nextIndex[p := next], matchIndex := n.matchIndex[p := match'])
  }

  /** nextIndex at a place where the logs part is a place the next batch can start from. */
  lemma ApartPeer(k: C.State, batch: nat, n: Node, p: Id, next: nat, match': nat)
    requires C.LogsOk(k) && p in k.replicas && n.term in k.ledger && k.replicas[p].term >= n.term
    requires 0 < next <= |k.ledger[n.term]| + 1
    requires k.replicas[p].term == n.term ==> !SameTermAt(k.replicas[p].log, k.ledger[n.term], next)
    requires match' == 0 || C.Acked(k, n.term, p, match')
    ensures PeerOk(k, batch, Reindexed(n, p, next, match'), p)
  {
    var t := n.term;
    if k.replicas[p].term == t {
      assert C.Evolves(k, k);
      StillApart(k, k, p, t, next, BatchEnd(next, |k.ledger[t]|, batch) + 1);
    }
  }

  /** After a success, nextIndex stands right after what the follower acknowledged. */
  lemma SuccessPeer(k: C.State, batch: nat, n: Node, l: Id, p: Id, req: AppendRequest, reply: AppendReply)
    requires C.LogsOk(k) && SentOk(k, l, req) && AnsweredOk(k, p, req, reply)
    requires n.term == req.term && reply.success && req.entries != []
    ensures req.entries[|req.entries| - 1].index == req.prevIndex + |req.entries|
    ensures var last := req.entries[|req.entries| - 1].index;
            PeerOk(k, batch, Reindexed(n, p, last + 1, last), p)
  {
    assert C.Grounded(k.ledger, k.ledger[req.term], req.term);
    hide C.LogsOk, SameTermAt;
    var last := req.prevIndex + |req.entries|;
    ApartPeer(k, batch, n, p, last + 1, last);
  }

  /** After a refusal, the hint moves nextIndex to a place where the logs part. */
  lemma RefusalPeer(k: C.State, batch: nat, n: Node, l: Id, p: Id, req: AppendRequest, reply: AppendReply)
    requires C.LogsOk(k) && (forall t | t in k.ledger :: 0 < t) && SentOk(k, l, req) && AnsweredOk(k, p, req, reply)
    requires n.term == req.term == reply.term && !reply.success && n.log == Log(0, 0, k.ledger[n.term])
    requires PeerOk(k, batch, n, p)
    ensures PeerOk(k, batch, Reindexed(n, p, Backtrack(n.log, NextIndex(n, p), reply), n.matchIndex[p]), p)
  {
    var t := req.term;
    var next := Backtrack(n.log, NextIndex(n, p), reply);
    if k.replicas[p].term == t {
      GroundedCoherent(k, k.ledger[t], t, k.replicas[p].log, t);
      B.BacktrackLands(k.ledger[t], k.replicas[p].log, NextIndex(n, p), req.prevIndex, reply);
    } else {
      FindStaysBelow(n.log, n.log.LastIndex(), reply.conflictTerm);
    }
    hide C.LogsOk, Backtrack, SentOk, SameTermAt;
    ApartPeer(k, batch, n, p, next, n.matchIndex[p]);
  }

  lemma {:induction false} FindStaysBelow(log: Log, i: nat, term: nat)
    ensures FindTerm(log, i, term).Some? ==> log.FirstIndex() <= FindTerm(log, i, term).value <= i
  {
    if log.FirstIndex() <= i && log.TermAt(i).Some? && log.TermAt(i).value > term {
      FindStaysBelow(log, i - 1, term);
    }
  }

  /** The leader's new indices for one peer are all that changes. */
  lemma ReindexStep(s: State, s': State, sh: Shadow, link: Link, next: nat, match': nat)
    requires Inv(s, sh) && link in s.exchanges && link.leader in s.nodes && s.nodes[link.leader].role.Leader?
    requires s' == s.(nodes := s.nodes[link.leader := Reindexed(s.nodes[link.leader], link.peer, next, match')],
                      exchanges := s.exchanges - {link})
    requires PeerOk(sh.core, s.batch, s'.nodes[link.leader], link.peer)
    ensures Inv(s', sh)
  {
    hide Inv, C.Inv, C.LogsOk, C.CommitsOk, C.DecisionsOk, C.ShapeOk, C.Evolves, Local, NodeOk, OfficeOk, ProposalsOk,
         PeerOk, FlightOk, ExchangeOk;
    var k, l := sh.core, link.leader;
    ExchangeFacts(s, sh, link);
    About(s, sh, l);
    ReindexedNode(s, s', k, l, link.peer, next, match');
    ReindexedPeers(s, sh, l, link.peer, next, match');
    ReindexedFlights(s, s', sh, link, next, match');
    StutterLocal(k, l, NO_LINK);
    Assemble(s, s', sh, k, l, NO_LINK);
    assert sh.(core := k) == sh;
  }

  lemma ReindexedNode(s: State, s': State, k: C.State, l: Id, p: Id, next: nat, match': nat)
    requires l in s.nodes && l in k.replicas && NodeOk(s, k, l) && OfficeOk(k, s.nodes[l]) && s.nodes[l].role.Leader?
    requires p in s.nodes[l].peers && ProposalsOk(k, s.nodes[l])
    requires s'.nodes == s.nodes[l := Reindexed(s.nodes[l], p, next, match')]
    ensures NodeOk(s', k, l) && OfficeOk(k, s'.nodes[l]) && ProposalsOk(k, s'.nodes[l])
  {
    assert p in Ids(s.nodes[l].peers);
    assert s'.nodes[l].nextIndex.Keys == s.nodes[l].nextIndex.Keys + {p};
    assert s'.nodes[l].matchIndex.Keys == s.nodes[l].matchIndex.Keys + {p};
  }

  lemma ReindexedPeers(s: State, sh: Shadow, l: Id, p: Id, next: nat, match': nat)
    requires Inv(s, sh) && l in s.nodes && s.nodes[l].role.Leader?
    requires PeerOk(sh.core, s.batch, Reindexed(s.nodes[l], p, next, match'), p)
    ensures forall q | q in s.nodes[l].peers :: PeerOk(sh.core, s.batch, Reindexed(s.nodes[l], p, next, match'), q)
  {
    hide Inv;
    forall q | q in s.nodes[l].peers ensures PeerOk(sh.core, s.batch, Reindexed(s.nodes[l], p, next, match'), q) {
      PeerFacts(s, sh, l, q);
    }
  }

  lemma ReindexedFlights(s: State, s': State, sh: Shadow, link: Link, next: nat, match': nat)
    requires Inv(s, sh) && link.leader in s.nodes && s'.batch == s.batch && s'.exchanges == s.exchanges - {link}
    requires s'.nodes == s.nodes[link.leader := Reindexed(s.nodes[link.leader], link.peer, next, match')]
    ensures forall other | other in s'.exchanges && other.leader == link.leader :: FlightOk(s', other)
  {
    hide Inv, ExchangeOk;
    forall other | other in s'.exchanges && other.leader == link.leader ensures FlightOk(s', other) {
      ExchangeHolds(s, sh, other);
      assert other.peer != link.peer;
    }
  }

  lemma ReplyStep(s: State, s': State, sh: Shadow, link: Link) returns (k': C.State)
    requires Inv(s, sh) && link in s.exchanges && s.exchanges[link].Answered? && link.leader in s.nodes
    requires var ex := s.exchanges[link];
             s' == s.(nodes := s.nodes[link.leader := HandleReply(s.nodes[link.leader], link.peer, ex.req, ex.reply)],
                      exchanges := s.exchanges - {link})
    ensures Inv(s', sh.(core := k')) && C.Evolves(sh.core, k')
  {
    hide Inv, C.Inv, C.LogsOk, C.CommitsOk, C.DecisionsOk, C.ShapeOk, NodeOk, ProposalsOk, SentOk,
         PeerOk, FlightOk, StepDown, Backtrack, AnsweredOk;
    var Answered(req, reply) := s.exchanges[link];
    var k, l, p, n := sh.core, link.leader, link.peer, s.nodes[link.leader];
    k' := k;
    assert sh.(core := k) == sh;
    if reply.term > req.term {
      k' := StepDownStep(s, s', sh, l, reply.term);
    } else if !n.role.Leader? || n.term != req.term || (reply.success && req.entries == []) {
      assert s'.nodes == s.nodes;
      StutterStep(s, s', sh);
    } else {
      ExchangeFacts(s, sh, link);
      AnsweredSame(k, p, req, reply);
      About(s, sh, l);
      Parts(k);
      if reply.success {
        SuccessPeer(k, s.batch, n, l, p, req, reply);
        var last := req.entries[|req.entries| - 1].index;
        ReindexStep(s, s', sh, link, last + 1, last);
      } else {
        OwnLog(s, k, l);
        RefusalPeer(k, s.batch, n, l, p, req, reply);
        PeerHas(k, s.batch, n, p);
        assert n.matchIndex[p := n.matchIndex[p]] == n.matchIndex;
        ReindexStep(s, s', sh, link, Backtrack(n.log, NextIndex(n, p), reply), n.matchIndex[p]);
      }
    }
  }

  lemma AnsweredSame(k: C.State, p: Id, req: AppendRequest, reply: AppendReply)
    requires AnsweredOk(k, p, req, reply)
    ensures req.term <= reply.term
  {
  }

  lemma OwnLog(s: State, k: C.State, l: Id)
    requires l in s.nodes && l in k.replicas && NodeOk(s, k, l) && OfficeOk(k, s.nodes[l]) && s.nodes[l].role.Leader?
    ensures s.nodes[l].term in k.ledger && s.nodes[l].log == Log(0, 0, k.ledger[s.nodes[l].term])
  {
  }

  lemma PeerHas(k: C.State, batch: nat, n: Node, p: Id)
    requires PeerOk(k, batch, n, p)
    ensures p in n.nextIndex && p in n.matchIndex
  {
  }
}
