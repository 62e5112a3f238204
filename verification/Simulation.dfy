/** How a cluster state is read as a state of the core, and what holds of the messages in flight. */
module Simulation {
  import opened Types
  import opened Quorums
  import opened Protocol
  import opened Cluster
  import Heartbeats
  import C = Core

  /** The core state mirrored by a cluster, and the core states in which its reads began. */
  datatype Shadow = Shadow(core: C.State, starts: map<ReadId, C.State>)

  // ---------------------------------------------------------------- nodes

  predicate NodeOk(s: State, k: C.State, v: Id)
    requires v in s.nodes && v in k.replicas
  {
    var n := s.nodes[v];
    && n.id == v
    && n.log.base == 0 && n.log.baseTerm == 0
    && Distinct(n.peers)
    && Ids(n.peers) == s.nodes.Keys - {v}
    && n.lastApplied <= n.commitIndex
    && k.replicas[v] == C.Replica(n.term, n.votedFor, n.log.entries, n.commitIndex)
  }

  predicate NodesOk(s: State, k: C.State) {
    && k.members == s.nodes.Keys
    && k.replicas.Keys == s.nodes.Keys
    && (forall v | v in s.nodes :: NodeOk(s, k, v))
    && (forall t | t in k.ledger :: 0 < t)
  }

  /** A leader's log is its term's ledger; a candidate has voted for itself and not won. */
  predicate OfficeOk(k: C.State, n: Node) {
    && (n.votedFor != NOBODY ==>
          C.Seat(n.term, n.id) in k.ballots && k.ballots[C.Seat(n.term, n.id)].candidate == n.votedFor)
    && (n.role.Leader? ==>
          && n.term in k.leaders && k.leaders[n.term] == n.id
          && n.term in k.ledger && k.ledger[n.term] == n.log.entries
          && C.Seat(n.term, n.id) in k.acks && k.acks[C.Seat(n.term, n.id)] == |n.log.entries|
          && (n.term in k.commits ==> k.commits[n.term] <= n.commitIndex)
          && n.nextIndex.Keys == Ids(n.peers)
          && n.matchIndex.Keys == Ids(n.peers))
    && (n.role.Candidate? ==>
          && 0 < n.term && n.votedFor == n.id
          && C.Seat(n.term, n.id) in k.ballots && k.ballots[C.Seat(n.term, n.id)].candidate == n.id
          && (n.term in k.leaders ==> k.leaders[n.term] != n.id))
  }

  predicate OfficesOk(s: State, k: C.State) {
    forall v | v in s.nodes :: OfficeOk(k, s.nodes[v])
  }

  // ---------------------------------------------------------------- votes

  /** While a candidate campaigns, its log is still one its voters found up to date. */
  predicate BallotOk(s: State, k: C.State, b: C.Seat)
    requires b in k.ballots
  {
    var c := k.ballots[b].candidate;
    && c in s.nodes
    && b.term <= s.nodes[c].term
    && (b.term == s.nodes[c].term && s.nodes[c].role.Candidate? ==>
          C.UpToDate(s.nodes[c].log.entries, k.ballots[b].log))
  }

  predicate VoteRequestOk(s: State, req: VoteRequest) {
    && req.candidate in s.nodes
    && var n := s.nodes[req.candidate];
    && req.term <= n.term
    && (req.term == n.term && n.role.Candidate? ==>
          req.lastIndex == |n.log.entries| && req.lastTerm == LastTermOf(n.log.entries))
  }

  predicate VoteAnswerOk(k: C.State, a: VoteAnswer) {
    a.reply.granted ==>
      C.Seat(a.asked, a.voter) in k.ballots && k.ballots[C.Seat(a.asked, a.voter)].candidate == a.candidate
  }

  predicate VotesOk(s: State, k: C.State) {
    && (forall b | b in k.ballots :: BallotOk(s, k, b))
    && (forall req | req in s.voteRequests :: VoteRequestOk(s, req))
    && (forall a | a in s.voteAnswers :: VoteAnswerOk(k, a))
  }

  // ---------------------------------------------------------------- replication

  /**
   The leader's bookkeeping for a peer. The peer may share entries with the leader, but never the
   one after the next batch; and until it has heard from this term's leader, nextIndex still stands
   at an entry of this term.
   */
  predicate PeerOk(k: C.State, batch: nat, n: Node, p: Id) {
    && p in k.replicas && n.term in k.ledger && p in n.nextIndex && p in n.matchIndex
    && var r := k.replicas[p];
    && var ledger := k.ledger[n.term];
    && var next := n.nextIndex[p];
    && 0 < next <= |ledger| + 1
    && (r.term < n.term ==> next <= |ledger| && ledger[next - 1].term == n.term)
    && (r.term == n.term ==> !SameTermAt(r.log, ledger, BatchEnd(next, |ledger|, batch) + 1))
    && (n.matchIndex[p] == 0 || C.Acked(k, n.term, p, n.matchIndex[p]))
  }

  predicate ProgressOk(s: State, k: C.State) {
    forall v, p | v in s.nodes && s.nodes[v].role.Leader? && p in s.nodes[v].peers ::
      PeerOk(k, s.batch, s.nodes[v], p)
  }

  /** A request is a stretch of its term's ledger, and announces only what is decided. */
  ghost predicate SentOk(k: C.State, leader: Id, req: AppendRequest) {
    && req.term in k.ledger && req.term in k.leaders && k.leaders[req.term] == leader
    && var ledger := k.ledger[req.term];
    && req.prevIndex + |req.entries| <= |ledger|
    && (forall i | 0 <= i < |req.entries| :: req.entries[i] == ledger[req.prevIndex + i])
    && req.prevTerm == (if req.prevIndex == 0 then 0 else ledger[req.prevIndex - 1].term)
    && C.Decided(k, ledger, req.leaderCommit, req.term)
    && (req.entries == [] ==> req.leaderCommit <= req.prevIndex)
  }

  /** What the peer may have done meanwhile: nothing that a delivery would undo. */
  predicate AskedOk(k: C.State, p: Id, req: AppendRequest) {
    && p in k.replicas && req.term in k.ledger
    && (req.entries != [] ==>
          && req.prevIndex + |req.entries| <= |k.ledger[req.term]|
          && (k.replicas[p].term < req.term ==> k.ledger[req.term][req.prevIndex].term == req.term)
          && (k.replicas[p].term == req.term ==>
                !SameTermAt(k.replicas[p].log, k.ledger[req.term], req.prevIndex + |req.entries| + 1)))
  }

  /** A refusal's hint still describes the peer's log for as long as the peer stays in the term. */
  predicate HintOk(log: seq<Entry>, req: AppendRequest, reply: AppendReply) {
    if reply.conflictTerm == 0 then |log| < reply.conflictIndex
    else
      && 0 < reply.conflictIndex <= req.prevIndex <= |log|
      && log[req.prevIndex - 1].term == reply.conflictTerm != req.prevTerm
      && log[reply.conflictIndex - 1].term == reply.conflictTerm
  }

  predicate AnsweredOk(k: C.State, p: Id, req: AppendRequest, reply: AppendReply) {
    && p in k.replicas && req.term in k.ledger
    && req.term <= reply.term <= k.replicas[p].term
    && (reply.success ==>
          && reply.term == req.term
          && (req.entries != [] ==>
                && C.Acked(k, req.term, p, req.prevIndex + |req.entries|)
                && (k.replicas[p].term == req.term ==>
                      !SameTermAt(k.replicas[p].log, k.ledger[req.term], req.prevIndex + |req.entries| + 1))))
    && (!reply.success && reply.term == req.term ==>
          && 0 < reply.conflictIndex <= req.prevIndex
          && (k.replicas[p].term == req.term ==> HintOk(k.replicas[p].log, req, reply)))
  }

  ghost predicate ExchangeOk(k: C.State, link: Link, ex: Exchange) {
    && link.leader in k.replicas && link.leader != link.peer
    && SentOk(k, link.leader, ex.req)
    && match ex
       case Asked(req) => AskedOk(k, link.peer, req)
       case Answered(req, reply) => AnsweredOk(k, link.peer, req, reply)
  }

  ghost predicate ExchangesOk(s: State, k: C.State) {
    forall link | link in s.exchanges :: ExchangeOk(k, link, s.exchanges[link])
  }

  /** A request in flight from a leader still in office reaches no further than the next one will. */
  predicate FlightOk(s: State, link: Link)
    requires link in s.exchanges
  {
    var ex := s.exchanges[link];
    ex.Asked? && link.leader in s.nodes ==>
      var n := s.nodes[link.leader];
      n.role.Leader? && n.term == ex.req.term ==>
        && 0 < NextIndex(n, link.peer)
        && ex.req.prevIndex + |ex.req.entries| <= BatchEnd(NextIndex(n, link.peer), |n.log.entries|, s.batch)
  }

  predicate FlightsOk(s: State) {
    forall link | link in s.exchanges :: FlightOk(s, link)
  }

  // ---------------------------------------------------------------- reads

  /** What a probe announces can do no harm. */
  ghost predicate ProbeOk(s: State, k: C.State, m: Probe) {
    && m.peer in k.replicas && m.read in s.queries && m.peer != s.queries[m.read].leader
    && m.req.entries == []
    && m.req.term == s.queries[m.read].term
    && Leads(k, s.queries[m.read].leader, m.req.term)
    && Heartbeats.Announced(k, m.req.term, m.req.prevIndex, m.req.prevTerm, m.req.leaderCommit)
  }

  predicate Leads(k: C.State, l: Id, t: nat) {
    t in k.ledger && t in k.leaders && k.leaders[t] == l
  }

  ghost predicate ProbesOk(s: State, k: C.State) {
    forall m | m in s.probes :: ProbeOk(s, k, m)
  }

  /** When the read began, `p` had not yet voted in any later term. */
  predicate Untouched(start: C.State, p: Id, t: nat) {
    forall b | b in start.ballots && b.node == p :: b.term <= t
  }

  ghost predicate ReadsOk(s: State, sh: Shadow) {
    && sh.starts.Keys == s.queries.Keys
    && (forall r | r in s.queries ::
          && C.Evolves(sh.starts[r], sh.core)
          && Leads(sh.core, s.queries[r].leader, s.queries[r].term)
          && Untouched(sh.starts[r], s.queries[r].leader, s.queries[r].term))
    && (forall a | a in s.probeAnswers :: ProbeAnswerOk(s, sh, a))
  }

  predicate ProbeAnswerOk(s: State, sh: Shadow, a: ProbeAnswer) {
    && a.read in s.queries && a.read in sh.starts
    && (a.term <= s.queries[a.read].term ==> Untouched(sh.starts[a.read], a.peer, s.queries[a.read].term))
  }

  // ---------------------------------------------------------------- proposals

  ghost predicate Settled(k: C.State, e: Entry) {
    exists t :: SettledIn(k, e, t)
  }

  predicate SettledIn(k: C.State, e: Entry, t: nat) {
    && t in k.commits && t in k.ledger
    && 0 < e.index <= k.commits[t] && e.index <= |k.ledger[t]|
    && k.ledger[t][e.index - 1] == e
  }

  /** Only a leader has waiters, each for the very entry its log holds; no channel is sent on twice. */
  ghost predicate ProposalsOk(k: C.State, n: Node) {
    && (n.waiters != map[] ==> n.role.Leader?)
    && (forall i | i in n.waiters ::
          && n.waiters[i] in n.proposals
          && var p := n.proposals[n.waiters[i]];
          && p.entry.index == i && p.sends == []
          && 0 < i <= |n.log.entries| && n.log.entries[i - 1] == p.entry)
    && (forall t | t in n.proposals ::
          && |n.proposals[t].sends| <= 1
          && (Committed in n.proposals[t].sends ==> Settled(k, n.proposals[t].entry)))
  }

  ghost predicate AllProposalsOk(s: State, k: C.State) {
    forall v | v in s.nodes :: ProposalsOk(k, s.nodes[v])
  }

  // ---------------------------------------------------------------- together

  ghost predicate Inv(s: State, sh: Shadow) {
    && C.Inv(sh.core)
    && NodesOk(s, sh.core)
    && OfficesOk(s, sh.core)
    && VotesOk(s, sh.core)
    && ProgressOk(s, sh.core)
    && ExchangesOk(s, sh.core)
    && FlightsOk(s)
    && ProbesOk(s, sh.core)
    && ReadsOk(s, sh)
    && AllProposalsOk(s, sh.core)
  }

  // ---------------------------------------------------------------- steps of one node

  /**
   A core step taken by `v`: it touches only v's replica, seats and offices. If v's log changes, v
   is its term's leader, or took the change from that leader over the link `x`.
   */
  predicate Local(k: C.State, k': C.State, v: Id, x: Link) {
    && C.Evolves(k, k')
    && Touches(k, k', v)
    && (k'.replicas[v].log == k.replicas[v].log || Licensed(k', v, x))
  }

  predicate Touches(k: C.State, k': C.State, v: Id) {
    && v in k.replicas && k'.replicas.Keys == k.replicas.Keys
    && (forall w | w in k.replicas && w != v :: k'.replicas[w] == k.replicas[w])
    && (forall t | t in k'.leaders && t !in k.leaders :: k'.leaders[t] == v)
    && (forall t | t in k.ledger && t in k.leaders && k.leaders[t] != v ::
          t in k'.ledger && k'.ledger[t] == k.ledger[t])
    && (forall t, i | t in k.ledger && t in k'.ledger && |k.ledger[t]| <= i < |k'.ledger[t]| ::
          k'.ledger[t][i].term == t)
    && (forall b | b in k'.acks && b.node != v :: b in k.acks && k'.acks[b] == k.acks[b])
    && (forall t | t in k'.commits ::
          (t in k.commits && k'.commits[t] == k.commits[t]) || (t in k'.leaders && k'.leaders[t] == v))
  }

  predicate Licensed(k: C.State, v: Id, x: Link)
    requires v in k.replicas
  {
    && k.replicas[v].term in k.leaders
    && (k.leaders[k.replicas[v].term] == v || Link(k.leaders[k.replicas[v].term], v) == x)
  }

  const NO_LINK := Link(NOBODY, NOBODY)

  /** A node's candidacy is never resumed and its log never changes while it campaigns. */
  predicate CandidacyOk(n: Node, n': Node) {
    && n.term <= n'.term
    && (n'.role.Candidate? && n'.term == n.term ==> n.role.Candidate? && n'.log == n.log)
  }

  /** Only v's node changes, as its replica does. */
  predicate NodeStep(s: State, s': State, k: C.State, k': C.State, v: Id, x: Link) {
    && v in s.nodes && s'.nodes.Keys == s.nodes.Keys
    && (forall w | w in s.nodes && w != v :: s'.nodes[w] == s.nodes[w])
    && s'.batch == s.batch
    && s'.nodes[v].peers == s.nodes[v].peers
    && CandidacyOk(s.nodes[v], s'.nodes[v])
    && Local(k, k', v, x)
  }
}
