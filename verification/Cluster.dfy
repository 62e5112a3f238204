/**
 The cluster: nodes running the handlers of Protocol over a network that loses, delays and reorders.

 Vote messages and leadership probes may also be duplicated. A replication exchange may lose its
 request or its reply, but occupies the one slot its leader keeps for that peer: a later request to
 the peer replaces an undelivered earlier one, as serialized rounds do.
 */
module Cluster {
  import opened Types
  import opened Quorums
  import opened Protocol
  import Heartbeats

  /** A vote reply on its way back; `asked` is the term of the request it answers. */
  datatype VoteAnswer = VoteAnswer(voter: Id, candidate: Id, asked: nat, reply: VoteReply)

  datatype Link = Link(leader: Id, peer: Id)

  datatype Exchange =
    | Asked(req: AppendRequest)
    | Answered(req: AppendRequest, reply: AppendReply)

  type ReadId = nat
  datatype Read = Read(leader: Id, term: nat, index: nat)
  datatype Probe = Probe(read: ReadId, peer: Id, req: AppendRequest)
  datatype ProbeAnswer = ProbeAnswer(read: ReadId, peer: Id, term: nat)

  datatype State = State(
    batch: nat,
    nodes: map<Id, Node>,
    voteRequests: set<VoteRequest>,
    voteAnswers: set<VoteAnswer>,
    exchanges: map<Link, Exchange>,
    queries: map<ReadId, Read>,
    probes: set<Probe>,
    probeAnswers: set<ProbeAnswer>)

  datatype Step =
    | Timeout(node: Id)
    | DeliverVoteRequest(node: Id, vote: VoteRequest)
    | LearnFromVote(answer: VoteAnswer)
    | WinElection(node: Id, quorum: set<Id>)
    | ClientPropose(node: Id, command: Command, ticket: Ticket)
    | ClientCancel(node: Id, ticket: Ticket)
    | Replicate(link: Link)
    | DeliverAppend(link: Link)
    | DeliverReply(link: Link)
    | Lose(link: Link)
    | TryCommit(node: Id)
    | ApplyOne(node: Id)
    | Crash(node: Id)
    | StartRead(node: Id, read: ReadId)
    | SendProbe(read: ReadId, peer: Id, asCoded: bool)
    | DeliverProbe(probe: Probe)
    | LearnFromProbe(probeAnswer: ProbeAnswer)

  /** Fresh nodes with distinct, non-empty ids, each knowing all the others. */
  predicate Initial(s: State) {
    && NOBODY !in s.nodes
    && (forall v | v in s.nodes ::
          && s.nodes[v] == Start(v, s.nodes[v].peers)
          && Distinct(s.nodes[v].peers)
          && Ids(s.nodes[v].peers) == s.nodes.Keys - {v})
    && s.voteRequests == {} && s.voteAnswers == {} && s.exchanges == map[]
    && s.queries == map[] && s.probes == {} && s.probeAnswers == {}
  }

  /** The term a leader holds for a probe's prevIndex; 0 where it holds none. */
  function ProbeTerm(n: Node, prevIndex: nat): nat {
    if n.log.TermAt(prevIndex).Some? then n.log.TermAt(prevIndex).value else 0
  }

  function PrevIndex(n: Node, peer: Id): nat {
    if NextIndex(n, peer) > 0 then NextIndex(n, peer) - 1 else 0
  }

  /**
   The heartbeat a read sends: the term the read began in, everything else as the node is now. The code
   always puts the commit index in it (`asCoded`); see SoundStep for when that must not be done.
   */
  function ProbeRequest(n: Node, peer: Id, term: nat, asCoded: bool): AppendRequest {
    var prev := PrevIndex(n, peer);
    AppendRequest(term, n.id, prev, ProbeTerm(n, prev), [], if asCoded then n.commitIndex else 0)
  }

  /** A read is confirmed once a majority, its leader included, has answered without a later term. */
  ghost predicate Confirmed(s: State, r: ReadId) {
    r in s.queries && exists q :: ConfirmedBy(s, r, q)
  }

  predicate ConfirmedBy(s: State, r: ReadId, q: set<Id>) {
    && r in s.queries
    && IsQuorum(s.nodes.Keys, q)
    && forall p | p in q && p != s.queries[r].leader ::
         exists a :: a in s.probeAnswers && a.read == r && a.peer == p && a.term <= s.queries[r].term
  }

  predicate HasVotes(s: State, c: Id, q: set<Id>)
    requires c in s.nodes
  {
    && IsQuorum(s.nodes.Keys, q)
    && forall v | v in q && v != c ::
         VoteAnswer(v, c, s.nodes[c].term, VoteReply(s.nodes[c].term, true)) in s.voteAnswers
  }

  predicate Enabled(s: State, step: Step) {
    match step
    case Timeout(v) => v in s.nodes && !s.nodes[v].role.Leader?
    case DeliverVoteRequest(v, req) => v in s.nodes && req in s.voteRequests && req.candidate != v
    case LearnFromVote(a) => a in s.voteAnswers && a.candidate in s.nodes && a.reply.term > a.asked
    case WinElection(c, q) => c in s.nodes && s.nodes[c].role.Candidate? && HasVotes(s, c, q)
    case ClientPropose(v, command, ticket) =>
      v in s.nodes && ticket !in s.nodes[v].proposals && s.nodes[v].role.Leader?
    case ClientCancel(v, ticket) => v in s.nodes
    case Replicate(link) =>
      && link.leader in s.nodes && link.peer in s.nodes[link.leader].peers
      && s.nodes[link.leader].role.Leader?
      && BuildRequest(s.nodes[link.leader], link.peer, s.batch).Some?
    case DeliverAppend(link) =>
      && link in s.exchanges && s.exchanges[link].Asked? && link.peer in s.nodes
      && Wellformed(s.nodes[link.peer].log, s.exchanges[link].req)
    case DeliverReply(link) => link in s.exchanges && s.exchanges[link].Answered? && link.leader in s.nodes
    case Lose(link) => link in s.exchanges
    case TryCommit(v) => v in s.nodes
    case ApplyOne(v) => v in s.nodes
    case Crash(v) => v in s.nodes
    case StartRead(v, r) => v in s.nodes && s.nodes[v].role.Leader? && r !in s.queries
    case SendProbe(r, p, asCoded) =>
      r in s.queries && s.queries[r].leader in s.nodes && p in s.nodes[s.queries[r].leader].peers
    case DeliverProbe(probe) =>
      probe in s.probes && probe.peer in s.nodes && Wellformed(s.nodes[probe.peer].log, probe.req)
    case LearnFromProbe(a) =>
      && a in s.probeAnswers && a.read in s.queries && s.queries[a.read].leader in s.nodes
      && a.term > s.queries[a.read].term
  }

  function Next(s: State, step: Step): State
    requires Enabled(s, step)
  {
    match step
    case Timeout(v) =>
      var n := BecomeCandidate(s.nodes[v]);
      s.(nodes := s.nodes[v := n], voteRequests := s.voteRequests + {VoteRequestOf(n)})
    case DeliverVoteRequest(v, req) =>
      var (n, reply) := HandleVote(s.nodes[v], req);
      s.(nodes := s.nodes[v := n],
         voteAnswers := s.voteAnswers + {VoteAnswer(v, req.candidate, req.term, reply)})
    case LearnFromVote(a) =>
      s.(nodes := s.nodes[a.candidate := StepDown(s.nodes[a.candidate], a.reply.term)])
    case WinElection(c, q) =>
      s.(nodes := s.nodes[c := BecomeLeader(s.nodes[c])])
    case ClientPropose(v, command, ticket) =>
      s.(nodes := s.nodes[v := Propose(s.nodes[v], command, ticket).value])
    case ClientCancel(v, ticket) =>
      s.(nodes := s.nodes[v := Cancel(s.nodes[v], ticket)])
    case Replicate(link) =>
      var req := BuildRequest(s.nodes[link.leader], link.peer, s.batch).value;
      s.(exchanges := s.exchanges[link := Asked(req)])
    case DeliverAppend(link) =>
      var req := s.exchanges[link].req;
      var (n, reply) := HandleAppend(s.nodes[link.peer], req);
      s.(nodes := s.nodes[link.peer := n], exchanges := s.exchanges[link := Answered(req, reply)])
    case DeliverReply(link) =>
      var Answered(req, reply) := s.exchanges[link];
      s.(nodes := s.nodes[link.leader := HandleReply(s.nodes[link.leader], link.peer, req, reply)],
         exchanges := s.exchanges - {link})
    case Lose(link) =>
      s.(exchanges := s.exchanges - {link})
    case TryCommit(v) =>
      s.(nodes := s.nodes[v := AdvanceCommit(s.nodes[v])])
    case ApplyOne(v) =>
      s.(nodes := s.nodes[v := ApplyNext(s.nodes[v])])
    case Crash(v) =>
      s.(nodes := s.nodes[v := Protocol.Restart(s.nodes[v])])
    case StartRead(v, r) =>
      s.(queries := s.queries[r := Read(v, s.nodes[v].term, s.nodes[v].commitIndex)])
    case SendProbe(r, p, asCoded) =>
      var n := s.nodes[s.queries[r].leader];
      s.(probes := s.probes + {Probe(r, p, ProbeRequest(n, p, s.queries[r].term, asCoded))})
    case DeliverProbe(probe) =>
      var (n, reply) := HandleAppend(s.nodes[probe.peer], probe.req);
      s.(nodes := s.nodes[probe.peer := n],
         probeAnswers := s.probeAnswers + {ProbeAnswer(probe.read, probe.peer, reply.term)})
    case LearnFromProbe(a) =>
      var l := s.queries[a.read].leader;
      s.(nodes := s.nodes[l := StepDown(s.nodes[l], a.term)])
  }

  /** A probe carries a commit index only if that harms no follower, by what the sender can tell from its own log. */
  predicate SoundStep(s: State, step: Step) {
    step.SendProbe? && Enabled(s, step) && step.asCoded ==>
      var q := s.queries[step.read];
      var n := s.nodes[q.leader];
      var prev := PrevIndex(n, step.peer);
      || (n.role.Leader? && n.term == q.term && Heartbeats.Seamless(n.log.entries, n.term, prev, n.commitIndex))
      || Heartbeats.Unbroken(n.log.entries, q.term, n.term, prev, n.commitIndex)
  }

  /** States s[0], s[1], ... with steps[i] leading from s[i] to s[i+1]. */
  ghost predicate IsExecution(ss: seq<State>, steps: seq<Step>) {
    && |ss| == |steps| + 1
    && Initial(ss[0])
    && forall i | 0 <= i < |steps| :: Enabled(ss[i], steps[i]) && ss[i + 1] == Next(ss[i], steps[i])
  }

  /** An execution all of whose steps are sound. */
  ghost predicate IsRun(ss: seq<State>, steps: seq<Step>) {
    IsExecution(ss, steps) && forall i | 0 <= i < |steps| :: SoundStep(ss[i], steps[i])
  }
}
