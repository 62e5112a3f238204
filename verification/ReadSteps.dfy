/** Reads: their probes, and what an answered probe proves. */
module ReadSteps {
  import opened Types
  import opened Protocol
  import opened Cluster
  import opened Simulation
  import opened Frames
  import opened Steps
  import opened ReplicationSteps
  import opened FollowerSteps
  import opened DeliverySteps
  import opened CommitSteps
  import Heartbeats
  import C = Core
  import CoreSteps

  // ---------------------------------------------------------------- StartRead

  lemma OwnVotes(k: C.State, v: Id)
    requires C.VotesOk(k) && v in k.replicas
    ensures Untouched(k, v, k.replicas[v].term)
  {
  }

  lemma ReadBegins(s: State, s': State, sh: Shadow, v: Id, r: ReadId)
    requires C.VotesOk(sh.core) && ReadsOk(s, sh) && ProbesOk(s, sh.core)
    requires v in sh.core.replicas && r !in s.queries && Leads(sh.core, v, sh.core.replicas[v].term)
    requires s' == s.(queries := s.queries[r := Read(v, sh.core.replicas[v].term, sh.core.replicas[v].commit)])
    ensures ReadsOk(s', sh.(starts := sh.starts[r := sh.core])) && ProbesOk(s', sh.core)
  {
    hide C.Evolves, C.VotesOk, Untouched, Heartbeats.Announced;
    var sh' := sh.(starts := sh.starts[r := sh.core]);
    SelfEvolves(sh.core);
    OwnVotes(sh.core, v);
    forall a | a in s'.probeAnswers ensures ProbeAnswerOk(s', sh', a) {
      assert ProbeAnswerOk(s, sh, a);
    }
    forall m | m in s'.probes ensures ProbeOk(s', sh.core, m) {
      assert ProbeOk(s, sh.core, m);
    }
  }

  lemma StartReadStep(s: State, s': State, sh: Shadow, v: Id, r: ReadId)
    requires Inv(s, sh) && v in s.nodes && s.nodes[v].role.Leader? && r !in s.queries
    requires s' == s.(queries := s.queries[r := Read(v, s.nodes[v].term, s.nodes[v].commitIndex)])
    ensures Inv(s', sh.(starts := sh.starts[r := sh.core]))
  {
    hide NodesOk, OfficesOk, VotesOk, ProgressOk, AllProposalsOk, ExchangesOk, FlightsOk, ExchangeOk, FlightOk,
         C.LogsOk, C.AcksOk, C.BallotsOk, C.SuccessionOk, C.CommitsOk, C.DecisionsOk, C.VotesOk, C.ElectionsOk, C.ShapeOk,
         ReadsOk, ProbesOk;
    About(s, sh, v);
    ReadBegins(s, s', sh, v, r);
    SameNodes(s, s', sh.core);
    SameExchanges(s, s', sh.core);
  }

  // ---------------------------------------------------------------- SendProbe

  /** What a sound probe announces can do no harm. */
  lemma ProbeSent(k: C.State, n: Node, p: Id, t: nat, asCoded: bool)
    requires C.Inv(k) && (forall v | v in k.ledger :: 0 < v) && n.id in k.replicas && Mirrors(k.replicas[n.id], n) && 0 < t
    requires OfficeOk(k, n) && (n.role.Leader? ==> PrevIndex(n, p) <= |n.log.entries|)
    requires asCoded ==>
               || (n.role.Leader? && n.term == t && Heartbeats.Seamless(n.log.entries, n.term, PrevIndex(n, p), n.commitIndex))
               || Heartbeats.Unbroken(n.log.entries, t, n.term, PrevIndex(n, p), n.commitIndex)
    ensures var req := ProbeRequest(n, p, t, asCoded);
            Heartbeats.Announced(k, t, req.prevIndex, req.prevTerm, req.leaderCommit)
  {
    hide C.Inv, Heartbeats.Seamless, Heartbeats.Unbroken, Heartbeats.Refused, Heartbeats.AnnouncedBy, PrevIndex;
    var prev := PrevIndex(n, p);
    if asCoded {
      assert ProbeTerm(n, prev) == Heartbeats.PrevTerm(n.log.entries, prev);
      if n.role.Leader? && n.term == t && Heartbeats.Seamless(n.log.entries, n.term, prev, n.commitIndex) {
        Heartbeats.SeamlessAnnounced(k, n.id, t, prev, n.commitIndex);
      } else {
        Heartbeats.UnbrokenAnnounced(k, n.id, t, prev);
      }
    }
  }

  lemma WithinLog(k: C.State, batch: nat, n: Node, p: Id)
    requires OfficeOk(k, n) && n.role.Leader? && PeerOk(k, batch, n, p)
    ensures PrevIndex(n, p) <= |n.log.entries|
  {
  }

  lemma ProbesGrow(s: State, s': State, sh: Shadow, m: Probe)
    requires ReadsOk(s, sh) && ProbesOk(s, sh.core) && s' == s.(probes := s.probes + {m}) && ProbeOk(s, sh.core, m)
    ensures ReadsOk(s', sh) && ProbesOk(s', sh.core)
  {
    hide C.Evolves, Untouched, Heartbeats.Announced;
    forall a | a in s'.probeAnswers ensures ProbeAnswerOk(s', sh, a) {
      assert ProbeAnswerOk(s, sh, a);
    }
    forall x | x in s'.probes ensures ProbeOk(s', sh.core, x) {
      assert ProbeOk(s, sh.core, x);
    }
  }

  lemma SendProbeStep(s: State, s': State, sh: Shadow, r: ReadId, p: Id, asCoded: bool)
    requires Inv(s, sh) && Enabled(s, SendProbe(r, p, asCoded)) && SoundStep(s, SendProbe(r, p, asCoded))
    requires s' == Next(s, SendProbe(r, p, asCoded))
    ensures Inv(s', sh)
  {
    hide NodesOk, OfficesOk, VotesOk, ProgressOk, AllProposalsOk, ExchangesOk, FlightsOk, ExchangeOk,
         FlightOk, C.Inv, C.LogsOk, C.CommitsOk, C.DecisionsOk, C.ShapeOk, ReadsOk, ProbesOk, OfficeOk, PeerOk,
         ProposalsOk, PrevIndex, ProbeTerm, Heartbeats.Seamless, Heartbeats.Unbroken, Heartbeats.Announced;
    var l := s.queries[r].leader;
    About(s, sh, l);
    PeerFacts(s, sh, l, p);
    QueryLeads(s, sh, r);
    Mirrored(s, sh.core, l);
    Parts(sh.core);
    if s.nodes[l].role.Leader? {
      WithinLog(sh.core, s.batch, s.nodes[l], p);
    }
    ProbeSent(sh.core, s.nodes[l], p, s.queries[r].term, asCoded);
    ProbesGrow(s, s', sh, Probe(r, p, ProbeRequest(s.nodes[l], p, s.queries[r].term, asCoded)));
    SameNodes(s, s', sh.core);
    SameExchanges(s, s', sh.core);
  }

  lemma QueryLeads(s: State, sh: Shadow, r: ReadId)
    requires Inv(s, sh) && r in s.queries
    ensures Leads(sh.core, s.queries[r].leader, s.queries[r].term)
    ensures forall t | t in sh.core.ledger :: 0 < t
  {
    hide NodeOk, C.Inv, C.Evolves, OfficesOk, VotesOk, ProgressOk, ExchangesOk, FlightsOk, AllProposalsOk, ProbesOk, Untouched, Leads;
  }

  // ---------------------------------------------------------------- DeliverProbe

  lemma ProbeFacts(s: State, sh: Shadow, m: Probe)
    requires Inv(s, sh) && m in s.probes
    ensures ProbeOk(s, sh.core, m) && m.peer in s.nodes && m.read in sh.starts
    ensures C.Evolves(sh.starts[m.read], sh.core)
    ensures forall t | t in sh.core.ledger :: 0 < t
  {
    hide C.Inv, C.Evolves, OfficesOk, VotesOk, ProgressOk, ExchangesOk, FlightsOk, AllProposalsOk, NodeOk, Heartbeats.Announced;
  }

  /** Whoever answers in term t has never voted beyond t, in particular not before the read began. */
  lemma AnswerProves(start: C.State, k: C.State, p: Id, t: nat)
    requires C.Evolves(start, k) && C.VotesOk(k) && p in k.replicas && k.replicas[p].term <= t
    ensures Untouched(start, p, t)
  {
  }

  lemma AnswerOk(start: C.State, k: C.State, k': C.State, p: Id, term: nat, t: nat)
    requires C.Evolves(start, k) && C.Evolves(k, k') && C.Inv(k') && p in k'.replicas && k'.replicas[p].term == term
    ensures term <= t ==> Untouched(start, p, t)
  {
    hide C.Inv, C.Evolves, Untouched;
    CoreSteps.EvolvesTransitive(start, k, k');
    VotesPart(k');
    if term <= t {
      AnswerProves(start, k', p, t);
    }
  }

  lemma DeliverProbeStep(s: State, s': State, sh: Shadow, m: Probe) returns (k': C.State)
    requires Inv(s, sh) && m in s.probes && m.peer in s.nodes && Wellformed(s.nodes[m.peer].log, m.req)
    requires var (n, reply) := HandleAppend(s.nodes[m.peer], m.req);
             s' == s.(nodes := s.nodes[m.peer := n],
                      probeAnswers := s.probeAnswers + {ProbeAnswer(m.read, m.peer, reply.term)})
    ensures Inv(s', sh.(core := k')) && C.Evolves(sh.core, k')
  {
    hide Inv, C.Inv, C.LogsOk, C.CommitsOk, C.DecisionsOk, C.ShapeOk, C.Evolves, Local, Wellformed, HandleAppend, Heartbeats.Announced,
         AnsweredOk, NodeOk, OfficeOk, ProposalsOk, PeerOk, FlightOk, BatchEnd, Untouched, ExchangeOk,
         Conflict, Leads;
    var k, p, req := sh.core, m.peer, m.req;
    ProbeFacts(s, sh, m);
    var l := s.queries[m.read].leader;
    About(s, sh, p);
    Mirrored(s, k, p);
    k' := FollowProbe(k, l, p, s.nodes[p], req);
    NotOwnTerm(k, l, p, s.nodes[p], req);
    FollowedNode(s, s', k, k', p, req);
    LocalEvolves(k, k', p, Link(l, p));
    FollowedProposals(k, k', s.nodes[p], req);
    StillInOffice(s, s', sh, k', p, Link(l, p));
    LocalSameLog(k, k', p, Link(l, p));
    AnswerOk(sh.starts[m.read], k, k', p, s'.nodes[p].term, s.queries[m.read].term);
    Assemble(s, s', sh, k', p, NO_LINK);
  }

  lemma VotesPart(k: C.State)
    requires C.Inv(k)
    ensures C.VotesOk(k)
  {
  }
}
