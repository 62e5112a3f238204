/** What every run of the cluster guarantees. */
module Safety {
  import opened Types
  import opened Protocol
  import opened Cluster
  import opened Simulation
  import opened Steps
  import opened ElectionSteps
  import opened ReplicationSteps
  import opened FollowerSteps
  import opened DeliverySteps
  import opened ReplySteps
  import opened CommitSteps
  import opened ReadSteps
  import F = Frames
  import C = Core
  import CoreSteps
  import Backtracking
  import Heartbeats

  // ---------------------------------------------------------------- every step, every run

  predicate Follows(sh: Shadow, sh': Shadow, step: Step) {
    && C.Evolves(sh.core, sh'.core)
    && (forall r | r in sh.starts :: r in sh'.starts && sh'.starts[r] == sh.starts[r])
    && (step.StartRead? ==> step.read in sh'.starts && sh'.starts[step.read] == sh.core)
  }

  lemma ElectionStepKeeps(s: State, sh: Shadow, step: Step) returns (k': C.State)
    requires Inv(s, sh) && Enabled(s, step)
    requires step.Timeout? || step.DeliverVoteRequest? || step.LearnFromVote? || step.WinElection? || step.LearnFromProbe?
    ensures Inv(Next(s, step), sh.(core := k')) && C.Evolves(sh.core, k')
  {
    hide Inv, C.Evolves, HandleVote, StepDown, BecomeLeader, BecomeCandidate, HasVotes;
    var s' := Next(s, step);
    match step
    case Timeout(v) => k' := TimeoutStep(s, s', sh, v);
    case DeliverVoteRequest(v, req) => k' := VoteRequestStep(s, s', sh, v, req);
    case LearnFromVote(a) => k' := StepDownStep(s, s', sh, a.candidate, a.reply.term);
    case WinElection(c, q) => k' := WinStep(s, s', sh, c, q);
    case LearnFromProbe(a) => k' := StepDownStep(s, s', sh, s.queries[a.read].leader, a.term);
  }

  lemma ExchangeStepKeeps(s: State, sh: Shadow, step: Step) returns (k': C.State)
    requires Inv(s, sh) && Enabled(s, step)
    requires step.Replicate? || step.DeliverAppend? || step.DeliverReply? || step.Lose?
    ensures Inv(Next(s, step), sh.(core := k')) && C.Evolves(sh.core, k')
  {
    hide Inv, C.Evolves, HandleAppend, HandleReply, BuildRequest, Wellformed, ExchangeOk, FlightOk;
    var s' := Next(s, step);
    k' := sh.core;
    SelfEvolves(sh.core);
    assert sh.(core := sh.core) == sh;
    match step
    case Replicate(link) => ReplicateStep(s, s', sh, link);
    case DeliverAppend(link) => k' := AppendStep(s, s', sh, link);
    case DeliverReply(link) => k' := ReplyStep(s, s', sh, link);
    case Lose(link) => StutterStep(s, s', sh);
  }

  lemma LocalStepKeeps(s: State, sh: Shadow, step: Step) returns (k': C.State)
    requires Inv(s, sh) && Enabled(s, step)
    requires step.ClientPropose? || step.ClientCancel? || step.TryCommit? || step.ApplyOne? || step.Crash?
    ensures Inv(Next(s, step), sh.(core := k')) && C.Evolves(sh.core, k')
  {
    hide Inv, C.Evolves, Propose, Cancel, AdvanceCommit, ApplyNext;
    var s' := Next(s, step);
    k' := sh.core;
    SelfEvolves(sh.core);
    assert sh.(core := sh.core) == sh;
    match step
    case ClientPropose(v, command, ticket) => k' := ProposeStep(s, s', sh, v, command, ticket);
    case ClientCancel(v, ticket) => CancelStep(s, s', sh, v, ticket);
    case TryCommit(v) => k' := TryCommitStep(s, s', sh, v);
    case ApplyOne(v) => ApplyStep(s, s', sh, v);
    case Crash(v) => k' := CrashStep(s, s', sh, v);
  }

  lemma ProbeStepKeeps(s: State, sh: Shadow, step: Step) returns (k': C.State)
    requires Inv(s, sh) && Enabled(s, step) && SoundStep(s, step) && (step.SendProbe? || step.DeliverProbe?)
    ensures Inv(Next(s, step), sh.(core := k')) && C.Evolves(sh.core, k')
  {
    hide Inv, C.Evolves, HandleAppend, ProbeRequest, Wellformed, PrevIndex;
    var s' := Next(s, step);
    k' := sh.core;
    SelfEvolves(sh.core);
    assert sh.(core := sh.core) == sh;
    match step
    case SendProbe(r, p, asCoded) => SendProbeStep(s, s', sh, r, p, asCoded);
    case DeliverProbe(m) => k' := DeliverProbeStep(s, s', sh, m);
  }

  lemma ReadStepKeeps(s: State, sh: Shadow, v: Id, r: ReadId) returns (sh': Shadow)
    requires Inv(s, sh) && Enabled(s, StartRead(v, r))
    ensures Inv(Next(s, StartRead(v, r)), sh') && Follows(sh, sh', StartRead(v, r))
  {
    hide Inv, C.Evolves;
    SameStarts(s, sh);
    StartReadStep(s, Next(s, StartRead(v, r)), sh, v, r);
    sh' := sh.(starts := sh.starts[r := sh.core]);
  }

  /** The invariant survives every sound step. */
  lemma StepKeeps(s: State, sh: Shadow, step: Step) returns (sh': Shadow)
    requires Inv(s, sh) && Enabled(s, step) && SoundStep(s, step)
    ensures Inv(Next(s, step), sh') && Follows(sh, sh', step)
  {
    hide Inv, C.Evolves, Enabled, Next, SoundStep;
    if step.StartRead? {
      sh' := ReadStepKeeps(s, sh, step.node, step.read);
    } else {
      var k';
      match step {
      case Timeout(_) | DeliverVoteRequest(_, _) | LearnFromVote(_) | WinElection(_, _) | LearnFromProbe(_) =>
        k' := ElectionStepKeeps(s, sh, step);
      case Replicate(_) | DeliverAppend(_) | DeliverReply(_) | Lose(_) =>
        k' := ExchangeStepKeeps(s, sh, step);
      case SendProbe(_, _, _) | DeliverProbe(_) =>
        k' := ProbeStepKeeps(s, sh, step);
      case ClientPropose(_, _, _) | ClientCancel(_, _) | TryCommit(_) | ApplyOne(_) | Crash(_) =>
        k' := LocalStepKeeps(s, sh, step);
      }
      sh' := sh.(core := k');
    }
  }

  lemma SameStarts(s: State, sh: Shadow)
    requires Inv(s, sh)
    ensures sh.starts.Keys == s.queries.Keys && C.Evolves(sh.core, sh.core)
  {
    hide C.Inv, C.Evolves, NodeOk, OfficeOk, ProposalsOk, PeerOk, ExchangeOk, FlightOk;
    SelfEvolves(sh.core);
  }

  // ---------------------------------------------------------------- runs

  ghost predicate Shadowed(ss: seq<State>, steps: seq<Step>, shs: seq<Shadow>) {
    && |shs| == |ss| == |steps| + 1
    && (forall i | 0 <= i < |ss| :: Inv(ss[i], shs[i]))
    && (forall i | 0 <= i < |steps| :: Follows(shs[i], shs[i + 1], steps[i]))
  }

  lemma InitialHolds(s: State)
    requires Initial(s)
    ensures Inv(s, Shadow(C.Init(s.nodes.Keys), map[]))
  {
    var k := C.Init(s.nodes.Keys);
    CoreSteps.InitHolds(s.nodes.Keys);
    forall v | v in s.nodes ensures NodeOk(s, k, v) {
      assert s.nodes[v] == Start(v, s.nodes[v].peers);
    }
  }

  /** Every run has a core state standing behind each of its states. */
  lemma {:induction false} Shadows(ss: seq<State>, steps: seq<Step>) returns (shs: seq<Shadow>)
    requires IsRun(ss, steps)
    ensures Shadowed(ss, steps, shs)
    decreases |steps|
  {
    hide Inv, C.Evolves, Enabled, Next, SoundStep, Initial;
    if |steps| == 0 {
      InitialHolds(ss[0]);
      shs := [Shadow(C.Init(ss[0].nodes.Keys), map[])];
    } else {
      var m := |steps| - 1;
      assert IsRun(ss[..m + 1], steps[..m]);
      var before := Shadows(ss[..m + 1], steps[..m]);
      var last := StepKeeps(ss[m], before[m], steps[m]);
      shs := before + [last];
    }
  }

  lemma {:induction false} EvolvesAlong(ss: seq<State>, steps: seq<Step>, shs: seq<Shadow>, i: nat, j: nat)
    requires Shadowed(ss, steps, shs) && i <= j < |ss|
    ensures C.Evolves(shs[i].core, shs[j].core)
    ensures forall r | r in shs[i].starts :: r in shs[j].starts && shs[j].starts[r] == shs[i].starts[r]
    decreases j - i
  {
    hide Inv, C.Evolves;
    if i == j {
      SelfEvolves(shs[i].core);
    } else {
      EvolvesAlong(ss, steps, shs, i, j - 1);
      assert Follows(shs[j - 1], shs[j], steps[j - 1]);
      CoreSteps.EvolvesTransitive(shs[i].core, shs[j - 1].core, shs[j].core);
    }
  }

  // ---------------------------------------------------------------- one state seen from a later one

  /** A node's view of a core state, as a later core state still knows it. */
  lemma SeenLater(s: State, sh: Shadow, k: C.State, v: Id)
    requires Inv(s, sh) && C.Evolves(sh.core, k) && v in s.nodes
    ensures var n := s.nodes[v];
            && v in k.replicas && n.term <= k.replicas[v].term
            && n.log.base == 0 && n.lastApplied <= n.commitIndex <= |n.log.entries|
            && C.Grounded(k.ledger, n.log.entries, n.term)
            && C.Decided(k, n.log.entries, n.commitIndex, n.term)
            && (n.role.Leader? ==>
                  && n.term in k.leaders && k.leaders[n.term] == v
                  && n.term in k.ledger && Agree(n.log.entries, k.ledger[n.term], |n.log.entries|))
  {
    hide Inv, C.VotesOk, C.ElectionsOk, C.AcksOk, C.BallotsOk, C.SuccessionOk, C.ShapeOk;
    var n := s.nodes[v];
    About(s, sh, v);
    assert C.Grounded(sh.core.ledger, n.log.entries, n.term);
    CoreSteps.KnownDecided(sh.core, v);
    hide C.Inv, C.LogsOk, C.DecisionsOk, C.CommitsOk;
    Parts(sh.core);
    CoreSteps.GroundedLasts(sh.core, k, n.log.entries, n.term);
    CoreSteps.DecidedLasts(sh.core, k, n.log.entries, n.commitIndex, n.term);
  }

  /** A leader is in office in the core too. */
  lemma OfficeHeld(s: State, sh: Shadow, l: Id)
    requires Inv(s, sh) && l in s.nodes && s.nodes[l].role.Leader?
    ensures var n := s.nodes[l];
            && Heartbeats.InOffice(sh.core, l, n.term, n.commitIndex) && sh.core.ledger[n.term] == n.log.entries
            && (forall i | 0 <= i < |n.log.entries| :: n.log.entries[i].index == i + 1)
  {
    hide Inv;
    About(s, sh, l);
    Nodes(s, sh);
    assert C.Grounded(sh.core.ledger, s.nodes[l].log.entries, s.nodes[l].term);
  }

  lemma Reflected(s: State, sh: Shadow, v: Id)
    requires Inv(s, sh) && v in s.nodes
    ensures var n := s.nodes[v];
            v in sh.core.replicas && sh.core.replicas[v] == C.Replica(n.term, n.votedFor, n.log.entries, n.commitIndex)
  {
    hide Inv;
    About(s, sh, v);
  }

  lemma ReaderLed(s: State, sh: Shadow, r: ReadId)
    requires Inv(s, sh) && r in s.queries && s.queries[r].leader in s.nodes
    ensures var q, k := s.queries[r], sh.core;
            var n := s.nodes[q.leader];
            && C.Inv(k) && q.term in k.leaders && k.leaders[q.term] == q.leader && 0 < q.term
            && (forall t | t in k.ledger :: 0 < t)
            && forall i | 0 <= i < |n.log.entries| :: n.log.entries[i].index == i + 1 && n.log.entries[i].term <= n.term
  {
    hide Inv;
    ReadSteps.QueryLeads(s, sh, r);
    About(s, sh, s.queries[r].leader);
    Nodes(s, sh);
    var n := s.nodes[s.queries[r].leader];
    assert C.Grounded(sh.core.ledger, n.log.entries, n.term);
  }

  /** A request or probe delivered to a node that is still leader afterwards has changed nothing. */
  lemma NoOwnDelivery(ss: seq<State>, steps: seq<Step>, i: nat)
    requires IsRun(ss, steps) && i < |steps|
    ensures steps[i].DeliverAppend? || steps[i].DeliverProbe? ==>
              var p := if steps[i].DeliverAppend? then steps[i].link.peer else steps[i].probe.peer;
              p in ss[i].nodes && p in ss[i + 1].nodes &&
              (ss[i + 1].nodes[p].role.Leader? ==> ss[i + 1].nodes[p] == ss[i].nodes[p])
  {
    hide IsRun, Inv;
    Taken(ss, steps, i);
    var shs := Shadows(ss, steps);
    var s, sh, step := ss[i], shs[i], steps[i];
    if step.DeliverAppend? || step.DeliverProbe? {
      OwnUntouched(s, sh, step);
    }
  }

  lemma OwnUntouched(s: State, sh: Shadow, step: Step)
    requires Inv(s, sh) && Enabled(s, step) && (step.DeliverAppend? || step.DeliverProbe?)
    ensures var p := if step.DeliverAppend? then step.link.peer else step.probe.peer;
            && p in s.nodes && p in Next(s, step).nodes
            && (Next(s, step).nodes[p].role.Leader? ==> Next(s, step).nodes[p] == s.nodes[p])
  {
    hide Inv, C.Inv, HandleAppend, Wellformed, SentOk, NodeOk, ProposalsOk, AskedOk, AnsweredOk, FlightOk, PeerOk, C.ShapeOk;
    var p := if step.DeliverAppend? then step.link.peer else step.probe.peer;
    var req := if step.DeliverAppend? then s.exchanges[step.link].req else step.probe.req;
    About(s, sh, p);
    if step.DeliverAppend? {
      ExchangeFacts(s, sh, step.link);
      SentLeads(sh.core, step.link.leader, req);
      NotOwnTerm(sh.core, step.link.leader, p, s.nodes[p], req);
    } else {
      ProbeFacts(s, sh, step.probe);
      NotOwnTerm(sh.core, s.queries[step.probe.read].leader, p, s.nodes[p], req);
    }
    HandledShape(s.nodes[p], req);
  }

  lemma Plain(s: State, sh: Shadow, v: Id)
    requires Inv(s, sh) && v in s.nodes
    ensures var n := s.nodes[v];
            n.log.base == 0 && n.log.baseTerm == 0 && n.lastApplied <= n.commitIndex <= |n.log.entries|
  {
    hide Inv;
    About(s, sh, v);
  }

  // ---------------------------------------------------------------- theorems

  /** No step is ever held up: a leader can build a request for any peer, and whatever is in flight can be delivered. */
  lemma NeverMalformed(ss: seq<State>, steps: seq<Step>, i: nat)
    requires IsRun(ss, steps) && i < |ss|
    ensures forall v, p | v in ss[i].nodes && ss[i].nodes[v].role.Leader? && p in ss[i].nodes[v].peers ::
              BuildRequest(ss[i].nodes[v], p, ss[i].batch).Some?
    ensures forall link | link in ss[i].exchanges && ss[i].exchanges[link].Asked? :: Enabled(ss[i], DeliverAppend(link))
    ensures forall m | m in ss[i].probes :: Enabled(ss[i], DeliverProbe(m))
  {
    hide IsRun, Inv, BuildRequest, Wellformed;
    var shs := Shadows(ss, steps);
    var s, sh := ss[i], shs[i];
    forall v, p | v in s.nodes && s.nodes[v].role.Leader? && p in s.nodes[v].peers
      ensures BuildRequest(s.nodes[v], p, s.batch).Some?
    {
      LeaderCanReplicate(s, sh, Link(v, p));
    }
    forall link | link in s.exchanges && s.exchanges[link].Asked? ensures Enabled(s, DeliverAppend(link)) {
      Deliverable(s, sh, link);
    }
    forall m | m in s.probes ensures Enabled(s, DeliverProbe(m)) {
      ProbeDeliverable(s, sh, m);
    }
  }

  lemma ProbeDeliverable(s: State, sh: Shadow, m: Probe)
    requires Inv(s, sh) && m in s.probes
    ensures m.peer in s.nodes && Wellformed(s.nodes[m.peer].log, m.req)
  {
    hide Inv, C.Inv, SentOk, NodeOk, OfficeOk, ProposalsOk, C.ShapeOk, C.Evolves;
    ProbeFacts(s, sh, m);
    About(s, sh, m.peer);
  }

  /** Terms never decrease, across elections, crashes and restarts. */
  lemma TermsNeverDecrease(ss: seq<State>, steps: seq<Step>, i: nat, j: nat, v: Id)
    requires IsRun(ss, steps) && i <= j < |ss| && v in ss[i].nodes
    ensures v in ss[j].nodes && ss[i].nodes[v].term <= ss[j].nodes[v].term
  {
    hide IsRun, Inv, C.Evolves;
    var shs := Shadows(ss, steps);
    EvolvesAlong(ss, steps, shs, i, j);
    SeenLater(ss[i], shs[i], shs[j].core, v);
    Nodes(ss[j], shs[j]);
    About(ss[j], shs[j], v);
  }

  lemma Nodes(s: State, sh: Shadow)
    requires Inv(s, sh)
    ensures sh.core.replicas.Keys == s.nodes.Keys && C.Inv(sh.core)
    ensures forall t | t in sh.core.ledger :: 0 < t
  {
  }

  lemma Later(ss: seq<State>, steps: seq<Step>, shs: seq<Shadow>, i: nat, j: nat) returns (k: C.State)
    requires Shadowed(ss, steps, shs) && i < |ss| && j < |ss|
    ensures C.Inv(k) && C.Evolves(shs[i].core, k) && C.Evolves(shs[j].core, k)
    ensures forall t | t in k.ledger :: 0 < t
  {
    hide Inv, C.Evolves, C.Inv, Follows;
    var m := if i < j then j else i;
    EvolvesAlong(ss, steps, shs, i, m);
    EvolvesAlong(ss, steps, shs, j, m);
    Nodes(ss[m], shs[m]);
    k := shs[m].core;
  }

  /** No node ever grants its vote to two candidates in one term. */
  lemma OneVotePerTerm(ss: seq<State>, steps: seq<Step>, i: nat, j: nat, a: VoteAnswer, b: VoteAnswer)
    requires IsRun(ss, steps) && i < |ss| && j < |ss|
    requires a in ss[i].voteAnswers && b in ss[j].voteAnswers && a.reply.granted && b.reply.granted
    requires a.voter == b.voter && a.asked == b.asked
    ensures a.candidate == b.candidate
  {
    hide IsRun, Inv, C.Inv;
    var shs := Shadows(ss, steps);
    var k := Later(ss, steps, shs, i, j);
    GrantRecorded(ss[i], shs[i], a);
    GrantRecorded(ss[j], shs[j], b);
  }

  lemma GrantRecorded(s: State, sh: Shadow, a: VoteAnswer)
    requires Inv(s, sh) && a in s.voteAnswers && a.reply.granted
    ensures C.Seat(a.asked, a.voter) in sh.core.ballots
    ensures sh.core.ballots[C.Seat(a.asked, a.voter)].candidate == a.candidate
  {
    assert VoteAnswerOk(sh.core, a);
  }

  /** Election safety: a term has at most one leader in a whole run. */
  lemma ElectionSafety(ss: seq<State>, steps: seq<Step>, i: nat, j: nat, a: Id, b: Id)
    requires IsRun(ss, steps) && i < |ss| && j < |ss| && a in ss[i].nodes && b in ss[j].nodes
    requires ss[i].nodes[a].role.Leader? && ss[j].nodes[b].role.Leader?
    requires ss[i].nodes[a].term == ss[j].nodes[b].term
    ensures a == b
  {
    hide IsRun, Inv, C.Inv, C.Evolves;
    var shs := Shadows(ss, steps);
    var k := Later(ss, steps, shs, i, j);
    SeenLater(ss[i], shs[i], k, a);
    SeenLater(ss[j], shs[j], k, b);
  }

  /** Log matching: at any two moments, an index and a term determine the whole prefix; and terms ascend. */
  lemma LogMatching(ss: seq<State>, steps: seq<Step>, i: nat, j: nat, a: Id, b: Id, x: nat)
    requires IsRun(ss, steps) && i < |ss| && j < |ss| && a in ss[i].nodes && b in ss[j].nodes
    requires SameTermAt(ss[i].nodes[a].log.entries, ss[j].nodes[b].log.entries, x)
    ensures Agree(ss[i].nodes[a].log.entries, ss[j].nodes[b].log.entries, x)
    ensures forall y, z | 0 <= y <= z < |ss[i].nodes[a].log.entries| ::
              ss[i].nodes[a].log.entries[y].term <= ss[i].nodes[a].log.entries[z].term
  {
    hide IsRun, Inv, C.Inv, C.Evolves, C.LogsOk;
    var shs := Shadows(ss, steps);
    var k := Later(ss, steps, shs, i, j);
    SeenLater(ss[i], shs[i], k, a);
    SeenLater(ss[j], shs[j], k, b);
    var m, n := ss[i].nodes[a], ss[j].nodes[b];
    CoreSteps.LogMatching(k.ledger, m.log.entries, n.log.entries, m.term, n.term, x);
    Parts(k);
    forall y: nat, z: nat | y <= z < |m.log.entries| ensures m.log.entries[y].term <= m.log.entries[z].term {
      CoreSteps.TermsAscend(k, m.log.entries, m.term, y, z);
    }
  }

  /** Any two logs of a run are coherent, which is all that fast backtracking relies on. */
  lemma LogsCoherent(ss: seq<State>, steps: seq<Step>, i: nat, j: nat, a: Id, b: Id)
    requires IsRun(ss, steps) && i < |ss| && j < |ss| && a in ss[i].nodes && b in ss[j].nodes
    ensures Backtracking.Coherent(ss[i].nodes[a].log.entries, ss[j].nodes[b].log.entries)
  {
    hide IsRun, Inv, C.Inv, C.Evolves, C.LogsOk, C.Grounded, C.Decided;
    var shs := Shadows(ss, steps);
    var k := Later(ss, steps, shs, i, j);
    SeenLater(ss[i], shs[i], k, a);
    SeenLater(ss[j], shs[j], k, b);
    Parts(k);
    GroundedCoherent(k, ss[i].nodes[a].log.entries, ss[i].nodes[a].term, ss[j].nodes[b].log.entries, ss[j].nodes[b].term);
  }

  /** Leader completeness: what a leader has committed is in the log of every leader of a later term, from then on. */
  lemma LeaderCompleteness(ss: seq<State>, steps: seq<Step>, i: nat, j: nat, a: Id, b: Id)
    requires IsRun(ss, steps) && i <= j < |ss| && a in ss[i].nodes && b in ss[j].nodes
    requires ss[i].nodes[a].role.Leader? && ss[j].nodes[b].role.Leader?
    requires ss[i].nodes[a].term <= ss[j].nodes[b].term
    ensures Agree(ss[i].nodes[a].log.entries, ss[j].nodes[b].log.entries, ss[i].nodes[a].commitIndex)
  {
    hide IsRun, Inv, C.Inv, C.Evolves;
    var shs := Shadows(ss, steps);
    EvolvesAlong(ss, steps, shs, i, j);
    var k := shs[j].core;
    SeenLater(ss[i], shs[i], k, a);
    SelfEvolves(k);
    LeaderLog(ss[j], shs[j], b);
    var m := ss[i].nodes[a];
    if m.commitIndex != 0 {
      var t: nat :| C.DecidedIn(k, m.log.entries, m.commitIndex, m.term, t);
      if t <= ss[j].nodes[b].term {
        CoreSteps.LeaderCompleteness(k, t, ss[j].nodes[b].term);
      }
    }
  }

  lemma LeaderLog(s: State, sh: Shadow, v: Id)
    requires Inv(s, sh) && v in s.nodes && s.nodes[v].role.Leader?
    ensures C.Inv(sh.core) && s.nodes[v].term in sh.core.ledger && sh.core.ledger[s.nodes[v].term] == s.nodes[v].log.entries
  {
    About(s, sh, v);
  }

  /** State machine safety: at any two moments, what any two nodes have applied agrees index by index. */
  lemma StateMachineSafety(ss: seq<State>, steps: seq<Step>, i: nat, j: nat, a: Id, b: Id)
    requires IsRun(ss, steps) && i < |ss| && j < |ss| && a in ss[i].nodes && b in ss[j].nodes
    ensures Agree(ss[i].nodes[a].log.entries, ss[j].nodes[b].log.entries,
                  Min(ss[i].nodes[a].lastApplied, ss[j].nodes[b].lastApplied))
    ensures Agree(ss[i].nodes[a].log.entries, ss[j].nodes[b].log.entries,
                  Min(ss[i].nodes[a].commitIndex, ss[j].nodes[b].commitIndex))
  {
    hide IsRun, Inv, C.Inv, C.Evolves, C.Decided;
    var shs := Shadows(ss, steps);
    var k := Later(ss, steps, shs, i, j);
    SeenLater(ss[i], shs[i], k, a);
    SeenLater(ss[j], shs[j], k, b);
    var m, n := ss[i].nodes[a], ss[j].nodes[b];
    if m.commitIndex <= n.commitIndex {
      CoreSteps.DecisionsAgree(k, m.log.entries, m.commitIndex, m.term, n.log.entries, n.commitIndex, n.term);
    } else {
      CoreSteps.DecisionsAgree(k, n.log.entries, n.commitIndex, n.term, m.log.entries, m.commitIndex, m.term);
    }
  }

  /**
   Why the unread truncation is safe: whatever replies were lost, what a leader shares with a peer that has
   not moved past its term ends at or before the end of the next batch.
   */
  lemma NextBatchCovers(ss: seq<State>, steps: seq<Step>, i: nat, v: Id, p: Id)
    requires IsRun(ss, steps) && i < |ss| && v in ss[i].nodes && p in ss[i].nodes[v].peers && p in ss[i].nodes
    requires ss[i].nodes[v].role.Leader? && ss[i].nodes[p].term <= ss[i].nodes[v].term
    ensures var n, L, F := ss[i].nodes[v], ss[i].nodes[v].log.entries, ss[i].nodes[p].log.entries;
            0 < NextIndex(n, p) && Backtracking.Common(L, F) <= BatchEnd(NextIndex(n, p), |L|, ss[i].batch)
  {
    hide IsRun, Inv, C.Inv, C.LogsOk, C.Evolves, Backtracking.Common;
    var shs := Shadows(ss, steps);
    var s, sh := ss[i], shs[i];
    PeerFacts(s, sh, v, p);
    LeaderLog(s, sh, v);
    About(s, sh, p);
    SelfEvolves(sh.core);
    SeenLater(s, sh, sh.core, p);
    Mirrored(s, sh.core, p);
    var n, L, F := s.nodes[v], s.nodes[v].log.entries, s.nodes[p].log.entries;
    CommonBefore(L, F, if s.nodes[p].term == n.term then BatchEnd(n.nextIndex[p], |L|, s.batch) + 1 else n.nextIndex[p]);
  }

  lemma CommonBefore(L: seq<Entry>, F: seq<Entry>, x: nat)
    requires 0 < x && !SameTermAt(F, L, x)
    ensures Backtracking.Common(L, F) < x
  {
    assert Agree(L, F, Backtracking.Common(L, F));
  }

  /**
   Truncation without comparing: a leader's request, delivered while the leader is in office, leaves
   in place whatever the follower shared with the leader's log.
   */
  lemma TruncationSafety(ss: seq<State>, steps: seq<Step>, i: nat, m: nat)
    requires IsRun(ss, steps) && i < |steps| && steps[i].DeliverAppend?
    requires var link := steps[i].link;
             && link.leader in ss[i].nodes && link.peer in ss[i].nodes && link in ss[i].exchanges
             && ss[i].nodes[link.leader].role.Leader?
             && ss[i].nodes[link.leader].term == ss[i].exchanges[link].req.term
             && Agree(ss[i].nodes[link.leader].log.entries, ss[i].nodes[link.peer].log.entries, m)
    ensures var link := steps[i].link;
            && link.peer in ss[i + 1].nodes
            && Agree(ss[i].nodes[link.leader].log.entries, ss[i + 1].nodes[link.peer].log.entries, m)
  {
    hide IsRun, Inv, Next, Enabled, HandleAppend, Wellformed;
    var link := steps[i].link;
    Taken(ss, steps, i);
    AfterAppend(ss[i], link);
    var shs := Shadows(ss, steps);
    Delivered(ss[i], shs[i], link, m);
  }

  lemma Taken(ss: seq<State>, steps: seq<Step>, i: nat)
    requires IsRun(ss, steps) && i < |steps|
    ensures |ss| == |steps| + 1 && Enabled(ss[i], steps[i]) && ss[i + 1] == Next(ss[i], steps[i])
  {
    hide Next, Enabled;
  }

  lemma AfterAppend(s: State, link: Link)
    requires Enabled(s, DeliverAppend(link))
    ensures link in s.exchanges && s.exchanges[link].Asked? && link.peer in s.nodes
    ensures Wellformed(s.nodes[link.peer].log, s.exchanges[link].req)
    ensures Next(s, DeliverAppend(link)).nodes ==
              s.nodes[link.peer := HandleAppend(s.nodes[link.peer], s.exchanges[link].req).0]
  {
  }

  lemma Delivered(s: State, sh: Shadow, link: Link, m: nat)
    requires Inv(s, sh) && link in s.exchanges && s.exchanges[link].Asked? && link.peer in s.nodes && link.leader in s.nodes
    requires Wellformed(s.nodes[link.peer].log, s.exchanges[link].req)
    requires s.nodes[link.leader].role.Leader? && s.nodes[link.leader].term == s.exchanges[link].req.term
    requires Agree(s.nodes[link.leader].log.entries, s.nodes[link.peer].log.entries, m)
    ensures Agree(s.nodes[link.leader].log.entries,
                  HandleAppend(s.nodes[link.peer], s.exchanges[link].req).0.log.entries, m)
  {
    hide Inv, C.Inv, C.ShapeOk, C.LogsOk, C.CommitsOk, C.DecisionsOk, HandleAppend, Wellformed, SentOk, AskedOk, ProposalsOk,
         FlightOk, PeerOk, AnsweredOk, Local, C.Evolves;
    var k, l, p, req := sh.core, link.leader, link.peer, s.exchanges[link].req;
    ExchangeFacts(s, sh, link);
    About(s, sh, l);
    About(s, sh, p);
    Mirrored(s, k, p);
    Parts(k);
    var k' := Follow(k, l, p, s.nodes[p], req);
    if k'.replicas[p].log != k.replicas[p].log {
      AgreedWithin(k, p, req, m);
    }
  }

  /** What the follower shares with the ledger ends at or before the end of the batch in flight. */
  lemma AgreedWithin(k: C.State, p: Id, req: AppendRequest, m: nat)
    requires C.LogsOk(k) && AskedOk(k, p, req) && req.entries != [] && k.replicas[p].term <= req.term
    requires Agree(k.ledger[req.term], k.replicas[p].log, m)
    ensures m <= req.prevIndex + |req.entries|
  {
  }

  /** A proposal is answered at most once; if with success, its entry is what every node applies at its index. */
  lemma ProposalOutcome(ss: seq<State>, steps: seq<Step>, i: nat, j: nat, a: Id, b: Id, ticket: Ticket)
    requires IsRun(ss, steps) && i < |ss| && j < |ss| && a in ss[i].nodes && b in ss[j].nodes
    requires ticket in ss[i].nodes[a].proposals
    ensures |ss[i].nodes[a].proposals[ticket].sends| <= 1
    ensures var e := ss[i].nodes[a].proposals[ticket].entry;
            Committed in ss[i].nodes[a].proposals[ticket].sends && e.index <= ss[j].nodes[b].lastApplied ==>
              0 < e.index <= |ss[j].nodes[b].log.entries| && ss[j].nodes[b].log.entries[e.index - 1] == e
  {
    hide IsRun, Inv, C.Inv, C.Evolves, C.Decided;
    var shs := Shadows(ss, steps);
    About(ss[i], shs[i], a);
    var p, n := ss[i].nodes[a].proposals[ticket], ss[j].nodes[b];
    if Committed in p.sends && p.entry.index <= n.lastApplied {
      var k := Later(ss, steps, shs, i, j);
      F.SettledLasts(shs[i].core, k, p.entry);
      SeenLater(ss[j], shs[j], k, b);
      SettledHere(k, p.entry, n);
    }
  }

  lemma SettledHere(k: C.State, e: Entry, n: Node)
    requires C.Inv(k) && Settled(k, e) && C.Decided(k, n.log.entries, n.commitIndex, n.term) && e.index <= n.commitIndex
    ensures 0 < e.index <= |n.log.entries| && n.log.entries[e.index - 1] == e
  {
    var t :| SettledIn(k, e, t);
    hide C.Inv;
    assert C.DecidedIn(k, k.ledger[t], e.index, t, t);
    CoreSteps.DecisionsAgree(k, k.ledger[t], e.index, t, n.log.entries, n.commitIndex, n.term);
  }
}
