/**
 The protocol and the state machines joined: every run of the cluster has one committed history, each
 node's store lives through it as Replay describes, and so the stores agree.
 */
module History {
  import opened Types
  import opened Protocol
  import opened Cluster
  import Safety
  import Simulation
  import RI = ReadIndex
  import C = Core
  import W = Witnesses
  import DeliverySteps
  import R = Replay

  // ---------------------------------------------------------------- one history

  /** Of the nodes in vs, one that has committed most. */
  lemma {:induction false} MostCommitted(s: State, vs: set<Id>) returns (v: Id)
    requires vs != {} && vs <= s.nodes.Keys
    ensures v in vs && forall w | w in vs :: s.nodes[w].commitIndex <= s.nodes[v].commitIndex
    decreases |vs|
  {
    var x :| x in vs;
    v := x;
    if vs != {x} {
      var y := MostCommitted(s, vs - {x});
      if s.nodes[x].commitIndex < s.nodes[y].commitIndex {
        v := y;
      }
    }
  }

  /** Of all nodes at the first n moments, one that has committed most. */
  lemma {:induction false} LongestPrefix(ss: seq<State>, n: nat) returns (i: nat, v: Id)
    requires 0 < n <= |ss| && forall k | 0 <= k < |ss| :: ss[k].nodes.Keys == ss[0].nodes.Keys != {}
    ensures i < n && v in ss[i].nodes
    ensures forall k, w | 0 <= k < n && w in ss[k].nodes :: ss[k].nodes[w].commitIndex <= ss[i].nodes[v].commitIndex
  {
    i := n - 1;
    v := MostCommitted(ss[i], ss[i].nodes.Keys);
    if n > 1 {
      var j, w := LongestPrefix(ss, n - 1);
      if ss[i].nodes[v].commitIndex < ss[j].nodes[w].commitIndex {
        i, v := j, w;
      }
    }
  }

  ghost predicate IsHistory(h: seq<Entry>, ss: seq<State>) {
    forall i, v | 0 <= i < |ss| && v in ss[i].nodes :: R.Matches(h, ss[i].nodes[v].log, ss[i].nodes[v].commitIndex)
  }

  lemma {:induction false} SameMembers(ss: seq<State>, steps: seq<Step>, n: nat)
    requires IsExecution(ss, steps) && n < |ss|
    ensures ss[n].nodes.Keys == ss[0].nodes.Keys
  {
    hide Enabled, Next, Initial;
    if n > 0 {
      SameMembers(ss, steps, n - 1);
      assert Enabled(ss[n - 1], steps[n - 1]) && ss[n] == Next(ss[n - 1], steps[n - 1]);
      NextMembers(ss[n - 1], steps[n - 1]);
    }
  }

  lemma NextMembers(s: State, step: Step)
    requires Enabled(s, step)
    ensures Next(s, step).nodes.Keys == s.nodes.Keys
  {
    hide HandleAppend, HandleVote, HandleReply, BecomeLeader, Propose, AdvanceCommit, ApplyNext, BuildRequest, StepDown, Cancel,
         Wellformed, HasVotes, Protocol.Restart, ProbeRequest;
  }

  lemma PlainLog(ss: seq<State>, steps: seq<Step>, i: nat, v: Id)
    requires IsRun(ss, steps) && i < |ss| && v in ss[i].nodes
    ensures var n := ss[i].nodes[v];
            n.log.base == 0 && n.log.baseTerm == 0 && n.lastApplied <= n.commitIndex <= |n.log.entries|
  {
    hide IsRun;
    var shs := Safety.Shadows(ss, steps);
    Safety.Plain(ss[i], shs[i], v);
  }

  /** Every run has one history, and every log holds it up to its node's commit index, at every moment. */
  lemma CommonHistory(ss: seq<State>, steps: seq<Step>) returns (h: seq<Entry>)
    requires IsRun(ss, steps)
    ensures IsHistory(h, ss)
  {
    hide Enabled, Next, SoundStep, Initial, R.Matches;
    h := [];
    forall k | 0 <= k < |ss| ensures ss[k].nodes.Keys == ss[0].nodes.Keys {
      SameMembers(ss, steps, k);
    }
    if ss[0].nodes.Keys != {} {
      var i, v := LongestPrefix(ss, |ss|);
      PlainLog(ss, steps, i, v);
      h := ss[i].nodes[v].log.entries[..ss[i].nodes[v].commitIndex];
      forall j, w | 0 <= j < |ss| && w in ss[j].nodes
        ensures R.Matches(h, ss[j].nodes[w].log, ss[j].nodes[w].commitIndex)
      {
        PlainLog(ss, steps, j, w);
        Safety.StateMachineSafety(ss, steps, i, j, v, w);
        Shared(ss[i].nodes[v], ss[j].nodes[w]);
      }
    }
  }

  lemma Shared(long: Node, n: Node)
    requires long.commitIndex <= |long.log.entries| && n.commitIndex <= |n.log.entries| && n.commitIndex <= long.commitIndex
    requires n.log.base == 0 && n.log.baseTerm == 0
    requires Agree(long.log.entries, n.log.entries, Min(long.commitIndex, n.commitIndex))
    ensures R.Matches(long.log.entries[..long.commitIndex], n.log, n.commitIndex)
  {
  }

  // ---------------------------------------------------------------- each node's store

  /** What a step of the cluster means for v's state machine; a crash may lose any of the unsynced writes. */
  ghost predicate Experiences(s: State, step: Step, s': State, v: Id, m: R.Machine, m': R.Machine)
    requires v in s'.nodes
  {
    if step == Crash(v) then exists u :: u in m.survivors && m' == R.Restart(m, u)
    else if step == ApplyOne(v) then m' == R.ApplyOne(m)
    else m' == m.(log := s'.nodes[v].log, commitIndex := s'.nodes[v].commitIndex)
  }

  /** ms is the life of v's state machine along the run. */
  ghost predicate Lives(ss: seq<State>, steps: seq<Step>, v: Id, ms: seq<R.Machine>) {
    && |ms| == |ss| == |steps| + 1
    && (forall i | 0 <= i < |ss| :: v in ss[i].nodes)
    && ms[0] == R.Fresh()
    && forall i | 0 <= i < |steps| :: Experiences(ss[i], steps[i], ss[i + 1], v, ms[i], ms[i + 1])
  }

  predicate Mirrored(n: Node, m: R.Machine) {
    && m.log == n.log && m.commitIndex == n.commitIndex && m.lastApplied == n.lastApplied
    && m.meta.None? && m.phase.Idle?
  }

  /** The node a step changes, if it changes one. */
  function Actor(s: State, step: Step): Option<Id> {
    match step
    case Timeout(v) => Some(v)
    case DeliverVoteRequest(v, _) => Some(v)
    case LearnFromVote(a) => Some(a.candidate)
    case WinElection(c, _) => Some(c)
    case ClientPropose(v, _, _) => Some(v)
    case ClientCancel(v, _) => Some(v)
    case DeliverAppend(link) => Some(link.peer)
    case DeliverReply(link) => Some(link.leader)
    case TryCommit(v) => Some(v)
    case ApplyOne(v) => Some(v)
    case Crash(v) => Some(v)
    case DeliverProbe(probe) => Some(probe.peer)
    case LearnFromProbe(a) => if a.read in s.queries then Some(s.queries[a.read].leader) else None
    case _ => None
  }

  /** A step touches its actor only. */
  lemma OnlyActor(s: State, step: Step, w: Id)
    requires Enabled(s, step) && w in s.nodes && Actor(s, step) != Some(w)
    ensures w in Next(s, step).nodes && Next(s, step).nodes[w] == s.nodes[w]
  {
    hide HandleAppend, HandleVote, HandleReply, BecomeLeader, Propose, AdvanceCommit, ApplyNext, BuildRequest, StepDown, Cancel,
         Wellformed, HasVotes, Protocol.Restart, ProbeRequest;
  }

  /** Apart from its own crashes and applies, a step leaves a node's applied index and lets its commit index only rise. */
  lemma StepShape(s: State, step: Step, v: Id)
    requires Enabled(s, step) && v in s.nodes && step != Crash(v) && step != ApplyOne(v)
    ensures v in Next(s, step).nodes
    ensures Next(s, step).nodes[v].lastApplied == s.nodes[v].lastApplied
    ensures s.nodes[v].commitIndex <= Next(s, step).nodes[v].commitIndex
  {
    hide Wellformed, HasVotes, ProbeRequest, MajorityIndex, MatchList, Backtrack, CandidateUpToDate, BuildRequest,
         Protocol.Restart, ApplyNext, HandleAppend;
    if Actor(s, step) != Some(v) {
      OnlyActor(s, step, v);
    } else if step.DeliverAppend? {
      DeliverySteps.HandledShape(s.nodes[v], s.exchanges[step.link].req);
    } else if step.DeliverProbe? {
      DeliverySteps.HandledShape(s.nodes[v], step.probe.req);
    }
  }

  /** The replay step behind a cluster step. */
  lemma StepOf(h: seq<Entry>, s: State, step: Step, s': State, v: Id, m: R.Machine, m': R.Machine) returns (r: R.Step)
    requires Enabled(s, step) && s' == Next(s, step) && v in s.nodes && v in s'.nodes
    requires Mirrored(s.nodes[v], m) && Experiences(s, step, s', v, m, m')
    requires s.nodes[v].log.base == 0 && s.nodes[v].log.baseTerm == 0
    requires s'.nodes[v].log.base == 0 && s'.nodes[v].log.baseTerm == 0
    requires R.Matches(h, s'.nodes[v].log, s'.nodes[v].commitIndex)
    ensures R.Enabled(h, m, r) && m' == R.After(h, m, r) && Mirrored(s'.nodes[v], m')
  {
    hide R.Matches, R.Settles, R.WantsSnapshot;
    if step == Crash(v) {
      var u :| u in m.survivors && m' == R.Restart(m, u);
      r := R.Crash(u);
    } else if step == ApplyOne(v) {
      r := R.ApplyEntry;
    } else {
      StepShape(s, step, v);
      hide Enabled, Next;
      r := R.Replicate(s'.nodes[v].log, s'.nodes[v].commitIndex);
    }
  }

  lemma {:induction false} LifeIsRun(h: seq<Entry>, ss: seq<State>, steps: seq<Step>, v: Id, ms: seq<R.Machine>, n: nat)
    returns (rs: seq<R.Step>)
    requires IsRun(ss, steps) && IsHistory(h, ss) && Lives(ss, steps, v, ms) && n < |ms|
    ensures R.IsRun(h, ms[..n + 1], rs) && Mirrored(ss[n].nodes[v], ms[n])
  {
    hide Enabled, Next, SoundStep, R.Enabled, R.After, R.Matches, Experiences;
    if n == 0 {
      FreshStart(ss[0], v);
      rs := [];
    } else {
      rs := LifeIsRun(h, ss, steps, v, ms, n - 1);
      PlainLog(ss, steps, n - 1, v);
      PlainLog(ss, steps, n, v);
      assert Experiences(ss[n - 1], steps[n - 1], ss[n], v, ms[n - 1], ms[n]);
      var r := StepOf(h, ss[n - 1], steps[n - 1], ss[n], v, ms[n - 1], ms[n]);
      rs := rs + [r];
    }
  }

  /** Every run is lived through: from the start on, whatever a crash leaves, there is a next state of the machine. */
  lemma {:induction false} LifeExists(ss: seq<State>, steps: seq<Step>, v: Id) returns (ms: seq<R.Machine>)
    requires IsExecution(ss, steps) && v in ss[0].nodes
    ensures Lives(ss, steps, v, ms) && ms[|ms| - 1].survivors != {}
    decreases |steps|
  {
    hide Enabled, Next, Initial;
    forall i | 0 <= i < |ss| ensures v in ss[i].nodes {
      SameMembers(ss, steps, i);
    }
    if steps == [] {
      ms := [R.Fresh()];
    } else {
      var n := |steps| - 1;
      var before := LifeExists(ss[..n + 1], steps[..n], v);
      var next := Lived(ss[n], steps[n], ss[n + 1], v, before[n]);
      ms := before + [next];
      forall i | 0 <= i < |steps| ensures Experiences(ss[i], steps[i], ss[i + 1], v, ms[i], ms[i + 1]) {
        assert i < n ==> Experiences(ss[..n + 1][i], steps[..n][i], ss[..n + 1][i + 1], v, before[i], before[i + 1]);
      }
    }
  }

  lemma Lived(s: State, step: Step, s': State, v: Id, m: R.Machine) returns (m': R.Machine)
    requires v in s'.nodes && m.survivors != {}
    ensures Experiences(s, step, s', v, m, m') && m'.survivors != {}
  {
    if step == Crash(v) {
      var u :| u in m.survivors;
      m' := R.Restart(m, u);
      assert m'.survivors == {m'.kv};
    } else if step == ApplyOne(v) {
      m' := R.ApplyOne(m);
    } else {
      m' := m.(log := s'.nodes[v].log, commitIndex := s'.nodes[v].commitIndex);
    }
  }

  lemma FreshStart(s: State, v: Id)
    requires Initial(s) && v in s.nodes
    ensures Mirrored(s.nodes[v], R.Fresh())
  {
    assert s.nodes[v] == Start(v, s.nodes[v].peers);
  }

  // ---------------------------------------------------------------- theorems

  /**
   In every run, at every moment, every node that has caught up with what it had applied before its
   last crash holds exactly the fold of the history up to its applied index.
   */
  lemma StoreIsHistory(h: seq<Entry>, ss: seq<State>, steps: seq<Step>, v: Id, ms: seq<R.Machine>, n: nat)
    requires IsRun(ss, steps) && IsHistory(h, ss) && Lives(ss, steps, v, ms) && n < |ms|
    requires ms[n].high <= ss[n].nodes[v].lastApplied
    ensures ss[n].nodes[v].lastApplied <= |h|
    ensures ms[n].kv == R.Fold(map[], h[..ss[n].nodes[v].lastApplied])
  {
    var rs := LifeIsRun(h, ss, steps, v, ms, n);
    R.CaughtUp(h, ms[..n + 1], rs, n);
  }

  /** Replicas agree: two nodes, at whatever moments, that are caught up at the same index hold the same store. */
  lemma ReplicasAgree(ss: seq<State>, steps: seq<Step>, v: Id, w: Id, ms: seq<R.Machine>, ns: seq<R.Machine>, i: nat, j: nat)
    requires IsRun(ss, steps) && Lives(ss, steps, v, ms) && Lives(ss, steps, w, ns) && i < |ms| && j < |ns|
    requires ms[i].high <= ss[i].nodes[v].lastApplied == ss[j].nodes[w].lastApplied && ns[j].high <= ss[j].nodes[w].lastApplied
    ensures ms[i].kv == ns[j].kv
  {
    hide IsRun, Lives;
    var h := CommonHistory(ss, steps);
    LivesWithin(ss, steps, v, ms);
    LivesWithin(ss, steps, w, ns);
    StoreIsHistory(h, ss, steps, v, ms, i);
    StoreIsHistory(h, ss, steps, w, ns, j);
  }

  lemma LivesWithin(ss: seq<State>, steps: seq<Step>, v: Id, ms: seq<R.Machine>)
    requires Lives(ss, steps, v, ms)
    ensures |ms| == |ss| && forall i | 0 <= i < |ss| :: v in ss[i].nodes
  {
  }

  // ---------------------------------------------------------------- reads

  /** What a node's stores may contain beyond its applied index, it had applied at some moment. */
  lemma {:induction false} HighWasApplied(h: seq<Entry>, ss: seq<State>, steps: seq<Step>, v: Id, ms: seq<R.Machine>, n: nat)
    returns (g: nat)
    requires IsRun(ss, steps) && IsHistory(h, ss) && Lives(ss, steps, v, ms) && n < |ms|
    ensures g <= n && ms[n].high == ss[g].nodes[v].lastApplied
  {
    hide IsRun, IsHistory, R.Matches;
    if n == 0 {
      g := 0;
      var _ := LifeIsRun(h, ss, steps, v, ms, 0);
    } else {
      g := HighWasApplied(h, ss, steps, v, ms, n - 1);
      assert Experiences(ss[n - 1], steps[n - 1], ss[n], v, ms[n - 1], ms[n]);
      if ms[n].high != ms[n - 1].high {
        g := n;
        var _ := LifeIsRun(h, ss, steps, v, ms, n);
      }
    }
  }

  predicate NoCrash(steps: seq<Step>, v: Id, i: nat, j: nat) {
    forall k | i <= k < j && k < |steps| :: steps[k] != Crash(v)
  }

  lemma {:induction false} HighWithoutCrash(h: seq<Entry>, ss: seq<State>, steps: seq<Step>, v: Id, ms: seq<R.Machine>, i: nat, j: nat)
    requires IsRun(ss, steps) && IsHistory(h, ss) && Lives(ss, steps, v, ms) && i <= j < |ms| && NoCrash(steps, v, i, j)
    ensures ms[j].high <= R.Max(ms[i].high, ss[j].nodes[v].lastApplied)
    ensures ss[i].nodes[v].lastApplied <= ss[j].nodes[v].lastApplied
    decreases j - i
  {
    hide IsRun, IsHistory, R.Matches;
    if i < j {
      HighWithoutCrash(h, ss, steps, v, ms, i, j - 1);
      assert Experiences(ss[j - 1], steps[j - 1], ss[j], v, ms[j - 1], ms[j]);
      var _ := LifeIsRun(h, ss, steps, v, ms, j);
      var _ := LifeIsRun(h, ss, steps, v, ms, j - 1);
    }
  }

  /**
   A linearizable read, end to end. Nothing of an earlier term was beyond the leader's commit index when
   the read began, a majority confirmed it, it has applied its read index and has not crashed since: then its
   store is exactly the history up to its applied index, and every write acknowledged by any node
   before the read began lies in that part of the history. So each key reads as what the last write to it in that part
   left, which is an acknowledged write to it or a later one.
   */
  lemma LinearizableRead(ss: seq<State>, steps: seq<Step>, ms: seq<R.Machine>, i: nat, j: nat, l: Id, r: ReadId,
                         g: nat, v: Id, ticket: Ticket) returns (h: seq<Entry>)
    requires IsRun(ss, steps) && Lives(ss, steps, l, ms) && i < j < |ss| && steps[i] == StartRead(l, r)
    requires ss[i].nodes[l].role.Leader? && RI.InheritedCommitted(ss[i].nodes[l])
    requires Confirmed(ss[j], r) && ss[j].nodes[l].lastApplied >= ss[j].queries[r].index && NoCrash(steps, l, i, j)
    requires g <= i && v in ss[g].nodes && ticket in ss[g].nodes[v].proposals
    requires Committed in ss[g].nodes[v].proposals[ticket].sends
    ensures IsHistory(h, ss)
    ensures var a, e := ss[j].nodes[l].lastApplied, ss[g].nodes[v].proposals[ticket].entry;
            && 0 < e.index <= a <= |h| && h[e.index - 1] == e
            && ms[j].kv == R.Fold(map[], h[..a])
            && (forall k :: R.Latest(h[..a], k, None, R.Lookup(ms[j].kv, k)))
            && (forall k | R.Writes(e.command, k) :: exists x: nat :: e.index - 1 <= x && R.LastWrite(h[..a], k, x))
  {
    hide IsRun, Confirmed, RI.InheritedCommitted, R.Latest, R.LastWrite;
    h := CommonHistory(ss, steps);
    LivesWithin(ss, steps, l, ms);
    var x := HighWasApplied(h, ss, steps, l, ms, i);
    RI.ReadIndexSafety(ss, steps, i, j, l, r, x, l);
    PlainLog(ss, steps, x, l);
    HighWithoutCrash(h, ss, steps, l, ms, i, j);
    StoreIsHistory(h, ss, steps, l, ms, j);
    RI.ReadIndexSafety(ss, steps, i, j, l, r, g, v);
    Safety.ProposalOutcome(ss, steps, g, j, v, l, ticket);
    PlainLog(ss, steps, j, l);
    var a, e := ss[j].nodes[l].lastApplied, ss[g].nodes[v].proposals[ticket].entry;
    InHistory(h, ss, j, l, e);
    forall k ensures R.Latest(h[..a], k, None, R.Lookup(ms[j].kv, k)) {
      R.FoldIsLatest(map[], h[..a], k);
    }
    forall k | R.Writes(e.command, k) ensures exists x: nat :: e.index - 1 <= x && R.LastWrite(h[..a], k, x) {
      var x := R.HasLastWrite(h[..a], k, e.index - 1);
    }
  }

  lemma InHistory(h: seq<Entry>, ss: seq<State>, j: nat, l: Id, e: Entry)
    requires IsHistory(h, ss) && j < |ss| && l in ss[j].nodes && ss[j].nodes[l].log.base == 0
    requires 0 < e.index <= ss[j].nodes[l].commitIndex && e.index <= |ss[j].nodes[l].log.entries|
    requires ss[j].nodes[l].log.entries[e.index - 1] == e
    ensures e.index <= |h| && h[e.index - 1] == e
  {
    assert R.Matches(h, ss[j].nodes[l].log, ss[j].nodes[l].commitIndex);
    assert ss[j].nodes[l].log.At(e.index) == e;
  }

  // ---------------------------------------------------------------- heartbeats

  /** A leader's last entry is of its own term: it took office with one, and appends only its own. */
  lemma {:induction false} LeaderEndsOwn(ss: seq<State>, steps: seq<Step>, i: nat, v: Id)
    requires IsRun(ss, steps) && i < |ss| && v in ss[i].nodes && ss[i].nodes[v].role.Leader?
    ensures var n := ss[i].nodes[v]; n.log.entries != [] && n.log.entries[|n.log.entries| - 1].term == n.term
  {
    hide Enabled, Next, SoundStep;
    if i > 0 {
      SameMembers(ss, steps, i - 1);
      SameMembers(ss, steps, i);
      Safety.Taken(ss, steps, i - 1);
      var s, step := ss[i - 1], steps[i - 1];
      PlainLog(ss, steps, i - 1, v);
      Safety.NoOwnDelivery(ss, steps, i - 1);
      LeaderBefore(s, step, v);
      if s.nodes[v].role.Leader? {
        LeaderEndsOwn(ss, steps, i - 1, v);
      }
    }
  }

  lemma LeaderBefore(s: State, step: Step, v: Id)
    requires Enabled(s, step) && v in s.nodes && v in Next(s, step).nodes && Next(s, step).nodes[v].role.Leader?
    requires s.nodes[v].log.base == 0
    requires step.DeliverAppend? && step.link.peer == v ==> Next(s, step).nodes[v] == s.nodes[v]
    requires step.DeliverProbe? && step.probe.peer == v ==> Next(s, step).nodes[v] == s.nodes[v]
    ensures var n, n' := s.nodes[v], Next(s, step).nodes[v];
            || (n.role.Leader? && n'.term == n.term &&
                (n'.log == n.log || (n'.log.entries != [] && n'.log.entries[|n'.log.entries| - 1].term == n.term)))
            || (step.WinElection? && step.node == v && n'.log.entries != [] &&
                n'.log.entries[|n'.log.entries| - 1].term == n'.term)
  {
    hide Wellformed, HasVotes, ProbeRequest, HandleVote, HandleReply, AdvanceCommit, BuildRequest, HandleAppend, StepDown, ApplyNext,
         BecomeLeader, Propose, Cancel, Protocol.Restart;
    var n := s.nodes[v];
    if Actor(s, step) != Some(v) {
      OnlyActor(s, step, v);
    } else if step.WinElection? {
      OfficeEndsOwn(n);
    } else if step.ClientPropose? {
      ProposalEndsOwn(n, step.command, step.ticket);
    } else if !step.DeliverAppend? && !step.DeliverProbe? {
      LogUntouched(s, step, v);
    }
  }

  lemma OfficeEndsOwn(n: Node)
    requires n.role.Candidate? && n.log.base == 0
    ensures var m := BecomeLeader(n); m.log.entries != [] && m.log.entries[|m.log.entries| - 1].term == m.term
  {
  }

  lemma ProposalEndsOwn(n: Node, command: Command, ticket: Ticket)
    requires n.role.Leader? && n.log.base == 0
    ensures var m := Propose(n, command, ticket).value;
            m.term == n.term && m.log.entries != [] && m.log.entries[|m.log.entries| - 1].term == n.term
  {
  }

  /** The other steps of a node that leads afterwards find it leading, and leave term and log alone. */
  lemma LogUntouched(s: State, step: Step, v: Id)
    requires Enabled(s, step) && v in s.nodes && Actor(s, step) == Some(v) && v in Next(s, step).nodes
    requires !step.WinElection? && !step.ClientPropose? && !step.DeliverAppend? && !step.DeliverProbe?
    ensures var n, n' := s.nodes[v], Next(s, step).nodes[v];
            n'.role.Leader? ==> n.role.Leader? && n'.term == n.term && n'.log == n.log
  {
    hide Wellformed, HasVotes, ProbeRequest, MajorityIndex, MatchList, Backtrack, CandidateUpToDate, BuildRequest, HandleAppend,
         BecomeLeader, Propose, FailWaiters;
  }

  /** In every run, a leader in office and any other node meet as Witnesses.HeartbeatHarmless says. */
  lemma HeartbeatsMeet(ss: seq<State>, steps: seq<Step>, i: nat, l: Id, p: Id) returns (k: C.State)
    requires IsRun(ss, steps) && i < |ss| && l in ss[i].nodes && p in ss[i].nodes && p != l && ss[i].nodes[l].role.Leader?
    ensures var n := ss[i].nodes[l];
            && W.Meets(k, l, p, n.log.entries, n.term, n.commitIndex, ss[i].nodes[p])
            && W.LeaderLog(n.log.entries, n.term)
  {
    hide IsRun, C.Inv;
    var shs := Safety.Shadows(ss, steps);
    k := shs[i].core;
    PlainLog(ss, steps, i, p);
    LeaderEndsOwn(ss, steps, i, l);
    Safety.LogsCoherent(ss, steps, i, i, l, l);
    Safety.OfficeHeld(ss[i], shs[i], l);
    Safety.Reflected(ss[i], shs[i], p);
  }

  /** And a reader past its read's term, and any other node, as Witnesses.LateHeartbeatHarmless says. */
  lemma LateReadersMeet(ss: seq<State>, steps: seq<Step>, i: nat, r: ReadId, p: Id) returns (k: C.State)
    requires IsRun(ss, steps) && i < |ss| && r in ss[i].queries && ss[i].queries[r].leader in ss[i].nodes
    requires p in ss[i].nodes && p != ss[i].queries[r].leader
    ensures var q := ss[i].queries[r];
            var n := ss[i].nodes[q.leader];
            && W.MeetsLate(k, q.leader, p, n.log.entries, q.term, n.term, n.commitIndex, ss[i].nodes[p])
            && W.AnyLog(n.log.entries, n.term) && 0 < q.term && n.commitIndex <= |n.log.entries|
  {
    hide IsRun, Simulation.Inv, W.MeetsLate;
    var shs := Safety.Shadows(ss, steps);
    k := shs[i].core;
    var l := ss[i].queries[r].leader;
    Safety.Plain(ss[i], shs[i], l);
    Safety.Plain(ss[i], shs[i], p);
    Safety.LogsCoherent(ss, steps, i, i, l, l);
    LateReaderMeets(ss[i], shs[i], r, p);
  }

  lemma LateReaderMeets(s: State, sh: Simulation.Shadow, r: ReadId, p: Id)
    requires Simulation.Inv(s, sh) && r in s.queries && s.queries[r].leader in s.nodes && p in s.nodes
    requires p != s.queries[r].leader && s.nodes[p].log.base == 0 && s.nodes[p].log.baseTerm == 0
    ensures var q, n := s.queries[r], s.nodes[s.queries[r].leader];
            && W.MeetsLate(sh.core, q.leader, p, n.log.entries, q.term, n.term, n.commitIndex, s.nodes[p])
            && 0 < q.term
            && forall i | 0 <= i < |n.log.entries| :: n.log.entries[i].index == i + 1 && n.log.entries[i].term <= n.term
  {
    hide Simulation.Inv, C.Inv;
    Safety.Reflected(s, sh, s.queries[r].leader);
    Safety.Reflected(s, sh, p);
    Safety.ReaderLed(s, sh, r);
  }
}
