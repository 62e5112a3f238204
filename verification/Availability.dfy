/**
 A majority is enough. From every state a run can reach, whatever terms, logs and bookkeeping it left behind, any majority can
 go on alone: it elects one of its members, brings all its logs to the leader's, and commits and applies a new command.
 */
module Availability {
  import opened Types
  import opened Quorums
  import opened Protocol
  import opened Cluster
  import opened Duties
  import Simulation
  import Steps
  import ReplicationSteps
  import S = Safety
  import H = History
  import B = Backtracking
  import RI = ReadIndex

  // ---------------------------------------------------------------- going on

  datatype Run = Run(ss: seq<State>, steps: seq<Step>)

  ghost predicate Goes(r: Run) {
    IsRun(r.ss, r.steps)
  }

  function Now(r: Run): State
    requires r.ss != []
  {
    r.ss[|r.ss| - 1]
  }

  /** Only members of q take part, and nothing fails. */
  predicate Within(q: set<Id>, step: Step) {
    match step
    case Timeout(v) => v in q
    case DeliverVoteRequest(v, req) => v in q && req.candidate in q
    case WinElection(c, voters) => c in q && voters <= q
    case ClientPropose(v, _, _) => v in q
    case Replicate(link) => link.leader in q && link.peer in q
    case DeliverAppend(link) => link.leader in q && link.peer in q
    case DeliverReply(link) => link.leader in q && link.peer in q
    case TryCommit(v) => v in q
    case ApplyOne(v) => v in q
    case StartRead(v, _) => v in q
    case SendProbe(_, p, asCoded) => p in q && asCoded
    case DeliverProbe(probe) => probe.peer in q
    case _ => false
  }

  ghost predicate Continues(q: set<Id>, r: Run, r': Run) {
    && Goes(r') && r.ss <= r'.ss && r.steps <= r'.steps
    && forall i | |r.steps| <= i < |r'.steps| :: Within(q, r'.steps[i])
  }

  lemma Take(q: set<Id>, r: Run, step: Step) returns (r': Run)
    requires Goes(r) && Enabled(Now(r), step) && SoundStep(Now(r), step) && Within(q, step)
    ensures Continues(q, r, r') && Goes(r') && r' == Run(r.ss + [Next(Now(r), step)], r.steps + [step])
  {
    hide Enabled, Next, Initial, SoundStep;
    r' := Run(r.ss + [Next(Now(r), step)], r.steps + [step]);
    forall i | 0 <= i < |r'.steps|
      ensures Enabled(r'.ss[i], r'.steps[i]) && r'.ss[i + 1] == Next(r'.ss[i], r'.steps[i]) && SoundStep(r'.ss[i], r'.steps[i])
    {
      if i < |r.steps| {
        assert r'.ss[i] == r.ss[i] && r'.ss[i + 1] == r.ss[i + 1];
      }
    }
  }

  lemma Onward(q: set<Id>, r0: Run, r1: Run, r2: Run)
    requires Continues(q, r0, r1) && Continues(q, r1, r2)
    ensures Continues(q, r0, r2)
  {
    hide Goes, Within;
    forall i | |r0.steps| <= i < |r2.steps| ensures Within(q, r2.steps[i]) {
      if i < |r1.steps| {
        assert r2.steps[i] == r1.steps[i];
      }
    }
  }

  lemma Stay(q: set<Id>, r: Run)
    requires Goes(r)
    ensures Continues(q, r, r) && r.ss != []
  {
  }

  lemma Something(r: Run)
    requires Goes(r)
    ensures r.ss != [] && |r.ss| == |r.steps| + 1
  {
  }

  lemma PlainNow(r: Run, v: Id)
    requires Goes(r) && r.ss != [] && v in Now(r).nodes
    ensures var n := Now(r).nodes[v];
            && n.log.base == 0 == n.log.baseTerm && n.lastApplied <= n.commitIndex <= |n.log.entries| && n.id == v
            && B.TermsAscend(n.log.entries)
  {
    hide IsRun;
    H.PlainLog(r.ss, r.steps, |r.ss| - 1, v);
    S.LogsCoherent(r.ss, r.steps, |r.ss| - 1, |r.ss| - 1, v, v);
    Named(r, v);
  }

  lemma Named(r: Run, v: Id)
    requires Goes(r) && r.ss != [] && v in Now(r).nodes
    ensures Now(r).nodes[v].id == v
    ensures Distinct(Now(r).nodes[v].peers) && Ids(Now(r).nodes[v].peers) == Now(r).nodes.Keys - {v}
  {
    hide IsRun, Simulation.Inv;
    var shs := S.Shadows(r.ss, r.steps);
    Steps.About(Now(r), shs[|r.ss| - 1], v);
  }

  // ---------------------------------------------------------------- elections

  /** What candidate c asks. */
  function Plea(n: Node): VoteRequest {
    VoteRequest(n.term, n.id, |n.log.entries|, LastTermOf(n.log.entries))
  }

  /** v after c's request: in c's term, not leading, its log as it was. */
  predicate Polled(n: Node, n': Node, term: nat) {
    n'.term == term && !n'.role.Leader? && n'.log == n.log
  }

  lemma PollOne(q: set<Id>, r: Run, c: Id, v: Id) returns (r': Run)
    requires Goes(r) && r.ss != [] && c in q && v in q && c != v && c in Now(r).nodes && v in Now(r).nodes
    requires Now(r).nodes[c].role.Candidate? && Plea(Now(r).nodes[c]) in Now(r).voteRequests
    requires Now(r).nodes[v].term < Now(r).nodes[c].term
    ensures Continues(q, r, r') && Goes(r') && r'.ss != []
    ensures var s, s', n := Now(r), Now(r'), Now(r).nodes[c];
            && v in s'.nodes && s'.nodes == s.nodes[v := s'.nodes[v]] && Polled(s.nodes[v], s'.nodes[v], n.term)
            && s'.voteRequests == s.voteRequests && s.voteAnswers <= s'.voteAnswers
            && (MoreComplete(n.log.entries, s.nodes[v].log.entries) ==>
                  VoteAnswer(v, c, n.term, VoteReply(n.term, true)) in s'.voteAnswers)
  {
    var s, n := Now(r), Now(r).nodes[c];
    PlainNow(r, v);
    PlainNow(r, c);
    var step := DeliverVoteRequest(v, Plea(n));
    assert Enabled(s, step);
    VoteAnswered(s, v, Plea(n));
    hide Next, Enabled, IsRun, Goes, Continues;
    r' := Take(q, r, step);
    Something(r');
  }

  /** c asks everyone in todo. */
  lemma {:induction false} Poll(q: set<Id>, r: Run, c: Id, todo: set<Id>) returns (r': Run)
    requires Goes(r) && r.ss != [] && c in q && todo <= q && c !in todo && c in Now(r).nodes && todo <= Now(r).nodes.Keys
    requires Now(r).nodes[c].role.Candidate? && Plea(Now(r).nodes[c]) in Now(r).voteRequests
    requires forall v | v in todo :: Now(r).nodes[v].term < Now(r).nodes[c].term
    ensures Continues(q, r, r') && Goes(r') && r'.ss != []
    ensures var s, s', n := Now(r), Now(r'), Now(r).nodes[c];
            && s'.nodes.Keys == s.nodes.Keys && s'.voteRequests == s.voteRequests && s.voteAnswers <= s'.voteAnswers
            && (forall v | v in s.nodes && v !in todo :: s'.nodes[v] == s.nodes[v])
            && forall v | v in todo ::
                 && Polled(s.nodes[v], s'.nodes[v], n.term)
                 && (MoreComplete(n.log.entries, s.nodes[v].log.entries) ==>
                       VoteAnswer(v, c, n.term, VoteReply(n.term, true)) in s'.voteAnswers)
    decreases |todo|
  {
    hide Goes, Continues, MoreComplete, Plea;
    if todo == {} {
      r' := r;
      Stay(q, r);
    } else {
      var v :| v in todo;
      var r1 := PollOne(q, r, c, v);
      r' := Poll(q, r1, c, todo - {v});
      Onward(q, r, r1, r');
    }
  }

  lemma {:induction false} LatestTerm(s: State, q: set<Id>) returns (u: Id)
    requires q != {} && q <= s.nodes.Keys
    ensures u in q && forall v | v in q :: s.nodes[v].term <= s.nodes[u].term
    decreases |q|
  {
    var x :| x in q;
    u := x;
    if q != {x} {
      var y := LatestTerm(s, q - {x});
      if s.nodes[x].term < s.nodes[y].term {
        u := y;
      }
    }
  }

  /** A node that does not lead campaigns; in a term beyond all others in q it reaches everyone. */
  lemma Campaigns(q: set<Id>, r: Run, c: Id) returns (r': Run)
    requires Goes(r) && r.ss != [] && c in q && q <= Now(r).nodes.Keys && !Now(r).nodes[c].role.Leader?
    requires forall v | v in q :: Now(r).nodes[v].term <= Now(r).nodes[c].term
    ensures Continues(q, r, r') && Goes(r') && r'.ss != []
    ensures var s, s' := Now(r), Now(r');
            && s'.nodes.Keys == s.nodes.Keys && (forall v | v in s.nodes && v !in q :: s'.nodes[v] == s.nodes[v])
            && s'.nodes[c].role.Candidate?
            && forall v | v in q ::
                 && s'.nodes[v].term == s.nodes[c].term + 1 && !s'.nodes[v].role.Leader? && s'.nodes[v].log == s.nodes[v].log
                 && (v != c && MoreComplete(s.nodes[c].log.entries, s.nodes[v].log.entries) ==>
                       VoteAnswer(v, c, s.nodes[c].term + 1, VoteReply(s.nodes[c].term + 1, true)) in s'.voteAnswers)
  {
    hide Goes, Continues, MoreComplete, Plea;
    var r1 := Stands(q, r, c);
    r' := Poll(q, r1, c, q - {c});
    Onward(q, r, r1, r');
  }

  lemma Stands(q: set<Id>, r: Run, c: Id) returns (r': Run)
    requires Goes(r) && r.ss != [] && c in q && c in Now(r).nodes && !Now(r).nodes[c].role.Leader?
    ensures Continues(q, r, r') && Goes(r') && r'.ss != []
    ensures var s, s' := Now(r), Now(r');
            && c in s'.nodes && s'.nodes == s.nodes[c := s'.nodes[c]]
            && s'.nodes[c].role.Candidate? && s'.nodes[c].term == s.nodes[c].term + 1 && s'.nodes[c].log == s.nodes[c].log
            && Plea(s'.nodes[c]) in s'.voteRequests
  {
    hide IsRun;
    var s := Now(r);
    PlainNow(r, c);
    TimedOut(s, c);
    assert Enabled(s, Timeout(c));
    assert SoundStep(s, Timeout(c));
    hide Next, Enabled, Goes, Continues, SoundStep;
    r' := Take(q, r, Timeout(c));
    Something(r');
  }

  /** Any majority can elect one of its own. */
  lemma Elects(q: set<Id>, r: Run) returns (r': Run, l: Id)
    requires Goes(r) && r.ss != [] && q <= Now(r).nodes.Keys && 2 * |q| > |Now(r).nodes|
    ensures Continues(q, r, r') && Goes(r') && r'.ss != []
    ensures var s, s' := Now(r), Now(r');
            && s'.nodes.Keys == s.nodes.Keys && (forall v | v in s.nodes && v !in q :: s'.nodes[v] == s.nodes[v])
            && l in q && s'.nodes[l].role.Leader? && forall v | v in q :: s'.nodes[v].term <= s'.nodes[l].term
  {
    hide Goes, Continues, MoreComplete;
    var s := Now(r);
    assert q != {};
    var u := LatestTerm(s, q);
    if s.nodes[u].role.Leader? {
      r', l := r, u;
      Stay(q, r);
    } else {
      var r1 := Campaigns(q, r, u);
      l := MostComplete(Now(r1), q);
      assert |Now(r1).nodes| == |Now(r1).nodes.Keys| == |s.nodes.Keys| == |s.nodes|;
      r' := Leads(q, r1, l);
      Onward(q, r, r1, r');
    }
  }

  /** Nobody in q leads, all are in one term, and c's log is as complete as any: c's next campaign succeeds. */
  lemma Leads(q: set<Id>, r: Run, c: Id) returns (r': Run)
    requires Goes(r) && r.ss != [] && c in q && q <= Now(r).nodes.Keys && 2 * |q| > |Now(r).nodes| && !Now(r).nodes[c].role.Leader?
    requires forall v | v in q ::
               && Now(r).nodes[v].term == Now(r).nodes[c].term
               && MoreComplete(Now(r).nodes[c].log.entries, Now(r).nodes[v].log.entries)
    ensures Continues(q, r, r') && Goes(r') && r'.ss != []
    ensures var s, s' := Now(r), Now(r');
            && s'.nodes.Keys == s.nodes.Keys && (forall v | v in s.nodes && v !in q :: s'.nodes[v] == s.nodes[v])
            && s'.nodes[c].role.Leader? && forall v | v in q :: s'.nodes[v].term <= s'.nodes[c].term
  {
    hide Goes, Continues, MoreComplete;
    var r1 := Campaigns(q, r, c);
    assert |Now(r1).nodes| == |Now(r1).nodes.Keys| == |Now(r).nodes.Keys| == |Now(r).nodes|;
    r' := Wins(q, r1, c);
    Onward(q, r, r1, r');
  }

  lemma Wins(q: set<Id>, r: Run, c: Id) returns (r': Run)
    requires Goes(r) && r.ss != [] && c in q && q <= Now(r).nodes.Keys && 2 * |q| > |Now(r).nodes| && Now(r).nodes[c].role.Candidate?
    requires forall v | v in q && v != c ::
               VoteAnswer(v, c, Now(r).nodes[c].term, VoteReply(Now(r).nodes[c].term, true)) in Now(r).voteAnswers
    ensures Continues(q, r, r') && Goes(r') && r'.ss != []
    ensures var s, s' := Now(r), Now(r');
            c in s'.nodes && s'.nodes == s.nodes[c := s'.nodes[c]] && s'.nodes[c].role.Leader? && s'.nodes[c].term == s.nodes[c].term
  {
    hide IsRun;
    PlainNow(r, c);
    MajorityElects(Now(r), c, q);
    TookOffice(Now(r), c, q);
    hide Next, Enabled, Goes, Continues;
    r' := Take(q, r, WinElection(c, q));
    Something(r');
  }

  // ---------------------------------------------------------------- one exchange

  /** A leader and a peer of it, both in q, the peer not past the leader's term. */
  predicate Pair(q: set<Id>, s: State, l: Id, p: Id) {
    l in q && p in q && l != p && l in s.nodes && p in s.nodes && s.nodes[l].role.Leader? && s.nodes[p].term <= s.nodes[l].term
  }

  lemma PeerNow(r: Run, l: Id, p: Id)
    requires Goes(r) && r.ss != [] && l in Now(r).nodes && p in Now(r).nodes && l != p && Now(r).nodes[l].role.Leader?
    ensures var n := Now(r).nodes[l];
            && p in n.peers && p in n.nextIndex && p in n.matchIndex && 0 < n.nextIndex[p] <= |n.log.entries| + 1
  {
    hide IsRun, Simulation.Inv;
    Named(r, l);
    assert p in Ids(Now(r).nodes[l].peers);
    var shs := S.Shadows(r.ss, r.steps);
    var s, sh := Now(r), shs[|r.ss| - 1];
    ReplicationSteps.PeerFacts(s, sh, l, p);
    S.LeaderLog(s, sh, l);
  }

  lemma Asks(q: set<Id>, r: Run, l: Id, p: Id) returns (r': Run, req: AppendRequest)
    requires Goes(r) && r.ss != [] && Pair(q, Now(r), l, p)
    ensures Continues(q, r, r') && Goes(r') && r'.ss != []
    ensures var s, link := Now(r), Link(l, p);
            Now(r') == s.(exchanges := s.exchanges[link := Asked(req)]) && Sends(s.nodes[l], p, s.batch, req)
  {
    hide Goes, Continues, Sends, Next, Enabled, SoundStep, BuildRequest;
    var s, link := Now(r), Link(l, p);
    PeerNow(r, l, p);
    PlainNow(r, l);
    RequestBuilt(s.nodes[l], p, s.batch);
    req := BuildRequest(s.nodes[l], p, s.batch).value;
    Sent(s, link, req);
    r' := Take(q, r, Replicate(link));
    Something(r');
  }

  lemma Sent(s: State, link: Link, req: AppendRequest)
    requires link.leader in s.nodes && link.peer in s.nodes[link.leader].peers && s.nodes[link.leader].role.Leader?
    requires BuildRequest(s.nodes[link.leader], link.peer, s.batch) == Some(req)
    ensures Enabled(s, Replicate(link)) && SoundStep(s, Replicate(link))
    ensures Next(s, Replicate(link)) == s.(exchanges := s.exchanges[link := Asked(req)])
  {
    hide BuildRequest;
  }

  lemma Replies(q: set<Id>, r: Run, l: Id, p: Id, req: AppendRequest) returns (r': Run, reply: AppendReply)
    requires Goes(r) && r.ss != [] && Pair(q, Now(r), l, p) && req.term == Now(r).nodes[l].term
    requires Link(l, p) in Now(r).exchanges && Now(r).exchanges[Link(l, p)] == Asked(req)
    ensures Continues(q, r, r') && Goes(r') && r'.ss != []
    ensures var s, s', link := Now(r), Now(r'), Link(l, p);
            && p in s'.nodes && Followed(s.nodes[p], req, s'.nodes[p], reply) && Contiguous(req.entries, req.prevIndex + 1)
            && s' == s.(nodes := s.nodes[p := s'.nodes[p]], exchanges := s.exchanges[link := Answered(req, reply)])
  {
    hide IsRun, HandleAppend, Followed;
    var s, link := Now(r), Link(l, p);
    Delivers(r, link);
    PlainNow(r, p);
    RequestAnswered(s, link);
    assert Contiguous(req.entries, req.prevIndex + 1);
    reply := Next(s, DeliverAppend(link)).exchanges[link].reply;
    hide Next, Enabled, Goes, Continues;
    r' := Take(q, r, DeliverAppend(link));
    Something(r');
  }

  lemma Delivers(r: Run, link: Link)
    requires Goes(r) && r.ss != [] && link in Now(r).exchanges && Now(r).exchanges[link].Asked?
    ensures Enabled(Now(r), DeliverAppend(link))
  {
    hide IsRun, Enabled;
    S.NeverMalformed(r.ss, r.steps, |r.ss| - 1);
  }

  /** The leader's side of an answer in its own term. */
  predicate Heard(n: Node, n': Node, p: Id, req: AppendRequest, reply: AppendReply) {
    if reply.success then
      var end := req.prevIndex + |req.entries|;
      n' == if req.entries == [] then n
            else n.(matchIndex := n.matchIndex[p := end], nextIndex := n.nextIndex[p := end + 1])
    else
      && p in n.nextIndex && p in n'.nextIndex && n' == n.(nextIndex := n.nextIndex[p := n'.nextIndex[p]])
      && SentBack(n.log.entries, n.nextIndex[p], reply, n'.nextIndex[p])
  }

  lemma Hears(q: set<Id>, r: Run, l: Id, p: Id, req: AppendRequest, reply: AppendReply) returns (r': Run)
    requires Goes(r) && r.ss != [] && Pair(q, Now(r), l, p) && req.term == Now(r).nodes[l].term == reply.term
    requires Link(l, p) in Now(r).exchanges && Now(r).exchanges[Link(l, p)] == Answered(req, reply)
    requires Contiguous(req.entries, req.prevIndex + 1)
    ensures Continues(q, r, r') && Goes(r') && r'.ss != []
    ensures var s, s', link := Now(r), Now(r'), Link(l, p);
            && l in s'.nodes && s' == s.(nodes := s.nodes[l := s'.nodes[l]], exchanges := s.exchanges - {link})
            && Heard(s.nodes[l], s'.nodes[l], p, req, reply)
  {
    hide IsRun, HandleReply, SentBack, B.TermsAscend;
    var s, link := Now(r), Link(l, p);
    PlainNow(r, l);
    PeerNow(r, l, p);
    assert Enabled(s, DeliverReply(link));
    AnswerHeard(s, link);
    hide Next, Enabled, Goes, Continues;
    r' := Take(q, r, DeliverReply(link));
    Something(r');
  }

  /** A refusal sends nextIndex strictly back. */
  lemma Lowered(L: seq<Entry>, F: seq<Entry>, next: nat, reply: AppendReply, to: nat)
    requires B.Coherent(L, F) && 0 < next <= |L| + 1 && !PreviousHeld(F, next - 1, TermBefore(L, next))
    requires Hinted(F, next - 1, reply) && SentBack(L, next, reply, to)
    ensures 0 < to < next
  {
    var prev := next - 1;
    if prev <= |F| {
      assert 0 < F[prev - 1].term == reply.conflictTerm;
      if B.Holds(L, reply.conflictTerm) {
        B.PartAfterTerm(L, F, to - 1, prev);
      }
    }
  }

  /** What is held before nextIndex is shared, so the entries written there make the leader's log as far as they go. */
  lemma Written(L: seq<Entry>, F: seq<Entry>, next: nat, end: nat)
    requires B.Coherent(L, F) && 0 < next <= |L| + 1 && PreviousHeld(F, next - 1, TermBefore(L, next)) && next - 1 <= end <= |L|
    ensures next - 1 <= |F| && F[..next - 1] + L[next - 1..end] == L[..end] && Agree(L, F, next - 1)
  {
    if next > 1 {
      assert Agree(L, F, next - 1);
    }
  }

  /**
   After a whole exchange: the peer has the leader's log as far as the batch goes, and the leader knows; or nextIndex has gone
   back and nothing else has changed.
   */
  predicate Exchanged(n: Node, f: Node, n': Node, f': Node, p: Id, batch: nat)
    requires p in n.nextIndex && 0 < n.nextIndex[p] <= |n.log.entries| + 1
  {
    var L, next, end := n.log.entries, n.nextIndex[p], Reach(n, p, batch);
    && f'.term == n.term && f'.lastApplied == f.lastApplied && f'.log.base == 0
    && if PreviousHeld(f.log.entries, next - 1, TermBefore(L, next)) then
         && f'.log.entries == (if next <= |L| then L[..end] else f.log.entries)
         && n' == (if next <= |L| then n.(matchIndex := n.matchIndex[p := end], nextIndex := n.nextIndex[p := end + 1]) else n)
         && f'.commitIndex == Higher(f.commitIndex, Min(n.commitIndex, |f'.log.entries|))
       else
         && f'.log.entries == f.log.entries && f'.commitIndex == f.commitIndex
         && p in n'.nextIndex && n' == n.(nextIndex := n.nextIndex[p := n'.nextIndex[p]]) && 0 < n'.nextIndex[p] < next
  }

  lemma Exchanges(n: Node, f: Node, n': Node, f': Node, p: Id, batch: nat, req: AppendRequest, reply: AppendReply)
    requires n.log.base == 0 && f.log.base == 0 && B.Coherent(n.log.entries, f.log.entries) && Sends(n, p, batch, req)
    requires Followed(f, req, f', reply) && Heard(n, n', p, req, reply)
    ensures Exchanged(n, f, n', f', p, batch)
  {
    hide B.Coherent, SentBack, Hinted;
    var L, F, next := n.log.entries, f.log.entries, n.nextIndex[p];
    if PreviousHeld(F, next - 1, TermBefore(L, next)) {
      Written(L, F, next, Reach(n, p, batch));
    } else {
      hide PreviousHeld;
      Lowered(L, F, next, reply, n'.nextIndex[p]);
    }
  }

  /** The rest of the cluster stands still. */
  predicate OnlyThese(s: State, s': State, l: Id, p: Id) {
    s'.nodes.Keys == s.nodes.Keys && s'.batch == s.batch && forall v | v in s.nodes && v != l && v != p :: s'.nodes[v] == s.nodes[v]
  }

  lemma Round(q: set<Id>, r: Run, l: Id, p: Id) returns (r': Run)
    requires Goes(r) && r.ss != [] && Pair(q, Now(r), l, p)
    ensures Continues(q, r, r') && Goes(r') && r'.ss != [] && Pair(q, Now(r'), l, p) && OnlyThese(Now(r), Now(r'), l, p)
    ensures var n := Now(r).nodes[l]; p in n.nextIndex && 0 < n.nextIndex[p] <= |n.log.entries| + 1
    ensures Exchanged(Now(r).nodes[l], Now(r).nodes[p], Now(r').nodes[l], Now(r').nodes[p], p, Now(r).batch)
  {
    hide Goes, Continues, Exchanged, Followed, Heard, Sends;
    var s := Now(r);
    PlainNow(r, l);
    PlainNow(r, p);
    Together(r, l, p);
    PeerNow(r, l, p);
    var r1, req := Asks(q, r, l, p);
    RightTerm(s.nodes[l], p, s.batch, req);
    var r2, reply := Replies(q, r1, l, p, req);
    InTerm(s.nodes[p], req, Now(r2).nodes[p], reply);
    var r3 := Hears(q, r2, l, p, req, reply);
    Onward(q, r, r1, r2);
    Onward(q, r, r2, r3);
    r' := r3;
    Exchanges(s.nodes[l], s.nodes[p], Now(r3).nodes[l], Now(r3).nodes[p], p, s.batch, req, reply);
    StillLeads(s.nodes[l], Now(r3).nodes[l], p, req, reply);
  }

  lemma RightTerm(n: Node, p: Id, batch: nat, req: AppendRequest)
    requires Sends(n, p, batch, req)
    ensures req.term == n.term
  {
  }

  lemma InTerm(f: Node, req: AppendRequest, f': Node, reply: AppendReply)
    requires Followed(f, req, f', reply)
    ensures reply.term == req.term == f'.term
  {
  }

  lemma StillLeads(n: Node, n': Node, p: Id, req: AppendRequest, reply: AppendReply)
    requires Heard(n, n', p, req, reply)
    ensures n'.role == n.role && n'.term == n.term
  {
  }

  lemma Together(r: Run, l: Id, p: Id)
    requires Goes(r) && r.ss != [] && l in Now(r).nodes && p in Now(r).nodes
    ensures B.Coherent(Now(r).nodes[l].log.entries, Now(r).nodes[p].log.entries)
  {
    hide IsRun;
    S.LogsCoherent(r.ss, r.steps, |r.ss| - 1, |r.ss| - 1, l, p);
  }

  // ---------------------------------------------------------------- catching up

  /** All that changes in the leader is what it notes about p. */
  predicate OnlyNotes(n: Node, n': Node, p: Id) {
    && n' == n.(nextIndex := n'.nextIndex, matchIndex := n'.matchIndex)
    && (forall x | x in n.nextIndex && x != p :: x in n'.nextIndex && n'.nextIndex[x] == n.nextIndex[x])
    && (forall x | x in n.matchIndex && x != p :: x in n'.matchIndex && n'.matchIndex[x] == n.matchIndex[x])
  }

  /** The peer has the leader's log, and the leader knows. */
  predicate CaughtUp(n: Node, f: Node, p: Id) {
    && f.log.entries == n.log.entries && f.term == n.term
    && p in n.matchIndex && n.matchIndex[p] == |n.log.entries| && p in n.nextIndex && n.nextIndex[p] == |n.log.entries| + 1
  }

  lemma NotesTogether(n: Node, n': Node, n'': Node, p: Id)
    requires OnlyNotes(n, n', p) && OnlyNotes(n', n'', p)
    ensures OnlyNotes(n, n'', p)
  {
  }

  /** Once the logs meet, every exchange brings the peer a batch further. */
  lemma {:induction false} Stream(q: set<Id>, r: Run, l: Id, p: Id) returns (r': Run)
    requires Goes(r) && r.ss != [] && Pair(q, Now(r), l, p)
    requires var n, f := Now(r).nodes[l], Now(r).nodes[p];
             && p in n.nextIndex && p in n.matchIndex && 0 < n.nextIndex[p] <= |n.log.entries| + 1 && n.matchIndex[p] == n.nextIndex[p] - 1
             && f.term == n.term && f.log.entries == n.log.entries[..n.nextIndex[p] - 1]
    ensures Continues(q, r, r') && Goes(r') && r'.ss != [] && Pair(q, Now(r'), l, p) && OnlyThese(Now(r), Now(r'), l, p)
    ensures OnlyNotes(Now(r).nodes[l], Now(r').nodes[l], p) && CaughtUp(Now(r').nodes[l], Now(r').nodes[p], p)
    ensures Now(r').nodes[p].lastApplied == Now(r).nodes[p].lastApplied
    decreases |Now(r).nodes[l].log.entries| + 1 - Now(r).nodes[l].nextIndex[p]
  {
    hide Goes, Continues;
    var n, f := Now(r).nodes[l], Now(r).nodes[p];
    if n.nextIndex[p] == |n.log.entries| + 1 {
      r' := r;
      Stay(q, r);
    } else {
      var r1 := Round(q, r, l, p);
      r' := Stream(q, r1, l, p);
      Onward(q, r, r1, r');
      NotesTogether(n, Now(r1).nodes[l], Now(r').nodes[l], p);
    }
  }

  /** However far apart they are, finitely many exchanges bring a peer's log to the leader's. */
  lemma {:induction false} CatchUp(q: set<Id>, r: Run, l: Id, p: Id) returns (r': Run)
    requires Goes(r) && r.ss != [] && Pair(q, Now(r), l, p)
    requires p in Now(r).nodes[l].nextIndex && Now(r).nodes[l].nextIndex[p] <= |Now(r).nodes[l].log.entries|
    ensures Continues(q, r, r') && Goes(r') && r'.ss != [] && Pair(q, Now(r'), l, p) && OnlyThese(Now(r), Now(r'), l, p)
    ensures OnlyNotes(Now(r).nodes[l], Now(r').nodes[l], p) && CaughtUp(Now(r').nodes[l], Now(r').nodes[p], p)
    ensures Now(r').nodes[p].lastApplied == Now(r).nodes[p].lastApplied
    decreases Now(r).nodes[l].nextIndex[p]
  {
    hide Goes, Continues, CaughtUp;
    var n, f := Now(r).nodes[l], Now(r).nodes[p];
    var r1 := Round(q, r, l, p);
    if PreviousHeld(f.log.entries, n.nextIndex[p] - 1, TermBefore(n.log.entries, n.nextIndex[p])) {
      r' := Stream(q, r1, l, p);
    } else {
      r' := CatchUp(q, r1, l, p);
    }
    Onward(q, r, r1, r');
    NotesTogether(n, Now(r1).nodes[l], Now(r').nodes[l], p);
  }

  /** What stays while a leader serves the members in todo. */
  predicate Serves(s: State, s': State, l: Id, todo: set<Id>)
    requires l in s.nodes
  {
    && s'.nodes.Keys == s.nodes.Keys && s'.batch == s.batch
    && (forall v | v in s.nodes && v != l && v !in todo :: s'.nodes[v] == s.nodes[v])
    && (forall v | v in todo && v in s.nodes :: s'.nodes[v].lastApplied == s.nodes[v].lastApplied)
    && var n, n' := s.nodes[l], s'.nodes[l];
    && n' == n.(nextIndex := n'.nextIndex, matchIndex := n'.matchIndex)
    && (forall x | x in n.nextIndex && x !in todo :: x in n'.nextIndex && n'.nextIndex[x] == n.nextIndex[x])
    && (forall x | x in n.matchIndex && x !in todo :: x in n'.matchIndex && n'.matchIndex[x] == n.matchIndex[x])
  }

  lemma {:induction false} CatchAll(q: set<Id>, r: Run, l: Id, todo: set<Id>) returns (r': Run)
    requires Goes(r) && r.ss != [] && l in q && l in Now(r).nodes && Now(r).nodes[l].role.Leader? && todo <= q - {l} && todo <= Now(r).nodes.Keys
    requires forall p | p in todo ::
               && Now(r).nodes[p].term <= Now(r).nodes[l].term
               && p in Now(r).nodes[l].nextIndex && Now(r).nodes[l].nextIndex[p] <= |Now(r).nodes[l].log.entries|
    ensures Continues(q, r, r') && Goes(r') && r'.ss != [] && Serves(Now(r), Now(r'), l, todo)
    ensures forall p | p in todo :: CaughtUp(Now(r').nodes[l], Now(r').nodes[p], p)
    decreases |todo|
  {
    hide Goes, Continues, CaughtUp, Serves;
    if todo == {} {
      r' := r;
      Stay(q, r);
      ServesNobody(Now(r), l);
    } else {
      var p :| p in todo;
      var r1 := CatchUp(q, r, l, p);
      assert forall x | x in todo - {p} :: Now(r1).nodes[x] == Now(r).nodes[x];
      r' := CatchAll(q, r1, l, todo - {p});
      Onward(q, r, r1, r');
      ServesOne(Now(r), Now(r1), Now(r'), l, p, todo);
    }
  }

  lemma ServesNobody(s: State, l: Id)
    requires l in s.nodes
    ensures Serves(s, s, l, {})
  {
  }

  lemma ServesOne(s: State, s1: State, s2: State, l: Id, p: Id, todo: set<Id>)
    requires l in s.nodes && p in s.nodes && p in todo && l !in todo && OnlyThese(s, s1, l, p) && OnlyNotes(s.nodes[l], s1.nodes[l], p)
    requires s1.nodes[p].lastApplied == s.nodes[p].lastApplied && CaughtUp(s1.nodes[l], s1.nodes[p], p)
    requires Serves(s1, s2, l, todo - {p})
    ensures Serves(s, s2, l, todo) && CaughtUp(s2.nodes[l], s2.nodes[p], p)
  {
  }

  // ---------------------------------------------------------------- committing and applying

  /** With all of q caught up, the leader commits its whole log. */
  lemma Commits(q: set<Id>, r: Run, l: Id) returns (r': Run)
    requires Goes(r) && r.ss != [] && l in q && q <= Now(r).nodes.Keys && 2 * |q| > |Now(r).nodes| && Now(r).nodes[l].role.Leader?
    requires forall p | p in q && p != l :: CaughtUp(Now(r).nodes[l], Now(r).nodes[p], p)
    ensures Continues(q, r, r') && Goes(r') && r'.ss != []
    ensures var s, n := Now(r), Now(r).nodes[l];
            Now(r').nodes == s.nodes[l := n.(commitIndex := |n.log.entries|)] && Now(r').batch == s.batch
  {
    hide IsRun, AdvanceCommit;
    var s, n := Now(r), Now(r).nodes[l];
    PlainNow(r, l);
    Something(r);
    H.LeaderEndsOwn(r.ss, r.steps, |r.ss| - 1, l);
    assert MajorityHolds(s, l, |n.log.entries|) by {
      forall p | p in q ensures p in Holding(s, l, |n.log.entries|) {
      }
      SubsetSize(q, Holding(s, l, |n.log.entries|));
    }
    assert Enabled(s, TryCommit(l)) && Next(s, TryCommit(l)) == s.(nodes := s.nodes[l := AdvanceCommit(n)]);
    r' := Take(q, r, TryCommit(l));
    Something(r');
    hide Next, Enabled, MajorityHolds, Holding, CaughtUp;
    CommitAdvances(r'.ss, r'.steps, |r.steps|, l);
    assert MajorityHolds(s, l, |n.log.entries| - 1 + 1);
  }

  predicate Informed(n: Node, f: Node, p: Id) {
    CaughtUp(n, f, p) && f.commitIndex == |n.log.entries|
  }

  lemma {:induction false} InformAll(q: set<Id>, r: Run, l: Id, todo: set<Id>) returns (r': Run)
    requires Goes(r) && r.ss != [] && l in q && l in Now(r).nodes && Now(r).nodes[l].role.Leader? && todo <= q - {l} && todo <= Now(r).nodes.Keys
    requires Now(r).nodes[l].commitIndex == |Now(r).nodes[l].log.entries|
    requires forall p | p in todo :: CaughtUp(Now(r).nodes[l], Now(r).nodes[p], p)
    ensures Continues(q, r, r') && Goes(r') && r'.ss != []
    ensures var s, s' := Now(r), Now(r');
            && s'.nodes.Keys == s.nodes.Keys && s'.nodes[l] == s.nodes[l]
            && (forall v | v in s.nodes && v !in todo :: s'.nodes[v] == s.nodes[v])
            && (forall p | p in todo :: Informed(s'.nodes[l], s'.nodes[p], p))
    decreases |todo|
  {
    hide Goes, Continues, CaughtUp, Informed;
    if todo == {} {
      r' := r;
      Stay(q, r);
    } else {
      var p :| p in todo;
      var r1 := InformOne(q, r, l, p);
      r' := InformAll(q, r1, l, todo - {p});
      Onward(q, r, r1, r');
    }
  }

  lemma InformOne(q: set<Id>, r: Run, l: Id, p: Id) returns (r': Run)
    requires Goes(r) && r.ss != [] && l in q && p in q && l != p && l in Now(r).nodes && p in Now(r).nodes && Now(r).nodes[l].role.Leader?
    requires Now(r).nodes[l].commitIndex == |Now(r).nodes[l].log.entries| && CaughtUp(Now(r).nodes[l], Now(r).nodes[p], p)
    ensures Continues(q, r, r') && Goes(r') && r'.ss != []
    ensures var s, s' := Now(r), Now(r');
            && s'.nodes.Keys == s.nodes.Keys && (forall v | v in s.nodes && v != p :: s'.nodes[v] == s.nodes[v])
            && Informed(s'.nodes[l], s'.nodes[p], p)
  {
    hide Goes, Continues;
    PlainNow(r, p);
    r' := Round(q, r, l, p);
  }

  /** A proposal that will have been told of its success. */
  predicate InHand(n: Node, t: Ticket) {
    t in n.proposals && if Waiting(n, t) then n.proposals[t].sends == [] && n.role.Leader? else n.proposals[t].sends == [Committed]
  }

  lemma {:induction false} Applies(q: set<Id>, r: Run, v: Id, t: Ticket) returns (r': Run)
    requires Goes(r) && r.ss != [] && v in q && v in Now(r).nodes && v in r.ss[0].nodes
    ensures Continues(q, r, r') && Goes(r') && r'.ss != [] && r'.ss[0] == r.ss[0]
    ensures var s, s', n := Now(r), Now(r'), Now(r).nodes[v];
            && v in s'.nodes && s'.nodes == s.nodes[v := s'.nodes[v]]
            && var n' := s'.nodes[v];
            && n' == n.(lastApplied := n.commitIndex, waiters := n'.waiters, proposals := n'.proposals)
            && (InHand(n, t) ==> InHand(n', t) && n'.proposals[t].entry == n.proposals[t].entry)
    decreases Now(r).nodes[v].commitIndex - Now(r).nodes[v].lastApplied
  {
    hide IsRun, ApplyNext;
    var s, n := Now(r), Now(r).nodes[v];
    PlainNow(r, v);
    if n.lastApplied == n.commitIndex {
      r' := r;
      Stay(q, r);
    } else {
      assert Enabled(s, ApplyOne(v));
      Something(r);
      AppliesNext(s, v);
      WaitersStayOk(r.ss, r.steps, |r.ss| - 1, v);
      StepTreats(s, ApplyOne(v), v, t);
      var r1 := Take(q, r, ApplyOne(v));
      hide Next, Enabled, Goes, Continues;
      Something(r1);
      Begins(q, r, r1);
      r' := Applies(q, r1, v, t);
      Onward(q, r, r1, r');
    }
  }

  lemma Begins(q: set<Id>, r: Run, r': Run)
    requires Continues(q, r, r') && r.ss != []
    ensures r'.ss != [] && r'.ss[0] == r.ss[0]
  {
    hide Goes;
  }

  lemma {:induction false} ApplyAll(q: set<Id>, r: Run, todo: set<Id>, t: Ticket) returns (r': Run)
    requires Goes(r) && r.ss != [] && todo <= q && todo <= Now(r).nodes.Keys && todo <= r.ss[0].nodes.Keys
    ensures Continues(q, r, r') && Goes(r') && r'.ss != []
    ensures var s, s' := Now(r), Now(r');
            && s'.nodes.Keys == s.nodes.Keys && (forall v | v in s.nodes && v !in todo :: s'.nodes[v] == s.nodes[v])
            && forall v | v in todo ::
                 var n, n' := s.nodes[v], s'.nodes[v];
                 && n' == n.(lastApplied := n.commitIndex, waiters := n'.waiters, proposals := n'.proposals)
                 && (InHand(n, t) ==> InHand(n', t) && n'.proposals[t].entry == n.proposals[t].entry)
    decreases |todo|
  {
    hide Goes, Continues, InHand;
    if todo == {} {
      r' := r;
      Stay(q, r);
    } else {
      var v :| v in todo;
      var r1 := Applies(q, r, v, t);
      r' := ApplyAll(q, r1, todo - {v}, t);
      Onward(q, r, r1, r');
    }
  }

  /** The leader takes a command. */
  lemma Proposes(q: set<Id>, r: Run, l: Id, command: Command, t: Ticket) returns (r': Run)
    requires Goes(r) && r.ss != [] && l in q && l in Now(r).nodes && Now(r).nodes[l].role.Leader? && t !in Now(r).nodes[l].proposals
    ensures Continues(q, r, r') && Goes(r') && r'.ss != []
    ensures var s, s', n := Now(r), Now(r'), Now(r).nodes[l];
            && l in s'.nodes && s'.nodes == s.nodes[l := s'.nodes[l]] && s'.batch == s.batch
            && var n', e := s'.nodes[l], Entry(|n.log.entries| + 1, n.term, command);
            && n' == n.(log := n'.log, waiters := n'.waiters, proposals := n'.proposals) && n'.log.entries == n.log.entries + [e]
            && InHand(n', t) && n'.proposals[t].entry == e
  {
    hide IsRun;
    var s := Now(r);
    PlainNow(r, l);
    assert Enabled(s, ClientPropose(l, command, t));
    Proposed(s, l, command, t);
    hide Next, Enabled, Goes, Continues;
    r' := Take(q, r, ClientPropose(l, command, t));
    Something(r');
  }

  // ---------------------------------------------------------------- the theorem

  /** q has gone on: its leader l has the new entry e, and all of q has l's log, committed and applied to the end. */
  predicate Agreed(s: State, q: set<Id>, l: Id, e: Entry) {
    && l in q && q <= s.nodes.Keys && s.nodes[l].role.Leader?
    && var L := s.nodes[l].log.entries;
    && L != [] && L[|L| - 1] == e
    && forall v | v in q :: s.nodes[v].log.entries == L && s.nodes[v].commitIndex == |L| == s.nodes[v].lastApplied
  }

  lemma {:induction false} FreshTicket(ts: set<Ticket>) returns (t: Ticket)
    ensures forall x | x in ts :: x < t
    decreases |ts|
  {
    t := 0;
    if ts != {} {
      var x :| x in ts;
      var y := FreshTicket(ts - {x});
      t := if y <= x then x + 1 else y;
      forall z | z in ts ensures z < t {
        assert z == x || z in ts - {x};
      }
    }
  }

  lemma StartMembers(r: Run)
    requires Goes(r) && r.ss != []
    ensures Now(r).nodes.Keys == r.ss[0].nodes.Keys
  {
    H.SameMembers(r.ss, r.steps, |r.ss| - 1);
  }

  lemma CommitKeepsUp(q: set<Id>, s: State, s': State, l: Id)
    requires l in s.nodes && q <= s.nodes.Keys && (forall p | p in q - {l} :: CaughtUp(s.nodes[l], s.nodes[p], p))
    requires s'.nodes == s.nodes[l := s.nodes[l].(commitIndex := |s.nodes[l].log.entries|)]
    ensures forall p | p in q - {l} :: CaughtUp(s'.nodes[l], s'.nodes[p], p)
  {
  }

  lemma ToldOfSuccess(r: Run, l: Id, t: Ticket)
    requires Goes(r) && r.ss != [] && l in Now(r).nodes && InHand(Now(r).nodes[l], t)
    requires Now(r).nodes[l].proposals[t].entry.index <= Now(r).nodes[l].lastApplied
    ensures Now(r).nodes[l].proposals[t].sends == [Committed]
  {
    hide IsRun;
    StartMembers(r);
    WaitersStayOk(r.ss, r.steps, |r.ss| - 1, l);
  }

  lemma InformedIs(n: Node, f: Node, p: Id)
    requires Informed(n, f, p)
    ensures f.log.entries == n.log.entries && f.commitIndex == |n.log.entries|
  {
  }

  /** The leader has a new entry e for ticket t at the end of its log; outside of q nothing has changed. */
  predicate Serving(q: set<Id>, s: State, s': State, l: Id, e: Entry, t: Ticket)
    requires l in s.nodes
  {
    && s'.nodes.Keys == s.nodes.Keys && (forall v | v in s.nodes && v !in q :: s'.nodes[v] == s.nodes[v])
    && var n, n' := s.nodes[l], s'.nodes[l];
    && n'.role.Leader? && n'.log.entries == n.log.entries + [e] && e.index == |n'.log.entries|
    && InHand(n', t) && n'.proposals[t].entry == e
  }

  lemma Replicates(q: set<Id>, r: Run, l: Id, command: Command) returns (r': Run, e: Entry, t: Ticket)
    requires Goes(r) && r.ss != [] && l in q && q <= Now(r).nodes.Keys && Now(r).nodes[l].role.Leader?
    requires forall v | v in q :: Now(r).nodes[v].term <= Now(r).nodes[l].term
    ensures Continues(q, r, r') && Goes(r') && r'.ss != [] && e.command == command && Serving(q, Now(r), Now(r'), l, e, t)
    ensures forall p | p in q - {l} :: CaughtUp(Now(r').nodes[l], Now(r').nodes[p], p)
  {
    hide Goes, Continues, CaughtUp, InHand, Serves;
    t := FreshTicket(Now(r).nodes[l].proposals.Keys);
    var r1 := Proposes(q, r, l, command, t);
    HasTicket(Now(r1).nodes[l], t);
    e := Now(r1).nodes[l].proposals[t].entry;
    forall p | p in q - {l}
      ensures p in Now(r1).nodes[l].nextIndex && Now(r1).nodes[l].nextIndex[p] <= |Now(r1).nodes[l].log.entries|
    {
      PeerNow(r, l, p);
    }
    r' := CatchAll(q, r1, l, q - {l});
    Onward(q, r, r1, r');
    ServedOutside(q, Now(r1), Now(r'), l, t);
  }

  lemma ServedOutside(q: set<Id>, s: State, s': State, l: Id, t: Ticket)
    requires l in q && l in s.nodes && Serves(s, s', l, q - {l}) && InHand(s.nodes[l], t)
    ensures s'.nodes.Keys == s.nodes.Keys && (forall v | v in s.nodes && v !in q :: s'.nodes[v] == s.nodes[v])
    ensures var n, n' := s.nodes[l], s'.nodes[l];
            n'.role == n.role && n'.log == n.log && n'.proposals == n.proposals && InHand(n', t)
  {
  }

  /** The majority's own part: what all of q does, from a state with a leader in it. */
  lemma LeaderServes(q: set<Id>, r: Run, l: Id, command: Command) returns (r': Run, e: Entry, t: Ticket)
    requires Goes(r) && r.ss != [] && l in q && q <= Now(r).nodes.Keys && 2 * |q| > |Now(r).nodes| && Now(r).nodes[l].role.Leader?
    requires forall v | v in q :: Now(r).nodes[v].term <= Now(r).nodes[l].term
    ensures Continues(q, r, r') && Goes(r') && r'.ss != [] && e.command == command && Serving(q, Now(r), Now(r'), l, e, t)
    ensures Now(r').nodes[l].commitIndex == |Now(r').nodes[l].log.entries|
    ensures forall p | p in q - {l} :: Informed(Now(r').nodes[l], Now(r').nodes[p], p)
  {
    hide Goes, Continues, CaughtUp, Informed, Serving;
    var r1;
    r1, e, t := Replicates(q, r, l, command);
    SameNodes(q, Now(r), Now(r1), l, e, t);
    var r2 := Commits(q, r1, l);
    CommitKeepsUp(q, Now(r1), Now(r2), l);
    r' := InformAll(q, r2, l, q - {l});
    Onward(q, r, r1, r2);
    Onward(q, r, r2, r');
    StillServing(q, Now(r), Now(r1), Now(r'), l, e, t);
  }

  lemma SameNodes(q: set<Id>, s: State, s': State, l: Id, e: Entry, t: Ticket)
    requires l in s.nodes && Serving(q, s, s', l, e, t)
    ensures s'.nodes.Keys == s.nodes.Keys && s'.nodes[l].role.Leader? && |s'.nodes| == |s.nodes|
  {
    assert |s'.nodes| == |s'.nodes.Keys| && |s.nodes| == |s.nodes.Keys|;
  }

  lemma StillServing(q: set<Id>, s: State, s1: State, s2: State, l: Id, e: Entry, t: Ticket)
    requires l in q && l in s.nodes && Serving(q, s, s1, l, e, t) && s2.nodes.Keys == s1.nodes.Keys
    requires s2.nodes[l] == s1.nodes[l].(commitIndex := s2.nodes[l].commitIndex)
    requires forall v | v in s1.nodes && v !in q :: s2.nodes[v] == s1.nodes[v]
    ensures Serving(q, s, s2, l, e, t)
  {
  }

  /**
   From every state of every run, every majority can go on by itself, nobody else taking part and nothing failing, until it has
   a leader, has taken any new command, and all of it has applied that and everything before it; the proposer is told.
   */
  lemma MajorityProgresses(ss: seq<State>, steps: seq<Step>, q: set<Id>, command: Command)
    returns (r: Run, l: Id, e: Entry, t: Ticket)
    requires IsRun(ss, steps) && q <= ss[|ss| - 1].nodes.Keys && 2 * |q| > |ss[|ss| - 1].nodes|
    ensures Continues(q, Run(ss, steps), r) && r.ss != [] && e.command == command
    ensures Agreed(Now(r), q, l, e)
    ensures t in Now(r).nodes[l].proposals && Now(r).nodes[l].proposals[t] == Proposal(e, [Committed])
    ensures forall v | v in ss[|ss| - 1].nodes && v !in q :: v in Now(r).nodes && Now(r).nodes[v] == ss[|ss| - 1].nodes[v]
  {
    var r0 := Run(ss, steps);
    assert Goes(r0) && r0.ss != [];
    hide IsRun, Goes, Continues, Agreed, Ready, InHand;
    r, l, e, t := GoesOn(q, r0, command);
    HasTicket(Now(r).nodes[l], t);
    ToldOfSuccess(r, l, t);
  }

  /** So does it to anyone's command, and is then ready to read. */
  lemma GoesOn(q: set<Id>, r: Run, command: Command) returns (r': Run, l: Id, e: Entry, t: Ticket)
    requires Goes(r) && r.ss != [] && q <= Now(r).nodes.Keys && 2 * |q| > |Now(r).nodes|
    ensures Continues(q, r, r') && Goes(r') && r'.ss != [] && e.command == command
    ensures var s, s' := Now(r), Now(r');
            && s'.nodes.Keys == s.nodes.Keys && (forall v | v in s.nodes && v !in q :: s'.nodes[v] == s.nodes[v])
            && Agreed(s', q, l, e) && l in q && InHand(s'.nodes[l], t) && t in s'.nodes[l].proposals && s'.nodes[l].proposals[t].entry == e
            && e.index <= s'.nodes[l].lastApplied && (forall p | p in q - {l} :: Ready(s', l, p))
  {
    hide Goes, Continues, Informed, InHand, Agreed, Ready;
    var r1, r2;
    r1, l := Elects(q, r);
    assert |Now(r1).nodes| == |Now(r1).nodes.Keys| == |Now(r).nodes.Keys| == |Now(r).nodes|;
    r2, e, t := LeaderServes(q, r1, l, command);
    Onward(q, r, r1, r2);
    StartMembers(r2);
    r' := ApplyAll(q, r2, q, t);
    Onward(q, r, r2, r');
    HasTicket(Now(r2).nodes[l], t);
    HasTicket(Now(r').nodes[l], t);
    AllAgree(q, Now(r2), Now(r'), l, e);
    forall p | p in q - {l} ensures Ready(Now(r'), l, p) {
      InformedReady(Now(r2), Now(r'), l, p);
    }
  }

  lemma AllAgree(q: set<Id>, s: State, s': State, l: Id, e: Entry)
    requires l in q && q <= s.nodes.Keys == s'.nodes.Keys && s.nodes[l].role.Leader? && s.nodes[l].commitIndex == |s.nodes[l].log.entries|
    requires s.nodes[l].log.entries != [] && s.nodes[l].log.entries[|s.nodes[l].log.entries| - 1] == e
    requires forall p | p in q - {l} :: Informed(s.nodes[l], s.nodes[p], p)
    requires forall v | v in q ::
               var n, n' := s.nodes[v], s'.nodes[v];
               n' == n.(lastApplied := n.commitIndex, waiters := n'.waiters, proposals := n'.proposals)
    ensures Agreed(s', q, l, e)
  {
    hide Informed;
    forall v | v in q ensures s.nodes[v].log.entries == s.nodes[l].log.entries && s.nodes[v].commitIndex == |s.nodes[l].log.entries| {
      if v != l {
        InformedIs(s.nodes[l], s.nodes[v], v);
      }
    }
  }

  lemma HasTicket(n: Node, t: Ticket)
    requires InHand(n, t)
    ensures t in n.proposals
  {
  }

  // ---------------------------------------------------------------- reads

  /** Leader l has committed and applied all it has, and p has it too. */
  predicate Ready(s: State, l: Id, p: Id) {
    && l in s.nodes && p in s.nodes && s.nodes[l].role.Leader? && s.nodes[p].term == s.nodes[l].term
    && p in s.nodes[l].nextIndex && s.nodes[l].nextIndex[p] == |s.nodes[l].log.entries| + 1
    && s.nodes[l].commitIndex == |s.nodes[l].log.entries|
  }

  /** Read id of leader l goes on, in its term. */
  predicate Reading(s: State, l: Id, id: ReadId) {
    id in s.queries && l in s.nodes && s.queries[id].leader == l && s.queries[id].term == s.nodes[l].term
  }

  lemma ProbeOne(q: set<Id>, r: Run, l: Id, p: Id, id: ReadId) returns (r': Run)
    requires Goes(r) && r.ss != [] && l in q && p in q && l != p && Ready(Now(r), l, p) && Reading(Now(r), l, id)
    ensures Continues(q, r, r') && Goes(r') && r'.ss != []
    ensures var s, s' := Now(r), Now(r');
            && s'.nodes.Keys == s.nodes.Keys && (forall v | v in s.nodes && v != p :: s'.nodes[v] == s.nodes[v])
            && s'.queries == s.queries
            && s'.probeAnswers == s.probeAnswers + {ProbeAnswer(id, p, s.nodes[l].term)}
  {
    hide IsRun;
    var s, n := Now(r), Now(r).nodes[l];
    PeerNow(r, l, p);
    PlainNow(r, l);
    PlainNow(r, p);
    var probe := Probe(id, p, ProbeRequest(n, p, n.term, true));
    var r1 := Take(q, r, SendProbe(id, p, true));
    assert Now(r1) == s.(probes := s.probes + {probe});
    assert Enabled(Now(r1), DeliverProbe(probe));
    ProbeAnswered(Now(r1), probe);
    hide Next, Enabled, Goes, Continues;
    Something(r1);
    r' := Take(q, r1, DeliverProbe(probe));
    Something(r');
    Onward(q, r, r1, r');
  }

  lemma {:induction false} ProbeAll(q: set<Id>, r: Run, l: Id, todo: set<Id>, id: ReadId) returns (r': Run)
    requires Goes(r) && r.ss != [] && l in q && l in Now(r).nodes && todo <= q - {l} && Reading(Now(r), l, id)
    requires forall p | p in todo :: Ready(Now(r), l, p)
    ensures Continues(q, r, r') && Goes(r') && r'.ss != []
    ensures var s, s' := Now(r), Now(r');
            && s'.nodes.Keys == s.nodes.Keys && s'.nodes[l] == s.nodes[l] && s'.queries == s.queries && s.probeAnswers <= s'.probeAnswers
            && forall p | p in todo :: ProbeAnswer(id, p, s.nodes[l].term) in s'.probeAnswers
    decreases |todo|
  {
    hide Goes, Continues;
    if todo == {} {
      r' := r;
      Stay(q, r);
    } else {
      var p :| p in todo;
      var r1 := ProbeOne(q, r, l, p, id);
      r' := ProbeAll(q, r1, l, todo - {p}, id);
      Onward(q, r, r1, r');
    }
  }

  lemma Starts(q: set<Id>, r: Run, l: Id) returns (r': Run, id: ReadId)
    requires Goes(r) && r.ss != [] && l in q && l in Now(r).nodes && Now(r).nodes[l].role.Leader?
    ensures Continues(q, r, r') && Goes(r') && r'.ss != [] && r'.steps == r.steps + [StartRead(l, id)]
    ensures Now(r') == Now(r).(queries := Now(r).queries[id := Read(l, Now(r).nodes[l].term, Now(r).nodes[l].commitIndex)])
  {
    hide IsRun;
    id := FreshTicket(Now(r).queries.Keys);
    r' := Take(q, r, StartRead(l, id));
    Something(r');
  }

  /** The leader reads: a majority confirms, and what the read waits for has been applied. */
  lemma Reads(q: set<Id>, r: Run, l: Id) returns (r': Run, id: ReadId)
    requires Goes(r) && r.ss != [] && l in q && q <= Now(r).nodes.Keys && 2 * |q| > |Now(r).nodes| && Now(r).nodes[l].role.Leader?
    requires forall p | p in q - {l} :: Ready(Now(r), l, p)
    requires Now(r).nodes[l].commitIndex == Now(r).nodes[l].lastApplied
    ensures Continues(q, r, r') && Goes(r') && r'.ss != [] && |r.steps| < |r'.steps| && r'.steps[|r.steps|] == StartRead(l, id)
    ensures Confirmed(Now(r'), id) && l in Now(r').nodes && Now(r').queries[id].index <= Now(r').nodes[l].lastApplied
  {
    hide Goes, Ready;
    var r1;
    r1, id := Starts(q, r, l);
    forall p | p in q - {l} ensures Ready(Now(r1), l, p) {
      assert Ready(Now(r), l, p);
      StaysReady(Now(r), Now(r1), l, p);
    }
    r' := ProbeAll(q, r1, l, q - {l}, id);
    Onward(q, r, r1, r');
    Confirms(q, Now(r'), l, id);
  }

  lemma StaysReady(s: State, s': State, l: Id, p: Id)
    requires Ready(s, l, p) && s'.nodes == s.nodes
    ensures Ready(s', l, p)
  {
  }

  lemma Confirms(q: set<Id>, s: State, l: Id, id: ReadId)
    requires l in q && q <= s.nodes.Keys && 2 * |q| > |s.nodes| && Reading(s, l, id)
    requires forall p | p in q - {l} :: ProbeAnswer(id, p, s.nodes[l].term) in s.probeAnswers
    ensures Confirmed(s, id)
  {
    assert |s.nodes| == |s.nodes.Keys|;
    forall p | p in q && p != l
      ensures exists a :: a in s.probeAnswers && a.read == id && a.peer == p && a.term <= s.queries[id].term
    {
      assert ProbeAnswer(id, p, s.nodes[l].term) in s.probeAnswers;
    }
    assert ConfirmedBy(s, id, q);
  }

  lemma InformedReady(s: State, s': State, l: Id, p: Id)
    requires l in s.nodes && p in s.nodes && l in s'.nodes && p in s'.nodes && Informed(s.nodes[l], s.nodes[p], p)
    requires s.nodes[l].role.Leader? && s.nodes[l].commitIndex == |s.nodes[l].log.entries|
    requires forall v | v in {l, p} ::
               var n, n' := s.nodes[v], s'.nodes[v];
               n' == n.(lastApplied := n.commitIndex, waiters := n'.waiters, proposals := n'.proposals)
    ensures Ready(s', l, p) && s'.nodes[l].commitIndex == s'.nodes[l].lastApplied
  {
    assert l in {l, p} && p in {l, p};
  }

  /**
   From every state of every run, every majority can serve a linearizable read by itself: it gets a leader that starts one with all its
   log committed, as ReadIndex.ReadIndexSafety asks, and the read is confirmed and has what it waits for applied.
   */
  lemma MajorityReads(ss: seq<State>, steps: seq<Step>, q: set<Id>) returns (r: Run, i: nat, l: Id, id: ReadId)
    requires IsRun(ss, steps) && q <= ss[|ss| - 1].nodes.Keys && 2 * |q| > |ss[|ss| - 1].nodes|
    ensures Continues(q, Run(ss, steps), r) && r.ss != [] && |steps| <= i < |r.steps| && r.steps[i] == StartRead(l, id) && l in q
    ensures i < |r.ss| && l in r.ss[i].nodes && r.ss[i].nodes[l].role.Leader? && RI.InheritedCommitted(r.ss[i].nodes[l])
    ensures Confirmed(Now(r), id) && l in Now(r).nodes && Now(r).queries[id].index <= Now(r).nodes[l].lastApplied
  {
    var r0 := Run(ss, steps);
    assert Goes(r0) && r0.ss != [];
    hide IsRun, Goes, Ready, Confirmed, InHand;
    var r1, e, t;
    r1, l, e, t := GoesOn(q, r0, Noop);
    assert |Now(r1).nodes| == |Now(r1).nodes.Keys| == |Now(r0).nodes.Keys| == |Now(r0).nodes|;
    r, id := Reads(q, r1, l);
    Onward(q, r0, r1, r);
    i := |r1.steps|;
    Something(r1);
    Something(r);
    PlainNow(r1, l);
    assert r.ss[i] == Now(r1);
  }
}
