/**
 A read heartbeat sent by a reader that has left office. It may announce a commit of a later term than the one it
 speaks for, and a follower that believes it can still be overwritten by a leader in between: in every cluster of seven
 there is an execution that ends with two nodes having applied different entries, although the commit index sent was not
 above prevIndex.
 */
module LateProbe {
  import opened Types
  import opened Quorums
  import opened Protocol
  import opened Cluster
  import CommitSteps
  import M = MajorityRule

  // ---------------------------------------------------------------- executions, several steps at a time

  datatype Execution = Execution(ss: seq<State>, steps: seq<Step>)

  ghost predicate Goes(r: Execution) {
    IsExecution(r.ss, r.steps)
  }

  ghost function Now(r: Execution): State
    requires Goes(r)
  {
    r.ss[|r.ss| - 1]
  }

  /** r' continues r without a probe being sent. */
  ghost predicate Continues(r: Execution, r': Execution) {
    && Goes(r) && Goes(r') && |r.steps| <= |r'.steps|
    && (forall i | 0 <= i < |r.ss| :: r'.ss[i] == r.ss[i])
    && (forall i | 0 <= i < |r.steps| :: r'.steps[i] == r.steps[i])
    && forall i | |r.steps| <= i < |r'.steps| :: !r'.steps[i].SendProbe?
  }

  lemma Step(r: Execution, step: Step) returns (r': Execution)
    requires Goes(r) && Enabled(Now(r), step)
    ensures Goes(r') && Now(r') == Next(Now(r), step) && r'.ss == r.ss + [Now(r')] && r'.steps == r.steps + [step]
    ensures !step.SendProbe? ==> Continues(r, r')
  {
    hide Enabled, Next, Initial;
    r' := Execution(r.ss + [Next(Now(r), step)], r.steps + [step]);
  }

  lemma Onward(r: Execution, r': Execution, r'': Execution)
    requires Continues(r, r') && Continues(r', r'')
    ensures Goes(r) && Goes(r'') && Continues(r, r'')
  {
    hide Enabled, Next, Initial;
  }

  function Voted(n: Node, t: nat, c: Id): Node {
    n.(term := t, votedFor := c, role := Follower)
  }

  lemma Grants(n: Node, req: VoteRequest)
    requires !n.role.Leader? && n.term < req.term && CandidateUpToDate(n.log, req.lastIndex, req.lastTerm)
    ensures HandleVote(n, req) == (Voted(n, req.term, req.candidate), VoteReply(req.term, true))
  {
  }

  /** The traffic besides votes is as it was. */
  predicate Quiet(s: State, s': State) {
    && s'.batch == s.batch && s'.exchanges == s.exchanges && s'.queries == s.queries
    && s'.probes == s.probes && s'.probeAnswers == s.probeAnswers
  }

  lemma Vote(r: Execution, c: Id, v: Id, req: VoteRequest) returns (r': Execution)
    requires Goes(r) && v in Now(r).nodes && v != c && req in Now(r).voteRequests && req.candidate == c
    requires var n := Now(r).nodes[v];
             !n.role.Leader? && n.term < req.term && CandidateUpToDate(n.log, req.lastIndex, req.lastTerm)
    ensures Goes(r') && Continues(r, r') && Quiet(Now(r), Now(r'))
    ensures Now(r').nodes == Now(r).nodes[v := Voted(Now(r).nodes[v], req.term, c)]
    ensures Now(r').voteRequests == Now(r).voteRequests
    ensures Now(r').voteAnswers == Now(r).voteAnswers + {VoteAnswer(v, c, req.term, VoteReply(req.term, true))}
  {
    hide IsExecution, HandleVote, CandidateUpToDate;
    Grants(Now(r).nodes[v], req);
    r' := Step(r, DeliverVoteRequest(v, req));
  }

  lemma Stood(r: Execution, c: Id) returns (r': Execution)
    requires Goes(r) && c in Now(r).nodes && !Now(r).nodes[c].role.Leader?
    ensures Goes(r') && Continues(r, r') && Quiet(Now(r), Now(r'))
    ensures Now(r').nodes == Now(r).nodes[c := BecomeCandidate(Now(r).nodes[c])]
    ensures VoteRequestOf(BecomeCandidate(Now(r).nodes[c])) in Now(r').voteRequests
  {
    hide IsExecution;
    r' := Step(r, Timeout(c));
  }

  lemma Won(r: Execution, c: Id, q: set<Id>) returns (r': Execution)
    requires Goes(r) && c in Now(r).nodes && Now(r).nodes[c].role.Candidate? && HasVotes(Now(r), c, q)
    ensures Goes(r') && Continues(r, r') && Quiet(Now(r), Now(r'))
    ensures Now(r').nodes == Now(r).nodes[c := BecomeLeader(Now(r).nodes[c])]
  {
    hide IsExecution, HasVotes, BecomeLeader;
    r' := Step(r, WinElection(c, q));
  }

  /** Four of seven are enough. */
  lemma Enough(s: State, c: Id, u: Id, v: Id, w: Id)
    requires |s.nodes| == 7 && {c, u, v, w} <= s.nodes.Keys && |{c, u, v, w}| == 4
    requires forall x | x in {u, v, w} :: VoteAnswer(x, c, s.nodes[c].term, VoteReply(s.nodes[c].term, true)) in s.voteAnswers
    ensures HasVotes(s, c, {c, u, v, w})
  {
    assert |s.nodes.Keys| == 7;
  }

  ghost predicate Votes(s: State, n: Node, x: Id) {
    && x in s.nodes && !s.nodes[x].role.Leader? && s.nodes[x].term < n.term
    && CandidateUpToDate(s.nodes[x].log, n.log.LastIndex(), n.log.LastTerm())
  }

  /** A candidate that nobody has heard of wins with three votes out of seven members. */
  lemma Elected(r: Execution, c: Id, u: Id, v: Id, w: Id) returns (r': Execution)
    requires Goes(r) && |Now(r).nodes| == 7 && {c, u, v, w} <= Now(r).nodes.Keys && |{c, u, v, w}| == 4
    requires !Now(r).nodes[c].role.Leader? && Now(r).nodes[c].id == c
    requires var n := BecomeCandidate(Now(r).nodes[c]); Votes(Now(r), n, u) && Votes(Now(r), n, v) && Votes(Now(r), n, w)
    ensures Goes(r') && Continues(r, r') && Quiet(Now(r), Now(r'))
    ensures var s, n := Now(r), BecomeCandidate(Now(r).nodes[c]);
            Now(r').nodes == s.nodes[c := n][u := Voted(s.nodes[u], n.term, c)][v := Voted(s.nodes[v], n.term, c)]
                                    [w := Voted(s.nodes[w], n.term, c)][c := BecomeLeader(n)]
  {
    hide IsExecution, HandleVote, CandidateUpToDate, BecomeLeader, Continues, HasVotes, Voted;
    var s, n := Now(r), BecomeCandidate(Now(r).nodes[c]);
    Four(c, u, v, w);
    var r1 := Stood(r, c);
    var r2 := Vote(r1, c, u, VoteRequestOf(n));
    Onward(r, r1, r2);
    var r3 := Vote(r2, c, v, VoteRequestOf(n));
    Onward(r, r2, r3);
    var r4 := Vote(r3, c, w, VoteRequestOf(n));
    Onward(r, r3, r4);
    assert Now(r4).nodes[c] == n;
    assert Now(r4).nodes.Keys == s.nodes.Keys && |Now(r4).nodes| == |Now(r4).nodes.Keys| == |s.nodes.Keys|;
    Enough(Now(r4), c, u, v, w);
    r' := Won(r4, c, {c, u, v, w});
    Onward(r, r4, r');
  }

  lemma Four(c: Id, u: Id, v: Id, w: Id)
    requires |{c, u, v, w}| == 4
    ensures c != u && c != v && c != w && u != v && u != w && v != w
  {
    Fewer(c, u, v, w);
    Fewer(c, v, u, w);
    Fewer(c, w, u, v);
    Fewer(u, v, c, w);
    Fewer(u, w, c, v);
    Fewer(v, w, c, u);
  }

  lemma Fewer(a: Id, b: Id, x: Id, y: Id)
    ensures a == b ==> |{a, b, x, y}| <= 3
  {
    if a == b {
      assert {a, b, x, y} == {a, x, y};
    }
  }

  /** A whole replication exchange. */
  lemma Exchanged(r: Execution, l: Id, p: Id, req: AppendRequest, np: Node, reply: AppendReply, nl: Node) returns (r': Execution)
    requires Goes(r) && l != p && l in Now(r).nodes && p in Now(r).nodes && Link(l, p) !in Now(r).exchanges
    requires Now(r).nodes[l].role.Leader? && p in Now(r).nodes[l].peers
    requires BuildRequest(Now(r).nodes[l], p, Now(r).batch) == Some(req) && Wellformed(Now(r).nodes[p].log, req)
    requires HandleAppend(Now(r).nodes[p], req) == (np, reply) && HandleReply(Now(r).nodes[l], p, req, reply) == nl
    ensures Goes(r') && Continues(r, r') && Quiet(Now(r), Now(r')) && Now(r').nodes == Now(r).nodes[p := np][l := nl]
  {
    hide IsExecution, HandleAppend, HandleReply, BuildRequest, Wellformed, Continues;
    var r1 := Step(r, Replicate(Link(l, p)));
    var r2 := Step(r1, DeliverAppend(Link(l, p)));
    r' := Step(r2, DeliverReply(Link(l, p)));
    Onward(r, r1, r2);
    Onward(r, r2, r');
  }

  // ---------------------------------------------------------------- seven nodes

  datatype Seven = Seven(a: Id, b: Id, c: Id, d: Id, e: Id, f: Id, g: Id)
  {
    predicate Apart() {
      && a != b && a != c && a != d && a != e && a != f && a != g && b != c
      && b != d && b != e && b != f && b != g && c != d && c != e && c != f
      && c != g && d != e && d != f && d != g && e != f && e != g && f != g
      && a != NOBODY && b != NOBODY && c != NOBODY && d != NOBODY && e != NOBODY && f != NOBODY && g != NOBODY
    }
  }

  datatype Cast = Cast(a: Node, b: Node, c: Node, d: Node, e: Node, f: Node, g: Node)

  /** The execution has come to these nodes, with these requests in flight and these reads begun. */
  ghost predicate At(r: Execution, i: Seven, x: Cast, ex: map<Link, Exchange>, qs: map<ReadId, Read>) {
    && Goes(r)
    && var s := Now(r);
    && s.batch == 1 && s.exchanges == ex && s.queries == qs && s.probes == {}
    && s.nodes.Keys == {i.a, i.b, i.c, i.d, i.e, i.f, i.g}
    && s.nodes[i.a] == x.a && s.nodes[i.b] == x.b && s.nodes[i.c] == x.c && s.nodes[i.d] == x.d
    && s.nodes[i.e] == x.e && s.nodes[i.f] == x.f && s.nodes[i.g] == x.g
  }

  lemma Counts(i: Seven, nodes: map<Id, Node>)
    requires i.Apart() && nodes.Keys == {i.a, i.b, i.c, i.d, i.e, i.f, i.g}
    ensures |nodes| == 7
    ensures |{i.a, i.d, i.e, i.f}| == |{i.c, i.d, i.e, i.f}| == |{i.g, i.d, i.e, i.f}| == 4
  {
    assert |nodes| == |nodes.Keys|;
  }

  /** A node with nothing applied and no proposals. */
  function N(v: Id, peers: seq<Id>, term: nat, vote: Id, log: seq<Entry>, role: Role, commit: nat,
             next: map<Id, nat>, match_: map<Id, nat>): Node {
    Node(v, peers, term, vote, Log(0, 0, log), role, commit, 0, next, match_, map[], map[])
  }

  function PA(i: Seven): seq<Id> {
    [i.b, i.c, i.d, i.e, i.f, i.g]
  }

  function PB(i: Seven): seq<Id> {
    [i.a, i.c, i.d, i.e, i.f, i.g]
  }

  function PC(i: Seven): seq<Id> {
    [i.a, i.b, i.d, i.e, i.f, i.g]
  }

  function PD(i: Seven): seq<Id> {
    [i.a, i.b, i.c, i.e, i.f, i.g]
  }

  function PE(i: Seven): seq<Id> {
    [i.a, i.b, i.c, i.d, i.f, i.g]
  }

  function PF(i: Seven): seq<Id> {
    [i.a, i.b, i.c, i.d, i.e, i.g]
  }

  function PG(i: Seven): seq<Id> {
    [i.a, i.b, i.c, i.d, i.e, i.f]
  }

  const E1 := Entry(1, 1, Noop)
  const E2 := Entry(1, 2, Noop)
  const E3 := Entry(2, 3, Noop)

  function All(peers: seq<Id>, k: nat): map<Id, nat> {
    map p | p in peers :: k
  }

  lemma AllAt(peers: seq<Id>, k: nat, p: Id)
    requires p in peers
    ensures p in All(peers, k) && All(peers, k)[p] == k
  {
  }

  lemma Peering(i: Seven)
    ensures i.b in PA(i) && i.g in PA(i) && i.a in PC(i) && i.b in PC(i)
    ensures i.a in PG(i) && i.d in PG(i) && i.e in PG(i) && i.f in PG(i)
  {
  }

  // ---------------------------------------------------------------- what nodes do

  /** The first entry, from the start of the log: whatever was there is gone. */
  lemma TakesFirst(n: Node, l: Id, t: nat, e: Entry, k: nat)
    requires n.log.base == 0 && n.log.baseTerm == 0 && n.term <= t && (n.term == t ==> n.role.Follower?)
    requires n.waiters == map[] && n.proposals == map[] && e.index == 1
    ensures var req := AppendRequest(t, l, 0, 0, [e], k);
            && Wellformed(n.log, req)
            && HandleAppend(n, req) ==
               (n.(term := t, votedFor := if n.term < t then NOBODY else n.votedFor, role := Follower, log := Log(0, 0, [e]),
                   commitIndex := if Min(k, 1) > n.commitIndex then Min(k, 1) else n.commitIndex),
                AppendReply(t, true, 0, 0))
  {
    var m := Recognize(n, t);
    assert FailWaiters(n) == n;
    assert m.log.Append([e]) == Log(0, 0, [e]);
  }

  lemma TakesSecond(n: Node, l: Id, k: nat)
    requires n.log == Log(0, 0, [E1]) && n.term == 3 && n.role.Follower? && n.commitIndex == 0 && k == 0
    ensures var req := AppendRequest(3, l, 1, 1, [E3], k);
            Wellformed(n.log, req) && HandleAppend(n, req) == (n.(log := Log(0, 0, [E1, E3])), AppendReply(3, true, 0, 0))
  {
    assert n.log.Append([E3]) == Log(0, 0, [E1, E3]);
  }

  lemma RefusesShort(n: Node, l: Id)
    requires n.log == Log(0, 0, []) && n.term == 3 && n.role.Follower?
    ensures var req := AppendRequest(3, l, 1, 1, [E3], 0);
            Wellformed(n.log, req) && HandleAppend(n, req) == (n, AppendReply(3, false, 0, 1))
  {
  }

  lemma RefusesOther(n: Node, l: Id)
    requires n.log == Log(0, 0, [E2]) && n.term == 2 && n.role.Follower?
    ensures var req := AppendRequest(3, l, 1, 1, [E3], 2);
            Wellformed(n.log, req) &&
            HandleAppend(n, req) == (n.(term := 3, votedFor := NOBODY), AppendReply(3, false, 2, 1))
  {
    assert StartOfRun(n.log, 1) == 1;
  }

  lemma FirstOffice(v: Id, peers: seq<Id>, t: nat, vote: Id, role: Role, e: Entry)
    requires e == Entry(1, t + 1, Noop)
    ensures BecomeLeader(BecomeCandidate(N(v, peers, t, vote, [], role, 0, map[], map[]))) ==
              N(v, peers, t + 1, v, [e], Leader, 0, All(peers, 1), All(peers, 0))
  {
    assert Log(0, 0, []).Append([e]) == Log(0, 0, [e]);
  }

  lemma SecondOffice(v: Id, peers: seq<Id>, vote: Id, role: Role)
    ensures BecomeLeader(BecomeCandidate(N(v, peers, 2, vote, [E1], role, 0, map[], map[]))) ==
              N(v, peers, 3, v, [E1, E3], Leader, 0, All(peers, 2), All(peers, 0))
  {
    assert Log(0, 0, [E1]).Append([E3]) == Log(0, 0, [E1, E3]);
  }

  /** The leader of one entry, sending it. */
  lemma SendsOnly(n: Node, p: Id, e: Entry)
    requires n.log == Log(0, 0, [e]) && p in n.nextIndex && n.nextIndex[p] == 1 && n.role.Leader? && n.commitIndex == 0
    ensures BuildRequest(n, p, 1) == Some(AppendRequest(n.term, n.id, 0, 0, [e], 0))
  {
    assert n.log.Slice(1, 1) == [e];
  }

  lemma SendsSecond(n: Node, p: Id)
    requires n.log == Log(0, 0, [E1, E3]) && p in n.nextIndex && n.nextIndex[p] == 2
    ensures BuildRequest(n, p, 1) == Some(AppendRequest(n.term, n.id, 1, 1, [E3], n.commitIndex))
  {
    assert n.log.Slice(2, 2) == [E3];
  }

  lemma SendsFirst(n: Node, p: Id)
    requires n.log == Log(0, 0, [E1, E3]) && p in n.nextIndex && n.nextIndex[p] == 1
    ensures BuildRequest(n, p, 1) == Some(AppendRequest(n.term, n.id, 0, 0, [E1], n.commitIndex))
  {
    assert n.log.Slice(1, 1) == [E1];
  }

  lemma HearsSuccess(n: Node, p: Id, req: AppendRequest, e: Entry)
    requires n.role.Leader? && req.term == n.term && req.entries == [e]
    ensures HandleReply(n, p, req, AppendReply(n.term, true, 0, 0)) ==
            n.(matchIndex := n.matchIndex[p := e.index], nextIndex := n.nextIndex[p := e.index + 1])
  {
  }

  lemma HearsRefusal(n: Node, p: Id, req: AppendRequest, hint: nat)
    requires n.role.Leader? && n.term == 3 == req.term && n.log == Log(0, 0, [E1, E3]) && (hint == 0 || hint == 2)
    ensures HandleReply(n, p, req, AppendReply(3, false, hint, 1)) == n.(nextIndex := n.nextIndex[p := 1])
  {
    assert n.log.TermAt(2) == Some(3) && n.log.TermAt(1) == Some(1);
    assert FindTerm(n.log, 1, 2) == None && FindTerm(n.log, 2, 2) == FindTerm(n.log, 1, 2);
  }

  // ---------------------------------------------------------------- the execution

  function X0(i: Seven): Cast {
    Cast(Start(i.a, PA(i)), Start(i.b, PB(i)), Start(i.c, PC(i)), Start(i.d, PD(i)), Start(i.e, PE(i)), Start(i.f, PF(i)),
         Start(i.g, PG(i)))
  }

  lemma Begin(i: Seven) returns (r: Execution)
    requires i.Apart()
    ensures At(r, i, X0(i), map[], map[]) && r.steps == []
  {
    var x := X0(i);
    var nodes := map[i.a := x.a, i.b := x.b, i.c := x.c, i.d := x.d, i.e := x.e, i.f := x.f, i.g := x.g];
    var s := State(1, nodes, {}, {}, map[], map[], {}, {});
    PeersA(i);
    PeersB(i);
    PeersC(i);
    PeersD(i);
    PeersE(i);
    PeersF(i);
    PeersG(i);
    hide Distinct, Ids, PA, PB, PC, PD, PE, PF, PG;
    r := Execution([s], []);
  }

  lemma PeersA(i: Seven)
    requires i.Apart()
    ensures Distinct(PA(i)) && Ids(PA(i)) == {i.a, i.b, i.c, i.d, i.e, i.f, i.g} - {i.a}
  {
  }

  lemma PeersB(i: Seven)
    requires i.Apart()
    ensures Distinct(PB(i)) && Ids(PB(i)) == {i.a, i.b, i.c, i.d, i.e, i.f, i.g} - {i.b}
  {
  }

  lemma PeersC(i: Seven)
    requires i.Apart()
    ensures Distinct(PC(i)) && Ids(PC(i)) == {i.a, i.b, i.c, i.d, i.e, i.f, i.g} - {i.c}
  {
  }

  lemma PeersD(i: Seven)
    requires i.Apart()
    ensures Distinct(PD(i)) && Ids(PD(i)) == {i.a, i.b, i.c, i.d, i.e, i.f, i.g} - {i.d}
  {
  }

  lemma PeersE(i: Seven)
    requires i.Apart()
    ensures Distinct(PE(i)) && Ids(PE(i)) == {i.a, i.b, i.c, i.d, i.e, i.f, i.g} - {i.e}
  {
  }

  lemma PeersF(i: Seven)
    requires i.Apart()
    ensures Distinct(PF(i)) && Ids(PF(i)) == {i.a, i.b, i.c, i.d, i.e, i.f, i.g} - {i.f}
  {
  }

  lemma PeersG(i: Seven)
    requires i.Apart()
    ensures Distinct(PG(i)) && Ids(PG(i)) == {i.a, i.b, i.c, i.d, i.e, i.f, i.g} - {i.g}
  {
  }

  function Ballot(v: Id, peers: seq<Id>, t: nat, c: Id): Node {
    N(v, peers, t, c, [], Follower, 0, map[], map[])
  }

  /** Term 1: a leads. */
  function X1(i: Seven): Cast {
    X0(i).(a := N(i.a, PA(i), 1, i.a, [E1], Leader, 0, All(PA(i), 1), All(PA(i), 0)),
           d := Ballot(i.d, PD(i), 1, i.a), e := Ballot(i.e, PE(i), 1, i.a), f := Ballot(i.f, PF(i), 1, i.a))
  }

  lemma Term1(i: Seven) returns (r: Execution)
    requires i.Apart()
    ensures At(r, i, X1(i), map[], map[]) && forall k | 0 <= k < |r.steps| :: !r.steps[k].SendProbe?
  {
    hide IsExecution, BecomeLeader, All, PA, PB, PC, PD, PE, PF, PG;
    var r0 := Begin(i);
    Counts(i, Now(r0).nodes);
    FirstOffice(i.a, PA(i), 0, NOBODY, Follower, E1);
    r := Elected(r0, i.a, i.d, i.e, i.f);
  }

  /** A leader of one entry gives it to a peer that holds nothing. */
  lemma Given(r: Execution, l: Id, p: Id, e: Entry) returns (r': Execution)
    requires Goes(r) && l != p && l in Now(r).nodes && p in Now(r).nodes && Link(l, p) !in Now(r).exchanges && Now(r).batch == 1
    requires var n := Now(r).nodes[l];
             && n.role.Leader? && p in n.peers && n.id == l && n.log == Log(0, 0, [e]) && e.index == 1 && n.commitIndex == 0
             && p in n.nextIndex && n.nextIndex[p] == 1
    requires var n, t := Now(r).nodes[p], Now(r).nodes[l].term;
             && n.log.base == 0 && n.log.baseTerm == 0 && n.term < t && n.waiters == map[] && n.proposals == map[]
    ensures Goes(r') && Continues(r, r') && Quiet(Now(r), Now(r'))
    ensures var nl, np := Now(r).nodes[l], Now(r).nodes[p];
            Now(r').nodes ==
              Now(r).nodes[p := np.(term := nl.term, votedFor := NOBODY, role := Follower, log := Log(0, 0, [e]))]
                          [l := nl.(matchIndex := nl.matchIndex[p := 1], nextIndex := nl.nextIndex[p := 2])]
  {
    hide IsExecution, HandleAppend, HandleReply, BuildRequest, Wellformed, Continues;
    var nl, np := Now(r).nodes[l], Now(r).nodes[p];
    var req := AppendRequest(nl.term, l, 0, 0, [e], 0);
    SendsOnly(nl, p, e);
    TakesFirst(np, l, nl.term, e, 0);
    HearsSuccess(nl, p, req, e);
    r' := Exchanged(r, l, p, req, np.(term := nl.term, votedFor := NOBODY, role := Follower, log := Log(0, 0, [e])),
                    AppendReply(nl.term, true, 0, 0),
                    nl.(matchIndex := nl.matchIndex[p := 1], nextIndex := nl.nextIndex[p := 2]));
  }

  function Holder(v: Id, peers: seq<Id>, t: nat, vote: Id, log: seq<Entry>): Node {
    N(v, peers, t, vote, log, Follower, 0, map[], map[])
  }

  /** b and g have a's entry, and a begins a read. */
  function X2(i: Seven): Cast {
    X1(i).(a := N(i.a, PA(i), 1, i.a, [E1], Leader, 0, All(PA(i), 1)[i.b := 2][i.g := 2], All(PA(i), 0)[i.b := 1][i.g := 1]),
           b := Holder(i.b, PB(i), 1, NOBODY, [E1]), g := Holder(i.g, PG(i), 1, NOBODY, [E1]))
  }

  function Reading(i: Seven): map<ReadId, Read> {
    map[0 := Read(i.a, 1, 0)]
  }

  lemma Shared(i: Seven, r: Execution) returns (r': Execution)
    requires i.Apart() && At(r, i, X1(i), map[], map[])
    ensures Continues(r, r') && At(r', i, X2(i), map[], Reading(i))
  {
    hide IsExecution, PA, PB, PC, PD, PE, PF, PG, All, Continues;
    Peering(i);
    AllAt(PA(i), 1, i.b);
    AllAt(PA(i), 1, i.g);
    var r1 := Given(r, i.a, i.b, E1);
    var r2 := Given(r1, i.a, i.g, E1);
    Onward(r, r1, r2);
    r' := Begun(i, r2);
    Onward(r, r2, r');
  }

  lemma Begun(i: Seven, r: Execution) returns (r': Execution)
    requires Goes(r) && i.a in Now(r).nodes && Now(r).nodes[i.a].role.Leader? && Now(r).queries == map[]
    ensures Goes(r') && Continues(r, r')
    ensures Now(r') == Now(r).(queries := map[0 := Read(i.a, Now(r).nodes[i.a].term, Now(r).nodes[i.a].commitIndex)])
  {
    hide IsExecution;
    r' := Step(r, StartRead(i.a, 0));
  }

  /** Term 2: c leads, overwrites a, and has a request to b in flight. */
  function X3(i: Seven): Cast {
    X2(i).(a := N(i.a, PA(i), 2, NOBODY, [E2], Follower, 0, All(PA(i), 1)[i.b := 2][i.g := 2], All(PA(i), 0)[i.b := 1][i.g := 1]),
           c := N(i.c, PC(i), 2, i.c, [E2], Leader, 0, All(PC(i), 1)[i.a := 2], All(PC(i), 0)[i.a := 1]),
           d := Ballot(i.d, PD(i), 2, i.c), e := Ballot(i.e, PE(i), 2, i.c), f := Ballot(i.f, PF(i), 2, i.c))
  }

  function Pending(i: Seven): map<Link, Exchange> {
    map[Link(i.c, i.b) := Asked(AppendRequest(2, i.c, 0, 0, [E2], 0))]
  }

  lemma Term2(i: Seven, r: Execution) returns (r': Execution)
    requires i.Apart() && At(r, i, X2(i), map[], Reading(i))
    ensures Continues(r, r') && At(r', i, X3(i), Pending(i), Reading(i))
  {
    hide IsExecution, PA, PB, PC, PD, PE, PF, PG, All, Continues, BecomeLeader, BuildRequest;
    Peering(i);
    AllAt(PC(i), 1, i.a);
    AllAt(PC(i), 1, i.b);
    var r1 := Stood(r, i.c);
    Counts(i, Now(r1).nodes);
    FirstOffice(i.c, PC(i), 1, i.c, Candidate, E2);
    var r2 := Elected(r1, i.c, i.d, i.e, i.f);
    Onward(r, r1, r2);
    var r3 := Given(r2, i.c, i.a, E2);
    Onward(r, r2, r3);
    SendsOnly(Now(r3).nodes[i.c], i.b, E2);
    r' := Asks(r3, i.c, i.b, AppendRequest(2, i.c, 0, 0, [E2], 0));
    Onward(r, r3, r');
  }

  lemma Asks(r: Execution, l: Id, p: Id, req: AppendRequest) returns (r': Execution)
    requires Goes(r) && l in Now(r).nodes && Now(r).nodes[l].role.Leader? && p in Now(r).nodes[l].peers
    requires BuildRequest(Now(r).nodes[l], p, Now(r).batch) == Some(req)
    ensures Goes(r') && Continues(r, r') && Now(r') == Now(r).(exchanges := Now(r).exchanges[Link(l, p) := Asked(req)])
  {
    hide IsExecution, BuildRequest;
    r' := Step(r, Replicate(Link(l, p)));
  }

  /** Term 3: g leads, with a's entry. */
  function X4(i: Seven): Cast {
    X3(i).(g := N(i.g, PG(i), 3, i.g, [E1, E3], Leader, 0, All(PG(i), 2), All(PG(i), 0)),
           d := Ballot(i.d, PD(i), 3, i.g), e := Ballot(i.e, PE(i), 3, i.g), f := Ballot(i.f, PF(i), 3, i.g))
  }

  lemma Term3(i: Seven, r: Execution) returns (r': Execution)
    requires i.Apart() && At(r, i, X3(i), Pending(i), Reading(i))
    ensures Continues(r, r') && At(r', i, X4(i), Pending(i), Reading(i))
  {
    hide IsExecution, PA, PB, PC, PD, PE, PF, PG, All, Continues, BecomeLeader;
    var r1 := Stood(r, i.g);
    Counts(i, Now(r1).nodes);
    SecondOffice(i.g, PG(i), i.g, Candidate);
    r' := Elected(r1, i.g, i.d, i.e, i.f);
    Onward(r, r1, r');
  }

  /** g finds that a peer holds nothing, and gives it both entries, one at a time. */
  lemma CaughtUp(r: Execution, g: Id, p: Id) returns (r': Execution)
    requires Goes(r) && g != p && g in Now(r).nodes && p in Now(r).nodes && Link(g, p) !in Now(r).exchanges && Now(r).batch == 1
    requires var n := Now(r).nodes[g];
             && n.role.Leader? && p in n.peers && n.id == g && n.log == Log(0, 0, [E1, E3]) && n.commitIndex == 0 && n.term == 3
             && p in n.nextIndex && n.nextIndex[p] == 2
    requires var n := Now(r).nodes[p];
             n.log == Log(0, 0, []) && n.term == 3 && n.role.Follower? && n.waiters == map[] && n.proposals == map[] && n.commitIndex == 0
    ensures Goes(r') && Continues(r, r') && Quiet(Now(r), Now(r'))
    ensures Now(r').nodes.Keys == Now(r).nodes.Keys
    ensures forall v | v in Now(r).nodes && v != g && v != p :: Now(r').nodes[v] == Now(r).nodes[v]
    ensures var n := Now(r).nodes[g];
            Now(r').nodes[g] == n.(matchIndex := n.matchIndex[p := 2], nextIndex := n.nextIndex[p := 3])
    ensures Now(r').nodes[p] == Now(r).nodes[p].(log := Log(0, 0, [E1, E3]))
  {
    hide IsExecution, HandleAppend, HandleReply, BuildRequest, Wellformed, Continues;
    var n, m := Now(r).nodes[g], Now(r).nodes[p];
    SendsSecond(n, p);
    RefusesShort(m, g);
    HearsRefusal(n, p, AppendRequest(3, g, 1, 1, [E3], 0), 0);
    var n1 := n.(nextIndex := n.nextIndex[p := 1]);
    var r1 := Exchanged(r, g, p, AppendRequest(3, g, 1, 1, [E3], 0), m, AppendReply(3, false, 0, 1), n1);
    SendsFirst(n1, p);
    TakesFirst(m, g, 3, E1, 0);
    HearsSuccess(n1, p, AppendRequest(3, g, 0, 0, [E1], 0), E1);
    var n2 := n1.(matchIndex := n1.matchIndex[p := 1], nextIndex := n1.nextIndex[p := 2]);
    var m2 := m.(log := Log(0, 0, [E1]));
    var r2 := Exchanged(r1, g, p, AppendRequest(3, g, 0, 0, [E1], 0), m2, AppendReply(3, true, 0, 0), n2);
    Onward(r, r1, r2);
    SendsSecond(n2, p);
    TakesSecond(m2, g, 0);
    HearsSuccess(n2, p, AppendRequest(3, g, 1, 1, [E3], 0), E3);
    var n3 := n2.(matchIndex := n2.matchIndex[p := 2], nextIndex := n2.nextIndex[p := 3]);
    r' := Exchanged(r2, g, p, AppendRequest(3, g, 1, 1, [E3], 0), m.(log := Log(0, 0, [E1, E3])), AppendReply(3, true, 0, 0), n3);
    Onward(r, r2, r');
    assert n1.nextIndex[p := 2][p := 3] == n.nextIndex[p := 3] && n1.matchIndex[p := 1][p := 2] == n.matchIndex[p := 2];
  }

  /** d, e and f have both entries, and g has committed them. */
  function X5(i: Seven, commit: nat): Cast {
    X4(i).(g := N(i.g, PG(i), 3, i.g, [E1, E3], Leader, commit,
                  All(PG(i), 2)[i.d := 3][i.e := 3][i.f := 3], All(PG(i), 0)[i.d := 2][i.e := 2][i.f := 2]),
           d := Holder(i.d, PD(i), 3, i.g, [E1, E3]), e := Holder(i.e, PE(i), 3, i.g, [E1, E3]),
           f := Holder(i.f, PF(i), 3, i.g, [E1, E3]))
  }

  lemma Replicated(i: Seven, r: Execution) returns (r': Execution)
    requires i.Apart() && At(r, i, X4(i), Pending(i), Reading(i))
    ensures Continues(r, r') && At(r', i, X5(i, 0), Pending(i), Reading(i))
  {
    hide IsExecution, PA, PB, PC, PD, PE, PF, PG, All, Continues;
    Peering(i);
    AllAt(PG(i), 2, i.d);
    AllAt(PG(i), 2, i.e);
    AllAt(PG(i), 2, i.f);
    var r1 := CaughtUp(r, i.g, i.d);
    var r2 := CaughtUp(r1, i.g, i.e);
    Onward(r, r1, r2);
    r' := CaughtUp(r2, i.g, i.f);
    Onward(r, r2, r');
  }

  lemma Matched(i: Seven)
    requires i.Apart()
    ensures MatchList(X5(i, 0).g) == [2, 0, 0, 0, 2, 2, 2]
  {
    hide MatchList, MatchIndex;
    var n := X5(i, 0).g;
    var xs := MatchList(n);
    Matches(i);
    forall k: nat | k < 7 ensures xs[k] == [2, 0, 0, 0, 2, 2, 2][k] {
      CommitSteps.MatchListAt(n, k);
    }
  }

  lemma Matches(i: Seven)
    requires i.Apart()
    ensures var n := X5(i, 0).g;
            && MatchIndex(n, i.a) == MatchIndex(n, i.b) == MatchIndex(n, i.c) == 0
            && MatchIndex(n, i.d) == MatchIndex(n, i.e) == MatchIndex(n, i.f) == 2
  {
  }

  /** Four of seven have matched index 2. */
  lemma Advances(i: Seven)
    requires i.Apart()
    ensures AdvanceCommit(X5(i, 0).g) == X5(i, 2).g
  {
    hide MatchList, All, PG, HeldBy, MajorityIndex;
    var xs := MatchList(X5(i, 0).g);
    Matched(i);
    Held();
    M.MajorityIndexIsGreatest(xs, 2);
    M.MajorityIndexIsHeld(xs);
    assert forall x | x in [2, 0, 0, 0, 2, 2, 2] :: x <= 2;
  }

  lemma Held()
    ensures HeldBy([2, 0, 0, 0, 2, 2, 2], 2) == 4
  {
    assert [2, 0, 0, 0, 2, 2, 2][1..] == [0, 0, 0, 2, 2, 2] && [0, 0, 0, 2, 2, 2][1..] == [0, 0, 2, 2, 2];
    assert [0, 0, 2, 2, 2][1..] == [0, 2, 2, 2] && [0, 2, 2, 2][1..] == [2, 2, 2];
    assert [2, 2, 2][1..] == [2, 2] && [2, 2][1..] == [2] && [2][1..] == [];
    assert HeldBy([2], 2) == 1 && HeldBy([2, 2], 2) == 2 && HeldBy([2, 2, 2], 2) == 3;
    assert HeldBy([0, 2, 2, 2], 2) == 3 && HeldBy([0, 0, 2, 2, 2], 2) == 3 && HeldBy([0, 0, 0, 2, 2, 2], 2) == 3;
  }

  lemma Committed(i: Seven, r: Execution) returns (r': Execution)
    requires i.Apart() && At(r, i, X5(i, 0), Pending(i), Reading(i))
    ensures Continues(r, r') && At(r', i, X5(i, 2), Pending(i), Reading(i))
  {
    hide IsExecution, PA, PB, PC, PD, PE, PF, PG, All, AdvanceCommit;
    Advances(i);
    r' := Step(r, TryCommit(i.g));
  }

  /** a has its own entry back, with the commit index that goes with it; its notes on its peers are from term 1. */
  function X6(i: Seven): Cast {
    X5(i, 2).(a := N(i.a, PA(i), 3, NOBODY, [E1], Follower, 1,
                     All(PA(i), 1)[i.b := 2][i.g := 2], All(PA(i), 0)[i.b := 1][i.g := 1]),
              g := N(i.g, PG(i), 3, i.g, [E1, E3], Leader, 2,
                     All(PG(i), 2)[i.d := 3][i.e := 3][i.f := 3][i.a := 1][i.a := 2],
                     All(PG(i), 0)[i.d := 2][i.e := 2][i.f := 2][i.a := 1]))
  }

  /** g's first attempt fails on what c wrote. */
  function X5Refused(i: Seven): Cast {
    X5(i, 2).(a := X3(i).a.(term := 3),
              g := X5(i, 2).g.(nextIndex := X5(i, 2).g.nextIndex[i.a := 1]))
  }

  lemma TurnedDown(i: Seven, r: Execution) returns (r': Execution)
    requires i.Apart() && At(r, i, X5(i, 2), Pending(i), Reading(i))
    ensures Continues(r, r') && At(r', i, X5Refused(i), Pending(i), Reading(i))
  {
    hide IsExecution, HandleAppend, HandleReply, BuildRequest, Wellformed, PA, PB, PC, PD, PE, PF, PG, All, Continues;
    var n, m := X5(i, 2).g, X3(i).a;
    Peering(i);
    AllAt(PG(i), 2, i.a);
    SendsSecond(n, i.a);
    RefusesOther(m, i.g);
    HearsRefusal(n, i.a, AppendRequest(3, i.g, 1, 1, [E3], 2), 2);
    r' := Exchanged(r, i.g, i.a, AppendRequest(3, i.g, 1, 1, [E3], 2), X5Refused(i).a, AppendReply(3, false, 2, 1), X5Refused(i).g);
  }

  lemma GivenBack(i: Seven, r: Execution) returns (r': Execution)
    requires i.Apart() && At(r, i, X5Refused(i), Pending(i), Reading(i))
    ensures Continues(r, r') && At(r', i, X6(i), Pending(i), Reading(i))
  {
    hide IsExecution, HandleAppend, HandleReply, BuildRequest, Wellformed, PA, PB, PC, PD, PE, PF, PG, All, Continues;
    var n, m := X5Refused(i).g, X5Refused(i).a;
    Peering(i);
    SendsFirst(n, i.a);
    TakesFirst(m, i.g, 3, E1, 2);
    HearsSuccess(n, i.a, AppendRequest(3, i.g, 0, 0, [E1], 2), E1);
    r' := Exchanged(r, i.g, i.a, AppendRequest(3, i.g, 0, 0, [E1], 2), X6(i).a, AppendReply(3, true, 0, 0), X6(i).g);
  }

  // ---------------------------------------------------------------- the probe

  function Late(i: Seven): Probe {
    Probe(0, i.b, AppendRequest(1, i.a, 1, 1, [], 1))
  }

  lemma GoesOut(i: Seven, r: Execution) returns (r': Execution)
    requires i.Apart() && At(r, i, X6(i), Pending(i), Reading(i))
    ensures Goes(r') && r'.ss == r.ss + [Now(r')] && r'.steps == r.steps + [SendProbe(0, i.b, true)]
    ensures Now(r') == Now(r).(probes := {Late(i)})
  {
    hide IsExecution, HandleAppend, PA, PB, PC, PD, PE, PF, PG, All, ProbeRequest;
    Sends(i);
    r' := Step(r, SendProbe(0, i.b, true));
  }

  /** It speaks in the name of term 1, and b believes it. */
  lemma Believed(i: Seven, r: Execution) returns (r': Execution)
    requires Goes(r) && Late(i) in Now(r).probes && i.b in Now(r).nodes
    requires Now(r).nodes[i.b] == Holder(i.b, PB(i), 1, NOBODY, [E1])
    ensures Goes(r') && Continues(r, r')
    ensures Now(r').nodes == Now(r).nodes[i.b := Holder(i.b, PB(i), 1, NOBODY, [E1]).(commitIndex := 1)]
    ensures Now(r').exchanges == Now(r).exchanges
  {
    hide IsExecution, HandleAppend, PB, Wellformed;
    Believes(i);
    r' := Step(r, DeliverProbe(Late(i)));
  }

  lemma Sends(i: Seven)
    requires i.Apart()
    ensures ProbeRequest(X6(i).a, i.b, 1, true) == Late(i).req && PrevIndex(X6(i).a, i.b) == 1 && i.b in PA(i)
  {
  }

  lemma Believes(i: Seven)
    ensures var n := Holder(i.b, PB(i), 1, NOBODY, [E1]);
            Wellformed(n.log, Late(i).req) && HandleAppend(n, Late(i).req) == (n.(commitIndex := 1), AppendReply(1, true, 0, 0))
  {
  }

  /** The request in flight replaces what b has committed, and b applies it. */
  lemma Overwritten(i: Seven, r: Execution) returns (r': Execution)
    requires i.Apart() && Goes(r) && i.b in Now(r).nodes && i.g in Now(r).nodes && Now(r).exchanges == Pending(i)
    requires Now(r).nodes[i.b] == Holder(i.b, PB(i), 1, NOBODY, [E1]).(commitIndex := 1) && Now(r).nodes[i.g] == X6(i).g
    ensures Continues(r, r') && i.b in Now(r').nodes && i.g in Now(r').nodes
    ensures var n := Now(r').nodes[i.b]; n.lastApplied == 1 && n.log.entries == [E2]
    ensures var n := Now(r').nodes[i.g]; n.lastApplied == 1 && n.log.entries == [E1, E3]
  {
    hide IsExecution, HandleAppend, PB, PG, All, Continues, ApplyNext, Wellformed;
    var n := Now(r).nodes[i.b];
    TakesFirst(n, i.c, 2, E2, 0);
    var r1 := Step(r, DeliverAppend(Link(i.c, i.b)));
    Applies(Now(r1).nodes[i.b]);
    var r2 := Step(r1, ApplyOne(i.b));
    Onward(r, r1, r2);
    Applies(Now(r2).nodes[i.g]);
    r' := Step(r2, ApplyOne(i.g));
    Onward(r, r2, r');
  }

  lemma Applies(n: Node)
    requires n.lastApplied == 0 && n.commitIndex >= 1 && n.log.base == 0 && |n.log.entries| >= 1 && n.waiters == map[]
    ensures ApplyNext(n) == n.(lastApplied := 1)
  {
  }

  /**
   A heartbeat out of office breaks state machine safety even where its commit index does not pass prevIndex: in every
   cluster of seven there is an execution that ends with two nodes having applied different entries at index 1. It sends one
   probe, with prevIndex and commit index both 1, when the reader follows in term 3 a read begun in term 1.
   */
  lemma LateDivergence(i: Seven) returns (ss: seq<State>, steps: seq<Step>, k: nat)
    requires i.Apart()
    ensures IsExecution(ss, steps) && k < |steps| && steps[k] == SendProbe(0, i.b, true)
    ensures forall j | 0 <= j < |steps| && j != k :: !steps[j].SendProbe?
    ensures i.a in ss[k].nodes && 0 in ss[k].queries && ss[k].queries[0] == Read(i.a, 1, 0)
    ensures var n := ss[k].nodes[i.a]; n.role.Follower? && n.term == 3 && n.commitIndex == 1 == PrevIndex(n, i.b)
    ensures var s := ss[|ss| - 1];
            && i.b in s.nodes && i.g in s.nodes
            && s.nodes[i.b].lastApplied == 1 == s.nodes[i.g].lastApplied
            && s.nodes[i.b].log.entries == [E2] && s.nodes[i.g].log.entries == [E1, E3]
  {
    hide IsExecution, PA, PB, PC, PD, PE, PF, PG, All;
    var r := Prepared(i);
    Sends(i);
    var r1 := GoesOut(i, r);
    var r2 := Believed(i, r1);
    var r3 := Overwritten(i, r2);
    Onward(r1, r2, r3);
    Lengths(r);
    Lengths(r1);
    Lengths(r3);
    ss, steps, k := r3.ss, r3.steps, |r.steps|;
    assert steps[k] == r1.steps[k] && ss[k] == r1.ss[k];
    forall j | 0 <= j < |steps| && j != k ensures !steps[j].SendProbe? {
      assert j < k ==> steps[j] == r1.steps[j] == r.steps[j];
    }
  }

  lemma Lengths(r: Execution)
    requires Goes(r)
    ensures |r.ss| == |r.steps| + 1
  {
  }

  lemma Prepared(i: Seven) returns (r: Execution)
    requires i.Apart()
    ensures At(r, i, X6(i), Pending(i), Reading(i)) && forall j | 0 <= j < |r.steps| :: !r.steps[j].SendProbe?
  {
    hide IsExecution, At;
    var r1 := Term1(i);
    var r2 := Shared(i, r1);
    var r3 := Term2(i, r2);
    Onward(r1, r2, r3);
    var r4 := Term3(i, r3);
    Onward(r1, r3, r4);
    var r5 := Replicated(i, r4);
    Onward(r1, r4, r5);
    var r6 := Committed(i, r5);
    Onward(r1, r5, r6);
    var r7 := TurnedDown(i, r6);
    Onward(r1, r6, r7);
    r := GivenBack(i, r7);
    Onward(r1, r7, r);
    forall j | 0 <= j < |r.steps| ensures !r.steps[j].SendProbe? {
      assert j < |r1.steps| ==> r.steps[j] == r1.steps[j];
    }
  }
}
