/**
 What a node must do. The safety theorems bound what nodes may do, and a node that refused everything would keep them; here
 is what each step of the cluster owes, said of the states before and after it.
 */
module Duties {
  import opened Types
  import opened Quorums
  import opened Protocol
  import opened Cluster
  import opened Simulation
  import opened Steps
  import opened MajorityRule
  import opened CommitSteps
  import opened ReplicationSteps
  import opened DeliverySteps
  import S = Safety
  import H = History
  import B = Backtracking
  import C = Core
  import CoreSteps

  function Higher(a: nat, b: nat): nat {
    if a < b then b else a
  }

  // ---------------------------------------------------------------- elections

  /** Raft's order on logs: by last term, then by length. */
  predicate MoreComplete(a: seq<Entry>, b: seq<Entry>) {
    LastTermOf(a) > LastTermOf(b) || (LastTermOf(a) == LastTermOf(b) && |a| >= |b|)
  }

  /** Of any two logs one is at least as complete as the other, and the order is transitive: no two nodes can refuse each other. */
  lemma CompleteTotal(a: seq<Entry>, b: seq<Entry>, c: seq<Entry>)
    ensures MoreComplete(a, b) || MoreComplete(b, a)
    ensures MoreComplete(a, b) && MoreComplete(b, c) ==> MoreComplete(a, c)
  {
  }

  /** A vote is granted exactly when the rule says so; the answer goes out, and term and vote are what it says. */
  lemma VoteAnswered(s: State, v: Id, req: VoteRequest)
    requires Enabled(s, DeliverVoteRequest(v, req))
    ensures var n, s' := s.nodes[v], Next(s, DeliverVoteRequest(v, req));
            var lastTerm := if n.log.entries == [] then n.log.baseTerm else n.log.entries[|n.log.entries| - 1].term;
            var granted := && req.term >= n.term
                           && (req.term > n.term || n.votedFor == NOBODY || n.votedFor == req.candidate)
                           && (req.lastTerm > lastTerm ||
                               (req.lastTerm == lastTerm && req.lastIndex >= n.log.base + |n.log.entries|));
            var term := Higher(n.term, req.term);
            && v in s'.nodes
            && s' == s.(nodes := s.nodes[v := s'.nodes[v]],
                        voteAnswers := s.voteAnswers + {VoteAnswer(v, req.candidate, req.term, VoteReply(term, granted))})
            && var n' := s'.nodes[v];
            && n'.term == term && n'.log == n.log && n'.commitIndex == n.commitIndex && n'.lastApplied == n.lastApplied
            && n'.votedFor == (if granted then req.candidate else if req.term > n.term then NOBODY else n.votedFor)
            && n'.role == (if req.term > n.term then Follower else n.role)
  {
  }

  lemma {:induction false} MostComplete(s: State, q: set<Id>) returns (c: Id)
    requires q != {} && q <= s.nodes.Keys
    ensures c in q && forall v | v in q :: MoreComplete(s.nodes[c].log.entries, s.nodes[v].log.entries)
    decreases |q|
  {
    hide MoreComplete;
    var x :| x in q;
    c := x;
    var X := s.nodes[x].log.entries;
    CompleteTotal(X, X, X);
    if q != {x} {
      var y := MostComplete(s, q - {x});
      var Y := s.nodes[y].log.entries;
      CompleteTotal(X, Y, Y);
      CompleteTotal(Y, X, X);
      if MoreComplete(X, Y) {
        forall v | v in q ensures MoreComplete(X, s.nodes[v].log.entries) {
          CompleteTotal(X, Y, s.nodes[v].log.entries);
        }
      } else {
        c := y;
      }
    }
  }

  /** In every run, some member of every majority would have the vote of the whole majority, in any term none of it has reached. */
  lemma Electable(ss: seq<State>, steps: seq<Step>, i: nat, q: set<Id>) returns (c: Id)
    requires IsRun(ss, steps) && i < |ss| && q <= ss[i].nodes.Keys && 2 * |q| > |ss[i].nodes|
    ensures c in q && forall v | v in q :: MoreComplete(ss[i].nodes[c].log.entries, ss[i].nodes[v].log.entries)
    ensures var L := ss[i].nodes[c].log.entries;
            forall v, term | v in q && ss[i].nodes[v].term < term ::
              HandleVote(ss[i].nodes[v], VoteRequest(term, c, |L|, LastTermOf(L))).1 == VoteReply(term, true)
  {
    hide IsRun, Inv;
    c := MostComplete(ss[i], q);
    var shs := S.Shadows(ss, steps);
    forall v | v in q ensures ss[i].nodes[v].log.base == 0 == ss[i].nodes[v].log.baseTerm {
      S.Plain(ss[i], shs[i], v);
    }
  }

  lemma TimedOut(s: State, v: Id)
    requires Enabled(s, Timeout(v))
    ensures var n, s' := s.nodes[v], Next(s, Timeout(v));
            s' == s.(nodes := s.nodes[v := n.(role := Candidate, term := n.term + 1, votedFor := n.id)],
                     voteRequests := s.voteRequests +
                       {VoteRequest(n.term + 1, n.id, n.log.base + |n.log.entries|,
                                    if n.log.entries == [] then n.log.baseTerm else n.log.entries[|n.log.entries| - 1].term)})
  {
  }

  /** Taking office: an entry of the own term at the end of the log, and every peer to be tried from there. */
  lemma TookOffice(s: State, c: Id, q: set<Id>)
    requires Enabled(s, WinElection(c, q)) && s.nodes[c].log.base == 0
    ensures var n, s' := s.nodes[c], Next(s, WinElection(c, q));
            && c in s'.nodes && s' == s.(nodes := s.nodes[c := s'.nodes[c]])
            && var n' := s'.nodes[c];
            && n'.role.Leader? && n'.term == n.term && n'.votedFor == n.votedFor
            && n'.log == Log(0, n.log.baseTerm, n.log.entries + [Entry(|n.log.entries| + 1, n.term, Noop)])
            && n'.commitIndex == n.commitIndex && n'.lastApplied == n.lastApplied
            && (forall p | p in n.peers ::
                  && p in n'.nextIndex && n'.nextIndex[p] == |n.log.entries| + 1
                  && p in n'.matchIndex && n'.matchIndex[p] == 0)
  {
  }

  /** Votes of more than half are enough, whoever they come from. */
  lemma MajorityElects(s: State, c: Id, q: set<Id>)
    requires c in s.nodes && s.nodes[c].role.Candidate? && q <= s.nodes.Keys && 2 * |q| > |s.nodes|
    requires forall v | v in q && v != c ::
               VoteAnswer(v, c, s.nodes[c].term, VoteReply(s.nodes[c].term, true)) in s.voteAnswers
    ensures Enabled(s, WinElection(c, q))
  {
    assert |s.nodes| == |s.nodes.Keys|;
  }

  // ---------------------------------------------------------------- later terms

  /** Whom a step brings a message, and the term it carries. */
  function Told(s: State, step: Step): Option<(Id, nat)>
    requires Enabled(s, step)
  {
    match step
    case DeliverVoteRequest(v, req) => Some((v, req.term))
    case LearnFromVote(a) => Some((a.candidate, a.reply.term))
    case DeliverAppend(link) => Some((link.peer, s.exchanges[link].req.term))
    case DeliverReply(link) => Some((link.leader, s.exchanges[link].reply.term))
    case DeliverProbe(probe) => Some((probe.peer, probe.req.term))
    case LearnFromProbe(a) => Some((s.queries[a.read].leader, a.term))
    case _ => None
  }

  /** An answer from a later term than was asked in makes a follower, in the later of the two terms; log and indices stay. */
  predicate SteppedDown(n: Node, n': Node, term: nat) {
    && n'.role.Follower? && n'.term == Higher(n.term, term)
    && n'.votedFor == (if term > n.term then NOBODY else n.votedFor)
    && n'.log == n.log && n'.commitIndex == n.commitIndex && n'.lastApplied == n.lastApplied
  }

  lemma OutrankedStepsDown(s: State, step: Step)
    requires Enabled(s, step)
    requires || step.LearnFromVote? || step.LearnFromProbe?
             || (step.DeliverReply? && s.exchanges[step.link].reply.term > s.exchanges[step.link].req.term)
    ensures var (v, term) := Told(s, step).value;
            && v in s.nodes && v in Next(s, step).nodes && SteppedDown(s.nodes[v], Next(s, step).nodes[v], term)
            && Next(s, step).nodes == s.nodes[v := Next(s, step).nodes[v]]
  {
  }

  // ---------------------------------------------------------------- AppendEntries

  predicate PreviousHeld(log: seq<Entry>, prev: nat, prevTerm: nat) {
    prev == 0 || (prev <= |log| && log[prev - 1].term == prevTerm)
  }

  /** The hint of a refusal: one past a log that is too short; else the term in the way and where its entries begin. */
  predicate Hinted(log: seq<Entry>, prev: nat, reply: AppendReply) {
    if |log| < prev then reply.conflictTerm == 0 && reply.conflictIndex == |log| + 1
    else
      && 0 < reply.conflictIndex <= prev && reply.conflictTerm == log[prev - 1].term
      && (forall i | reply.conflictIndex - 1 <= i < prev :: log[i].term == reply.conflictTerm)
      && (1 < reply.conflictIndex ==> log[reply.conflictIndex - 2].term != reply.conflictTerm)
  }

  /** What a follower makes of a request that is not stale. */
  predicate Followed(n: Node, req: AppendRequest, n': Node, reply: AppendReply) {
    && n'.term == req.term == reply.term
    && n'.role == (if req.term > n.term || n.role.Candidate? then Follower else n.role)
    && n'.votedFor == (if req.term > n.term then NOBODY else n.votedFor)
    && n'.lastApplied == n.lastApplied && n'.log.base == 0
    && (reply.success <==> PreviousHeld(n.log.entries, req.prevIndex, req.prevTerm))
    && (if reply.success then
          && n'.log.entries == (if req.entries == [] then n.log.entries else n.log.entries[..req.prevIndex] + req.entries)
          && n'.commitIndex == Higher(n.commitIndex, Min(req.leaderCommit, |n'.log.entries|))
        else
          n'.log == n.log && n'.commitIndex == n.commitIndex && Hinted(n.log.entries, req.prevIndex, reply))
  }

  lemma AppendAnswered(n: Node, req: AppendRequest)
    requires n.log.base == 0 && Wellformed(n.log, req)
    ensures var (n', reply) := HandleAppend(n, req);
            if req.term < n.term then n' == n && reply.term == n.term && !reply.success else Followed(n, req, n', reply)
  {
    hide Conflict, Hinted, PreviousHeld;
    if req.term >= n.term {
      PreviousChecked(n.log, req.term, req.prevIndex, req.prevTerm);
      if PreviousHeld(n.log.entries, req.prevIndex, req.prevTerm) {
        WrittenAfter(n.log, req);
      }
    }
  }

  lemma PreviousChecked(log: Log, term: nat, prev: nat, prevTerm: nat)
    requires log.base == 0
    ensures var r := Conflict(log, term, prev, prevTerm);
            && (r.None? <==> PreviousHeld(log.entries, prev, prevTerm))
            && (r.Some? ==> r.value.term == term && !r.value.success && Hinted(log.entries, prev, r.value))
  {
    hide StartOfRun;
    if 0 < prev <= |log.entries| {
      B.StartOfRunScan(log, prev);
      var r := StartOfRun(log, prev);
      forall i | r - 1 <= i < prev ensures log.entries[i].term == log.entries[prev - 1].term {
        assert log.TermAt(i + 1) == log.TermAt(prev);
      }
      assert 1 < r ==> log.TermAt(r - 1) != log.TermAt(prev);
    }
  }

  lemma WrittenAfter(log: Log, req: AppendRequest)
    requires log.base == 0 && Wellformed(log, req) && PreviousHeld(log.entries, req.prevIndex, req.prevTerm)
    ensures req.entries != [] ==> 0 < req.entries[0].index <= log.LastIndex() + 1
    ensures log.Append(req.entries) ==
            Log(0, log.baseTerm, if req.entries == [] then log.entries else log.entries[..req.prevIndex] + req.entries)
    ensures req.prevIndex <= |log.entries|
  {
  }

  /** A delivered request is answered, and the answer is on its way back. */
  lemma RequestAnswered(s: State, link: Link)
    requires Enabled(s, DeliverAppend(link)) && s.nodes[link.peer].log.base == 0
    ensures var n, req, s' := s.nodes[link.peer], s.exchanges[link].req, Next(s, DeliverAppend(link));
            && link in s'.exchanges && s'.exchanges[link].Answered? && s'.exchanges[link].req == req && link.peer in s'.nodes
            && var n', reply := s'.nodes[link.peer], s'.exchanges[link].reply;
            && s' == s.(nodes := s.nodes[link.peer := n'], exchanges := s.exchanges[link := Exchange.Answered(req, reply)])
            && if req.term < n.term then n' == n && reply.term == n.term && !reply.success else Followed(n, req, n', reply)
  {
    AppendAnswered(s.nodes[link.peer], s.exchanges[link].req);
    hide HandleAppend, Followed, Wellformed;
  }

  /** What a read sends: its own term, and the node's present view of the peer, log and commit index. */
  lemma ProbeGoesOut(s: State, r: ReadId, p: Id)
    requires Enabled(s, SendProbe(r, p, true)) && s.nodes[s.queries[r].leader].log.base == 0
    ensures var n := s.nodes[s.queries[r].leader];
            var prev := if p in n.nextIndex && n.nextIndex[p] > 0 then n.nextIndex[p] - 1 else 0;
            var prevTerm := if prev == 0 then n.log.baseTerm else if prev <= |n.log.entries| then n.log.entries[prev - 1].term else 0;
            Next(s, SendProbe(r, p, true)) ==
            s.(probes := s.probes + {Probe(r, p, AppendRequest(s.queries[r].term, n.id, prev, prevTerm, [], n.commitIndex))})
  {
  }

  /** So is a read's heartbeat; what counts for the read is the term of the answer. */
  lemma ProbeAnswered(s: State, probe: Probe)
    requires Enabled(s, DeliverProbe(probe)) && s.nodes[probe.peer].log.base == 0 && probe.req.entries == []
    ensures var n, s' := s.nodes[probe.peer], Next(s, DeliverProbe(probe));
            && probe.peer in s'.nodes
            && s' == s.(nodes := s.nodes[probe.peer := s'.nodes[probe.peer]],
                        probeAnswers := s.probeAnswers + {ProbeAnswer(probe.read, probe.peer, Higher(n.term, probe.req.term))})
            && if probe.req.term < n.term then s'.nodes[probe.peer] == n
               else exists reply :: Followed(n, probe.req, s'.nodes[probe.peer], reply)
  {
    AppendAnswered(s.nodes[probe.peer], probe.req);
    var (n', reply) := HandleAppend(s.nodes[probe.peer], probe.req);
    assert probe.req.term >= s.nodes[probe.peer].term ==> Followed(s.nodes[probe.peer], probe.req, n', reply) && reply.term == probe.req.term;
    hide HandleAppend, Followed, Wellformed;
  }

  // ---------------------------------------------------------------- the leader's side

  /** A request can be built unless the peer needs entries that are compacted away, or one the log does not reach. */
  lemma RequestPossible(n: Node, p: Id, batch: nat)
    ensures var next := if p in n.nextIndex then n.nextIndex[p] else 0;
            BuildRequest(n, p, batch).Some? <==> n.log.base < next <= n.log.base + |n.log.entries| + 1
  {
  }

  function TermBefore(L: seq<Entry>, next: nat): nat
    requires 0 < next <= |L| + 1
  {
    if next == 1 then 0 else L[next - 2].term
  }

  /** How far the next batch for p goes. */
  function Reach(n: Node, p: Id, batch: nat): nat
    requires p in n.nextIndex && 0 < n.nextIndex[p] <= |n.log.entries| + 1
  {
    var left := |n.log.entries| + 1 - n.nextIndex[p];
    n.nextIndex[p] - 1 + if batch == 0 then left else Min(batch, left)
  }

  /** What the leader sends: from nextIndex on as many entries as there are, or as a batch holds. */
  predicate Sends(n: Node, p: Id, batch: nat, req: AppendRequest) {
    && p in n.nextIndex && 0 < n.nextIndex[p] <= |n.log.entries| + 1
    && req.term == n.term && req.leader == n.id && req.leaderCommit == n.commitIndex && req.prevIndex == n.nextIndex[p] - 1
    && req.prevTerm == TermBefore(n.log.entries, n.nextIndex[p])
    && req.entries == n.log.entries[req.prevIndex..Reach(n, p, batch)]
  }

  lemma ReachIs(n: Node, p: Id, batch: nat)
    requires n.log.base == 0 && p in n.nextIndex && 0 < n.nextIndex[p] <= |n.log.entries| + 1
    ensures Reach(n, p, batch) == BatchEnd(n.nextIndex[p], |n.log.entries|, batch)
    ensures n.nextIndex[p] - 1 <= Reach(n, p, batch) <= |n.log.entries|
  {
  }

  lemma RequestBuilt(n: Node, p: Id, batch: nat)
    requires n.log.base == 0 == n.log.baseTerm && p in n.nextIndex && 0 < n.nextIndex[p] <= |n.log.entries| + 1
    ensures BuildRequest(n, p, batch).Some? && Sends(n, p, batch, BuildRequest(n, p, batch).value)
  {
    hide BatchEnd, Reach;
    ReachIs(n, p, batch);
    var next, end := n.nextIndex[p], Reach(n, p, batch);
    if next > end {
      assert n.log.entries[next - 1..end] == [];
    } else {
      assert n.log.Slice(next, end) == n.log.entries[next - 1..end];
    }
  }

  /** Where a refusal sends nextIndex: past the leader's last entry of the term in the way, or to the index hinted at. */
  predicate SentBack(log: seq<Entry>, next: nat, reply: AppendReply, to: nat) {
    if reply.conflictTerm == 0 then
      to == if reply.conflictIndex > 0 then reply.conflictIndex else if next > 1 then next - 1 else next
    else if B.Holds(log, reply.conflictTerm) then
      1 < to <= |log| + 1 && log[to - 2].term == reply.conflictTerm && forall i | to - 1 <= i < |log| :: log[i].term > reply.conflictTerm
    else to == Higher(1, reply.conflictIndex)
  }

  lemma LastOfTermFound(log: Log, term: nat)
    requires log.base == 0 && B.TermsAscend(log.entries)
    ensures match FindTerm(log, log.LastIndex(), term)
            case Some(x) =>
              0 < x <= |log.entries| && log.entries[x - 1].term == term && forall i | x <= i < |log.entries| :: log.entries[i].term > term
            case None => !B.Holds(log.entries, term)
  {
    hide FindTerm;
    B.FindTermScan(log, log.LastIndex(), term);
    assert forall i | 0 <= i < |log.entries| :: log.entries[i] == log.At(i + 1);
  }

  lemma BacktracksThere(n: Node, next: nat, reply: AppendReply)
    requires n.log.base == 0 && B.TermsAscend(n.log.entries)
    ensures SentBack(n.log.entries, next, reply, Backtrack(n.log, next, reply))
  {
    hide FindTerm, B.TermsAscend;
    LastOfTermFound(n.log, reply.conflictTerm);
    var found := FindTerm(n.log, n.log.LastIndex(), reply.conflictTerm);
    if found.Some? {
      assert n.log.entries[found.value - 1].term == reply.conflictTerm;
    }
  }

  /** A leader hears an answer to a request of its term: both indices move to the end of the batch, or nextIndex goes back. */
  lemma AnswerHeard(s: State, link: Link)
    requires Enabled(s, DeliverReply(link)) && s.nodes[link.leader].log.base == 0
    requires B.TermsAscend(s.nodes[link.leader].log.entries)
    requires var req, reply := s.exchanges[link].req, s.exchanges[link].reply;
             s.nodes[link.leader].role.Leader? && s.nodes[link.leader].term == req.term && reply.term <= req.term
             && Contiguous(req.entries, req.prevIndex + 1)
    ensures var n, Answered(req, reply), s', p := s.nodes[link.leader], s.exchanges[link], Next(s, DeliverReply(link)), link.peer;
            && link.leader in s'.nodes
            && s' == s.(nodes := s.nodes[link.leader := s'.nodes[link.leader]], exchanges := s.exchanges - {link})
            && var n' := s'.nodes[link.leader];
            if reply.success then
              var end := req.prevIndex + |req.entries|;
              n' == if req.entries == [] then n
                    else n.(matchIndex := n.matchIndex[p := end], nextIndex := n.nextIndex[p := end + 1])
            else
              && p in n'.nextIndex && n' == n.(nextIndex := n.nextIndex[p := n'.nextIndex[p]])
              && SentBack(n.log.entries, if p in n.nextIndex then n.nextIndex[p] else 0, reply, n'.nextIndex[p])
  {
    hide Backtrack, SentBack;
    var n := s.nodes[link.leader];
    BacktracksThere(n, NextIndex(n, link.peer), s.exchanges[link].reply);
  }

  // ---------------------------------------------------------------- commit, apply

  /** Who holds index k, as far as the leader v knows. */
  function Holding(s: State, v: Id, k: nat): set<Id>
    requires v in s.nodes
  {
    var n := s.nodes[v];
    set p | p in s.nodes && (if p == v then k <= |n.log.entries| else p in n.matchIndex && k <= n.matchIndex[p])
  }

  predicate MajorityHolds(s: State, v: Id, k: nat)
    requires v in s.nodes
  {
    2 * |Holding(s, v, k)| > |s.nodes|
  }

  lemma HoldingCounted(s: State, v: Id, k: nat)
    requires v in s.nodes && 0 < k
    requires var n := s.nodes[v]; n.id == v && n.log.base == 0 && Distinct(n.peers) && Ids(n.peers) == s.nodes.Keys - {v}
    ensures |Holding(s, v, k)| == HeldBy(MatchList(s.nodes[v]), k) && |s.nodes| == |MatchList(s.nodes[v])|
  {
    hide HeldBy, MatchList;
    var n := s.nodes[v];
    var ids, xs := [v] + n.peers, MatchList(n);
    assert v !in n.peers by { assert v !in Ids(n.peers); }
    forall i, j | 0 <= i < j < |ids| ensures ids[i] != ids[j] {
      if i == 0 { assert ids[j] in n.peers; }
    }
    HoldersCounted(ids, xs, k);
    forall p ensures p in Holding(s, v, k) <==> p in Holders(ids, xs, k) {
      HeldEither(s, v, k, p);
    }
    assert Holding(s, v, k) == Holders(ids, xs, k);
    DistinctSize(n.peers);
    assert s.nodes.Keys == Ids(n.peers) + {v};
    assert |s.nodes| == |s.nodes.Keys|;
  }

  lemma HeldEither(s: State, v: Id, k: nat, p: Id)
    requires v in s.nodes && 0 < k
    requires var n := s.nodes[v]; n.id == v && n.log.base == 0 && Ids(n.peers) == s.nodes.Keys - {v}
    ensures p in Holding(s, v, k) <==> p in Holders([v] + s.nodes[v].peers, MatchList(s.nodes[v]), k)
  {
    var n := s.nodes[v];
    var ids, xs := [v] + n.peers, MatchList(n);
    MatchListAt(n, 0);
    assert ids[0] == v && xs[0] == |n.log.entries|;
    assert forall i | 1 <= i < |ids| :: ids[i] in Ids(n.peers);
    forall i | 1 <= i < |ids| ensures xs[i] == MatchIndex(n, ids[i]) {
      MatchListAt(n, i);
    }
    if p in Holding(s, v, k) && p != v {
      assert p in Ids(n.peers);
      var i :| 0 <= i < |n.peers| && n.peers[i] == p;
      assert ids[i + 1] == p && xs[i + 1] >= k;
    }
  }

  /** The commit candidate, in terms of who holds what. */
  lemma CandidateIs(s: State, v: Id, k: nat)
    requires v in s.nodes && 0 < k
    requires var n := s.nodes[v]; n.id == v && n.log.base == 0 && Distinct(n.peers) && Ids(n.peers) == s.nodes.Keys - {v}
    ensures MajorityHolds(s, v, k) <==> k <= MajorityIndex(MatchList(s.nodes[v]))
  {
    hide Holding, HeldBy, MajorityIndex, MatchList;
    HoldingCounted(s, v, k);
    MajorityIndexIsGreatest(MatchList(s.nodes[v]), k);
  }

  /** What a leader believes a peer holds lies within its own log. */
  lemma HeldWithin(s: State, sh: Shadow, v: Id, k: nat)
    requires Inv(s, sh) && v in s.nodes && s.nodes[v].role.Leader? && 0 < k && MajorityHolds(s, v, k)
    ensures k <= |s.nodes[v].log.entries|
  {
    hide Inv, C.VotesOk, C.ElectionsOk, C.LogsOk, C.BallotsOk, C.SuccessionOk, C.CommitsOk, C.DecisionsOk, C.ShapeOk;
    About(s, sh, v);
    assert Holding(s, v, k) != {};
    var p :| p in Holding(s, v, k);
    if p != v {
      assert p in Ids(s.nodes[v].peers);
      PeerFacts(s, sh, v, p);
    }
  }

  lemma OwnFrom(s: State, sh: Shadow, v: Id, k: nat, m: nat)
    requires Inv(s, sh) && v in s.nodes && 0 < k <= m <= |s.nodes[v].log.entries|
    ensures s.nodes[v].log.entries[k - 1].term <= s.nodes[v].log.entries[m - 1].term <= s.nodes[v].term
  {
    hide Inv, C.VotesOk, C.ElectionsOk, C.AcksOk, C.BallotsOk, C.SuccessionOk, C.CommitsOk, C.DecisionsOk, C.ShapeOk;
    About(s, sh, v);
    var n := s.nodes[v];
    assert C.Grounded(sh.core.ledger, n.log.entries, n.term);
    CoreSteps.TermsAscend(sh.core, n.log.entries, n.term, k - 1, m - 1);
  }

  /**
   The commit rule, both ways: what a majority holds and is of the leader's own term is committed; and where the commit index
   moves, it moves to the greatest index a majority holds, of the leader's own term.
   */
  predicate CommitRule(s: State, v: Id, n': Node)
    requires v in s.nodes
  {
    var n := s.nodes[v];
    && n' == n.(commitIndex := n'.commitIndex) && (!n.role.Leader? ==> n' == n)
    && (n.role.Leader? ==>
          forall k | 0 <= k < |n.log.entries| && n.log.entries[k].term == n.term && MajorityHolds(s, v, k + 1) ::
            k + 1 <= n'.commitIndex)
    && (n' != n ==>
          && n.commitIndex < n'.commitIndex <= |n.log.entries| && n.log.entries[n'.commitIndex - 1].term == n.term
          && MajorityHolds(s, v, n'.commitIndex)
          && forall k | n'.commitIndex < k <= |n.log.entries| :: !MajorityHolds(s, v, k))
  }

  lemma CommitAdvances(ss: seq<State>, steps: seq<Step>, i: nat, v: Id)
    requires IsRun(ss, steps) && i < |steps| && steps[i] == TryCommit(v)
    ensures v in ss[i].nodes && v in ss[i + 1].nodes && CommitRule(ss[i], v, ss[i + 1].nodes[v])
  {
    hide IsRun, Inv, CommitRule, AdvanceCommit;
    S.Taken(ss, steps, i);
    var shs := S.Shadows(ss, steps);
    AdvanceKeepsRule(ss[i], shs[i], v);
  }

  lemma AdvanceKeepsRule(s: State, sh: Shadow, v: Id)
    requires Inv(s, sh) && v in s.nodes
    ensures CommitRule(s, v, AdvanceCommit(s.nodes[v]))
  {
    hide Inv, MajorityHolds, MajorityIndex, MatchList, C.Inv, C.ShapeOk, OfficeOk, ProposalsOk;
    var n := s.nodes[v];
    About(s, sh, v);
    var m := MajorityIndex(MatchList(n));
    forall k | 0 < k ensures MajorityHolds(s, v, k) <==> k <= m {
      CandidateIs(s, v, k);
    }
    if n.role.Leader? && 0 < m {
      HeldWithin(s, sh, v, m);
      forall k: nat | k < m ensures n.log.entries[k].term <= n.log.entries[m - 1].term <= n.term {
        OwnFrom(s, sh, v, k + 1, m);
      }
    }
  }

  /** Whatever is committed next is applied, and its proposer told. */
  lemma AppliesNext(s: State, v: Id)
    requires Enabled(s, ApplyOne(v)) && s.nodes[v].log.base == 0
    ensures var n, s' := s.nodes[v], Next(s, ApplyOne(v));
            && v in s'.nodes && s' == s.(nodes := s.nodes[v := s'.nodes[v]])
            && var n', i := s'.nodes[v], n.lastApplied + 1;
            if i <= n.commitIndex && i <= |n.log.entries| then
              && n' == n.(lastApplied := i, waiters := n'.waiters, proposals := n'.proposals)
              && n'.waiters == n.waiters - {i} && n'.proposals.Keys == n.proposals.Keys
              && forall t | t in n.proposals :: n'.proposals[t] ==
                   if i in n.waiters && t == n.waiters[i] then n.proposals[t].(sends := n.proposals[t].sends + [Committed])
                   else n.proposals[t]
            else n' == n
  {
  }

  /** A crash leaves what is on disk. */
  lemma CrashKeeps(s: State, v: Id)
    requires Enabled(s, Crash(v))
    ensures var n, s' := s.nodes[v], Next(s, Crash(v));
            && v in s'.nodes && s' == s.(nodes := s.nodes[v := s'.nodes[v]])
            && var n' := s'.nodes[v];
            && n'.term == n.term && n'.votedFor == n.votedFor && n'.log == n.log && n'.role.Follower?
            && n'.commitIndex == 0 == n'.lastApplied && n'.waiters == map[] && n'.proposals == n.proposals
  {
  }

  // ---------------------------------------------------------------- later terms are heeded

  /** Every message of a later term than the receiver's makes it a follower in that term, with its vote free or given to the asker. */
  lemma LaterTermHeeded(ss: seq<State>, steps: seq<Step>, i: nat)
    requires IsRun(ss, steps) && i < |steps| && Enabled(ss[i], steps[i]) && Told(ss[i], steps[i]).Some?
    requires var (v, term) := Told(ss[i], steps[i]).value; v in ss[i].nodes && ss[i].nodes[v].term < term
    ensures var (v, term) := Told(ss[i], steps[i]).value;
            && v in ss[i + 1].nodes
            && var n' := ss[i + 1].nodes[v];
            && n'.role.Follower? && n'.term == term
            && (n'.votedFor == NOBODY || (steps[i].DeliverVoteRequest? && n'.votedFor == steps[i].vote.candidate))
  {
    hide IsRun, Inv;
    S.Taken(ss, steps, i);
    var shs := S.Shadows(ss, steps);
    Heeds(ss[i], shs[i], steps[i]);
  }

  lemma Heeds(s: State, sh: Shadow, step: Step)
    requires Inv(s, sh) && Enabled(s, step) && Told(s, step).Some?
    requires var (v, term) := Told(s, step).value; v in s.nodes && s.nodes[v].term < term
    ensures var (v, term) := Told(s, step).value;
            && v in Next(s, step).nodes
            && var n' := Next(s, step).nodes[v];
            && n'.role.Follower? && n'.term == term
            && (n'.votedFor == NOBODY || (step.DeliverVoteRequest? && n'.votedFor == step.vote.candidate))
  {
    hide Inv, HandleVote, HandleAppend, HandleReply, StepDown, Wellformed, HasVotes, BuildRequest, Hinted;
    var (v, term) := Told(s, step).value;
    S.Plain(s, sh, v);
    match step
    case DeliverVoteRequest(_, req) => VoteAnswered(s, v, req);
    case DeliverAppend(link) => RequestAnswered(s, link);
    case DeliverProbe(probe) =>
      ProbeCarriesNothing(s, sh, probe);
      ProbeAnswered(s, probe);
    case DeliverReply(link) =>
      AskedBefore(s, sh, link);
      OutrankedStepsDown(s, step);
    case _ => OutrankedStepsDown(s, step);
  }

  lemma ProbeCarriesNothing(s: State, sh: Shadow, probe: Probe)
    requires Inv(s, sh) && probe in s.probes
    ensures probe.req.entries == []
  {
    hide C.Inv, C.Evolves, OfficesOk, VotesOk, ProgressOk, ExchangesOk, FlightsOk, AllProposalsOk, NodeOk, ReadsOk;
    assert ProbeOk(s, sh.core, probe);
  }

  /** A node asks in its own term, which only rises. */
  lemma AskedBefore(s: State, sh: Shadow, link: Link)
    requires Inv(s, sh) && link in s.exchanges
    ensures link.leader in s.nodes && s.exchanges[link].req.term <= s.nodes[link.leader].term
  {
    hide Inv, C.VotesOk, C.LogsOk, C.AcksOk, C.BallotsOk, C.SuccessionOk, C.CommitsOk, C.DecisionsOk, AskedOk, AnsweredOk,
         FlightOk, PeerOk, ProposalsOk, OfficeOk;
    ExchangeFacts(s, sh, link);
    About(s, sh, link.leader);
  }

  // ---------------------------------------------------------------- proposals

  /** The Propose call behind ticket t still waits for its answer. */
  predicate Waiting(n: Node, t: Ticket) {
    t in n.proposals && var i := n.proposals[t].entry.index; i in n.waiters && n.waiters[i] == t
  }

  /** Some call gives up at the index t waits at. */
  predicate CancelsAt(n: Node, step: Step, v: Id, t: Ticket) {
    && step.ClientCancel? && step.node == v && step.ticket in n.proposals && t in n.proposals
    && n.proposals[step.ticket].entry.index == n.proposals[t].entry.index
  }

  /**
   What a step makes of a proposal. A waiting one is told of its success when its index is applied and of its end when the
   node leaves office; only a crash, or a call that gives up at its index, ends its waiting without a word. Nothing else changes
   it, and nothing changes one that does not wait.
   */
  predicate Treated(n: Node, n': Node, step: Step, v: Id, t: Ticket) {
    t in n.proposals ==>
      && t in n'.proposals
      && var p, p' := n.proposals[t], n'.proposals[t];
      if !Waiting(n, t) then p' == p && !Waiting(n', t)
      else if step == Crash(v) || CancelsAt(n, step, v, t) then p' == p && !Waiting(n', t)
      else if n.role.Leader? && !n'.role.Leader? then p' == p.(sends := p.sends + [Dropped]) && n'.waiters == map[]
      else if n'.lastApplied == p.entry.index then p' == p.(sends := p.sends + [Committed]) && !Waiting(n', t)
      else p' == p && Waiting(n', t)
  }

  /** What a node in a run knows of its waiters: they wait ahead of lastApplied, each at its own entry. */
  predicate WaitersOk(n: Node) {
    && n.log.base == 0 && n.lastApplied <= |n.log.entries| && (n.waiters != map[] ==> n.role.Leader?)
    && forall i | i in n.waiters ::
         && n.lastApplied < i <= |n.log.entries|
         && n.waiters[i] in n.proposals && n.proposals[n.waiters[i]].entry == n.log.entries[i - 1]
         && n.proposals[n.waiters[i]].entry.index == i && n.proposals[n.waiters[i]].sends == []
  }

  /** A handler leaves waiters and proposals alone, unless it leaves office: then all are told. */
  predicate KeepsOrTells(n: Node, n': Node) {
    && n'.lastApplied == n.lastApplied
    && if n.role.Leader? && !n'.role.Leader? then
         && n'.waiters == map[] && n'.proposals.Keys == n.proposals.Keys
         && forall t | t in n.proposals ::
              n'.proposals[t] == if t in n.waiters.Values then n.proposals[t].(sends := n.proposals[t].sends + [Dropped])
                                 else n.proposals[t]
       else n'.waiters == n.waiters && n'.proposals == n.proposals
  }

  lemma StepDownTells(n: Node, term: nat)
    ensures KeepsOrTells(n, StepDown(n, term)) && KeepsOrTells(n, Recognize(n, term))
  {
  }

  lemma VoteTells(n: Node, req: VoteRequest)
    ensures KeepsOrTells(n, HandleVote(n, req).0)
  {
    hide CandidateUpToDate;
  }

  lemma AppendTells(n: Node, req: AppendRequest)
    requires Wellformed(n.log, req)
    ensures KeepsOrTells(n, HandleAppend(n, req).0)
  {
    hide Conflict, Recognize, KeepsOrTells;
    StepDownTells(n, req.term);
    if req.term < n.term {
      Unmoved(n);
    } else {
      Indifferent(n, Recognize(n, req.term), HandleAppend(n, req).0);
    }
  }

  lemma Unmoved(n: Node)
    ensures KeepsOrTells(n, n)
  {
  }

  lemma Indifferent(n: Node, m: Node, m': Node)
    requires KeepsOrTells(n, m)
    requires m'.lastApplied == m.lastApplied && m'.role == m.role && m'.waiters == m.waiters && m'.proposals == m.proposals
    ensures KeepsOrTells(n, m')
  {
  }

  lemma ReplyTells(n: Node, peer: Id, req: AppendRequest, reply: AppendReply)
    ensures KeepsOrTells(n, HandleReply(n, peer, req, reply))
  {
    hide Backtrack, StepDown;
    StepDownTells(n, reply.term);
  }

  lemma OfficeTells(n: Node)
    ensures KeepsOrTells(n, BecomeLeader(n)) && KeepsOrTells(n, AdvanceCommit(n))
    ensures !n.role.Leader? ==> KeepsOrTells(n, BecomeCandidate(n))
  {
    hide MajorityIndex, MatchList;
  }

  lemma TellingTreats(n: Node, n': Node, step: Step, v: Id, t: Ticket)
    requires WaitersOk(n) && KeepsOrTells(n, n') && step != Crash(v) && !CancelsAt(n, step, v, t)
    ensures Treated(n, n', step, v, t)
  {
    if t in n.proposals && t in n.waiters.Values {
      var i :| i in n.waiters && n.waiters[i] == t;
      assert Waiting(n, t);
    }
  }

  /** A proposal: its entry at the end of the log, its waiter at the entry's index, nothing sent yet. */
  lemma Proposed(s: State, v: Id, command: Command, ticket: Ticket)
    requires Enabled(s, ClientPropose(v, command, ticket)) && s.nodes[v].log.base == 0
    ensures var n, e := s.nodes[v], Entry(|s.nodes[v].log.entries| + 1, s.nodes[v].term, command);
            Next(s, ClientPropose(v, command, ticket)) ==
            s.(nodes := s.nodes[v := n.(log := Log(0, n.log.baseTerm, n.log.entries + [e]),
                                        waiters := n.waiters[e.index := ticket],
                                        proposals := n.proposals[ticket := Proposal(e, [])])])
  {
    var log := s.nodes[v].log;
    assert log.entries[..|log.entries|] == log.entries;
  }

  predicate Ahead(n: Node) {
    forall i | i in n.waiters :: n.lastApplied < i
  }

  lemma ProposeTreats(n: Node, command: Command, ticket: Ticket, step: Step, v: Id, t: Ticket)
    requires WaitersOk(n) && n.role.Leader? && ticket !in n.proposals && step == ClientPropose(v, command, ticket)
    ensures var n' := Propose(n, command, ticket).value;
            && Treated(n, n', step, v, t) && Ahead(n')
            && Waiting(n', ticket) && n'.proposals[ticket].sends == []
            && n'.proposals[ticket].entry == Entry(|n.log.entries| + 1, n.term, command)
            && n'.log == Log(0, n.log.baseTerm, n.log.entries + [n'.proposals[ticket].entry])
            && n'.proposals.Keys == n.proposals.Keys + {ticket}
  {
  }

  lemma CancelTreats(n: Node, ticket: Ticket, v: Id, t: Ticket)
    requires WaitersOk(n)
    ensures Treated(n, Cancel(n, ticket), ClientCancel(v, ticket), v, t) && Ahead(Cancel(n, ticket))
    ensures !Waiting(Cancel(n, ticket), ticket) && Cancel(n, ticket).proposals == n.proposals
  {
  }

  lemma ApplyTreats(s: State, v: Id, t: Ticket)
    requires Enabled(s, ApplyOne(v)) && WaitersOk(s.nodes[v])
    ensures v in Next(s, ApplyOne(v)).nodes
    ensures Treated(s.nodes[v], Next(s, ApplyOne(v)).nodes[v], ApplyOne(v), v, t) && Ahead(Next(s, ApplyOne(v)).nodes[v])
  {
    hide ApplyNext;
    AppliesNext(s, v);
  }

  /** Every step treats every proposal as it should, and leaves the waiters ahead of lastApplied. */
  lemma StepTreats(s: State, step: Step, v: Id, t: Ticket)
    requires Enabled(s, step) && v in s.nodes && WaitersOk(s.nodes[v])
    ensures v in Next(s, step).nodes
    ensures Treated(s.nodes[v], Next(s, step).nodes[v], step, v, t) && Ahead(Next(s, step).nodes[v])
  {
    hide HandleAppend, HandleVote, HandleReply, BecomeLeader, BecomeCandidate, Propose, AdvanceCommit, ApplyNext, BuildRequest, StepDown,
         Cancel, Wellformed, HasVotes, ProbeRequest, Treated, KeepsOrTells, WaitersOk, Ahead;
    var n := s.nodes[v];
    if H.Actor(s, step) != Some(v) {
      H.OnlyActor(s, step, v);
      Unmoved(n);
      Handled(n, n, step, v, t);
    } else {
      if step.ClientPropose? {
        ProposeTreats(n, step.command, step.ticket, step, v, t);
      } else if step.ClientCancel? {
        CancelTreats(n, step.ticket, v, t);
      } else if step.ApplyOne? {
        ApplyTreats(s, v, t);
      } else if step.Crash? {
        CrashTreats(n, v, t);
      } else {
        HandlerTells(s, step, v);
        Handled(n, Next(s, step).nodes[v], step, v, t);
      }
    }
  }

  lemma CrashTreats(n: Node, v: Id, t: Ticket)
    ensures Treated(n, Protocol.Restart(n), Crash(v), v, t) && Ahead(Protocol.Restart(n))
  {
  }

  lemma Handled(n: Node, n': Node, step: Step, v: Id, t: Ticket)
    requires WaitersOk(n) && KeepsOrTells(n, n') && step != Crash(v) && !CancelsAt(n, step, v, t)
    ensures Treated(n, n', step, v, t) && Ahead(n')
  {
    TellingTreats(n, n', step, v, t);
  }

  lemma HandlerTells(s: State, step: Step, v: Id)
    requires Enabled(s, step) && v in s.nodes && H.Actor(s, step) == Some(v)
    requires !step.ClientPropose? && !step.ClientCancel? && !step.ApplyOne? && !step.Crash?
    ensures v in Next(s, step).nodes && KeepsOrTells(s.nodes[v], Next(s, step).nodes[v])
  {
    hide HandleAppend, HandleVote, HandleReply, BecomeLeader, BecomeCandidate, AdvanceCommit, StepDown, Wellformed, HasVotes, KeepsOrTells;
    var n := s.nodes[v];
    OfficeTells(n);
    match step
    case DeliverVoteRequest(_, req) => VoteTells(n, req);
    case LearnFromVote(a) => StepDownTells(n, a.reply.term);
    case LearnFromProbe(a) => StepDownTells(n, a.term);
    case DeliverAppend(link) => AppendTells(n, s.exchanges[link].req);
    case DeliverProbe(probe) => AppendTells(n, probe.req);
    case DeliverReply(link) => ReplyTells(n, link.peer, s.exchanges[link].req, s.exchanges[link].reply);
    case _ =>
  }

  lemma {:induction false} WaitersStayOk(ss: seq<State>, steps: seq<Step>, j: nat, v: Id)
    requires IsRun(ss, steps) && j < |ss| && v in ss[0].nodes
    ensures v in ss[j].nodes && WaitersOk(ss[j].nodes[v])
  {
    hide IsRun, Inv, Enabled, Next, Treated;
    assert v in ss[j].nodes by { Member(ss, steps, j, v); }
    var shs := S.Shadows(ss, steps);
    if j == 0 {
      AtStart(ss, steps, v);
    } else {
      WaitersStayOk(ss, steps, j - 1, v);
      S.Taken(ss, steps, j - 1);
      StepTreats(ss[j - 1], steps[j - 1], v, 0);
    }
    AheadOk(ss[j], shs[j], v);
  }

  lemma Member(ss: seq<State>, steps: seq<Step>, j: nat, v: Id)
    requires IsRun(ss, steps) && j < |ss| && v in ss[0].nodes
    ensures v in ss[j].nodes
  {
    H.SameMembers(ss, steps, j);
  }

  lemma AtStart(ss: seq<State>, steps: seq<Step>, v: Id)
    requires IsRun(ss, steps) && v in ss[0].nodes
    ensures ss[0].nodes[v].waiters == map[] && ss[0].nodes[v].proposals == map[]
  {
    assert ss[0].nodes[v] == Start(v, ss[0].nodes[v].peers);
  }

  lemma AheadOk(s: State, sh: Shadow, v: Id)
    requires Inv(s, sh) && v in s.nodes && Ahead(s.nodes[v])
    ensures WaitersOk(s.nodes[v])
  {
    hide Inv, C.Inv, C.ShapeOk, OfficeOk;
    About(s, sh, v);
    S.Plain(s, sh, v);
  }

  /** Leaving office other than by a crash: every waiting proposal has been told that it was dropped, and none waits. */
  lemma OfficeLost(ss: seq<State>, steps: seq<Step>, i: nat, v: Id)
    requires IsRun(ss, steps) && i < |steps| && v in ss[0].nodes && v in ss[i].nodes && v in ss[i + 1].nodes
    requires ss[i].nodes[v].role.Leader? && !ss[i + 1].nodes[v].role.Leader? && steps[i] != Crash(v)
    ensures ss[i + 1].nodes[v].waiters == map[]
    ensures forall t | t in ss[i].nodes[v].proposals && Waiting(ss[i].nodes[v], t) ::
              t in ss[i + 1].nodes[v].proposals && ss[i + 1].nodes[v].proposals[t].sends == [Dropped]
  {
    hide IsRun, Inv, Enabled, Next;
    S.Taken(ss, steps, i);
    WaitersStayOk(ss, steps, i, v);
    WaitersStayOk(ss, steps, i + 1, v);
    forall t | t in ss[i].nodes[v].proposals && Waiting(ss[i].nodes[v], t)
      ensures t in ss[i + 1].nodes[v].proposals && ss[i + 1].nodes[v].proposals[t].sends == [Dropped]
    {
      StepTreats(ss[i], steps[i], v, t);
      CancelKeepsOffice(ss[i], steps[i], v, t);
    }
  }

  lemma CancelKeepsOffice(s: State, step: Step, v: Id, t: Ticket)
    requires Enabled(s, step) && v in s.nodes
    ensures CancelsAt(s.nodes[v], step, v, t) ==> v in Next(s, step).nodes && Next(s, step).nodes[v].role == s.nodes[v].role
  {
  }

  /** Step k ended t's waiting without an answer. */
  predicate Silenced(ss: seq<State>, steps: seq<Step>, v: Id, t: Ticket, k: nat) {
    && k < |steps| && k < |ss| && v in ss[k].nodes && Waiting(ss[k].nodes[v], t)
    && (steps[k] == Crash(v) || CancelsAt(ss[k].nodes[v], steps[k], v, t))
  }

  /** Where a proposal stands at moment j: it waits, at its entry in the leader's log and ahead of lastApplied; or it was answered, once; or a step before silenced it. */
  ghost predicate Accounted(ss: seq<State>, steps: seq<Step>, j: nat, v: Id, t: Ticket)
    requires j < |ss| && v in ss[j].nodes && t in ss[j].nodes[v].proposals
  {
    var n, p := ss[j].nodes[v], ss[j].nodes[v].proposals[t];
    if Waiting(n, t) then
      && p.sends == [] && n.role.Leader?
      && n.lastApplied < p.entry.index <= |n.log.entries| && n.log.entries[p.entry.index - 1] == p.entry
    else
      || p.sends == [Committed] || p.sends == [Dropped]
      || (p.sends == [] && exists k | 0 <= k < j :: Silenced(ss, steps, v, t, k))
  }

  /** Every Propose call ever made is accounted for, at every moment of every run. */
  lemma {:induction false} TicketAccounted(ss: seq<State>, steps: seq<Step>, j: nat, v: Id, t: Ticket)
    requires IsRun(ss, steps) && j < |ss| && v in ss[0].nodes && v in ss[j].nodes && t in ss[j].nodes[v].proposals
    ensures Accounted(ss, steps, j, v, t)
  {
    assert |ss| == |steps| + 1;
    hide IsRun, Enabled, Next, Treated, Accounted, WaitersOk, Waiting;
    WaitersStayOk(ss, steps, j, v);
    if j == 0 {
      AtStart(ss, steps, v);
      assert false;
    } else {
      WaitersStayOk(ss, steps, j - 1, v);
      S.Taken(ss, steps, j - 1);
      var n := ss[j - 1].nodes[v];
      if t in n.proposals {
        TicketAccounted(ss, steps, j - 1, v, t);
        StepTreats(ss[j - 1], steps[j - 1], v, t);
        StaysAccounted(ss, steps, j, v, t);
      } else {
        NewTicket(ss[j - 1], steps[j - 1], v, t);
        WaitingAccounted(ss, steps, j, v, t);
      }
    }
  }

  lemma WaitingAccounted(ss: seq<State>, steps: seq<Step>, j: nat, v: Id, t: Ticket)
    requires j < |ss| && v in ss[j].nodes && WaitersOk(ss[j].nodes[v]) && Waiting(ss[j].nodes[v], t)
    ensures Accounted(ss, steps, j, v, t)
  {
  }

  lemma StaysAccounted(ss: seq<State>, steps: seq<Step>, j: nat, v: Id, t: Ticket)
    requires 0 < j < |ss| && j <= |steps| && v in ss[j - 1].nodes && v in ss[j].nodes && t in ss[j - 1].nodes[v].proposals
    requires WaitersOk(ss[j].nodes[v]) && Treated(ss[j - 1].nodes[v], ss[j].nodes[v], steps[j - 1], v, t)
    requires Accounted(ss, steps, j - 1, v, t)
    ensures Accounted(ss, steps, j, v, t)
  {
    hide Silenced, CancelsAt, WaitersOk, Waiting;
    var n := ss[j - 1].nodes[v];
    if Waiting(ss[j].nodes[v], t) {
      WaitingAccounted(ss, steps, j, v, t);
    } else if Waiting(n, t) && (steps[j - 1] == Crash(v) || CancelsAt(n, steps[j - 1], v, t)) {
      Silences(ss, steps, v, t, j - 1);
    }
  }

  lemma Silences(ss: seq<State>, steps: seq<Step>, v: Id, t: Ticket, k: nat)
    requires k < |steps| && k < |ss| && v in ss[k].nodes && Waiting(ss[k].nodes[v], t)
    requires steps[k] == Crash(v) || CancelsAt(ss[k].nodes[v], steps[k], v, t)
    ensures Silenced(ss, steps, v, t, k)
  {
  }

  /** A ticket appears only when it is proposed, and then it waits. */
  lemma NewTicket(s: State, step: Step, v: Id, t: Ticket)
    requires Enabled(s, step) && v in s.nodes && WaitersOk(s.nodes[v]) && v in Next(s, step).nodes
    requires t !in s.nodes[v].proposals && t in Next(s, step).nodes[v].proposals
    ensures Waiting(Next(s, step).nodes[v], t)
  {
    hide HandleAppend, HandleVote, HandleReply, BecomeLeader, BecomeCandidate, Propose, AdvanceCommit, ApplyNext, BuildRequest, StepDown,
         Cancel, Wellformed, HasVotes, ProbeRequest, Treated, WaitersOk, Ahead;
    var n := s.nodes[v];
    if H.Actor(s, step) != Some(v) {
      H.OnlyActor(s, step, v);
    } else if step.ClientPropose? {
      ProposeTreats(n, step.command, step.ticket, step, v, step.ticket);
    } else if step.ClientCancel? {
      CancelTreats(n, step.ticket, v, 0);
    } else if step.ApplyOne? {
      OnlyTold(n);
    } else if !step.Crash? {
      HandlerTells(s, step, v);
    }
  }

  lemma OnlyTold(n: Node)
    ensures ApplyNext(n).proposals.Keys == n.proposals.Keys
  {
  }
}
