/** A follower handles AppendEntries: the truncating write, the commit it learns, the hint it gives. */
module FollowerSteps {
  import opened Types
  import opened Protocol
  import opened Cluster
  import opened Simulation
  import opened Frames
  import opened Steps
  import B = Backtracking
  import H = Heartbeats
  import C = Core
  import CoreSteps

  /** The core replica a node mirrors. */
  predicate Mirrors(r: C.Replica, n: Node) {
    && n.log.base == 0 && n.log.baseTerm == 0
    && r == C.Replica(n.term, n.votedFor, n.log.entries, n.commitIndex)
  }

  lemma Mirrored(s: State, k: C.State, p: Id)
    requires p in s.nodes && p in k.replicas && NodeOk(s, k, p)
    ensures Mirrors(k.replicas[p], s.nodes[p])
  {
  }

  /** If the consistency check passes, the follower agrees with the ledger up to prevIndex. */
  lemma CheckPassed(k: C.State, l: Id, p: Id, req: AppendRequest)
    requires C.LogsOk(k) && SentOk(k, l, req) && p in k.replicas
    requires var log := k.replicas[p].log;
             req.prevIndex == 0 || (req.prevIndex <= |log| && log[req.prevIndex - 1].term == req.prevTerm)
    ensures Agree(k.replicas[p].log, k.ledger[req.term], req.prevIndex)
  {
    if req.prevIndex != 0 {
      var t := req.term;
      CoreSteps.LogMatching(k.ledger, k.replicas[p].log, k.ledger[t], k.replicas[p].term, t, req.prevIndex);
    }
  }

  /** The write at the first new index leaves exactly a prefix of the ledger. */
  lemma WrittenLog(k: C.State, l: Id, req: AppendRequest, log: Log)
    requires C.LogsOk(k) && SentOk(k, l, req) && req.entries != []
    requires log.base == 0 && Agree(log.entries, k.ledger[req.term], req.prevIndex)
    ensures req.entries[0].index == req.prevIndex + 1
    ensures log.Append(req.entries).entries == k.ledger[req.term][..req.prevIndex + |req.entries|]
  {
    assert C.Grounded(k.ledger, k.ledger[req.term], req.term);
    assert req.entries[0] == k.ledger[req.term][req.prevIndex];
  }

  /** A request from the ledger is well formed wherever no snapshot exists. */
  lemma SentWellformed(k: C.State, l: Id, req: AppendRequest, log: Log)
    requires C.LogsOk(k) && SentOk(k, l, req) && log.base == 0
    ensures Wellformed(log, req)
  {
    assert C.Grounded(k.ledger, k.ledger[req.term], req.term);
  }

  /** Once in the request's term, the follower and the ledger part right after the batch. */
  lemma AskedApart(k: C.State, p: Id, t: nat, req: AppendRequest, b: C.State)
    requires C.LogsOk(k) && C.LogsOk(b) && AskedOk(k, p, req) && req.entries != [] && req.term == t
    requires C.Evolves(k, b) && b.ledger == k.ledger && p in b.replicas
    requires b.replicas[p].term == t && b.replicas[p].log == k.replicas[p].log && k.replicas[p].term <= t
    ensures !SameTermAt(b.replicas[p].log, b.ledger[t], req.prevIndex + |req.entries| + 1)
  {
    hide C.LogsOk;
    var i := req.prevIndex + |req.entries| + 1;
    StillApart(k, b, p, t, i, i);
  }

  lemma AcceptLocal(k: C.State, v: Id, j: nat, l: Id)
    requires C.ShapeOk(k) && C.CanAccept(k, v, j) && C.Evolves(k, C.Accept(k, v, j))
    requires k.leaders[k.replicas[v].term] == l
    ensures Local(k, C.Accept(k, v, j), v, Link(l, v))
  {
  }

  // ---------------------------------------------------------------- the entries

  lemma Parts(k: C.State)
    requires C.Inv(k)
    ensures C.ShapeOk(k) && C.LogsOk(k) && C.DecisionsOk(k) && C.CommitsOk(k)
  {
  }

  lemma WritePrefix(k: C.State, p: Id, j: nat)
    requires C.CanAccept(k, p, j)
    ensures var a := C.Accept(k, p, j);
            && a.replicas[p] == k.replicas[p].(log := k.ledger[k.replicas[p].term][..j])
            && a.ledger == k.ledger && a.ballots == k.ballots && a.leaders == k.leaders && a.commits == k.commits
            && C.Acked(a, k.replicas[p].term, p, j)
  {
  }

  /** The core's side of writing the request's entries. */
  lemma Write(k: C.State, l: Id, p: Id, req: AppendRequest, log: Log) returns (a: C.State)
    requires C.Inv(k) && p in k.replicas && p != l && k.replicas[p].term == req.term && SentOk(k, l, req)
    requires log.base == 0 && log.entries == k.replicas[p].log && Agree(log.entries, k.ledger[req.term], req.prevIndex)
    requires req.entries != [] ==> !SameTermAt(log.entries, k.ledger[req.term], req.prevIndex + |req.entries| + 1)
    ensures C.Inv(a) && Local(k, a, p, Link(l, p)) && p in a.replicas
    ensures req.entries != [] ==> req.entries[0].index == req.prevIndex + 1
    ensures a.replicas[p] == k.replicas[p].(log := log.Append(req.entries).entries)
    ensures a.ledger == k.ledger && a.ballots == k.ballots && a.leaders == k.leaders && a.commits == k.commits
    ensures Agree(a.replicas[p].log, a.ledger[req.term], req.prevIndex + |req.entries|)
    ensures req.entries != [] ==>
              && |a.replicas[p].log| == req.prevIndex + |req.entries|
              && C.Acked(a, req.term, p, req.prevIndex + |req.entries|)
    ensures req.entries == [] ==> a == k
  {
    hide C.Inv, C.LogsOk, C.DecisionsOk, C.CommitsOk, Local, C.Evolves, SameTermAt, C.Acked, C.Decided;
    if req.entries == [] {
      a := k;
      StutterLocal(k, p, Link(l, p));
    } else {
      var j := req.prevIndex + |req.entries|;
      Parts(k);
      assert C.CanAccept(k, p, j);
      a := C.Accept(k, p, j);
      WrittenLog(k, l, req, log);
      WritePrefix(k, p, j);
      hide C.Accept, C.CanAccept;
      CoreSteps.AcceptKeeps(k, p, j);
      AcceptLocal(k, p, j, l);
    }
  }

  // ---------------------------------------------------------------- the commit index

  /** What the leader announced is decided in the follower's log as far as that agrees with the ledger. */
  lemma LearnsAnnounced(k: C.State, l: Id, p: Id, req: AppendRequest, c: nat)
    requires SentOk(k, l, req) && p in k.replicas && p != l && k.replicas[p].term == req.term
    requires Agree(k.replicas[p].log, k.ledger[req.term], c) && c <= req.leaderCommit
    ensures C.CanLearn(k, p, c)
  {
    if c != 0 {
      var u :| C.DecidedIn(k, k.ledger[req.term], req.leaderCommit, req.term, u);
      assert C.DecidedIn(k, k.replicas[p].log, c, req.term, u);
    }
  }

  /** A heartbeat that passes the check shows that the follower shares all it may commit. */
  lemma LearnsProbed(k: C.State, l: Id, p: Id, req: AppendRequest, c: nat)
    requires C.Inv(k) && (forall t | t in k.ledger :: 0 < t) && Leads(k, l, req.term) && p != l
    requires H.Announced(k, req.term, req.prevIndex, req.prevTerm, req.leaderCommit)
    requires p in k.replicas && k.replicas[p].term == req.term && H.Passes(k.replicas[p].log, req.prevIndex, req.prevTerm)
    requires c <= |k.replicas[p].log| && c <= req.leaderCommit
    ensures C.CanLearn(k, p, c)
  {
    hide C.Inv, H.AnnouncedBy, H.Passes, H.Refused, C.DecidedIn;
    H.RefusedFails(k, p, req.term, req.prevIndex, req.prevTerm);
    if c != 0 {
      var w :| H.AnnouncedBy(k, req.term, req.prevIndex, req.prevTerm, req.leaderCommit, w);
      H.AnnouncedShares(k, p, req.term, req.prevIndex, req.prevTerm, req.leaderCommit, w, c);
    }
  }

  /** The commit index moves on, or stays. */
  lemma LearnHigher(k: C.State, l: Id, p: Id, c: nat) returns (k': C.State)
    requires C.Inv(k) && p in k.replicas && C.CanLearn(k, p, c)
    ensures k' == C.Learn(k, p, if c > k.replicas[p].commit then c else k.replicas[p].commit)
    ensures C.Inv(k') && Local(k, k', p, Link(l, p))
  {
    hide C.VotesOk, C.ElectionsOk, C.LogsOk, C.AcksOk, C.BallotsOk, C.SuccessionOk, C.CommitsOk,
         Local, C.Evolves, C.Known, C.ShapeOk;
    var i := if c > k.replicas[p].commit then c else k.replicas[p].commit;
    k' := C.Learn(k, p, i);
    CoreSteps.LearnKeeps(k, p, i);
    LearnLocal(k, p, i, Link(l, p));
  }

  lemma LearnCommit(k: C.State, l: Id, p: Id, req: AppendRequest, last: nat) returns (k': C.State)
    requires C.Inv(k) && p in k.replicas && p != l && k.replicas[p].term == req.term && SentOk(k, l, req)
    requires |k.replicas[p].log| == last
    requires Agree(k.replicas[p].log, k.ledger[req.term], req.prevIndex + |req.entries|)
    requires req.entries != [] ==> last == req.prevIndex + |req.entries|
    ensures var c := Min(req.leaderCommit, last);
            k' == C.Learn(k, p, if c > k.replicas[p].commit then c else k.replicas[p].commit)
    ensures C.Inv(k') && Local(k, k', p, Link(l, p))
  {
    hide C.Inv, C.CanLearn, Local, C.Decided;
    var c := Min(req.leaderCommit, last);
    LearnsAnnounced(k, l, p, req, c);
    k' := LearnHigher(k, l, p, c);
  }

  // ---------------------------------------------------------------- the whole handler

  /** The follower accepts: its log and commit index move as the leader's ledger allows. */
  lemma Accepting(k: C.State, l: Id, p: Id, n: Node, req: AppendRequest) returns (k': C.State)
    requires C.Inv(k) && p in k.replicas && p != l && Mirrors(k.replicas[p], n) && n.term == req.term
    requires SentOk(k, l, req) && Wellformed(n.log, req) && Conflict(n.log, n.term, req.prevIndex, req.prevTerm).None?
    requires req.entries != [] ==>
               !SameTermAt(n.log.entries, k.ledger[req.term], req.prevIndex + |req.entries| + 1)
    requires forall t | t in k.ledger :: 0 < t
    ensures req.entries != [] ==> req.entries[0].index == req.prevIndex + 1 <= n.log.LastIndex() + 1
    ensures C.Inv(k') && Local(k, k', p, Link(l, p)) && p in k'.replicas
    ensures k'.ledger == k.ledger && k'.ballots == k.ballots && k'.leaders == k.leaders && k'.commits == k.commits
    ensures var log := n.log.Append(req.entries);
            var c := Min(req.leaderCommit, log.LastIndex());
            k'.replicas[p] ==
              C.Replica(n.term, n.votedFor, log.entries, if c > n.commitIndex then c else n.commitIndex)
    ensures req.entries != [] ==>
              && |k'.replicas[p].log| == req.prevIndex + |req.entries|
              && C.Acked(k', req.term, p, req.prevIndex + |req.entries|)
              && Agree(k'.replicas[p].log, k.ledger[req.term], req.prevIndex + |req.entries|)
  {
    hide C.Inv, C.LogsOk, C.DecisionsOk, C.CommitsOk, Local, C.Evolves, SameTermAt, C.Decided;
    Parts(k);
    CheckPassed(k, l, p, req);
    var a := Write(k, l, p, req, n.log);
    SentSame(k, a, l, req);
    k' := LearnCommit(a, l, p, req, |a.replicas[p].log|);
    LocalTransitive(k, a, k', p, Link(l, p));
  }

  lemma SentSame(k: C.State, k': C.State, l: Id, req: AppendRequest)
    requires SentOk(k, l, req) && k'.ledger == k.ledger && k'.leaders == k.leaders && k'.commits == k.commits
    ensures SentOk(k', l, req)
  {
    if req.leaderCommit != 0 {
      var u :| C.DecidedIn(k, k.ledger[req.term], req.leaderCommit, req.term, u);
      assert C.DecidedIn(k', k.ledger[req.term], req.leaderCommit, req.term, u);
    }
  }

  /** A refusal in the request's own term carries a hint that fits the follower's log. */
  lemma RefusalHint(k: C.State, l: Id, p: Id, n: Node, req: AppendRequest)
    requires C.LogsOk(k) && p in k.replicas && Mirrors(k.replicas[p], n) && SentOk(k, l, req)
    requires forall t | t in k.ledger :: 0 < t
    requires Conflict(n.log, n.term, req.prevIndex, req.prevTerm).Some?
    ensures var reply := Conflict(n.log, n.term, req.prevIndex, req.prevTerm).value;
            && reply.term == n.term && !reply.success
            && 0 < reply.conflictIndex <= req.prevIndex
            && HintOk(n.log.entries, req, reply)
  {
    assert C.Grounded(k.ledger, n.log.entries, n.term);
    if req.prevIndex <= |n.log.entries| {
      B.StartOfRunScan(n.log, req.prevIndex);
      var r := StartOfRun(n.log, req.prevIndex);
      assert n.log.TermAt(r) == n.log.TermAt(req.prevIndex);
      assert 0 < n.log.entries[req.prevIndex - 1].term;
    }
  }

  lemma RecognizeMirrors(k: C.State, p: Id, n: Node, t: nat)
    requires p in k.replicas && Mirrors(k.replicas[p], n) && n.term <= t
    ensures Mirrors(Seen(k, p, t).replicas[p], Recognize(n, t)) && Recognize(n, t).term == t
    ensures Recognize(n, t).log == n.log
  {
  }

  /** The handler's three ways out. */
  lemma HandleCases(n: Node, req: AppendRequest)
    requires Wellformed(n.log, req)
    ensures req.term < n.term ==> HandleAppend(n, req) == (n, AppendReply(n.term, false, 0, 0))
    ensures req.term >= n.term ==>
              var m := Recognize(n, req.term);
              match Conflict(m.log, m.term, req.prevIndex, req.prevTerm)
              case Some(refusal) => HandleAppend(n, req) == (m, refusal)
              case None =>
                && (req.entries != [] ==> m.log.base < req.entries[0].index <= m.log.LastIndex() + 1)
                && var log := m.log.Append(req.entries);
                   var c := Min(req.leaderCommit, log.LastIndex());
                   HandleAppend(n, req) ==
                     (m.(log := log, commitIndex := if c > m.commitIndex then c else m.commitIndex),
                      AppendReply(m.term, true, 0, 0))
  {
    hide StartOfRun;
  }

  /** The core's side of HandleAppendEntries, for a request the leader of its term sent. */
  lemma Follow(k: C.State, l: Id, p: Id, n: Node, req: AppendRequest) returns (k': C.State)
    requires C.Inv(k) && p in k.replicas && p != l && Mirrors(k.replicas[p], n)
    requires forall t | t in k.ledger :: 0 < t
    requires SentOk(k, l, req) && AskedOk(k, p, req) && Wellformed(n.log, req)
    ensures C.Inv(k') && Local(k, k', p, Link(l, p)) && p in k'.replicas
    ensures k'.ledger == k.ledger && k'.ballots == k.ballots && k'.leaders == k.leaders && k'.commits == k.commits
    ensures var (n', reply) := HandleAppend(n, req);
            && Mirrors(k'.replicas[p], n')
            && reply.term == n'.term
            && AnsweredOk(k', p, req, reply)
    ensures req.term < n.term ==> k' == k
    ensures req.entries == [] ==> k'.replicas[p].log == k.replicas[p].log
    ensures req.term in k.ledger
    ensures || k'.replicas[p].log == k.replicas[p].log
            || (&& k'.replicas[p].term == req.term
                && |k'.replicas[p].log| == req.prevIndex + |req.entries|
                && Agree(k'.replicas[p].log, k.ledger[req.term], req.prevIndex + |req.entries|))
  {
    hide C.Inv, C.LogsOk, C.DecisionsOk, C.CommitsOk, Local, C.Evolves, C.Decided, Conflict, AskedOk, HandleAppend, Recognize,
         SentOk, AnsweredOk;
    Parts(k);
    SentLeads(k, l, req);
    HandleCases(n, req);
    if req.term < n.term {
      k' := k;
      StutterLocal(k, p, Link(l, p));
      StaleAnswered(k, p, req);
    } else {
      var b, m := Seen(k, p, req.term), Recognize(n, req.term);
      SeenKeeps(k, p, req.term, Link(l, p));
      RecognizeMirrors(k, p, n, req.term);
      SentSame(k, b, l, req);
      Parts(b);
      if Conflict(m.log, m.term, req.prevIndex, req.prevTerm).Some? {
        RefusedAnswered(b, l, p, m, req);
        k' := b;
      } else {
        if req.entries != [] {
          LocalEvolves(k, b, p, Link(l, p));
          AskedApart(k, p, req.term, req, b);
        }
        k' := Accepting(b, l, p, m, req);
        LocalTransitive(k, b, k', p, Link(l, p));
        AcceptedAnswered(k', p, req);
      }
    }
  }

  lemma SentLeads(k: C.State, l: Id, req: AppendRequest)
    requires SentOk(k, l, req)
    ensures Leads(k, l, req.term)
  {
  }

  lemma StaleAnswered(k: C.State, p: Id, req: AppendRequest)
    requires p in k.replicas && req.term in k.ledger && req.term < k.replicas[p].term
    ensures AnsweredOk(k, p, req, AppendReply(k.replicas[p].term, false, 0, 0))
  {
  }

  lemma RefusedAnswered(k: C.State, l: Id, p: Id, n: Node, req: AppendRequest)
    requires C.LogsOk(k) && p in k.replicas && Mirrors(k.replicas[p], n) && SentOk(k, l, req) && n.term == req.term
    requires forall t | t in k.ledger :: 0 < t
    requires Conflict(n.log, n.term, req.prevIndex, req.prevTerm).Some?
    ensures var reply := Conflict(n.log, n.term, req.prevIndex, req.prevTerm).value;
            reply.term == n.term && AnsweredOk(k, p, req, reply)
  {
    hide Conflict, C.LogsOk, HintOk;
    RefusalHint(k, l, p, n, req);
  }

  lemma AcceptedAnswered(k: C.State, p: Id, req: AppendRequest)
    requires p in k.replicas && req.term in k.ledger && k.replicas[p].term == req.term
    requires req.entries != [] ==>
               && |k.replicas[p].log| == req.prevIndex + |req.entries|
               && C.Acked(k, req.term, p, req.prevIndex + |req.entries|)
    ensures AnsweredOk(k, p, req, AppendReply(req.term, true, 0, 0))
  {
  }

  /** The core's side of handling a read's heartbeat, which only makes a term and a commit index known. */
  lemma FollowProbe(k: C.State, l: Id, p: Id, n: Node, req: AppendRequest) returns (k': C.State)
    requires C.Inv(k) && p in k.replicas && p != l && Mirrors(k.replicas[p], n) && Wellformed(n.log, req)
    requires (forall t | t in k.ledger :: 0 < t) && req.entries == [] && Leads(k, l, req.term)
    requires H.Announced(k, req.term, req.prevIndex, req.prevTerm, req.leaderCommit)
    ensures C.Inv(k') && Local(k, k', p, Link(l, p)) && p in k'.replicas && k'.ballots == k.ballots && k'.ledger == k.ledger
    ensures var (n', reply) := HandleAppend(n, req);
            Mirrors(k'.replicas[p], n') && reply.term == n'.term
    ensures req.term < n.term ==> k' == k
    ensures k'.replicas[p].log == k.replicas[p].log
  {
    hide C.Inv, Local, Conflict, HandleAppend, Recognize, H.Announced, H.Passes, C.CanLearn, C.Evolves;
    HandleCases(n, req);
    if req.term < n.term {
      k' := k;
      StutterLocal(k, p, Link(l, p));
    } else {
      var b, m := Seen(k, p, req.term), Recognize(n, req.term);
      SeenKeeps(k, p, req.term, Link(l, p));
      RecognizeMirrors(k, p, n, req.term);
      RefusalTerm(m, req);
      if Conflict(m.log, m.term, req.prevIndex, req.prevTerm).Some? {
        k' := b;
      } else {
        CheckPasses(m, req);
        LocalEvolves(k, b, p, Link(l, p));
        H.AnnouncedLasts(k, b, req.term, req.prevIndex, req.prevTerm, req.leaderCommit);
        var c := Min(req.leaderCommit, m.log.LastIndex());
        LearnsProbed(b, l, p, req, c);
        k' := LearnHigher(b, l, p, c);
        LocalTransitive(k, b, k', p, Link(l, p));
      }
    }
  }

  lemma CheckPasses(n: Node, req: AppendRequest)
    requires Conflict(n.log, n.term, req.prevIndex, req.prevTerm).None? && n.log.base == 0
    ensures H.Passes(n.log.entries, req.prevIndex, req.prevTerm)
  {
    hide StartOfRun;
  }

  lemma RefusalTerm(n: Node, req: AppendRequest)
    ensures var r := Conflict(n.log, n.term, req.prevIndex, req.prevTerm); r.Some? ==> r.value.term == n.term
  {
  }
}
