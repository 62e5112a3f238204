/**
 How far a node can judge by its own log. For any log a leader, or a former one, may have, a state of five members is built
 that satisfies the whole invariant of the protocol: one term has committed an index, and another may have left a member
 with a log that parts from the first one's. With it the conditions on heartbeats and on reads are exact.
 */
module Witnesses {
  import opened Types
  import opened Quorums
  import opened Protocol
  import opened Heartbeats
  import B = Backtracking
  import C = Core
  import CoreSteps

  /** The log of a leader of term t: numbered, ascending, with an entry of its own at the end. */
  predicate LeaderLog(L: seq<Entry>, t: nat) {
    && L != [] && L[|L| - 1].term == t && B.TermsAscend(L)
    && forall i | 0 <= i < |L| :: L[i].index == i + 1
  }

  /** Where the follower's log parts from L: after m entries, with an entry of term u; or nowhere. */
  datatype Fork = Straight | Fork(m: nat, u: nat)

  /**
   Leader l of term t has log L and knows index c committed. Term w has committed index d, acknowledged by l, x and y. Member
   p holds the fork, if there is one, and has led its term with the votes of x and y; and it has led the term
   first, unless that is 0. Member f has the log rest and is in term seen.
   */
  datatype World = World(L: seq<Entry>, t: nat, c: nat, w: nat, d: nat, fork: Fork, first: nat, rest: seq<Entry>, seen: nat,
                         l: Id, p: Id, f: Id, x: Id, y: Id)
  {
    predicate Fits() {
      && LeaderLog(L, t) && 0 < d <= |L| && L[d - 1].term == w && c <= d && (w == t ==> d <= c)
      && Apart() && first < t && (fork.Fork? ==> Forks())
      && (rest <= L || (fork.Fork? && fork.m <= |L| && rest == ForkLog())) && forall i | 0 <= i < |rest| :: rest[i].term <= seen
    }

    predicate Forks()
      requires fork.Fork?
    {
      && fork.m < d && fork.m <= |L| && 1 <= fork.u < w
      && (fork.m > 0 ==> L[fork.m - 1].term <= fork.u)
      && forall i | fork.m <= i < |L| :: L[i].term != fork.u
    }

    predicate Apart() {
      && l != p && l != f && l != x && l != y && p != f && p != x && p != y && f != x && f != y && x != y
      && NOBODY !in Everyone()
    }

    function Everyone(): set<Id> {
      {l, p, f, x, y}
    }

    predicate Forked(v: nat) {
      fork.Fork? && v == fork.u
    }

    function ForkLog(): seq<Entry>
      requires fork.Fork? && fork.m <= |L|
    {
      L[..fork.m] + [Entry(fork.m + 1, fork.u, Noop)]
    }

    predicate First(v: nat) {
      0 < v == first
    }

    function Leader(v: nat): Id {
      if Forked(v) || First(v) then p else l
    }

    predicate HasTerm(v: nat) {
      B.Holds(L, v) || Forked(v) || First(v)
    }

    /** Where p is: in the later of the terms it has led. */
    function Third(): C.Replica
      requires fork.Fork? ==> fork.m <= |L|
    {
      if fork.Fork? then C.Replica(C.Max(first, fork.u), p, ForkLog(), 0)
      else C.Replica(first, if first == 0 then NOBODY else p, [], 0)
    }
  }

  // ---------------------------------------------------------------- the state

  /** How many entries of L have a term up to v. */
  function Upto(L: seq<Entry>, v: nat): (n: nat)
    ensures n <= |L| && (n < |L| ==> L[n].term > v) && (n > 0 ==> L[n - 1].term <= v)
  {
    if L == [] || L[|L| - 1].term <= v then |L| else Upto(L[..|L| - 1], v)
  }

  lemma UptoIs(L: seq<Entry>, v: nat)
    requires B.TermsAscend(L)
    ensures forall i | 0 <= i < |L| :: i < Upto(L, v) <==> L[i].term <= v
  {
    var n := Upto(L, v);
    forall i | 0 <= i < |L| ensures i < n <==> L[i].term <= v {
      assert i < n ==> L[i].term <= L[n - 1].term;
      assert i >= n ==> L[n].term <= L[i].term;
    }
  }

  function TermsOf(o: World): set<nat> {
    (set i | 0 <= i < |o.L| :: o.L[i].term) + (if o.fork.Fork? then {o.fork.u} else {}) + (if o.first == 0 then {} else {o.first})
  }

  function BuildBallots(o: World): map<C.Seat, C.Ballot> {
    map v, q | v in TermsOf(o) && q in {o.Leader(v), o.x, o.y} ::
      C.Seat(v, q) := C.Ballot(o.Leader(v), if o.Forked(v) || v == 0 then [] else o.L[..Upto(o.L, v - 1)])
  }

  function BuildLedger(o: World): map<nat, seq<Entry>>
    requires o.Fits()
  {
    map v | v in TermsOf(o) :: if o.Forked(v) then o.ForkLog() else o.L[..Upto(o.L, v)]
  }

  function BuildAcks(o: World): map<C.Seat, nat> {
    map[C.Seat(o.w, o.l) := o.d, C.Seat(o.w, o.x) := o.d, C.Seat(o.w, o.y) := o.d][C.Seat(o.t, o.l) := |o.L|]
  }

  function Build(o: World): C.State
    requires o.Fits()
  {
    C.State(
      o.Everyone(),
      map[o.l := C.Replica(o.t, o.l, o.L, o.c),
          o.p := o.Third(),
          o.f := C.Replica(o.seen, NOBODY, o.rest, 0),
          o.x := C.Replica(o.t, o.l, o.L, 0),
          o.y := C.Replica(o.t, o.l, o.L, 0)],
      BuildBallots(o),
      map v | v in TermsOf(o) :: o.Leader(v),
      BuildLedger(o),
      BuildAcks(o),
      map[o.w := o.d])
  }

  // What the construction amounts to.

  predicate Members(o: World, k: C.State)
    requires o.Fits()
  {
    && k.members == o.Everyone() == k.replicas.Keys
    && k.replicas[o.l] == C.Replica(o.t, o.l, o.L, o.c)
    && k.replicas[o.x] == C.Replica(o.t, o.l, o.L, 0) == k.replicas[o.y]
    && k.replicas[o.p] == o.Third() && k.replicas[o.f] == C.Replica(o.seen, NOBODY, o.rest, 0)
    && k.commits == map[o.w := o.d]
  }

  /** The term's prefix of L: exactly its entries up to that term. */
  predicate Prefix(o: World, log: seq<Entry>, v: nat) {
    |log| <= |o.L| && log == o.L[..|log|] && forall i | 0 <= i < |o.L| :: i < |log| <==> o.L[i].term <= v
  }

  ghost predicate Ledgers(o: World, k: C.State)
    requires o.Fits()
  {
    && k.leaders.Keys == k.ledger.Keys
    && (forall v: nat :: v in k.ledger <==> o.HasTerm(v))
    && (forall v | v in k.ledger ::
          && k.leaders[v] == o.Leader(v)
          && if o.Forked(v) then k.ledger[v] == o.ForkLog() else Prefix(o, k.ledger[v], v))
  }

  /** A voter of l held every older entry of L; a voter of p held nothing. */
  ghost predicate Votes(o: World, k: C.State) {
    && (forall v: nat | o.HasTerm(v) :: C.Seat(v, o.Leader(v)) in k.ballots && C.Seat(v, o.x) in k.ballots && C.Seat(v, o.y) in k.ballots)
    && (forall b | b in k.ballots ::
          && o.HasTerm(b.term) && b.node in {o.Leader(b.term), o.x, o.y} && k.ballots[b].candidate == o.Leader(b.term)
          && (k.ballots[b].log == [] || (0 < b.term && Prefix(o, k.ballots[b].log, b.term - 1)))
          && (!o.Forked(b.term) && 0 < b.term ==> Prefix(o, k.ballots[b].log, b.term - 1)))
  }

  predicate Acks(o: World, k: C.State) {
    && C.Acked(k, o.w, o.l, o.d) && C.Acked(k, o.w, o.x, o.d) && C.Acked(k, o.w, o.y, o.d)
    && forall b | b in k.acks ::
         && b.node in {o.l, o.x, o.y} && b.term in {o.w, o.t}
         && k.acks[b] <= if b.term == o.t then |o.L| else o.d
  }

  ghost predicate Models(o: World, k: C.State) {
    o.Fits() && Members(o, k) && Ledgers(o, k) && Votes(o, k) && Acks(o, k)
  }

  lemma TermsAre(o: World, v: nat)
    ensures v in TermsOf(o) <==> o.HasTerm(v)
  {
  }

  lemma PrefixIs(o: World, v: nat)
    requires o.Fits()
    ensures Prefix(o, o.L[..Upto(o.L, v)], v)
  {
    UptoIs(o.L, v);
  }

  lemma BuildVotes(o: World)
    requires o.Fits()
    ensures Votes(o, Build(o))
  {
    hide TermsOf, Upto, Prefix, World.HasTerm, World.Leader, BuildLedger, BuildAcks, World.ForkLog;
    var ballots := BuildBallots(o);
    forall v: nat ensures v in TermsOf(o) <==> o.HasTerm(v) {
      TermsAre(o, v);
    }
    forall b | b in ballots
      ensures && o.HasTerm(b.term) && b.node in {o.Leader(b.term), o.x, o.y} && ballots[b].candidate == o.Leader(b.term)
              && (ballots[b].log == [] || (0 < b.term && Prefix(o, ballots[b].log, b.term - 1)))
              && (!o.Forked(b.term) && 0 < b.term ==> Prefix(o, ballots[b].log, b.term - 1))
    {
      if b.term > 0 {
        PrefixIs(o, b.term - 1);
      }
    }
  }

  lemma BuildLedgers(o: World)
    requires o.Fits()
    ensures Ledgers(o, Build(o))
  {
    hide TermsOf, Upto, Prefix, World.HasTerm, World.Leader, BuildBallots, BuildAcks, World.ForkLog;
    forall v: nat ensures v in TermsOf(o) <==> o.HasTerm(v) {
      TermsAre(o, v);
    }
    forall v: nat ensures Prefix(o, o.L[..Upto(o.L, v)], v) {
      PrefixIs(o, v);
    }
  }

  lemma BuildModels(o: World)
    requires o.Fits()
    ensures Models(o, Build(o))
  {
    hide Votes, Ledgers, BuildBallots, BuildLedger, TermsOf, World.ForkLog, World.Leader;
    BuildVotes(o);
    BuildLedgers(o);
    assert o.L[o.d - 1].term <= o.L[|o.L| - 1].term;
  }

  // ---------------------------------------------------------------- its invariant

  /** A prefix of L is grounded: each entry's term has a ledger that holds it and all before it. */
  lemma PrefixGrounded(o: World, k: C.State, n: nat, bound: nat)
    requires o.Fits() && Ledgers(o, k) && n <= |o.L| && forall i | 0 <= i < n :: o.L[i].term <= bound
    ensures C.Grounded(k.ledger, o.L[..n], bound)
  {
    var log := o.L[..n];
    forall i | 0 <= i < n
      ensures log[i].index == i + 1 && log[i].term in k.ledger && Agree(log, k.ledger[log[i].term], i + 1)
    {
      var v := o.L[i].term;
      assert B.Holds(o.L, v);
      assert v in k.ledger;
      if o.Forked(v) {
        assert i < o.fork.m;
      }
    }
  }

  lemma RestGrounded(o: World, k: C.State)
    requires o.Fits() && Ledgers(o, k)
    ensures C.Grounded(k.ledger, o.rest, o.seen)
  {
    if o.rest <= o.L {
      PrefixGrounded(o, k, |o.rest|, o.seen);
      assert o.rest == o.L[..|o.rest|];
    } else {
      assert o.rest[o.fork.m].term == o.fork.u;
      ForkGrounded(o, k, o.seen);
    }
  }

  lemma ForkGrounded(o: World, k: C.State, bound: nat)
    requires o.Fits() && Ledgers(o, k) && o.fork.Fork? && o.fork.u <= bound
    ensures C.Grounded(k.ledger, o.ForkLog(), bound)
  {
    var log, u := o.ForkLog(), o.fork.u;
    assert o.HasTerm(u) && k.ledger[u] == log;
    forall i | 0 <= i < o.fork.m ensures o.L[i].term <= u {
      assert o.L[i].term <= o.L[o.fork.m - 1].term;
    }
    PrefixGrounded(o, k, o.fork.m, u);
    forall i | 0 <= i < |log|
      ensures log[i].index == i + 1 && log[i].term <= u && log[i].term in k.ledger && Agree(log, k.ledger[log[i].term], i + 1)
    {
      if i < o.fork.m {
        assert log[i] == o.L[..o.fork.m][i];
      }
    }
  }

  lemma BuiltLogs(o: World, k: C.State)
    requires Models(o, k)
    ensures C.LogsOk(k)
  {
    hide C.Grounded, World.ForkLog, World.HasTerm, World.Leader, Votes, Acks;
    NothingGrounded(k.ledger, o.first);
    TermsWithin(o);
    assert o.L[..|o.L|] == o.L;
    PrefixGrounded(o, k, |o.L|, o.t);
    if o.fork.Fork? {
      ForkGrounded(o, k, C.Max(o.first, o.fork.u));
      ForkGrounded(o, k, o.fork.u);
    }
    RestGrounded(o, k);
    forall v | v in k.ledger ensures C.Grounded(k.ledger, k.ledger[v], v) {
      if !o.Forked(v) {
        PrefixGrounded(o, k, |k.ledger[v]|, v);
      }
    }
    BuiltBallotLogs(o, k);
  }

  lemma BuiltBallotLogs(o: World, k: C.State)
    requires Models(o, k)
    ensures forall b | b in k.ballots :: C.Grounded(k.ledger, k.ballots[b].log, b.term)
  {
    hide C.Grounded, World.ForkLog, World.HasTerm, World.Leader, Members, Ledgers, Acks;
    forall b | b in k.ballots ensures C.Grounded(k.ledger, k.ballots[b].log, b.term) {
      NothingGrounded(k.ledger, b.term);
      if k.ballots[b].log != [] {
        PrefixGrounded(o, k, |k.ballots[b].log|, b.term);
      }
    }
  }

  lemma NothingGrounded(ledger: map<nat, seq<Entry>>, bound: nat)
    ensures C.Grounded(ledger, [], bound)
  {
  }

  /** No term is beyond the leader's, and the fork's is before the committing one. */
  lemma TermsWithin(o: World)
    requires o.Fits()
    ensures (forall i | 0 <= i < |o.L| :: 0 < o.L[i].term <= o.t) && 0 < o.w <= o.t
    ensures forall v: nat | o.HasTerm(v) :: 0 < v <= o.t && (o.Forked(v) ==> v < o.w)
  {
    forall i | 0 <= i < |o.L| ensures 0 < o.L[i].term <= o.t {
      assert o.L[i].term <= o.L[|o.L| - 1].term;
    }
  }

  lemma Majorities(o: World)
    requires o.Fits()
    ensures IsQuorum(o.Everyone(), {o.l, o.x, o.y}) && IsQuorum(o.Everyone(), {o.p, o.x, o.y})
  {
    assert |{o.l, o.x, o.y}| == |{o.p, o.x, o.y}| == 3;
    assert |o.Everyone()| == 5;
  }

  lemma BuiltVotes(o: World, k: C.State)
    requires Models(o, k)
    ensures C.ShapeOk(k) && C.VotesOk(k)
  {
    hide Prefix, World.ForkLog, World.HasTerm, Acks;
    TermsWithin(o);
  }

  lemma BuiltElections(o: World, k: C.State)
    requires Models(o, k)
    ensures C.ElectionsOk(k)
  {
    hide IsQuorum, Prefix, World.ForkLog, World.HasTerm, Acks;
    Majorities(o);
    TermsWithin(o);
    forall v | v in k.leaders ensures exists q :: C.ElectedBy(k, v, q) {
      assert C.ElectedBy(k, v, {o.Leader(v), o.x, o.y});
    }
  }

  /** The ledgers of the committing term and of the leader's. */
  lemma MainLedgers(o: World, k: C.State)
    requires Models(o, k)
    ensures o.w in k.ledger && o.t in k.ledger && k.ledger[o.t] == o.L
    ensures o.d <= |k.ledger[o.w]| <= |o.L| && k.ledger[o.w] == o.L[..|k.ledger[o.w]|]
  {
    hide Votes, Acks;
    TermsWithin(o);
    assert B.Holds(o.L, o.L[o.d - 1].term) && B.Holds(o.L, o.L[|o.L| - 1].term);
    assert o.HasTerm(o.w) && o.HasTerm(o.t);
    assert Prefix(o, k.ledger[o.w], o.w) && Prefix(o, k.ledger[o.t], o.t);
  }

  lemma BuiltAcks(o: World, k: C.State)
    requires Models(o, k)
    ensures C.AcksOk(k)
  {
    hide Votes, Ledgers, World.ForkLog, World.HasTerm;
    MainLedgers(o, k);
    TermsWithin(o);
  }

  lemma BuiltBallots(o: World, k: C.State)
    requires Models(o, k)
    ensures C.BallotsOk(k)
  {
    hide Ledgers, World.ForkLog, World.HasTerm;
    MainLedgers(o, k);
    TermsWithin(o);
    forall b, v: nat, i: nat | b in k.ballots && v < b.term && C.OwnEntry(k, v, i) && C.Acked(k, v, b.node, i)
      ensures C.KeptIn(k, v, i, k.ballots[b].log)
    {
      assert v == o.w && !o.Forked(b.term);
      assert Prefix(o, k.ballots[b].log, b.term - 1);
      assert o.L[i - 1].term == o.w;
    }
  }

  /** What the fork does not share was acknowledged by nobody, and l and x are past it. */
  lemma BuiltBlocked(o: World, k: C.State, v: nat, i: nat)
    requires Models(o, k) && v < o.w && (v < o.t)
    ensures C.Blocked(k, v, i)
  {
    hide IsQuorum, Votes, Ledgers, World.ForkLog, World.HasTerm;
    Majorities(o);
    assert C.BlockedBy(k, v, i, {o.l, o.x, o.y});
  }

  lemma BuiltSuccession(o: World, k: C.State)
    requires Models(o, k)
    ensures C.SuccessionOk(k)
  {
    hide Votes, Acks, Members, C.Blocked;
    TermsWithin(o);
    forall v: nat, v': nat, i: nat | v < v' && v' in k.ledger && C.OwnEntry(k, v, i) ensures C.KeptIn(k, v, i, k.ledger[v']) {
      if o.Forked(v) || o.Forked(v') {
        BuiltBlocked(o, k, v, i);
        Beside(o, k, v, v', i);
      } else {
        assert Prefix(o, k.ledger[v], v) && Prefix(o, k.ledger[v'], v');
        assert o.L[i - 1].term == v;
      }
    }
  }

  lemma Beside(o: World, k: C.State, v: nat, v': nat, i: nat)
    requires v in k.ledger && v' in k.ledger && C.Blocked(k, v, i)
    ensures C.KeptIn(k, v, i, k.ledger[v'])
  {
  }

  lemma BuiltCommits(o: World, k: C.State)
    requires Models(o, k)
    ensures C.CommitsOk(k) && C.DecisionsOk(k)
  {
    hide IsQuorum, Votes, Ledgers, World.ForkLog, World.HasTerm;
    MainLedgers(o, k);
    TermsWithin(o);
    Majorities(o);
    assert C.AckedBy(k, o.w, o.d, {o.l, o.x, o.y});
    assert C.DecidedIn(k, o.L, o.c, o.t, o.w);
  }

  lemma BuiltInv(o: World, k: C.State)
    requires Models(o, k)
    ensures C.Inv(k)
  {
    hide C.ShapeOk, C.VotesOk, C.ElectionsOk, C.LogsOk, C.AcksOk, C.BallotsOk, C.SuccessionOk, C.CommitsOk, C.DecisionsOk, Models;
    BuiltVotes(o, k);
    BuiltElections(o, k);
    BuiltLogs(o, k);
    BuiltAcks(o, k);
    BuiltBallots(o, k);
    BuiltSuccession(o, k);
    BuiltCommits(o, k);
  }

  /** The leader is in office there, with its log and commit index, and nobody has voted in a later term. */
  lemma Built(o: World, k: C.State)
    requires Models(o, k)
    ensures InOffice(k, o.l, o.t, o.c) && k.ledger[o.t] == o.L
    ensures forall b | b in k.ballots :: b.term <= o.t
  {
    hide C.ShapeOk, C.VotesOk, C.ElectionsOk, C.LogsOk, C.AcksOk, C.BallotsOk, C.SuccessionOk, C.CommitsOk, C.DecisionsOk,
         World.HasTerm, World.ForkLog, Prefix, C.Inv;
    BuiltInv(o, k);
    MainLedgers(o, k);
    TermsWithin(o);
    assert o.Leader(o.t) == o.l;
  }

  // ---------------------------------------------------------------- heartbeats

  /** Node f is member p of the state. */
  predicate Is(k: C.State, p: Id, f: Node) {
    && p in k.replicas && f.log.base == 0 && f.log.baseTerm == 0
    && k.replicas[p] == C.Replica(f.term, f.votedFor, f.log.entries, f.commitIndex)
  }

  /** What a node has committed, every leader of its term or a later one holds: no request it may still get takes it away. */
  predicate Safe(k: C.State, n: Node) {
    forall u | u in k.ledger && n.term <= u :: Agree(k.ledger[u], n.log.entries, n.commitIndex)
  }

  /** In a state of the protocol, leader l in office has log L and commit index c, and f is another node. */
  ghost predicate Meets(k: C.State, l: Id, p: Id, L: seq<Entry>, t: nat, c: nat, f: Node) {
    InOffice(k, l, t, c) && k.ledger[t] == L && p != l && Is(k, p, f)
  }

  /** Whomever it meets, the leader's heartbeat makes nobody commit anything unsafe. */
  ghost predicate Harmless(L: seq<Entry>, t: nat, prev: nat, c: nat) {
    forall k, l, p, f: Node | Meets(k, l, p, L, t, c, f) :: Safe(k, HandleAppend(f, Heartbeat(L, t, l, prev, c)).0)
  }

  lemma HeartbeatHandled(f: Node, req: AppendRequest)
    requires req.entries == [] && f.log.base == 0
    ensures var n := HandleAppend(f, req).0;
            && n.log == f.log
            && ((n.commitIndex == f.commitIndex && f.term <= n.term) ||
                (f.term <= req.term == n.term && n.commitIndex <= req.leaderCommit && n.commitIndex <= |f.log.entries| &&
                 Passes(f.log.entries, req.prevIndex, req.prevTerm)))
  {
    hide StartOfRun;
  }

  lemma DecidedSafe(k: C.State, log: seq<Entry>, c: nat, bound: nat, w: nat, u: nat)
    requires C.Inv(k) && C.DecidedIn(k, log, c, bound, w) && u in k.ledger && bound <= u
    ensures Agree(k.ledger[u], log, c)
  {
    hide C.Inv;
    if w <= u {
      CoreSteps.LeaderCompleteness(k, w, u);
    }
  }

  /** What is announced as it should be is safe with whoever gets it. */
  lemma AnnouncedSafe(k: C.State, p: Id, f: Node, req: AppendRequest)
    requires C.Inv(k) && (forall v | v in k.ledger :: 0 < v) && Is(k, p, f) && req.entries == []
    requires Announced(k, req.term, req.prevIndex, req.prevTerm, req.leaderCommit)
    ensures Safe(k, HandleAppend(f, req).0)
  {
    hide C.Inv, HandleAppend, Passes, AnnouncedBy, Refused, C.DecidedIn;
    var n := HandleAppend(f, req).0;
    HeartbeatHandled(f, req);
    forall u | u in k.ledger && n.term <= u ensures Agree(k.ledger[u], n.log.entries, n.commitIndex) {
      if n.commitIndex == f.commitIndex && f.term <= n.term {
        StaysSafe(k, p, u);
      } else if n.commitIndex != 0 {
        RefusedFails(k, p, req.term, req.prevIndex, req.prevTerm);
        var w: nat :| AnnouncedBy(k, req.term, req.prevIndex, req.prevTerm, req.leaderCommit, w);
        AnnouncedShares(k, p, req.term, req.prevIndex, req.prevTerm, req.leaderCommit, w, n.commitIndex);
        DecidedSafe(k, f.log.entries, n.commitIndex, req.term, w, u);
      }
    }
  }

  lemma StaysSafe(k: C.State, p: Id, u: nat)
    requires C.Inv(k) && p in k.replicas && u in k.ledger && k.replicas[p].term <= u
    ensures Agree(k.ledger[u], k.replicas[p].log, k.replicas[p].commit)
  {
    hide C.VotesOk, C.ElectionsOk, C.AcksOk, C.BallotsOk, C.SuccessionOk, C.LogsOk, C.CommitsOk, C.ShapeOk;
    var r := k.replicas[p];
    CoreSteps.KnownDecided(k, p);
    if r.commit != 0 {
      var w: nat :| C.DecidedIn(k, r.log, r.commit, r.term, w);
      DecidedSafe(k, r.log, r.commit, r.term, w, u);
    }
  }

  /** Where the condition fails, there is a world with a fork to show it. */
  lemma FindWorld(L: seq<Entry>, t: nat, prev: nat, c: nat) returns (o: World)
    requires LeaderLog(L, t) && prev <= |L| && c <= |L| && !Seamless(L, t, prev, c)
    ensures o.Fits() && o.fork.Fork? && (o.L, o.t, o.c, o.first) == (L, t, c, 0) && prev <= o.fork.m < c
  {
    var a := TermBelow(L, prev);
    if OneTerm(L, prev, c) {
      var u: nat, v: nat :| a <= u < v < t && B.Holds(L, v) && !B.Holds(L, u);
      var i :| 0 <= i < |L| && L[i].term == v;
      o := Named(L, t, c, v, i + 1, Fork(prev, u), 0, [], 0);
      assert forall j | prev <= j < |L| :: L[j].term != u;
    } else {
      var m := FirstAbove(L, prev, c);
      o := Named(L, t, c, L[c - 1].term, c, Fork(m, a), 0, [], 0);
    }
  }

  function Named(L: seq<Entry>, t: nat, c: nat, w: nat, d: nat, fork: Fork, first: nat, rest: seq<Entry>, seen: nat): (o: World)
    ensures o.Apart()
  {
    World(L, t, c, w, d, fork, first, rest, seen, "l", "p", "f", "x", "y")
  }

  /** The first entry after prev with another term than the one there. */
  lemma FirstAbove(L: seq<Entry>, prev: nat, c: nat) returns (m: nat)
    requires B.TermsAscend(L) && prev < c <= |L| && !OneTerm(L, prev, c)
    ensures prev <= m < c && TermBelow(L, prev) < L[m].term <= L[c - 1].term
    ensures (m > 0 ==> L[m - 1].term == TermBelow(L, prev)) && forall i | m <= i < |L| :: L[i].term > TermBelow(L, prev)
  {
    var a := TermBelow(L, prev);
    m := prev;
    while m < c && L[m].term == a
      invariant prev <= m <= c && (m > 0 ==> L[m - 1].term == a)
      invariant forall i | prev <= i < m :: L[i].term == a
    {
      m := m + 1;
    }
  }

  function NodeOf(id: Id, r: C.Replica): Node {
    Start(id, []).(term := r.term, votedFor := r.vote, log := Log(0, 0, r.log), commitIndex := r.commit)
  }

  lemma ForkMeets(o: World)
    requires o.Fits() && o.fork.Fork?
    ensures Meets(Build(o), o.l, o.p, o.L, o.t, o.c, NodeOf(o.p, o.Third()))
  {
    hide Ledgers, Votes, Acks, Build, InOffice, World.ForkLog;
    BuildModels(o);
    Built(o, Build(o));
  }

  /** A node on the fork, not past term t, passes the check at prev and commits an entry that is not in L. */
  lemma ForkCommits(o: World, prev: nat, leader: Id, t: nat, c: nat, L: seq<Entry>, f: Node)
    requires o.Fits() && o.fork.Fork? && prev <= o.fork.m < c <= |L| && L <= o.L && o.fork.m < |L|
    requires f.log == Log(0, 0, o.ForkLog()) && f.term <= t && f.commitIndex == 0
    ensures var n := HandleAppend(f, Heartbeat(L, t, leader, prev, c)).0;
            n.log == f.log && n.term == t && n.commitIndex == o.fork.m + 1
    ensures !Agree(o.L, o.ForkLog(), o.fork.m + 1)
  {
    assert o.L[o.fork.m] != o.ForkLog()[o.fork.m];
    assert prev > 0 ==> L[prev - 1] == o.L[prev - 1] == o.ForkLog()[prev - 1];
    hide World.Fits;
    CommitsThrough(L, t, leader, prev, c, f);
  }

  /** A node that passes the check commits as far as its log goes. */
  lemma CommitsThrough(L: seq<Entry>, t: nat, leader: Id, prev: nat, c: nat, f: Node)
    requires prev <= |L| && prev <= |f.log.entries| && f.log.base == 0 && f.term <= t && f.commitIndex == 0
    requires prev > 0 ==> L[prev - 1].term == f.log.entries[prev - 1].term
    ensures var n := HandleAppend(f, Heartbeat(L, t, leader, prev, c)).0;
            n.log == f.log && n.term == t && n.commitIndex == Min(c, |f.log.entries|)
  {
  }

  lemma ForkHarmed(o: World, prev: nat)
    requires o.Fits() && o.fork.Fork? && prev <= o.fork.m < o.c && o.first == 0
    ensures Meets(Build(o), o.l, o.p, o.L, o.t, o.c, NodeOf(o.p, o.Third()))
    ensures !Safe(Build(o), HandleAppend(NodeOf(o.p, o.Third()), Heartbeat(o.L, o.t, o.l, prev, o.c)).0)
  {
    hide Build, HandleAppend, InOffice, Agree, World.ForkLog;
    ForkMeets(o);
    TermsWithin(o);
    ForkCommits(o, prev, o.l, o.t, o.c, o.L, NodeOf(o.p, o.Third()));
    InLedger(Build(o), o.l, o.t, o.c);
  }

  lemma InLedger(k: C.State, l: Id, t: nat, c: nat)
    requires InOffice(k, l, t, c)
    ensures t in k.ledger
  {
  }

  /**
   The exact condition: over all states of the protocol, a leader's heartbeat is harmless to whomever it meets if and
   only if it is seamless on the leader's own log.
   */
  lemma HeartbeatHarmless(L: seq<Entry>, t: nat, prev: nat, c: nat)
    requires LeaderLog(L, t) && prev <= |L| && c <= |L|
    ensures Harmless(L, t, prev, c) <==> Seamless(L, t, prev, c)
  {
    hide HandleAppend, Seamless, LeaderLog, Safe, Announced, C.Inv;
    if Seamless(L, t, prev, c) {
      forall k, l, p, f: Node | Meets(k, l, p, L, t, c, f) ensures Safe(k, HandleAppend(f, Heartbeat(L, t, l, prev, c)).0) {
        SeamlessAnnounced(k, l, t, prev, c);
        AnnouncedSafe(k, p, f, Heartbeat(L, t, l, prev, c));
      }
    } else {
      hide InOffice;
      var o := FindWorld(L, t, prev, c);
      ForkHarmed(o, prev);
      assert Meets(Build(o), o.l, o.p, L, t, c, NodeOf(o.p, o.Third()));
    }
  }

  // ---------------------------------------------------------------- heartbeats of a node that has moved on

  /** In a state of the protocol, node s has led term t and is in term `now`, with log L and commit index c. */
  ghost predicate MovedOn(k: C.State, s: Id, L: seq<Entry>, t: nat, now: nat, c: nat) {
    && C.Inv(k) && (forall v | v in k.ledger :: 0 < v) && t in k.leaders && k.leaders[t] == s && s in k.replicas
    && var r := k.replicas[s]; r.term == now && r.log == L && r.commit == c
  }

  /** What any log can be in a term. */
  predicate AnyLog(L: seq<Entry>, now: nat) {
    B.TermsAscend(L) && forall i | 0 <= i < |L| :: L[i].index == i + 1 && L[i].term <= now
  }

  ghost predicate MeetsLate(k: C.State, s: Id, p: Id, L: seq<Entry>, t: nat, now: nat, c: nat, f: Node) {
    MovedOn(k, s, L, t, now, c) && p != s && Is(k, p, f)
  }

  /** Whomever it meets, the heartbeat such a node still sends in term t makes nobody commit anything unsafe. */
  ghost predicate LateHarmless(L: seq<Entry>, t: nat, now: nat, prev: nat, c: nat) {
    forall k, s, p, f: Node | MeetsLate(k, s, p, L, t, now, c, f) :: Safe(k, HandleAppend(f, Heartbeat(L, t, s, prev, c)).0)
  }

  /** The leader of the last term has committed its whole log, own entry included, and p has led another. */
  predicate Committed(o: World) {
    o.Fits() && o.w == o.t && o.d == o.c == |o.L| && 1 < |o.L| && 0 < o.first
  }

  /** What f has and p announces ends in an entry that the fork's leader did not hold. */
  predicate Behind(o: World, t: nat, prev: nat, c: nat) {
    && o.fork.Fork? && 0 < c < |o.L| && prev < |o.L| && o.fork.m == c - 1 && t <= o.fork.u
    && o.rest == o.L[..C.Max(prev, c)] && o.seen == t
  }

  /** Or f is on the fork. */
  predicate Aside(o: World, t: nat, prev: nat, c: nat) {
    && o.fork.Fork? && prev <= o.fork.m < c < |o.L|
    && o.rest == o.ForkLog() && o.seen == t
  }

  function Full(L: seq<Entry>, t: nat): seq<Entry> {
    L + [Entry(|L| + 1, t, Noop)]
  }

  lemma TakesOffice(L: seq<Entry>, t: nat)
    requires AnyLog(L, t) && 0 < t
    ensures LeaderLog(Full(L, t), t) && Full(L, t)[..|L|] == L
  {
  }

  lemma BehindFits(L: seq<Entry>, t: nat, now: nat, prev: nat, c: nat, u: nat) returns (o: World)
    requires AnyLog(L, now) && 0 < t < now && 0 < c <= |L| && prev <= |L| && t <= u < now && !B.Holds(L, u)
    requires forall i | 0 <= i < C.Max(prev, c) :: L[i].term <= t
    ensures Committed(o) && o.L[..|o.L| - 1] == L && (o.t, o.first) == (now, t) && |o.L| == |L| + 1 && Behind(o, t, prev, c)
  {
    hide LeaderLog;
    TakesOffice(L, now);
    var M := Full(L, now);
    o := Named(M, now, |M|, now, |M|, Fork(c - 1, u), t, M[..C.Max(prev, c)], t);
    assert forall i | 0 <= i < |L| :: M[i].term == L[i].term != u;
  }

  lemma AsideFits(L: seq<Entry>, t: nat, now: nat, prev: nat, c: nat, m: nat, u: nat) returns (o: World)
    requires AnyLog(L, now) && 0 < t < now && prev <= m < c <= |L| && 0 < u <= t
    requires (m > 0 ==> L[m - 1].term <= u) && forall i | m <= i < |L| :: L[i].term != u
    ensures Committed(o) && o.L[..|o.L| - 1] == L && (o.t, o.first) == (now, t) && |o.L| == |L| + 1 && Aside(o, t, prev, c)
  {
    hide LeaderLog;
    TakesOffice(L, now);
    var M := Full(L, now);
    assert forall i | 0 <= i < m :: M[i].term <= M[m - 1].term;
    o := Named(M, now, |M|, now, |M|, Fork(m, u), t, M[..m] + [Entry(m + 1, u, Noop)], t);
  }

  /** Where the condition fails, one of the two can be had. */
  lemma FindLate(L: seq<Entry>, t: nat, now: nat, prev: nat, c: nat) returns (o: World)
    requires AnyLog(L, now) && 0 < t < now && c <= |L| && !Unbroken(L, t, now, prev, c)
    ensures Committed(o) && o.L[..|o.L| - 1] == L && (o.t, o.first) == (now, t)
    ensures 0 < c < |o.L| && prev < |o.L| && (Behind(o, t, prev, c) || Aside(o, t, prev, c))
  {
    hide B.Holds, Committed, Behind, Aside;
    if c <= prev {
      var u: nat :| t <= u < now && !B.Holds(L, u);
      o := BehindFits(L, t, now, prev, c, u);
    } else if OneTerm(L, prev, c) {
      var a := TermBelow(L, prev);
      var u: nat :| a <= u < now && !B.Holds(L, u);
      if t <= u {
        UpToPrev(L, prev, c);
        o := BehindFits(L, t, now, prev, c, u);
      } else {
        NotHeld(L, u);
        o := AsideFits(L, t, now, prev, c, prev, u);
      }
    } else {
      var m := FirstAbove(L, prev, c);
      o := AsideFits(L, t, now, prev, c, m, TermBelow(L, prev));
    }
  }

  lemma UpToPrev(L: seq<Entry>, prev: nat, c: nat)
    requires B.TermsAscend(L) && OneTerm(L, prev, c)
    ensures forall i | 0 <= i < c :: L[i].term <= TermBelow(L, prev)
  {
    assert L[c - 1].term == TermBelow(L, prev);
  }

  lemma NotHeld(L: seq<Entry>, u: nat)
    requires !B.Holds(L, u)
    ensures forall i | 0 <= i < |L| :: L[i].term != u
  {
  }

  /** Member p reaches the last term, is given all but the last entry, and learns that c is committed. */
  lemma LateState(o: World, c: nat) returns (k: C.State)
    requires Committed(o) && c < |o.L|
    ensures MovedOn(k, o.p, o.L[..|o.L| - 1], o.first, o.t, c) && k.ledger == Build(o).ledger
    ensures Is(k, o.f, NodeOf(o.f, C.Replica(o.seen, NOBODY, o.rest, 0)))
  {
    hide C.Inv, C.Evolves, Build, Votes, World.ForkLog, C.CanLearn;
    var k0, j := Build(o), |o.L| - 1;
    BuildModels(o);
    BuiltInv(o, k0);
    MainLedgers(o, k0);
    TermsWithin(o);
    PartsBefore(o);
    CoreSteps.BumpKeeps(k0, o.p, o.t);
    var k1 := C.Bump(k0, o.p, o.t);
    assert o.HasTerm(o.first) && o.HasTerm(o.t) && o.Leader(o.t) == o.l;
    CoreSteps.AcceptKeeps(k1, o.p, j);
    var k2 := C.Accept(k1, o.p, j);
    Learns(k2, o.p, o.w, c);
    CoreSteps.LearnKeeps(k2, o.p, c);
    k := C.Learn(k2, o.p, c);
  }

  lemma Learns(k: C.State, p: Id, w: nat, c: nat)
    requires p in k.replicas && w in k.commits && w in k.ledger && c <= k.commits[w] && Agree(k.ledger[w], k.replicas[p].log, c)
    requires w <= k.replicas[p].term
    ensures C.CanLearn(k, p, c)
  {
    assert C.DecidedIn(k, k.replicas[p].log, c, k.replicas[p].term, w);
  }

  lemma PartsBefore(o: World)
    requires Committed(o)
    ensures !SameTermAt(o.Third().log, o.L, |o.L|) && o.Third().term < o.t
  {
    TermsWithin(o);
  }

  lemma BehindHarmed(o: World, k: C.State, t: nat, prev: nat, c: nat)
    requires Committed(o) && k.ledger == Build(o).ledger && Behind(o, t, prev, c)
    ensures var f := NodeOf(o.f, C.Replica(o.seen, NOBODY, o.rest, 0));
            !Safe(k, HandleAppend(f, Heartbeat(o.L[..|o.L| - 1], t, o.p, prev, c)).0)
  {
    hide Build, Votes, Acks, Members, HandleAppend;
    BuildModels(o);
    var f := NodeOf(o.f, C.Replica(o.seen, NOBODY, o.rest, 0));
    var L, u := o.L[..|o.L| - 1], o.fork.u;
    assert o.rest == L[..C.Max(prev, c)];
    CommitsThrough(L, t, o.p, prev, c, f);
    assert o.HasTerm(u) && k.ledger[u] == o.ForkLog() && o.ForkLog()[c - 1] != o.rest[c - 1];
  }

  lemma AsideHarmed(o: World, k: C.State, t: nat, prev: nat, c: nat)
    requires Committed(o) && k.ledger == Build(o).ledger && Aside(o, t, prev, c) && t <= o.t
    ensures var f := NodeOf(o.f, C.Replica(o.seen, NOBODY, o.rest, 0));
            !Safe(k, HandleAppend(f, Heartbeat(o.L[..|o.L| - 1], t, o.p, prev, c)).0)
  {
    hide Build, Votes, Acks, Members, HandleAppend, World.ForkLog;
    BuildModels(o);
    MainLedgers(o, Build(o));
    ForkCommits(o, prev, o.p, t, c, o.L[..|o.L| - 1], NodeOf(o.f, C.Replica(o.seen, NOBODY, o.rest, 0)));
  }

  /**
   And for a node that has moved on: its heartbeat in a term it led before is harmless to whomever it meets, over all
   states of the protocol, if and only if it is unbroken on the node's own log.
   */
  lemma LateHeartbeatHarmless(L: seq<Entry>, t: nat, now: nat, prev: nat, c: nat)
    requires AnyLog(L, now) && 0 < t < now && c <= |L|
    ensures LateHarmless(L, t, now, prev, c) <==> Unbroken(L, t, now, prev, c)
  {
    hide HandleAppend, Unbroken, AnyLog, Safe, Announced, C.Inv, Committed, Behind, Aside, Build;
    if Unbroken(L, t, now, prev, c) {
      forall k, s, p, f: Node | MeetsLate(k, s, p, L, t, now, c, f) ensures Safe(k, HandleAppend(f, Heartbeat(L, t, s, prev, c)).0) {
        UnbrokenAnnounced(k, s, t, prev);
        AnnouncedSafe(k, p, f, Heartbeat(L, t, s, prev, c));
      }
    } else {
      var o := FindLate(L, t, now, prev, c);
      var k := LateState(o, c);
      if Behind(o, t, prev, c) {
        BehindHarmed(o, k, t, prev, c);
      } else {
        AsideHarmed(o, k, t, prev, c);
      }
      Distinct(o);
      assert MeetsLate(k, o.p, o.f, L, t, now, c, NodeOf(o.f, C.Replica(o.seen, NOBODY, o.rest, 0)));
    }
  }

  lemma Distinct(o: World)
    requires Committed(o)
    ensures o.p != o.f
  {
  }

  // ---------------------------------------------------------------- reads

  /** Leader l is in office, and nobody has voted past its term: what a confirmed read shows of the moment it began. */
  ghost predicate Unchallenged(k: C.State, l: Id, L: seq<Entry>, t: nat, c: nat) {
    InOffice(k, l, t, c) && k.ledger[t] == L && forall b | b in k.ballots :: b.term <= t
  }

  /**
   Likewise for reads: over all such states, nothing is committed beyond the leader's commit index if and only if the
   entry after it is the leader's own or there is none.
   */
  lemma ReadConditionExact(L: seq<Entry>, t: nat, c: nat)
    requires LeaderLog(L, t) && c <= |L|
    ensures (forall k, l, w | Unchallenged(k, l, L, t, c) && w in k.commits :: k.commits[w] <= c)
            <==> (c < |L| ==> L[c].term == t)
  {
    hide InOffice, LeaderLog, Build;
    if c < |L| ==> L[c].term == t {
      forall k, l, w | Unchallenged(k, l, L, t, c) && w in k.commits ensures k.commits[w] <= c {
        NothingBeyond(k, l, t, c, w);
      }
    } else {
      var o := Named(L, t, c, L[c].term, c + 1, Straight, 0, [], 0);
      Inherits(L, t, c);
      BuildModels(o);
      Built(o, Build(o));
      assert Unchallenged(Build(o), o.l, L, t, c) && o.w in Build(o).commits;
    }
  }

  lemma Inherits(L: seq<Entry>, t: nat, c: nat)
    requires LeaderLog(L, t) && c < |L| && L[c].term != t
    ensures Named(L, t, c, L[c].term, c + 1, Straight, 0, [], 0).Fits()
  {
  }

  lemma NothingBeyond(k: C.State, l: Id, t: nat, c: nat, w: nat)
    requires InOffice(k, l, t, c) && (forall b | b in k.ballots :: b.term <= t) && w in k.commits
    requires c < |k.ledger[t]| ==> k.ledger[t][c].term == t
    ensures k.commits[w] <= c
  {
    hide C.VotesOk, C.AcksOk, C.BallotsOk, C.SuccessionOk, C.DecisionsOk, C.LogsOk;
    assert C.OwnEntry(k, w, k.commits[w]);
    assert w in k.leaders;
    var q :| C.ElectedBy(k, w, q);
    assert w <= t by {
      var v := QuorumsMeet(k.members, q, q);
    }
    CoreSteps.LeaderCompleteness(k, w, t);
    if c < k.commits[w] {
      OwnAbove(k, t, c, k.commits[w] - 1);
    }
  }

  lemma OwnAbove(k: C.State, t: nat, i: nat, j: nat)
    requires C.LogsOk(k) && t in k.ledger && i <= j < |k.ledger[t]| && k.ledger[t][i].term == t
    ensures k.ledger[t][j].term == t
  {
    assert C.Grounded(k.ledger, k.ledger[t], t);
    CoreSteps.TermsAscend(k, k.ledger[t], t, i, j);
  }
}
