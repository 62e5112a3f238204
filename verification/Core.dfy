/**
 The protocol stripped to what safety depends on: each replica's durable term, vote and log and its
 commit index, together with the history the argument speaks about. `ledger[t]` is the longest log
 the leader of term t has had in that term.

 A follower never compares the entries it is sent with the ones it holds: it drops everything from
 the first new index on. `Accept` is that write, and its precondition is what the leader's choice
 of nextIndex and of the batch end has to guarantee.
 */
module Core {
  import opened Types
  import opened Quorums

  datatype Replica = Replica(term: nat, vote: Id, log: seq<Entry>, commit: nat)

  /** A node in a term: the place of a vote, and of an acknowledgement. */
  datatype Seat = Seat(term: nat, node: Id)

  /** A vote, with the log the voter held when it was cast. */
  datatype Ballot = Ballot(candidate: Id, log: seq<Entry>)

  datatype State = State(
    members: set<Id>,
    replicas: map<Id, Replica>,
    ballots: map<Seat, Ballot>,
    leaders: map<nat, Id>,
    ledger: map<nat, seq<Entry>>,
    acks: map<Seat, nat>,
    commits: map<nat, nat>)

  // ---------------------------------------------------------------- vocabulary

  /** Raft's comparison: a later last term, or the same one and a log at least as long. */
  predicate UpToDate(candidate: seq<Entry>, voter: seq<Entry>) {
    if LastTermOf(candidate) != LastTermOf(voter) then LastTermOf(candidate) > LastTermOf(voter)
    else |candidate| >= |voter|
  }

  /** Every entry of `log` stems from its term's leader, with everything that leader had before it. */
  predicate Grounded(ledger: map<nat, seq<Entry>>, log: seq<Entry>, bound: nat) {
    forall i | 0 <= i < |log| ::
      && log[i].index == i + 1
      && log[i].term <= bound
      && log[i].term in ledger
      && Agree(log, ledger[log[i].term], i + 1)
  }

  predicate Acked(s: State, t: nat, v: Id, k: nat) {
    Seat(t, v) in s.acks && k <= s.acks[Seat(t, v)]
  }

  /** Index `k` of term t's ledger is an entry of term t itself: one its leader may commit by count. */
  predicate OwnEntry(s: State, t: nat, k: nat) {
    t in s.ledger && 0 < k <= |s.ledger[t]| && s.ledger[t][k - 1].term == t
  }

  predicate AckedBy(s: State, t: nat, k: nat, q: set<Id>) {
    IsQuorum(s.members, q) && forall v | v in q :: Acked(s, t, v, k)
  }

  /** A quorum has left term t without acknowledging index k, so k can no longer be committed there. */
  predicate BlockedBy(s: State, t: nat, k: nat, q: set<Id>) {
    && IsQuorum(s.members, q)
    && forall v | v in q :: v in s.replicas && t < s.replicas[v].term && !Acked(s, t, v, k)
  }

  ghost predicate Blocked(s: State, t: nat, k: nat) {
    exists q :: BlockedBy(s, t, k, q)
  }

  ghost predicate KeptIn(s: State, t: nat, k: nat, log: seq<Entry>)
    requires t in s.ledger
  {
    Agree(s.ledger[t], log, k) || Blocked(s, t, k)
  }

  predicate ElectedBy(s: State, t: nat, q: set<Id>)
    requires t in s.leaders
  {
    && IsQuorum(s.members, q)
    && forall v | v in q :: Seat(t, v) in s.ballots && s.ballots[Seat(t, v)].candidate == s.leaders[t]
  }

  /**
   The first `c` entries of `log` were committed by the leader of some term, and whoever led from `bound` on before that
   term holds them too.
   */
  ghost predicate Decided(s: State, log: seq<Entry>, c: nat, bound: nat) {
    c == 0 || exists t :: DecidedIn(s, log, c, bound, t)
  }

  predicate DecidedIn(s: State, log: seq<Entry>, c: nat, bound: nat, t: nat) {
    && t in s.commits && t in s.ledger
    && c <= s.commits[t]
    && Agree(s.ledger[t], log, c)
    && forall u | bound <= u < t :: u in s.ledger && Agree(s.ledger[u], log, c)
  }

  predicate Leading(s: State, v: Id) {
    v in s.replicas && s.replicas[v].term in s.leaders && s.leaders[s.replicas[v].term] == v
  }

  /** The first c entries of a node's log are decided; by a leader up to its own term, if it leads that. */
  ghost predicate Known(s: State, v: Id, c: nat)
    requires v in s.replicas
  {
    var r := s.replicas[v];
    c == 0 || exists t: nat :: DecidedIn(s, r.log, c, r.term, t) && (Leading(s, v) ==> t <= r.term)
  }

  // ---------------------------------------------------------------- invariant

  predicate ShapeOk(s: State) {
    && s.replicas.Keys == s.members
    && NOBODY !in s.members
    && s.leaders.Keys == s.ledger.Keys
  }

  predicate VotesOk(s: State) {
    forall b | b in s.ballots ::
      && b.node in s.replicas
      && s.ballots[b].candidate != NOBODY
      && b.term <= s.replicas[b.node].term
      && (b.term == s.replicas[b.node].term ==> s.replicas[b.node].vote == s.ballots[b].candidate)
  }

  ghost predicate ElectionsOk(s: State) {
    forall t | t in s.leaders ::
      && s.leaders[t] in s.replicas
      && t <= s.replicas[s.leaders[t]].term
      && exists q :: ElectedBy(s, t, q)
  }

  predicate LogsOk(s: State) {
    && (forall v | v in s.replicas :: Grounded(s.ledger, s.replicas[v].log, s.replicas[v].term))
    && (forall t | t in s.ledger :: Grounded(s.ledger, s.ledger[t], t))
    && (forall b | b in s.ballots :: Grounded(s.ledger, s.ballots[b].log, b.term))
  }

  ghost predicate AcksOk(s: State) {
    forall b | b in s.acks ::
      && b.node in s.replicas
      && b.term in s.ledger
      && b.term <= s.replicas[b.node].term
      && s.acks[b] <= |s.ledger[b.term]|
      && forall k: nat | k <= s.acks[b] && OwnEntry(s, b.term, k) :: KeptIn(s, b.term, k, s.replicas[b.node].log)
  }

  /** What a voter had acknowledged was in its log when it voted, unless it can no longer matter. */
  ghost predicate BallotsOk(s: State) {
    forall b, t: nat, k: nat | b in s.ballots && t < b.term && OwnEntry(s, t, k) && Acked(s, t, b.node, k) ::
      KeptIn(s, t, k, s.ballots[b].log)
  }

  /** What a leader may still commit is in the log of every later leader. */
  ghost predicate SuccessionOk(s: State) {
    forall t: nat, u: nat, k: nat | t < u && u in s.ledger && OwnEntry(s, t, k) :: KeptIn(s, t, k, s.ledger[u])
  }

  ghost predicate CommitsOk(s: State) {
    forall t | t in s.commits :: OwnEntry(s, t, s.commits[t]) && exists q :: AckedBy(s, t, s.commits[t], q)
  }

  ghost predicate DecisionsOk(s: State) {
    forall v | v in s.replicas :: Known(s, v, s.replicas[v].commit)
  }

  ghost predicate Inv(s: State) {
    && ShapeOk(s) && VotesOk(s) && ElectionsOk(s) && LogsOk(s)
    && AcksOk(s) && BallotsOk(s) && SuccessionOk(s) && CommitsOk(s) && DecisionsOk(s)
  }

  /** What no step ever takes back. */
  predicate Evolves(s: State, s': State) {
    && s'.members == s.members
    && s.replicas.Keys <= s'.replicas.Keys
    && (forall v | v in s.replicas :: s.replicas[v].term <= s'.replicas[v].term)
    && (forall b | b in s.ballots :: b in s'.ballots && s'.ballots[b] == s.ballots[b])
    && (forall t | t in s.leaders :: t in s'.leaders && s'.leaders[t] == s.leaders[t])
    && (forall t | t in s.ledger :: t in s'.ledger && Agree(s.ledger[t], s'.ledger[t], |s.ledger[t]|))
    && (forall b | b in s.acks :: b in s'.acks && s.acks[b] <= s'.acks[b])
    && (forall b | b in s'.acks && b.node in s.replicas && b.term < s.replicas[b.node].term ::
          b in s.acks && s'.acks[b] == s.acks[b])
    && (forall t | t in s.commits :: t in s'.commits && s.commits[t] <= s'.commits[t])
  }

  // ---------------------------------------------------------------- steps

  function Init(members: set<Id>): State {
    State(members, map v | v in members :: Replica(0, NOBODY, [], 0), map[], map[], map[], map[], map[])
  }

  /** A node learns of a later term: its vote is cleared. */
  function Bump(s: State, v: Id, t: nat): State
    requires v in s.replicas
  {
    s.(replicas := s.replicas[v := s.replicas[v].(term := t, vote := NOBODY)])
  }

  /** A node gives its first vote in its current term. */
  function Cast(s: State, v: Id, c: Id): State
    requires v in s.replicas
  {
    var r := s.replicas[v];
    s.(replicas := s.replicas[v := r.(vote := c)],
       ballots := s.ballots[Seat(r.term, v) := Ballot(c, r.log)])
  }

  /** A candidate takes office with a no-op of its term appended. */
  function Elect(s: State, c: Id, e: Entry): State
    requires c in s.replicas
  {
    var r := s.replicas[c];
    var log := r.log + [e];
    s.(replicas := s.replicas[c := r.(log := log)],
       leaders := s.leaders[r.term := c],
       ledger := s.ledger[r.term := log],
       acks := s.acks[Seat(r.term, c) := |log|])
  }

  predicate CanElect(s: State, c: Id, e: Entry, q: set<Id>) {
    && c in s.replicas
    && s.replicas[c].term !in s.ledger
    && e.index == |s.replicas[c].log| + 1 && e.term == s.replicas[c].term
    && IsQuorum(s.members, q)
    && forall v | v in q ::
         && Seat(e.term, v) in s.ballots
         && s.ballots[Seat(e.term, v)].candidate == c
         && UpToDate(s.replicas[c].log, s.ballots[Seat(e.term, v)].log)
  }

  /** A leader appends one entry of its term. */
  function Extend(s: State, c: Id, e: Entry): State
    requires c in s.replicas
  {
    var r := s.replicas[c];
    var log := r.log + [e];
    s.(replicas := s.replicas[c := r.(log := log)],
       ledger := s.ledger[r.term := log],
       acks := s.acks[Seat(r.term, c) := |log|])
  }

  predicate CanExtend(s: State, c: Id, e: Entry) {
    && c in s.replicas
    && var r := s.replicas[c];
    && r.term in s.ledger && s.leaders.Keys == s.ledger.Keys && s.leaders[r.term] == c
    && r.log == s.ledger[r.term]
    && e.index == |r.log| + 1 && e.term == r.term
  }

  function Max(a: nat, b: nat): nat {
    if a < b then b else a
  }

  /** A follower in term t replaces its log by the first j entries of the leader's. */
  function Accept(s: State, v: Id, j: nat): State
    requires v in s.replicas && s.replicas[v].term in s.ledger && j <= |s.ledger[s.replicas[v].term]|
  {
    var r := s.replicas[v];
    var b := Seat(r.term, v);
    s.(replicas := s.replicas[v := r.(log := s.ledger[r.term][..j])],
       acks := s.acks[b := Max(j, if b in s.acks then s.acks[b] else 0)])
  }

  /** The write keeps whatever the two logs agreed on: they do not agree at the index after it. */
  predicate CanAccept(s: State, v: Id, j: nat) {
    && v in s.replicas
    && var t := s.replicas[v].term;
    && t in s.ledger && t in s.leaders && s.leaders[t] != v
    && 0 < j <= |s.ledger[t]|
    && !SameTermAt(s.replicas[v].log, s.ledger[t], j + 1)
  }

  function Commit(s: State, t: nat, k: nat): State {
    s.(commits := s.commits[t := k])
  }

  predicate CanCommit(s: State, t: nat, k: nat, q: set<Id>) {
    OwnEntry(s, t, k) && AckedBy(s, t, k, q) && (t in s.commits ==> s.commits[t] <= k)
  }

  /** A node's commit index moves: to something decided, or back to zero on a restart. */
  function Learn(s: State, v: Id, c: nat): State
    requires v in s.replicas
  {
    s.(replicas := s.replicas[v := s.replicas[v].(commit := c)])
  }

  ghost predicate CanLearn(s: State, v: Id, c: nat) {
    v in s.replicas && Known(s, v, c)
  }
}
