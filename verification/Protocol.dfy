/**
 What each handler and role change of one node computes, as functions of the node's state. The
 cluster model runs these; the classes in RaftNode are proved against them.
 */
module Protocol {
  import opened Types

  datatype Role = Follower | Candidate | Leader

  /** What Propose's channel can deliver: nil, or the dropped-proposal error. */
  datatype Outcome = Committed | Dropped

  /** A Propose call and everything ever sent on its one-slot channel. */
  type Ticket = nat
  datatype Proposal = Proposal(entry: Entry, sends: seq<Outcome>)

  datatype Node = Node(
    id: Id,
    peers: seq<Id>,
    // durable
    term: nat,
    votedFor: Id,
    log: Log,
    // volatile
    role: Role,
    commitIndex: nat,
    lastApplied: nat,
    nextIndex: map<Id, nat>,
    matchIndex: map<Id, nat>,
    waiters: map<nat, Ticket>,
    proposals: map<Ticket, Proposal>)

  datatype VoteRequest = VoteRequest(term: nat, candidate: Id, lastIndex: nat, lastTerm: nat)
  datatype VoteReply = VoteReply(term: nat, granted: bool)
  datatype AppendRequest = AppendRequest(
    term: nat, leader: Id, prevIndex: nat, prevTerm: nat, entries: seq<Entry>, leaderCommit: nat)
  datatype AppendReply = AppendReply(term: nat, success: bool, conflictTerm: nat, conflictIndex: nat)

  function Start(id: Id, peers: seq<Id>): Node {
    Node(id, peers, 0, NOBODY, Log(0, 0, []), Follower, 0, 0, map[], map[], map[], map[])
  }

  /** A restart keeps term, vote and log; with no snapshot on disk everything else starts over. */
  function Restart(n: Node): Node {
    n.(role := Follower, commitIndex := 0, lastApplied := 0,
       nextIndex := map[], matchIndex := map[], waiters := map[])
  }

  // ---------------------------------------------------------------- roles

  /** Every waiting Propose call is told its proposal was dropped. */
  function FailWaiters(n: Node): Node {
    n.(waiters := map[],
       proposals := map t | t in n.proposals ::
         if t in n.waiters.Values then n.proposals[t].(sends := n.proposals[t].sends + [Dropped])
         else n.proposals[t])
  }

  function LeaveOffice(n: Node): Node {
    (if n.role.Leader? then FailWaiters(n) else n).(role := Follower)
  }

  /** becomeFollower: steps down whatever the term; the term itself only ever rises. */
  function StepDown(n: Node, term: nat): Node {
    var m := LeaveOffice(n);
    if term > n.term then m.(term := term, votedFor := NOBODY) else m
  }

  function BecomeCandidate(n: Node): Node {
    n.(term := n.term + 1, votedFor := n.id, role := Candidate)
  }

  function VoteRequestOf(n: Node): VoteRequest {
    VoteRequest(n.term, n.id, n.log.LastIndex(), n.log.LastTerm())
  }

  function AppendOwn(n: Node, command: Command): Node {
    n.(log := n.log.Append([Entry(n.log.LastIndex() + 1, n.term, command)]))
  }

  function BecomeLeader(n: Node): Node {
    if !n.role.Candidate? then n
    else
      AppendOwn(
        n.(role := Leader,
           nextIndex := map p | p in n.peers :: n.log.LastIndex() + 1,
           matchIndex := map p | p in n.peers :: 0),
        Noop)
  }

  // ---------------------------------------------------------------- votes

  predicate CandidateUpToDate(log: Log, lastIndex: nat, lastTerm: nat) {
    if lastTerm != log.LastTerm() then lastTerm > log.LastTerm()
    else lastIndex >= log.LastIndex()
  }

  function ObserveTerm(n: Node, term: nat): Node {
    if term > n.term then LeaveOffice(n).(term := term, votedFor := NOBODY) else n
  }

  function HandleVote(n: Node, req: VoteRequest): (Node, VoteReply) {
    if req.term < n.term then (n, VoteReply(n.term, false))
    else
      var m := ObserveTerm(n, req.term);
      if (m.votedFor == NOBODY || m.votedFor == req.candidate) && CandidateUpToDate(m.log, req.lastIndex, req.lastTerm)
      then (m.(votedFor := req.candidate), VoteReply(m.term, true))
      else (m, VoteReply(m.term, false))
  }

  // ---------------------------------------------------------------- AppendEntries, follower side

  /** The lowest retained index from which every term up to `i` is the one at `i`. */
  function StartOfRun(log: Log, i: nat): (r: nat)
    ensures r <= i
  {
    if log.FirstIndex() < i && log.TermAt(i - 1) == log.TermAt(i) then StartOfRun(log, i - 1) else i
  }

  function Recognize(n: Node, term: nat): Node {
    var m := ObserveTerm(n, term);
    if m.role.Candidate? then m.(role := Follower) else m
  }

  /** What the log consistency check answers, if it refuses. */
  function Conflict(log: Log, term: nat, prevIndex: nat, prevTerm: nat): Option<AppendReply> {
    if prevIndex == 0 then None
    else match log.TermAt(prevIndex)
      case None => Some(AppendReply(term, false, 0, log.LastIndex() + 1))
      case Some(t) =>
        if t == prevTerm then None
        else Some(AppendReply(term, false, t, StartOfRun(log, prevIndex)))
  }

  /** The sender's side of the bargain: consecutive entries right after prevIndex, none of them below the boundary. */
  predicate Wellformed(log: Log, req: AppendRequest) {
    Contiguous(req.entries, req.prevIndex + 1) && (req.prevIndex == 0 && req.entries != [] ==> log.base == 0)
  }

  /** What the log write asks of a request, if it comes to a write at all: a refused request may be anything. */
  predicate Appendable(n: Node, req: AppendRequest) {
    req.term >= n.term && Conflict(n.log, req.term, req.prevIndex, req.prevTerm).None? ==> Wellformed(n.log, req)
  }

  function Min(a: nat, b: nat): nat {
    if a < b then a else b
  }

  function HandleAppend(n: Node, req: AppendRequest): (Node, AppendReply)
    requires Appendable(n, req)
  {
    if req.term < n.term then (n, AppendReply(n.term, false, 0, 0))
    else
      var m := Recognize(n, req.term);
      match Conflict(m.log, m.term, req.prevIndex, req.prevTerm)
      case Some(refusal) => (m, refusal)
      case None =>
        var log := m.log.Append(req.entries);
        var commit := Min(req.leaderCommit, log.LastIndex());
        (m.(log := log, commitIndex := if commit > m.commitIndex then commit else m.commitIndex),
         AppendReply(m.term, true, 0, 0))
  }

  // ---------------------------------------------------------------- AppendEntries, leader side

  function NextIndex(n: Node, peer: Id): nat {
    if peer in n.nextIndex then n.nextIndex[peer] else 0
  }

  function MatchIndex(n: Node, peer: Id): nat {
    if peer in n.matchIndex then n.matchIndex[peer] else 0
  }

  /** Last index of the batch that starts at `next`; a limit of 0 means no limit. */
  function BatchEnd(next: nat, last: nat, batch: nat): nat
    requires next > 0
  {
    if last < next then next - 1
    else if batch > 0 && last - next + 1 > batch then next + batch - 1
    else last
  }

  /** The request for a peer, or None where the code falls back to sending a snapshot. */
  function BuildRequest(n: Node, peer: Id, batch: nat): Option<AppendRequest> {
    var next := NextIndex(n, peer);
    if next < n.log.FirstIndex() then None
    else if n.log.TermAt(next - 1).None? && next - 1 != 0 then None
    else
      var prevTerm := if n.log.TermAt(next - 1).Some? then n.log.TermAt(next - 1).value else 0;
      var end := BatchEnd(next, n.log.LastIndex(), batch);
      Some(AppendRequest(n.term, n.id, next - 1, prevTerm,
                         if next <= end then n.log.Slice(next, end) else [], n.commitIndex))
  }

  /** The scan for the last entry of `term`, from index `i` down; it gives up at the first older term. */
  function FindTerm(log: Log, i: nat, term: nat): Option<nat> {
    if i < log.FirstIndex() then None
    else match log.TermAt(i)
      case None => None
      case Some(t) =>
        if t == term then Some(i)
        else if t < term then None
        else FindTerm(log, i - 1, term)
  }

  function Backtrack(log: Log, next: nat, reply: AppendReply): nat {
    if reply.conflictTerm != 0 then
      var found := FindTerm(log, log.LastIndex(), reply.conflictTerm);
      var to := if found.Some? then found.value + 1 else reply.conflictIndex;
      if to < 1 then 1 else to
    else if reply.conflictIndex > 0 then reply.conflictIndex
    else if next > 1 then next - 1
    else next
  }

  function HandleReply(n: Node, peer: Id, req: AppendRequest, reply: AppendReply): Node {
    if reply.term > req.term then StepDown(n, reply.term)
    else if !n.role.Leader? || n.term != req.term then n
    else if reply.success then
      if req.entries == [] then n
      else
        var last := req.entries[|req.entries| - 1].index;
        n.(matchIndex := n.matchIndex[peer := last], nextIndex := n.nextIndex[peer := last + 1])
    else n.(nextIndex := n.nextIndex[peer := Backtrack(n.log, NextIndex(n, peer), reply)])
  }

  // ---------------------------------------------------------------- commit rule

  function MatchList(n: Node): (xs: seq<nat>)
    ensures |xs| == |n.peers| + 1
  {
    [n.log.LastIndex()] + seq(|n.peers|, i requires 0 <= i < |n.peers| => MatchIndex(n, n.peers[i]))
  }

  /** How many members have matched at least `k`. */
  function HeldBy(xs: seq<nat>, k: nat): (c: nat)
    ensures c <= |xs|
  {
    if xs == [] then 0 else (if xs[0] >= k then 1 else 0) + HeldBy(xs[1..], k)
  }

  function Insert(x: nat, xs: seq<nat>): (r: seq<nat>)
    ensures |r| == |xs| + 1
  {
    if xs == [] || x <= xs[0] then [x] + xs else [xs[0]] + Insert(x, xs[1..])
  }

  function Sort(xs: seq<nat>): (r: seq<nat>)
    ensures |r| == |xs|
  {
    if xs == [] then [] else Insert(xs[0], Sort(xs[1..]))
  }

  /** The commit candidate: position (n-1)/2 of the sorted match list. */
  function MajorityIndex(xs: seq<nat>): nat
    requires xs != []
  {
    Sort(xs)[(|xs| - 1) / 2]
  }

  function AdvanceCommit(n: Node): Node {
    var m := MajorityIndex(MatchList(n));
    if n.role.Leader? && m > n.commitIndex && n.log.TermAt(m) == Some(n.term) then n.(commitIndex := m) else n
  }

  // ---------------------------------------------------------------- proposals, apply

  /** Propose: None is the not-leader error. */
  function Propose(n: Node, command: Command, ticket: Ticket): Option<Node> {
    if !n.role.Leader? then None
    else
      var e := Entry(n.log.LastIndex() + 1, n.term, command);
      Some(AppendOwn(n, command).(waiters := n.waiters[e.index := ticket],
                                  proposals := n.proposals[ticket := Proposal(e, [])]))
  }

  /** A Propose call gives up: whatever waiter sits at its index goes. */
  function Cancel(n: Node, ticket: Ticket): Node {
    if ticket !in n.proposals then n
    else n.(waiters := n.waiters - {n.proposals[ticket].entry.index})
  }

  function NotifyWriter(n: Node, index: nat): Node {
    if index !in n.waiters then n
    else
      var t := n.waiters[index];
      n.(waiters := n.waiters - {index},
         proposals := if t !in n.proposals then n.proposals
                      else n.proposals[t := n.proposals[t].(sends := n.proposals[t].sends + [Committed])])
  }

  /** One round of the apply loop; a committed entry that cannot be read stops it. */
  function ApplyNext(n: Node): Node {
    var i := n.lastApplied + 1;
    if n.commitIndex < i || i <= n.log.base || n.log.LastIndex() < i then n
    else NotifyWriter(n.(lastApplied := i), i)
  }
}
