/**
 The node as the object it is: fields updated in place over a PersistentLog, backward scans, an
 in-place sort, loops over peers and waiters. Every method is proved to compute what Protocol says.
 */
module RaftNodes {
  import opened Types
  import opened Protocol
  import opened PersistentLogs

  class RaftNode {
    const id: Id
    const peers: seq<Id>
    const log: PersistentLog

    var role: Role
    var commitIndex: nat
    var lastApplied: nat
    var nextIndex: map<Id, nat>
    var matchIndex: map<Id, nat>
    var writeWaiters: map<nat, Ticket>
    var proposals: map<Ticket, Proposal>

    ghost predicate Valid()
      reads this, log, log.engine
    {
      && log.Valid() && WaitersApart(writeWaiters, proposals)
      && (forall p | p in nextIndex :: p in peers)
      && (forall p | p in matchIndex :: p in peers)
    }

    /** The node as a value. */
    ghost function State(): Node
      reads this, log
    {
      Node(id, peers, log.currentTerm, log.votedFor, log.contents, role, commitIndex, lastApplied,
           nextIndex, matchIndex, writeWaiters, proposals)
    }

    /** NewNode with no snapshot on disk: the durable part of `was` comes back, the rest starts over. */
    constructor Recover(id: Id, peers: seq<Id>, engine: Engine, ghost was: Node)
      requires was.id == id && was.peers == peers
      requires Stores(engine.disk, was.log) && was.log.LastIndex() < TWO64
      requires engine.disk.term == was.term && engine.disk.votedFor == was.votedFor
      ensures Valid() && State() == Restart(was).(proposals := map[])
      ensures fresh(log) && log.engine == engine
    {
      this.id, this.peers := id, peers;
      log := new PersistentLog.Open(engine, was.log);
      role := Follower;
      commitIndex, lastApplied := 0, 0;
      nextIndex, matchIndex, writeWaiters, proposals := map[], map[], map[], map[];
    }

    // -------------------------------------------------------------- roles

    method FailStaleWriters()
      requires WaitersApart(writeWaiters, proposals)
      modifies this`writeWaiters, this`proposals
      ensures State() == FailWaiters(old(State()))
    {
      hide TellDropped, WaitersApart;
      TellAll(State());
      proposals := DropAll(writeWaiters, proposals);
      writeWaiters := map[];
    }

    method BecomeFollower(term: nat)
      requires Valid()
      modifies this, log, log.engine
      ensures Valid() && State() == StepDown(old(State()), term)
    {
      if role.Leader? {
        FailStaleWriters();
      }
      role := Follower;
      if term > log.currentTerm {
        log.SetTermAndVote(term, NOBODY);
      }
    }

    method BecomeCandidate() returns (term: nat)
      requires Valid()
      modifies this, log, log.engine
      ensures Valid() && State() == Protocol.BecomeCandidate(old(State())) && term == State().term
    {
      term := log.currentTerm + 1;
      log.SetTermAndVote(term, id);
      role := Candidate;
    }

    /** appendLocal: the next index, the current term. */
    method AppendLocal(command: Command)
      requires Valid() && log.contents.LastIndex() + 1 < TWO64
      modifies log, log.engine
      ensures Valid() && State() == AppendOwn(old(State()), command)
    {
      var e := Entry(log.lastIndex + 1, log.currentTerm, command);
      log.AppendEntries([e]);
    }

    method BecomeLeader()
      requires Valid() && log.contents.LastIndex() + 1 < TWO64
      modifies this, log, log.engine
      ensures Valid() && State() == Protocol.BecomeLeader(old(State()))
    {
      hide Stores, Mirrors, Log.Append, WaitersApart;
      if !role.Candidate? {
        return;
      }
      role := Leader;
      nextIndex := SetAll(nextIndex, peers, log.lastIndex + 1);
      matchIndex := SetAll(matchIndex, peers, 0);
      AppendLocal(Noop);
    }

    // -------------------------------------------------------------- votes

    /** A later term: out of office, vote cleared. */
    method Discover(term: nat)
      requires Valid()
      modifies this, log, log.engine
      ensures Valid() && State() == ObserveTerm(old(State()), term)
    {
      if term > log.currentTerm {
        if role.Leader? {
          FailStaleWriters();
        }
        role := Follower;
        log.SetTermAndVote(term, NOBODY);
      }
    }

    method HandleRequestVote(req: VoteRequest) returns (reply: VoteReply)
      requires Valid()
      modifies this, log, log.engine
      ensures Valid() && (State(), reply) == HandleVote(old(State()), req)
    {
      if req.term < log.currentTerm {
        return VoteReply(log.currentTerm, false);
      }
      Discover(req.term);
      var myLastTerm := log.LastTerm();
      var logOk := if req.lastTerm != myLastTerm then req.lastTerm > myLastTerm else req.lastIndex >= log.lastIndex;
      if (log.votedFor == NOBODY || log.votedFor == req.candidate) && logOk {
        log.SetTermAndVote(log.currentTerm, req.candidate);
        return VoteReply(log.currentTerm, true);
      }
      reply := VoteReply(log.currentTerm, false);
    }

    // -------------------------------------------------------------- AppendEntries, follower side

    /** The backward scan for the first index of the conflicting term. */
    method FirstOfTerm(prevIndex: nat, term: nat) returns (conflictIndex: nat)
      requires Valid() && log.contents.TermAt(prevIndex) == Some(term)
      ensures conflictIndex == StartOfRun(log.contents, prevIndex)
    {
      conflictIndex := prevIndex;
      while conflictIndex > log.firstIndex
        invariant conflictIndex <= prevIndex
        invariant log.contents.TermAt(conflictIndex) == Some(term)
        invariant StartOfRun(log.contents, prevIndex) == StartOfRun(log.contents, conflictIndex)
      {
        var t := log.TermAt(conflictIndex - 1);
        if t != Some(term) {
          break;
        }
        conflictIndex := conflictIndex - 1;
      }
    }

    /** The log consistency check: a refusal, or None. */
    method CheckPrevious(prevIndex: nat, prevTerm: nat) returns (refusal: Option<AppendReply>)
      requires Valid()
      ensures refusal == Conflict(log.contents, log.currentTerm, prevIndex, prevTerm)
    {
      if prevIndex == 0 {
        return None;
      }
      var myTerm := log.TermAt(prevIndex);
      if myTerm.None? {
        return Some(AppendReply(log.currentTerm, false, 0, log.lastIndex + 1));
      }
      if myTerm.value != prevTerm {
        var conflictIndex := FirstOfTerm(prevIndex, myTerm.value);
        return Some(AppendReply(log.currentTerm, false, myTerm.value, conflictIndex));
      }
      refusal := None;
    }

    method HandleAppendEntries(req: AppendRequest) returns (reply: AppendReply)
      requires Valid() && Appendable(State(), req) && req.prevIndex + |req.entries| + 1 <= TWO64
      modifies this, log, log.engine
      ensures Valid() && (State(), reply) == HandleAppend(old(State()), req)
    {
      hide Conflict, Stores, Mirrors, Log.Append, WaitersApart;
      if req.term < log.currentTerm {
        return AppendReply(log.currentTerm, false, 0, 0);
      }
      Discover(req.term);
      if role.Candidate? {
        role := Follower;
      }
      var refusal := CheckPrevious(req.prevIndex, req.prevTerm);
      if refusal.Some? {
        return refusal.value;
      }
      assert req.entries != [] ==> log.contents.base < req.entries[0].index <= log.contents.LastIndex() + 1 by {
        PreviousHeld(log.contents, log.currentTerm, req);
      }
      log.AppendEntries(req.entries);
      if req.leaderCommit > commitIndex {
        var newCommit := if req.leaderCommit > log.lastIndex then log.lastIndex else req.leaderCommit;
        if newCommit > commitIndex {
          commitIndex := newCommit;
        }
      }
      reply := AppendReply(log.currentTerm, true, 0, 0);
    }

    // -------------------------------------------------------------- AppendEntries, leader side

    /** replicateToPeer up to the send; None is the fallback to a snapshot. */
    method PrepareRequest(peer: Id, batch: nat) returns (req: Option<AppendRequest>)
      requires Valid()
      ensures req == BuildRequest(State(), peer, batch)
    {
      var nextIdx := if peer in nextIndex then nextIndex[peer] else 0;
      if nextIdx < log.firstIndex {
        return None;
      }
      var prevLogIndex := nextIdx - 1;
      var prevLogTerm := log.TermAt(prevLogIndex);
      if prevLogTerm.None? && prevLogIndex != 0 {
        return None;
      }
      var entries := [];
      if log.lastIndex >= nextIdx {
        var end := log.lastIndex;
        if batch > 0 && end - nextIdx + 1 > batch {
          end := nextIdx + batch - 1;
        }
        var es := log.Range(nextIdx, end);
        if es.Err? {
          return None;
        }
        entries := es.value;
      }
      req := Some(AppendRequest(log.currentTerm, id, prevLogIndex,
                                if prevLogTerm.Some? then prevLogTerm.value else 0, entries, commitIndex));
    }

    /** The backward scan for the leader's last entry of the conflict term. */
    method LastOfTerm(term: nat) returns (found: Option<nat>)
      requires Valid()
      ensures found == FindTerm(log.contents, log.contents.LastIndex(), term)
    {
      var idx := log.lastIndex;
      while idx >= log.firstIndex && idx > 0
        invariant 0 <= idx <= log.contents.LastIndex()
        invariant FindTerm(log.contents, log.contents.LastIndex(), term) == FindTerm(log.contents, idx, term)
      {
        var t := log.TermAt(idx);
        if t.None? {
          return None;
        }
        if t.value == term {
          return Some(idx);
        }
        if t.value < term {
          return None;
        }
        idx := idx - 1;
      }
      found := None;
    }

    method Backtrack(peer: Id, reply: AppendReply)
      requires Valid() && peer in peers
      modifies this`nextIndex
      ensures Valid()
      ensures State() ==
                old(State()).(nextIndex :=
                  old(nextIndex)[peer := Protocol.Backtrack(log.contents, NextIndex(old(State()), peer), reply)])
    {
      if reply.conflictTerm != 0 {
        var newNext := reply.conflictIndex;
        var found := LastOfTerm(reply.conflictTerm);
        if found.Some? {
          newNext := found.value + 1;
        }
        if newNext < 1 {
          newNext := 1;
        }
        nextIndex := nextIndex[peer := newNext];
      } else if reply.conflictIndex > 0 {
        nextIndex := nextIndex[peer := reply.conflictIndex];
      } else {
        var next := if peer in nextIndex then nextIndex[peer] else 0;
        nextIndex := nextIndex[peer := if next > 1 then next - 1 else next];
      }
    }

    method HandleAppendReply(peer: Id, req: AppendRequest, reply: AppendReply)
      requires Valid() && peer in peers
      modifies this, log, log.engine
      ensures Valid() && State() == HandleReply(old(State()), peer, req, reply)
    {
      if reply.term > req.term {
        BecomeFollower(reply.term);
        return;
      }
      if !role.Leader? || log.currentTerm != req.term {
        return;
      }
      if reply.success {
        if |req.entries| > 0 {
          matchIndex := matchIndex[peer := req.entries[|req.entries| - 1].index];
          nextIndex := nextIndex[peer := matchIndex[peer] + 1];
        }
        return;
      }
      Backtrack(peer, reply);
    }

    // -------------------------------------------------------------- commit

    /** The match values, the leader's own last index first. */
    method CollectMatches() returns (matches: array<nat>)
      requires Valid()
      ensures fresh(matches) && matches[..] == MatchList(State())
    {
      hide Stores, Mirrors, WaitersApart;
      matches := new nat[|peers| + 1];
      matches[0] := log.lastIndex;
      var i := 0;
      while i < |peers|
        modifies matches
        invariant 0 <= i <= |peers|
        invariant forall k | 0 <= k <= i :: matches[k] == MatchList(State())[k]
      {
        matches[i + 1] := if peers[i] in matchIndex then matchIndex[peers[i]] else 0;
        i := i + 1;
      }
    }

    method TryAdvanceCommitIndex()
      requires Valid()
      modifies this`commitIndex
      ensures Valid() && State() == AdvanceCommit(old(State()))
    {
      hide Stores, Mirrors, WaitersApart, MatchList, Sort;
      if !role.Leader? {
        return;
      }
      var matchIndexes := CollectMatches();
      SortInPlace(matchIndexes);
      var majorityIndex := matchIndexes[(matchIndexes.Length - 1) / 2];
      assert majorityIndex == matchIndexes[..][(matchIndexes.Length - 1) / 2] == MajorityIndex(MatchList(State()));
      if majorityIndex <= commitIndex {
        return;
      }
      var entryTerm := log.TermAt(majorityIndex);
      if entryTerm != Some(log.currentTerm) {
        return;
      }
      commitIndex := majorityIndex;
    }

    // -------------------------------------------------------------- proposals, apply

    /** Propose up to the wait; false is the not-leader error. */
    method StartProposal(command: Command, ticket: Ticket) returns (ok: bool)
      requires Valid() && ticket !in proposals && log.contents.LastIndex() + 1 < TWO64
      modifies this, log, log.engine
      ensures Valid() && ok == Propose(old(State()), command, ticket).Some?
      ensures State() == if ok then Propose(old(State()), command, ticket).value else old(State())
    {
      hide Stores, Mirrors, Log.Append, WaitersApart;
      if !role.Leader? {
        return false;
      }
      var e := Entry(log.lastIndex + 1, log.currentTerm, command);
      WaiterAdded(writeWaiters, proposals, e.index, ticket, Proposal(e, []));
      writeWaiters := writeWaiters[e.index := ticket];
      proposals := proposals[ticket := Proposal(e, [])];
      log.AppendEntries([e]);
      ok := true;
    }

    method NotifyWriters(index: nat)
      requires Valid()
      modifies this`writeWaiters, this`proposals
      ensures Valid() && State() == NotifyWriter(old(State()), index)
    {
      if index in writeWaiters {
        var t := writeWaiters[index];
        proposals := proposals[t := proposals[t].(sends := proposals[t].sends + [Committed])];
        writeWaiters := writeWaiters - {index};
      }
    }

    /** A Propose call gives up: whatever waiter sits at its index goes. */
    method CancelProposal(ticket: Ticket)
      requires Valid()
      modifies this`writeWaiters
      ensures Valid() && State() == Cancel(old(State()), ticket)
    {
      if ticket in proposals {
        writeWaiters := writeWaiters - {proposals[ticket].entry.index};
      }
    }

    /** One round of the apply loop: the entry is read, lastApplied moves, its proposer is told. */
    method ApplyRound() returns (entry: Option<Entry>)
      requires Valid()
      modifies this`lastApplied, this`writeWaiters, this`proposals
      ensures Valid() && State() == ApplyNext(old(State()))
      ensures entry.Some? <==> old(lastApplied) < commitIndex && log.contents.base <= old(lastApplied) < log.contents.LastIndex()
      ensures entry.Some? ==> entry.value == log.contents.At(lastApplied) && lastApplied == old(lastApplied) + 1
    {
      entry := None;
      if lastApplied < commitIndex {
        var got := log.Get(lastApplied + 1);
        if got.Ok? {
          lastApplied := lastApplied + 1;
          NotifyWriters(lastApplied);
          entry := Some(got.value);
        }
      }
    }
  }

  // ---------------------------------------------------------------- counting answers

  /** An answer as the election loop receives it, in order of arrival; an error counts as Refused. */
  datatype VoteResult = Granted | Refused | HigherTerm(term: nat)

  function Grants(results: seq<VoteResult>): (n: nat)
    ensures n <= |results|
  {
    if results == [] then 0 else Grants(results[..|results| - 1]) + if results[|results| - 1].Granted? then 1 else 0
  }

  /**
   The k-th answer wins: it is a vote that, with the own one, completes or extends a strict majority, no answer up to it
   brought a higher term, and the node was still a candidate of the term when it came.
   */
  predicate WonAfter(results: seq<VoteResult>, still: seq<bool>, peers: nat, k: nat)
    requires k <= |results| == |still|
  {
    && 0 < k && results[k - 1].Granted? && still[k - 1]
    && 2 * (1 + Grants(results[..k])) > peers + 1 && forall i | 0 <= i < k :: !results[i].HigherTerm?
  }

  /**
   The counting loop of startElection. `still[i]` and `stillAfter` are what looking at role and term again gives, after
   answer i and at the end. It takes office exactly when alone, or some answer wins and the last look agrees; it steps
   down to the first higher term, if one comes before an answer wins. Fewer results than peers is a timeout.
   */
  method CountVotes(results: seq<VoteResult>, still: seq<bool>, stillAfter: bool, peers: nat)
    returns (lead: bool, higher: Option<nat>)
    requires |results| == |still| <= peers
    ensures lead <==> peers == 0 || (stillAfter && exists k | 0 <= k <= |results| :: WonAfter(results, still, peers, k))
    ensures higher.Some? <==>
              && (exists i | 0 <= i < |results| :: results[i].HigherTerm?)
              && !exists k | 0 <= k <= |results| :: WonAfter(results, still, peers, k)
    ensures higher.Some? ==> exists i | 0 <= i < |results| ::
                results[i] == HigherTerm(higher.value) && forall j | 0 <= j < i :: !results[j].HigherTerm?
  {
    var needed := (peers + 1) / 2 + 1;
    if needed == 1 {
      return true, None;
    }
    var votes, responses, won := 1, 0, false;
    higher := None;
    while responses < |results| && !won && higher.None?
      invariant 0 <= responses <= |results|
      invariant votes == 1 + Grants(results[..responses])
      invariant higher.None? ==> forall i | 0 <= i < responses :: !results[i].HigherTerm?
      invariant higher.Some? ==> !won && 0 < responses && results[responses - 1] == HigherTerm(higher.value)
      invariant higher.Some? ==> forall j | 0 <= j < responses - 1 :: !results[j].HigherTerm?
      invariant won ==> WonAfter(results, still, peers, responses)
      invariant !won ==> forall k | 0 <= k <= responses :: !WonAfter(results, still, peers, k)
      decreases |results| - responses
    {
      var r := results[responses];
      responses := responses + 1;
      assert results[..responses][..responses - 1] == results[..responses - 1];
      match r
      case HigherTerm(term) => higher := Some(term);
      case Granted =>
        votes := votes + 1;
        won := votes >= needed && still[responses - 1];
      case Refused =>
    }
    lead := won && stillAfter;
  }

  function Successes(answers: seq<bool>): (n: nat)
    ensures n <= |answers|
  {
    if answers == [] then 0 else Successes(answers[..|answers| - 1]) + if answers[|answers| - 1] then 1 else 0
  }

  lemma {:induction false} SuccessesGrow(answers: seq<bool>, k: nat)
    requires k <= |answers|
    ensures Successes(answers[..k]) <= Successes(answers)
    decreases |answers|
  {
    if k == |answers| {
      assert answers[..k] == answers;
    } else {
      SuccessesGrow(answers[..|answers| - 1], k);
      assert answers[..|answers| - 1][..k] == answers[..k];
    }
  }

  /** confirmLeadership's count, stopping at a majority: it succeeds exactly when a majority, self included, agreed. */
  method CountConfirmations(answers: seq<bool>, peers: nat) returns (ok: bool)
    requires |answers| <= peers
    ensures ok <==> 2 * (1 + Successes(answers)) > peers + 1
  {
    var confirmed, responded := 1, 0;
    var needed := (peers + 1) / 2 + 1;
    while responded < |answers| && confirmed < needed
      invariant 0 <= responded <= |answers|
      invariant confirmed == 1 + Successes(answers[..responded])
    {
      responded := responded + 1;
      assert answers[..responded][..responded - 1] == answers[..responded - 1];
      if answers[responded - 1] {
        confirmed := confirmed + 1;
      }
    }
    SuccessesGrow(answers, responded);
    assert responded == |answers| ==> answers[..responded] == answers;
    ok := confirmed >= needed;
  }

  lemma PreviousHeld(log: Log, term: nat, req: AppendRequest)
    requires Wellformed(log, req) && Conflict(log, term, req.prevIndex, req.prevTerm).None?
    ensures req.entries != [] ==> log.base < req.entries[0].index == req.prevIndex + 1 <= log.LastIndex() + 1
  {
  }

  /** Writes one value at every peer. */
  method SetAll(m: map<Id, nat>, peers: seq<Id>, value: nat) returns (r: map<Id, nat>)
    requires forall p | p in m :: p in peers
    ensures r == map p | p in peers :: value
  {
    r := m;
    var i := 0;
    while i < |peers|
      invariant 0 <= i <= |peers|
      invariant forall p | p in r :: p in peers
      invariant forall p | p in peers[..i] :: p in r && r[p] == value
    {
      r := r[peers[i] := value];
      i := i + 1;
    }
    assert peers[..|peers|] == peers;
  }

  /** The sort of the match indices, in place: each element sinks into the sorted rest. */
  method SortInPlace(a: array<nat>)
    modifies a
    ensures a[..] == Sort(old(a[..]))
  {
    var i := a.Length;
    while i > 0
      invariant 0 <= i <= a.Length
      invariant a[..i] == old(a[..])[..i]
      invariant a[i..] == Sort(old(a[..])[i..])
    {
      i := i - 1;
      ghost var rest := a[i + 1..];
      assert old(a[..])[i..] == [a[i]] + old(a[..])[i + 1..];
      Sink(a, i);
    }
    assert a[..] == a[0..];
  }

  method Sink(a: array<nat>, i: nat)
    requires i < a.Length
    modifies a
    ensures a[..i] == old(a[..i])
    ensures a[i..] == Insert(old(a[i]), old(a[i + 1..]))
  {
    ghost var x, rest := a[i], a[i + 1..];
    var j := i;
    while j + 1 < a.Length && a[j] > a[j + 1]
      invariant i <= j < a.Length && a[j] == x
      invariant forall k | 0 <= k < i :: a[k] == old(a[k])
      invariant forall k | i <= k < j :: a[k] == rest[k - i]
      invariant forall k | 0 <= k < j - i :: rest[k] < x
      invariant forall k | j < k < a.Length :: a[k] == rest[k - 1 - i]
    {
      a[j], a[j + 1] := a[j + 1], a[j];
      j := j + 1;
    }
    InsertAt(x, rest, j - i);
    assert a[i..] == rest[..j - i] + [x] + rest[j - i..];
  }

  /** Insertion puts x right before the first element that is not smaller. */
  lemma {:induction false} InsertAt(x: nat, xs: seq<nat>, p: nat)
    requires p <= |xs| && (forall k | 0 <= k < p :: xs[k] < x) && (p < |xs| ==> x <= xs[p])
    ensures Insert(x, xs) == xs[..p] + [x] + xs[p..]
  {
    if p == 0 {
      assert xs[..0] + [x] + xs[0..] == [x] + xs;
    } else {
      InsertAt(x, xs[1..], p - 1);
      assert xs[..p] + [x] + xs[p..] == [xs[0]] + (xs[1..][..p - 1] + [x] + xs[1..][p - 1..]);
    }
  }

  /** Sends the dropped-proposal error on every waiter's channel. */
  method DropAll(waiters: map<nat, Ticket>, proposals: map<Ticket, Proposal>) returns (r: map<Ticket, Proposal>)
    requires WaitersApart(waiters, proposals)
    ensures r == TellDropped(proposals, waiters.Values)
  {
    hide TellDropped, WaitersApart;
    ghost var told := {};
    var left := waiters;
    r := proposals;
    TellNobody(proposals);
    while left != map[]
      invariant WaitersApart(left, r)
      invariant told + left.Values == waiters.Values && told !! left.Values
      invariant r == TellDropped(proposals, told)
      decreases |left|
    {
      var i :| i in left;
      var t := left[i];
      TellOne(proposals, told, t);
      WaiterKnown(left, r, i);
      var p := r[t].(sends := r[t].sends + [Dropped]);
      WaitersShrink(left, r, i, p);
      told := told + {t};
      r := r[t := p];
      left := left - {i};
    }
  }

  /** Every waiter has its own proposal. */
  predicate WaitersApart(waiters: map<nat, Ticket>, proposals: map<Ticket, Proposal>) {
    && (forall i | i in waiters :: waiters[i] in proposals)
    && (forall i, j | i in waiters && j in waiters && i != j :: waiters[i] != waiters[j])
  }

  function TellDropped(proposals: map<Ticket, Proposal>, told: set<Ticket>): map<Ticket, Proposal> {
    map t | t in proposals ::
      if t in told then proposals[t].(sends := proposals[t].sends + [Dropped]) else proposals[t]
  }

  lemma TellNobody(proposals: map<Ticket, Proposal>)
    ensures TellDropped(proposals, {}) == proposals
  {
  }

  lemma TellOne(proposals: map<Ticket, Proposal>, told: set<Ticket>, t: Ticket)
    requires t !in told
    ensures t in TellDropped(proposals, told) <==> t in proposals
    ensures t in proposals ==>
              var so := TellDropped(proposals, told);
              so[t := so[t].(sends := so[t].sends + [Dropped])] == TellDropped(proposals, told + {t})
  {
  }

  lemma TellAll(n: Node)
    ensures FailWaiters(n) == n.(waiters := map[], proposals := TellDropped(n.proposals, n.waiters.Values))
  {
  }

  lemma WaiterKnown(waiters: map<nat, Ticket>, proposals: map<Ticket, Proposal>, i: nat)
    requires WaitersApart(waiters, proposals) && i in waiters
    ensures waiters[i] in proposals
  {
  }

  lemma WaiterAdded(waiters: map<nat, Ticket>, proposals: map<Ticket, Proposal>, i: nat, t: Ticket, p: Proposal)
    requires WaitersApart(waiters, proposals) && t !in proposals
    ensures WaitersApart(waiters[i := t], proposals[t := p])
  {
  }

  lemma WaitersShrink(waiters: map<nat, Ticket>, proposals: map<Ticket, Proposal>, i: nat, p: Proposal)
    requires WaitersApart(waiters, proposals) && i in waiters
    ensures waiters[i] in proposals
    ensures WaitersApart(waiters - {i}, proposals[waiters[i] := p])
    ensures (waiters - {i}).Values == waiters.Values - {waiters[i]} && |waiters - {i}| < |waiters|
  {
    ValuesWithout(waiters, i);
  }

  lemma ValuesWithout(m: map<nat, Ticket>, i: nat)
    requires i in m && forall j | j in m && j != i :: m[j] != m[i]
    ensures (m - {i}).Values == m.Values - {m[i]}
    ensures |m - {i}| < |m|
  {
    var rest := m - {i};
    forall t | t in m.Values - {m[i]} ensures t in rest.Values {
      var j :| j in m && m[j] == t;
      assert j in rest && rest[j] == t;
    }
    assert rest.Keys == m.Keys - {i};
    assert |rest| == |rest.Keys| && |m| == |m.Keys|;
  }
}
