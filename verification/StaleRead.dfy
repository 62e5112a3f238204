/**
 A read answered by a new leader before any entry of its own term is committed: in every cluster of
 three there is a run, each step of it sound, in which a confirmed read misses an acknowledged write.
 */
module StaleRead {
  import opened Types
  import opened Quorums
  import opened Protocol
  import opened Cluster
  import opened Counterexamples
  import R = ReadIndex

  const WRITE := Entry(2, 1, Put([1], [1]))
  const SECOND := Entry(3, 2, Noop)

  // ---------------------------------------------------------------- a's write is acknowledged

  function Writer(a: Id, b: Id, c: Id): Node {
    Incumbent(a, b, c).(log := Log(0, 0, [NOOP1, WRITE]), waiters := map[2 := 0], proposals := map[0 := Proposal(WRITE, [])])
  }

  function Writer7(a: Id, b: Id, c: Id): Node {
    Writer(a, b, c).(nextIndex := map[b := 3, c := 1], matchIndex := map[b := 2, c := 0])
  }

  function Writer8(a: Id, b: Id, c: Id): Node {
    Writer7(a, b, c).(commitIndex := 2)
  }

  function Writer9(a: Id, b: Id, c: Id): Node {
    Writer8(a, b, c).(lastApplied := 1)
  }

  function Writer10(a: Id, b: Id, c: Id): Node {
    Writer8(a, b, c).(lastApplied := 2, waiters := map[], proposals := map[0 := Proposal(WRITE, [Committed])])
  }

  function Holder(a: Id, b: Id, c: Id): Node {
    Supporter(a, b, c).(log := Log(0, 0, [NOOP1, WRITE]))
  }

  function Batch1(a: Id): AppendRequest {
    AppendRequest(1, a, 0, 0, [NOOP1, WRITE], 0)
  }

  function Polled1(s: State, a: Id, b: Id): State {
    s.(voteRequests := {Ask1(a)}, voteAnswers := {Grant1(a, b)})
  }

  function T4(a: Id, b: Id, c: Id): State {
    Polled1(World(Writer(a, b, c), Supporter(a, b, c), Start(c, [a, b])), a, b)
  }

  function T5(a: Id, b: Id, c: Id): State {
    T4(a, b, c).(exchanges := map[Link(a, b) := Asked(Batch1(a))])
  }

  function T6(a: Id, b: Id, c: Id): State {
    Polled1(World(Writer(a, b, c), Holder(a, b, c), Start(c, [a, b])), a, b).(
      exchanges := map[Link(a, b) := Answered(Batch1(a), AppendReply(1, true, 0, 0))])
  }

  function T7(a: Id, b: Id, c: Id): State {
    Polled1(World(Writer7(a, b, c), Holder(a, b, c), Start(c, [a, b])), a, b)
  }

  function T8(a: Id, b: Id, c: Id): State {
    Polled1(World(Writer8(a, b, c), Holder(a, b, c), Start(c, [a, b])), a, b)
  }

  function T9(a: Id, b: Id, c: Id): State {
    Polled1(World(Writer9(a, b, c), Holder(a, b, c), Start(c, [a, b])), a, b)
  }

  function T10(a: Id, b: Id, c: Id): State {
    Polled1(World(Writer10(a, b, c), Holder(a, b, c), Start(c, [a, b])), a, b)
  }

  lemma Proposed(a: Id, b: Id, c: Id)
    requires Three(a, b, c)
    ensures Propose(Incumbent(a, b, c), WRITE.command, 0) == Some(Writer(a, b, c))
  {
    assert Incumbent(a, b, c).log.Append([WRITE]).entries == [NOOP1, WRITE];
  }

  lemma To4(a: Id, b: Id, c: Id)
    requires Three(a, b, c)
    ensures Enabled(S3(a, b, c), ClientPropose(a, WRITE.command, 0))
    ensures Next(S3(a, b, c), ClientPropose(a, WRITE.command, 0)) == T4(a, b, c)
  {
    hide Propose;
    Proposed(a, b, c);
    assert Next(S3(a, b, c), ClientPropose(a, WRITE.command, 0)).nodes == T4(a, b, c).nodes;
  }

  lemma To5(a: Id, b: Id, c: Id)
    requires Three(a, b, c)
    ensures Enabled(T4(a, b, c), Replicate(Link(a, b))) && Next(T4(a, b, c), Replicate(Link(a, b))) == T5(a, b, c)
  {
    assert Writer(a, b, c).log.Slice(1, 2) == [NOOP1, WRITE];
    assert BuildRequest(Writer(a, b, c), b, 0) == Some(Batch1(a));
  }

  lemma Supported(a: Id, b: Id, c: Id)
    requires Three(a, b, c)
    ensures Wellformed(Supporter(a, b, c).log, Batch1(a))
    ensures HandleAppend(Supporter(a, b, c), Batch1(a)) == (Holder(a, b, c), AppendReply(1, true, 0, 0))
  {
    assert Supporter(a, b, c).log.Append([NOOP1, WRITE]).entries == [NOOP1, WRITE];
  }

  lemma To6(a: Id, b: Id, c: Id)
    requires Three(a, b, c)
    ensures Enabled(T5(a, b, c), DeliverAppend(Link(a, b))) && Next(T5(a, b, c), DeliverAppend(Link(a, b))) == T6(a, b, c)
  {
    hide HandleAppend, Wellformed;
    Supported(a, b, c);
    assert Next(T5(a, b, c), DeliverAppend(Link(a, b))).nodes == T6(a, b, c).nodes;
    assert Next(T5(a, b, c), DeliverAppend(Link(a, b))).exchanges == T6(a, b, c).exchanges;
  }

  lemma Replied(a: Id, b: Id, c: Id)
    requires Three(a, b, c)
    ensures HandleReply(Writer(a, b, c), b, Batch1(a), AppendReply(1, true, 0, 0)) == Writer7(a, b, c)
  {
    var n := HandleReply(Writer(a, b, c), b, Batch1(a), AppendReply(1, true, 0, 0));
    assert n.nextIndex == map[b := 3, c := 1];
    assert n.matchIndex == map[b := 2, c := 0];
  }

  lemma To7(a: Id, b: Id, c: Id)
    requires Three(a, b, c)
    ensures Enabled(T6(a, b, c), DeliverReply(Link(a, b))) && Next(T6(a, b, c), DeliverReply(Link(a, b))) == T7(a, b, c)
  {
    hide HandleReply;
    Replied(a, b, c);
    assert Next(T6(a, b, c), DeliverReply(Link(a, b))).nodes == T7(a, b, c).nodes;
    assert Next(T6(a, b, c), DeliverReply(Link(a, b))).exchanges == map[];
  }

  lemma CommitsWrite(a: Id, b: Id, c: Id)
    requires Three(a, b, c)
    ensures AdvanceCommit(Writer7(a, b, c)) == Writer8(a, b, c)
  {
    var n := Writer7(a, b, c);
    assert MatchList(n) == [2, 2, 0];
    SortThree(2, 2, 0);
    assert MajorityIndex(MatchList(n)) == 2;
    hide MatchList, MajorityIndex;
  }

  lemma To8(a: Id, b: Id, c: Id)
    requires Three(a, b, c)
    ensures Enabled(T7(a, b, c), TryCommit(a)) && Next(T7(a, b, c), TryCommit(a)) == T8(a, b, c)
  {
    hide AdvanceCommit;
    CommitsWrite(a, b, c);
    assert Next(T7(a, b, c), TryCommit(a)).nodes == T8(a, b, c).nodes;
  }

  lemma AppliesFirst(a: Id, b: Id, c: Id)
    requires Three(a, b, c)
    ensures ApplyNext(Writer8(a, b, c)) == Writer9(a, b, c)
  {
  }

  lemma To9(a: Id, b: Id, c: Id)
    requires Three(a, b, c)
    ensures Enabled(T8(a, b, c), ApplyOne(a)) && Next(T8(a, b, c), ApplyOne(a)) == T9(a, b, c)
  {
    hide ApplyNext;
    AppliesFirst(a, b, c);
    assert Next(T8(a, b, c), ApplyOne(a)).nodes == T9(a, b, c).nodes;
  }

  lemma Notified(a: Id, b: Id, c: Id)
    requires Three(a, b, c)
    ensures ApplyNext(Writer9(a, b, c)) == Writer10(a, b, c)
  {
    var n := ApplyNext(Writer9(a, b, c));
    assert n.waiters == map[];
    assert n.proposals[0].sends == [Committed];
    assert n.proposals == map[0 := Proposal(WRITE, [Committed])];
  }

  lemma To10(a: Id, b: Id, c: Id)
    requires Three(a, b, c)
    ensures Enabled(T9(a, b, c), ApplyOne(a)) && Next(T9(a, b, c), ApplyOne(a)) == T10(a, b, c)
  {
    hide ApplyNext;
    Notified(a, b, c);
    assert Next(T9(a, b, c), ApplyOne(a)).nodes == T10(a, b, c).nodes;
  }

  // ---------------------------------------------------------------- b takes over and is asked to read

  function Ask3(b: Id): VoteRequest {
    VoteRequest(2, b, 2, 1)
  }

  function Successor(a: Id, b: Id, c: Id): Node {
    Holder(a, b, c).(term := 2, votedFor := b, role := Candidate)
  }

  function Reader(a: Id, b: Id, c: Id): Node {
    Successor(a, b, c).(role := Leader, log := Log(0, 0, [NOOP1, WRITE, SECOND]),
                        nextIndex := map[a := 3, c := 3], matchIndex := map[a := 0, c := 0])
  }

  function Polled2(s: State, a: Id, b: Id, c: Id): State {
    s.(voteRequests := {Ask1(a), Ask3(b)}, voteAnswers := {Grant1(a, b), Grant2(b, c)})
  }

  function T11(a: Id, b: Id, c: Id): State {
    World(Writer10(a, b, c), Successor(a, b, c), Start(c, [a, b])).(
      voteRequests := {Ask1(a), Ask3(b)}, voteAnswers := {Grant1(a, b)})
  }

  function T12(a: Id, b: Id, c: Id): State {
    Polled2(World(Writer10(a, b, c), Successor(a, b, c), Ally(a, b, c)), a, b, c)
  }

  function T13(a: Id, b: Id, c: Id): State {
    Polled2(World(Writer10(a, b, c), Reader(a, b, c), Ally(a, b, c)), a, b, c)
  }

  function T14(a: Id, b: Id, c: Id): State {
    T13(a, b, c).(queries := map[0 := Read(b, 2, 0)])
  }

  function Check(b: Id, c: Id): Probe {
    Probe(0, c, AppendRequest(2, b, 2, 1, [], 0))
  }

  function T15(a: Id, b: Id, c: Id): State {
    T14(a, b, c).(probes := {Check(b, c)})
  }

  function T16(a: Id, b: Id, c: Id): State {
    T15(a, b, c).(probeAnswers := {ProbeAnswer(0, c, 2)})
  }

  lemma To11(a: Id, b: Id, c: Id)
    requires Three(a, b, c)
    ensures Enabled(T10(a, b, c), Timeout(b)) && Next(T10(a, b, c), Timeout(b)) == T11(a, b, c)
  {
    assert Next(T10(a, b, c), Timeout(b)).nodes == T11(a, b, c).nodes;
  }

  lemma To12(a: Id, b: Id, c: Id)
    requires Three(a, b, c)
    ensures Enabled(T11(a, b, c), DeliverVoteRequest(c, Ask3(b)))
    ensures Next(T11(a, b, c), DeliverVoteRequest(c, Ask3(b))) == T12(a, b, c)
  {
    assert Next(T11(a, b, c), DeliverVoteRequest(c, Ask3(b))).nodes == T12(a, b, c).nodes;
  }

  lemma ReaderElected(a: Id, b: Id, c: Id)
    requires Three(a, b, c)
    ensures BecomeLeader(Successor(a, b, c)) == Reader(a, b, c)
  {
    var n := BecomeLeader(Successor(a, b, c));
    assert n.log.entries == [NOOP1, WRITE, SECOND];
    assert n.nextIndex == map[a := 3, c := 3];
    assert n.matchIndex == map[a := 0, c := 0];
  }

  lemma To13(a: Id, b: Id, c: Id)
    requires Three(a, b, c)
    ensures Enabled(T12(a, b, c), WinElection(b, {b, c})) && Next(T12(a, b, c), WinElection(b, {b, c})) == T13(a, b, c)
  {
    hide BecomeLeader, IsQuorum;
    Pairs(a, b, c);
    ReaderElected(a, b, c);
    assert T12(a, b, c).nodes.Keys == {a, b, c};
    assert Next(T12(a, b, c), WinElection(b, {b, c})).nodes == T13(a, b, c).nodes;
  }

  lemma To14(a: Id, b: Id, c: Id)
    requires Three(a, b, c)
    ensures Enabled(T13(a, b, c), StartRead(b, 0)) && Next(T13(a, b, c), StartRead(b, 0)) == T14(a, b, c)
  {
  }

  lemma To15(a: Id, b: Id, c: Id)
    requires Three(a, b, c)
    ensures Enabled(T14(a, b, c), SendProbe(0, c, true)) && Next(T14(a, b, c), SendProbe(0, c, true)) == T15(a, b, c)
    ensures SoundStep(T14(a, b, c), SendProbe(0, c, true))
  {
  }

  lemma AllyRefuses(a: Id, b: Id, c: Id)
    requires Three(a, b, c)
    ensures Wellformed(Ally(a, b, c).log, Check(b, c).req)
    ensures HandleAppend(Ally(a, b, c), Check(b, c).req) == (Ally(a, b, c), AppendReply(2, false, 0, 1))
  {
  }

  lemma To16(a: Id, b: Id, c: Id)
    requires Three(a, b, c)
    ensures Enabled(T15(a, b, c), DeliverProbe(Check(b, c)))
    ensures Next(T15(a, b, c), DeliverProbe(Check(b, c))) == T16(a, b, c)
    ensures Confirmed(T16(a, b, c), 0)
  {
    hide IsQuorum, HandleAppend, Wellformed;
    AllyRefuses(a, b, c);
    assert Next(T15(a, b, c), DeliverProbe(Check(b, c))).nodes == T16(a, b, c).nodes;
    Pairs(a, b, c);
    assert T16(a, b, c).nodes.Keys == {a, b, c};
    assert ProbeAnswer(0, c, 2) in T16(a, b, c).probeAnswers;
    assert ConfirmedBy(T16(a, b, c), 0, {b, c});
  }

  // ---------------------------------------------------------------- the run

  lemma Acknowledged(a: Id, b: Id, c: Id) returns (ss: seq<State>, steps: seq<Step>)
    requires Three(a, b, c)
    ensures IsRun(ss, steps) && ss[|ss| - 1] == T10(a, b, c)
  {
    hide Enabled, Next, S3, T4, T5, T6, T7, T8, T9, T10, Initial;
    ss, steps := Opening(a, b, c);
    To4(a, b, c);
    ss, steps := Extend(ss, steps, ClientPropose(a, WRITE.command, 0), T4(a, b, c));
    To5(a, b, c);
    ss, steps := Extend(ss, steps, Replicate(Link(a, b)), T5(a, b, c));
    To6(a, b, c);
    ss, steps := Extend(ss, steps, DeliverAppend(Link(a, b)), T6(a, b, c));
    To7(a, b, c);
    ss, steps := Extend(ss, steps, DeliverReply(Link(a, b)), T7(a, b, c));
    To8(a, b, c);
    ss, steps := Extend(ss, steps, TryCommit(a), T8(a, b, c));
    To9(a, b, c);
    ss, steps := Extend(ss, steps, ApplyOne(a), T9(a, b, c));
    To10(a, b, c);
    ss, steps := Extend(ss, steps, ApplyOne(a), T10(a, b, c));
  }

  /**
   The read starts at state i, is confirmed and has applied its read index at the last state; yet the
   write acknowledged by a before state i lies beyond what the reading leader has applied.
   */
  lemma MissedWrite(a: Id, b: Id, c: Id) returns (ss: seq<State>, steps: seq<Step>, i: nat)
    requires Three(a, b, c)
    ensures IsRun(ss, steps) && i < |steps| && steps[i] == StartRead(b, 0)
    ensures a in ss[i].nodes && b in ss[i].nodes && ss[i].nodes[b].role.Leader?
    ensures !R.InheritedCommitted(ss[i].nodes[b])
    ensures 0 in ss[i].nodes[a].proposals && ss[i].nodes[a].proposals[0] == Proposal(WRITE, [Committed])
    ensures var s := ss[|ss| - 1];
            && Confirmed(s, 0) && b in s.nodes
            && ss[i].nodes[b].commitIndex <= s.nodes[b].lastApplied < WRITE.index
  {
    hide Enabled, Next, T10, T11, T12, Initial, Confirmed;
    ss, steps := Acknowledged(a, b, c);
    To11(a, b, c);
    ss, steps := Extend(ss, steps, Timeout(b), T11(a, b, c));
    To12(a, b, c);
    ss, steps := Extend(ss, steps, DeliverVoteRequest(c, Ask3(b)), T12(a, b, c));
    To13(a, b, c);
    ss, steps := Extend(ss, steps, WinElection(b, {b, c}), T13(a, b, c));
    i := |steps|;
    To14(a, b, c);
    To15(a, b, c);
    ss, steps := Extend(ss, steps, StartRead(b, 0), T14(a, b, c));
    ss, steps := Extend(ss, steps, SendProbe(0, c, true), T15(a, b, c));
    To16(a, b, c);
    ss, steps := Extend(ss, steps, DeliverProbe(Check(b, c)), T16(a, b, c));
  }
}
