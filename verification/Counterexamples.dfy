/**
 The heartbeat that confirms a read carries the leader's commit index but no entries. A follower
 caps that index by its own last index only, so it may commit an entry of its own that the leader
 never had: in every cluster of three there is an execution that ends so (DivergentApply).
 */
module Counterexamples {
  import opened Types
  import opened Quorums
  import opened Protocol
  import opened Cluster

  predicate Three(a: Id, b: Id, c: Id) {
    a != b && a != c && b != c && NOBODY !in {a, b, c}
  }

  function World(a: Node, b: Node, c: Node): State {
    State(0, map[a.id := a, b.id := b, c.id := c], {}, {}, map[], map[], {}, {})
  }

  lemma Pairs(a: Id, b: Id, c: Id)
    requires Three(a, b, c)
    ensures IsQuorum({a, b, c}, {a, b}) && IsQuorum({a, b, c}, {b, c})
  {
    assert {a, b, c} == {a, b} + {c};
    assert |{a, b, c}| == 3 && |{a, b}| == 2 && |{b, c}| == 2;
  }

  // ---------------------------------------------------------------- node a wins term 1 with b's vote

  function Fresh(a: Id, b: Id, c: Id): State {
    World(Start(a, [b, c]), Start(b, [a, c]), Start(c, [a, b]))
  }

  lemma FreshInitial(a: Id, b: Id, c: Id)
    requires Three(a, b, c)
    ensures Initial(Fresh(a, b, c))
  {
    var s := Fresh(a, b, c);
    assert s.nodes.Keys == {a, b, c};
    assert Ids([b, c]) == {a, b, c} - {a};
    assert Ids([a, c]) == {a, b, c} - {b};
    assert Ids([a, b]) == {a, b, c} - {c};
  }

  const NOOP1 := Entry(1, 1, Noop)

  function Campaigner(a: Id, b: Id, c: Id): Node {
    Start(a, [b, c]).(term := 1, votedFor := a, role := Candidate)
  }

  function Incumbent(a: Id, b: Id, c: Id): Node {
    Campaigner(a, b, c).(role := Leader, log := Log(0, 0, [NOOP1]),
                         nextIndex := map[b := 1, c := 1], matchIndex := map[b := 0, c := 0])
  }

  function Supporter(a: Id, b: Id, c: Id): Node {
    Start(b, [a, c]).(term := 1, votedFor := a)
  }

  function Ask1(a: Id): VoteRequest {
    VoteRequest(1, a, 0, 0)
  }

  function Grant1(a: Id, b: Id): VoteAnswer {
    VoteAnswer(b, a, 1, VoteReply(1, true))
  }

  function S1(a: Id, b: Id, c: Id): State {
    World(Campaigner(a, b, c), Start(b, [a, c]), Start(c, [a, b])).(voteRequests := {Ask1(a)})
  }

  function S2(a: Id, b: Id, c: Id): State {
    World(Campaigner(a, b, c), Supporter(a, b, c), Start(c, [a, b])).(
      voteRequests := {Ask1(a)}, voteAnswers := {Grant1(a, b)})
  }

  function S3(a: Id, b: Id, c: Id): State {
    World(Incumbent(a, b, c), Supporter(a, b, c), Start(c, [a, b])).(
      voteRequests := {Ask1(a)}, voteAnswers := {Grant1(a, b)})
  }

  lemma To1(a: Id, b: Id, c: Id)
    requires Three(a, b, c)
    ensures Enabled(Fresh(a, b, c), Timeout(a)) && Next(Fresh(a, b, c), Timeout(a)) == S1(a, b, c)
  {
    assert Next(Fresh(a, b, c), Timeout(a)).nodes == S1(a, b, c).nodes;
  }

  lemma To2(a: Id, b: Id, c: Id)
    requires Three(a, b, c)
    ensures Enabled(S1(a, b, c), DeliverVoteRequest(b, Ask1(a)))
    ensures Next(S1(a, b, c), DeliverVoteRequest(b, Ask1(a))) == S2(a, b, c)
  {
    assert Next(S1(a, b, c), DeliverVoteRequest(b, Ask1(a))).nodes == S2(a, b, c).nodes;
  }

  lemma IncumbentElected(a: Id, b: Id, c: Id)
    requires Three(a, b, c)
    ensures BecomeLeader(Campaigner(a, b, c)) == Incumbent(a, b, c)
  {
    var n := BecomeLeader(Campaigner(a, b, c));
    assert n.nextIndex == map[b := 1, c := 1];
    assert n.matchIndex == map[b := 0, c := 0];
  }

  lemma To3(a: Id, b: Id, c: Id)
    requires Three(a, b, c)
    ensures Enabled(S2(a, b, c), WinElection(a, {a, b})) && Next(S2(a, b, c), WinElection(a, {a, b})) == S3(a, b, c)
  {
    hide BecomeLeader, IsQuorum;
    Pairs(a, b, c);
    IncumbentElected(a, b, c);
    assert S2(a, b, c).nodes.Keys == {a, b, c};
    assert Next(S2(a, b, c), WinElection(a, {a, b})).nodes == S3(a, b, c).nodes;
  }

  // ---------------------------------------------------------------- b wins term 2 with an empty log, and commits

  const NOOP2 := Entry(1, 2, Noop)

  function Ask2(b: Id): VoteRequest {
    VoteRequest(2, b, 0, 0)
  }

  function Grant2(b: Id, c: Id): VoteAnswer {
    VoteAnswer(c, b, 2, VoteReply(2, true))
  }

  function Rival(a: Id, b: Id, c: Id): Node {
    Supporter(a, b, c).(term := 2, votedFor := b, role := Candidate)
  }

  function Winner(a: Id, b: Id, c: Id): Node {
    Rival(a, b, c).(role := Leader, log := Log(0, 0, [NOOP2]),
                    nextIndex := map[a := 1, c := 1], matchIndex := map[a := 0, c := 0])
  }

  function Ally(a: Id, b: Id, c: Id): Node {
    Start(c, [a, b]).(term := 2, votedFor := b)
  }

  function Polled(s: State, a: Id, b: Id, c: Id): State {
    s.(voteRequests := {Ask1(a), Ask2(b)}, voteAnswers := {Grant1(a, b), Grant2(b, c)})
  }

  function S4(a: Id, b: Id, c: Id): State {
    World(Incumbent(a, b, c), Rival(a, b, c), Start(c, [a, b])).(
      voteRequests := {Ask1(a), Ask2(b)}, voteAnswers := {Grant1(a, b)})
  }

  function S5(a: Id, b: Id, c: Id): State {
    Polled(World(Incumbent(a, b, c), Rival(a, b, c), Ally(a, b, c)), a, b, c)
  }

  function S6(a: Id, b: Id, c: Id): State {
    Polled(World(Incumbent(a, b, c), Winner(a, b, c), Ally(a, b, c)), a, b, c)
  }

  function Batch2(b: Id): AppendRequest {
    AppendRequest(2, b, 0, 0, [NOOP2], 0)
  }

  function S7(a: Id, b: Id, c: Id): State {
    S6(a, b, c).(exchanges := map[Link(b, c) := Asked(Batch2(b))])
  }

  function Ally2(a: Id, b: Id, c: Id): Node {
    Ally(a, b, c).(log := Log(0, 0, [NOOP2]))
  }

  function S8(a: Id, b: Id, c: Id): State {
    Polled(World(Incumbent(a, b, c), Winner(a, b, c), Ally2(a, b, c)), a, b, c).(
      exchanges := map[Link(b, c) := Answered(Batch2(b), AppendReply(2, true, 0, 0))])
  }

  function Winner9(a: Id, b: Id, c: Id): Node {
    Winner(a, b, c).(nextIndex := map[a := 1, c := 2], matchIndex := map[a := 0, c := 1])
  }

  function S9(a: Id, b: Id, c: Id): State {
    Polled(World(Incumbent(a, b, c), Winner9(a, b, c), Ally2(a, b, c)), a, b, c)
  }

  function S10(a: Id, b: Id, c: Id): State {
    Polled(World(Incumbent(a, b, c), Winner9(a, b, c).(commitIndex := 1), Ally2(a, b, c)), a, b, c)
  }

  function S11(a: Id, b: Id, c: Id): State {
    S10(a, b, c).(queries := map[0 := Read(b, 2, 1)])
  }

  function Heartbeat(a: Id, b: Id): Probe {
    Probe(0, a, AppendRequest(2, b, 0, 0, [], 1))
  }

  function S12(a: Id, b: Id, c: Id): State {
    S11(a, b, c).(probes := {Heartbeat(a, b)})
  }

  /** The old leader, its own first entry now marked committed. */
  function Deposed(a: Id, b: Id, c: Id): Node {
    Incumbent(a, b, c).(role := Follower, term := 2, votedFor := NOBODY, commitIndex := 1)
  }

  function S13(a: Id, b: Id, c: Id): State {
    Polled(World(Deposed(a, b, c), Winner9(a, b, c).(commitIndex := 1), Ally2(a, b, c)), a, b, c).(
      queries := map[0 := Read(b, 2, 1)], probes := {Heartbeat(a, b)}, probeAnswers := {ProbeAnswer(0, a, 2)})
  }

  lemma To4(a: Id, b: Id, c: Id)
    requires Three(a, b, c)
    ensures Enabled(S3(a, b, c), Timeout(b)) && Next(S3(a, b, c), Timeout(b)) == S4(a, b, c)
  {
    assert Next(S3(a, b, c), Timeout(b)).nodes == S4(a, b, c).nodes;
  }

  lemma To5(a: Id, b: Id, c: Id)
    requires Three(a, b, c)
    ensures Enabled(S4(a, b, c), DeliverVoteRequest(c, Ask2(b)))
    ensures Next(S4(a, b, c), DeliverVoteRequest(c, Ask2(b))) == S5(a, b, c)
  {
    assert Next(S4(a, b, c), DeliverVoteRequest(c, Ask2(b))).nodes == S5(a, b, c).nodes;
  }

  lemma WinnerElected(a: Id, b: Id, c: Id)
    requires Three(a, b, c)
    ensures BecomeLeader(Rival(a, b, c)) == Winner(a, b, c)
  {
    var n := BecomeLeader(Rival(a, b, c));
    assert n.nextIndex == map[a := 1, c := 1];
    assert n.matchIndex == map[a := 0, c := 0];
  }

  lemma To6(a: Id, b: Id, c: Id)
    requires Three(a, b, c)
    ensures Enabled(S5(a, b, c), WinElection(b, {b, c})) && Next(S5(a, b, c), WinElection(b, {b, c})) == S6(a, b, c)
  {
    hide BecomeLeader, IsQuorum;
    Pairs(a, b, c);
    WinnerElected(a, b, c);
    assert S5(a, b, c).nodes.Keys == {a, b, c};
    assert Next(S5(a, b, c), WinElection(b, {b, c})).nodes == S6(a, b, c).nodes;
  }

  lemma To7(a: Id, b: Id, c: Id)
    requires Three(a, b, c)
    ensures Enabled(S6(a, b, c), Replicate(Link(b, c))) && Next(S6(a, b, c), Replicate(Link(b, c))) == S7(a, b, c)
  {
    assert Winner(a, b, c).log.Slice(1, 1) == [NOOP2];
    assert BuildRequest(Winner(a, b, c), c, 0) == Some(Batch2(b));
  }

  lemma AllyAccepts(a: Id, b: Id, c: Id)
    requires Three(a, b, c)
    ensures Wellformed(Ally(a, b, c).log, Batch2(b))
    ensures HandleAppend(Ally(a, b, c), Batch2(b)) == (Ally2(a, b, c), AppendReply(2, true, 0, 0))
  {
    assert Ally(a, b, c).log.Append([NOOP2]).entries == [NOOP2];
  }

  lemma To8(a: Id, b: Id, c: Id)
    requires Three(a, b, c)
    ensures Enabled(S7(a, b, c), DeliverAppend(Link(b, c))) && Next(S7(a, b, c), DeliverAppend(Link(b, c))) == S8(a, b, c)
  {
    hide HandleAppend, Wellformed;
    AllyAccepts(a, b, c);
    assert Next(S7(a, b, c), DeliverAppend(Link(b, c))).nodes == S8(a, b, c).nodes;
    assert Next(S7(a, b, c), DeliverAppend(Link(b, c))).exchanges == S8(a, b, c).exchanges;
  }

  lemma WinnerHears(a: Id, b: Id, c: Id)
    requires Three(a, b, c)
    ensures HandleReply(Winner(a, b, c), c, Batch2(b), AppendReply(2, true, 0, 0)) == Winner9(a, b, c)
  {
    var n := HandleReply(Winner(a, b, c), c, Batch2(b), AppendReply(2, true, 0, 0));
    assert n.nextIndex == map[a := 1, c := 2] && n.matchIndex == map[a := 0, c := 1];
  }

  lemma To9(a: Id, b: Id, c: Id)
    requires Three(a, b, c)
    ensures Enabled(S8(a, b, c), DeliverReply(Link(b, c))) && Next(S8(a, b, c), DeliverReply(Link(b, c))) == S9(a, b, c)
  {
    hide HandleReply;
    WinnerHears(a, b, c);
    assert Next(S8(a, b, c), DeliverReply(Link(b, c))).nodes == S9(a, b, c).nodes;
    assert Next(S8(a, b, c), DeliverReply(Link(b, c))).exchanges == map[];
  }

  lemma SortThree(x: nat, y: nat, z: nat)
    ensures x >= z >= y ==> Sort([x, y, z]) == [y, z, x]
    ensures x >= y >= z ==> Sort([x, y, z]) == [z, y, x]
  {
    assert [x, y, z][1..] == [y, z] && [y, z][1..] == [z] && [z][1..] == [];
    assert Sort([z]) == [z];
    if x >= z >= y {
      assert Insert(y, [z]) == [y, z];
      assert [y, z][1..] == [z] && Insert(x, [z]) == if x <= z then [x, z] else [z, x];
    }
    if x >= y >= z && !(x >= z >= y) {
      assert Insert(y, [z]) == [z, y];
      assert [z, y][1..] == [y] && Insert(x, [y]) == [y, x];
    }
  }

  lemma To10(a: Id, b: Id, c: Id)
    requires Three(a, b, c)
    ensures Enabled(S9(a, b, c), TryCommit(b)) && Next(S9(a, b, c), TryCommit(b)) == S10(a, b, c)
  {
    var n := Winner9(a, b, c);
    assert MatchList(n) == [1, 0, 1];
    SortThree(1, 0, 1);
    assert MajorityIndex(MatchList(n)) == 1;
    hide MatchList, MajorityIndex;
    assert AdvanceCommit(n) == n.(commitIndex := 1);
    assert Next(S9(a, b, c), TryCommit(b)).nodes == S10(a, b, c).nodes;
  }

  lemma To12(a: Id, b: Id, c: Id)
    requires Three(a, b, c)
    ensures Enabled(S10(a, b, c), StartRead(b, 0)) && Next(S10(a, b, c), StartRead(b, 0)) == S11(a, b, c)
    ensures Enabled(S11(a, b, c), SendProbe(0, a, true)) && Next(S11(a, b, c), SendProbe(0, a, true)) == S12(a, b, c)
  {
  }

  lemma IncumbentYields(a: Id, b: Id, c: Id)
    requires Three(a, b, c)
    ensures Wellformed(Incumbent(a, b, c).log, Heartbeat(a, b).req)
    ensures HandleAppend(Incumbent(a, b, c), Heartbeat(a, b).req) == (Deposed(a, b, c), AppendReply(2, true, 0, 0))
  {
  }

  lemma To13(a: Id, b: Id, c: Id)
    requires Three(a, b, c)
    ensures Enabled(S12(a, b, c), DeliverProbe(Heartbeat(a, b)))
    ensures Next(S12(a, b, c), DeliverProbe(Heartbeat(a, b))) == S13(a, b, c)
  {
    hide HandleAppend, Wellformed;
    IncumbentYields(a, b, c);
    assert Next(S12(a, b, c), DeliverProbe(Heartbeat(a, b))).nodes == S13(a, b, c).nodes;
  }

  function S14(a: Id, b: Id, c: Id): State {
    Polled(World(Deposed(a, b, c).(lastApplied := 1), Winner9(a, b, c).(commitIndex := 1), Ally2(a, b, c)), a, b, c).(
      queries := map[0 := Read(b, 2, 1)], probes := {Heartbeat(a, b)}, probeAnswers := {ProbeAnswer(0, a, 2)})
  }

  function S15(a: Id, b: Id, c: Id): State {
    Polled(World(Deposed(a, b, c).(lastApplied := 1), Winner9(a, b, c).(commitIndex := 1, lastApplied := 1), Ally2(a, b, c)),
           a, b, c).(
      queries := map[0 := Read(b, 2, 1)], probes := {Heartbeat(a, b)}, probeAnswers := {ProbeAnswer(0, a, 2)})
  }

  lemma BothApply(a: Id, b: Id, c: Id)
    requires Three(a, b, c)
    ensures ApplyNext(Deposed(a, b, c)) == Deposed(a, b, c).(lastApplied := 1)
    ensures ApplyNext(Winner9(a, b, c).(commitIndex := 1)) == Winner9(a, b, c).(commitIndex := 1, lastApplied := 1)
  {
  }

  lemma To14(a: Id, b: Id, c: Id)
    requires Three(a, b, c)
    ensures Enabled(S13(a, b, c), ApplyOne(a)) && Next(S13(a, b, c), ApplyOne(a)) == S14(a, b, c)
  {
    hide ApplyNext;
    BothApply(a, b, c);
    assert Next(S13(a, b, c), ApplyOne(a)).nodes == S14(a, b, c).nodes;
  }

  lemma To15(a: Id, b: Id, c: Id)
    requires Three(a, b, c)
    ensures Enabled(S14(a, b, c), ApplyOne(b)) && Next(S14(a, b, c), ApplyOne(b)) == S15(a, b, c)
  {
    hide ApplyNext;
    BothApply(a, b, c);
    assert Next(S14(a, b, c), ApplyOne(b)).nodes == S15(a, b, c).nodes;
  }

  // ---------------------------------------------------------------- the execution

  lemma Extend(ss: seq<State>, steps: seq<Step>, step: Step, s': State) returns (tt: seq<State>, us: seq<Step>)
    requires IsExecution(ss, steps) && Enabled(ss[|ss| - 1], step) && Next(ss[|ss| - 1], step) == s'
    ensures tt == ss + [s'] && us == steps + [step]
    ensures IsExecution(tt, us)
    ensures IsRun(ss, steps) && SoundStep(ss[|ss| - 1], step) ==> IsRun(tt, us)
  {
    hide Enabled, Next, SoundStep, Initial;
    tt, us := ss + [s'], steps + [step];
  }

  /** Term 1: a leads, and nobody else has its entry. */
  lemma Opening(a: Id, b: Id, c: Id) returns (ss: seq<State>, steps: seq<Step>)
    requires Three(a, b, c)
    ensures IsRun(ss, steps) && ss[|ss| - 1] == S3(a, b, c)
  {
    hide Enabled, Next, Initial, Fresh, S1, S2, S3;
    FreshInitial(a, b, c);
    ss, steps := [Fresh(a, b, c)], [];
    To1(a, b, c);
    ss, steps := Extend(ss, steps, Timeout(a), S1(a, b, c));
    To2(a, b, c);
    ss, steps := Extend(ss, steps, DeliverVoteRequest(b, Ask1(a)), S2(a, b, c));
    To3(a, b, c);
    ss, steps := Extend(ss, steps, WinElection(a, {a, b}), S3(a, b, c));
  }

  /** Term 2: b leads, and has committed its first entry with c. */
  lemma SecondTerm(a: Id, b: Id, c: Id) returns (ss: seq<State>, steps: seq<Step>)
    requires Three(a, b, c)
    ensures IsExecution(ss, steps) && ss[|ss| - 1] == S10(a, b, c)
  {
    hide Enabled, Next, Initial, S3, S4, S5, S6, S7, S8, S9, S10, IsExecution, SoundStep;
    ss, steps := Opening(a, b, c);
    assert IsExecution(ss, steps);
    To4(a, b, c);
    ss, steps := Extend(ss, steps, Timeout(b), S4(a, b, c));
    To5(a, b, c);
    ss, steps := Extend(ss, steps, DeliverVoteRequest(c, Ask2(b)), S5(a, b, c));
    To6(a, b, c);
    ss, steps := Extend(ss, steps, WinElection(b, {b, c}), S6(a, b, c));
    To7(a, b, c);
    ss, steps := Extend(ss, steps, Replicate(Link(b, c)), S7(a, b, c));
    To8(a, b, c);
    ss, steps := Extend(ss, steps, DeliverAppend(Link(b, c)), S8(a, b, c));
    To9(a, b, c);
    ss, steps := Extend(ss, steps, DeliverReply(Link(b, c)), S9(a, b, c));
    To10(a, b, c);
    ss, steps := Extend(ss, steps, TryCommit(b), S10(a, b, c));
  }

  /**
   The read heartbeat as coded breaks state machine safety: in every cluster of three there is an
   execution after which two nodes have applied different entries at index 1.
   */
  lemma DivergentApply(a: Id, b: Id, c: Id) returns (ss: seq<State>, steps: seq<Step>)
    requires Three(a, b, c)
    ensures IsExecution(ss, steps)
    ensures var s := ss[|ss| - 1];
            && a in s.nodes && b in s.nodes
            && s.nodes[a].lastApplied == 1 == s.nodes[b].lastApplied
            && s.nodes[a].log.entries == [NOOP1] && s.nodes[b].log.entries == [NOOP2]
  {
    hide Enabled, Next, Initial, S10, S11, S12, S13, S14, IsExecution, SoundStep;
    ss, steps := SecondTerm(a, b, c);
    To12(a, b, c);
    ss, steps := Extend(ss, steps, StartRead(b, 0), S11(a, b, c));
    ss, steps := Extend(ss, steps, SendProbe(0, a, true), S12(a, b, c));
    To13(a, b, c);
    ss, steps := Extend(ss, steps, DeliverProbe(Heartbeat(a, b)), S13(a, b, c));
    To14(a, b, c);
    ss, steps := Extend(ss, steps, ApplyOne(a), S14(a, b, c));
    To15(a, b, c);
    ss, steps := Extend(ss, steps, ApplyOne(b), S15(a, b, c));
  }
}
