# A verified model of the replicated key-value store

This project models the Raft implementation in `internal/raft` and the key-value state machine in
`internal/kv` in Dafny, and proves what they promise. `dafny verify dfyconfig.toml` checks all of it.

The model has four layers.

1. **The cluster.** `Protocol` says what each handler and role change of one node computes. `Cluster` runs
   any number of nodes: timeouts, votes, the election no-op, proposals and cancellations, replication
   exchanges that may be lost, commit, apply, crashes and restarts, and reads with their probes. `Safety`,
   `ReadIndex` and `Backtracking` state what every run guarantees, in terms of the run's own states only. Safety alone would let
   a node refuse everything: `Duties` says what every step must do, on the states before and after it, and `Availability` that
   from every reachable state every majority can go on alone.
   Behind them, `Core` is a protocol over logs that still truncates on every accepted write, with an invariant
   kept by each of its seven steps (`CoreSteps`); `Simulation` ties each cluster state to a core state, and the
   modules named `...Steps` and `Frames` show that every cluster step keeps the tie. `Heartbeats` shows which read
   heartbeats are harmless, and `Witnesses` that no weaker test of the sender's own log would do. An accepted append
   replaces the follower's tail unread, so the usual argument (only conflicting entries are removed) is not
   available: the proof shows instead that a leader and a follower never agree at the index after the
   batch in flight.
2. **The node as an object.** `RaftNode` is the node with fields, maps, backward scans, counting loops and an
   in-place sort; each method is proved to compute what `Protocol` says. It works on `PersistentLog`, the
   durable log with its storage batches and its tail cache, proved to refine a plain log across crashes; `DiskKeys`
   ties its numbered entries to the engine's byte keys.
   `PendingReads` is the slice of waiting readers, filtered in place.
3. **One node's state machine over its life.** `Bytes` and `StateMachine` cover prefix ranges, Dump and Restore.
   `Replay` runs apply, the three durable writes of a local snapshot, compaction, snapshot installs and
   crashes that lose unsynced writes, against the committed history. `Replica` holds the objects that do this.
4. **End to end.** `History` joins the layers: every run of the cluster has one committed history, each node's
   store lives through it as `Replay` describes, so replicas agree and a confirmed read sees every write
   acknowledged before it began.

## Assumptions

- Each handler or role change is one step. The code does part of this work outside its lock.
- A replication exchange is: the leader builds a request, the peer handles it, the reply is processed; request
  and reply may be lost. There is one exchange per leader and peer at a time, and a new one replaces an
  undelivered one, since rounds are serialized. Vote requests, votes, probes and their answers may be delayed,
  lost and delivered any number of times.
- In the cluster layer no snapshot is taken (SnapshotThreshold 0), so logs start at index 1 and a leader never
  falls back to InstallSnapshot. In `Replay` and `Replica` snapshots are on.
- Storage writes succeed; the log's are synced, the state machine's are not. Batches and renames are atomic.
- Node ids are distinct and non-empty, membership is fixed, the batch limit is at least 0.
- Terms and indices are unbounded numbers, except in `PersistentLog`, where the 64-bit wrap of the eviction
  threshold is modelled and indices are required to stay below 2^64.
- A read's probe may go out at any time, in the term the read began in, whatever has become of the reader. With a
  commit index it goes out only as `Cluster.SoundStep` says; `IsExecution` is the same without this restriction.
- A node's SnapshotThreshold is the same in all its lives, and that of the nodes that send it snapshots, where a result says so
  (`Replay.IsScheduled`). The deployment sets one for all nodes (docker-compose.yml:25,42,59).

## Where the code does less than it promises

- **Read heartbeats carry the commit index.** The follower caps it by its own last index only. If prevIndex is
  below the commit index and the follower has a divergent tail, it can commit entries nobody agreed on:
  `Counterexamples.DivergentApply` is such an execution in every cluster of three, ending with two nodes
  that have applied different entries at index 1. For a leader in the read's term `Witnesses.HeartbeatHarmless` gives the exact
  condition, which it could check on its own log (`Seamless`): commitIndex <= prevIndex, or the entries after prevIndex up to
  commitIndex all have the term at prevIndex (term 1 if prevIndex is 0) and from that term on the log skips no term before
  the last it holds below the leader's own.
- **Read heartbeats of a node that has left office.** The reader looks at nextIndex, its log and its commit index again when
  it sends, but not at its role or term. `LateProbe.LateDivergence` is an execution, in every cluster of seven, in which the
  one heartbeat is sent in term 1 by a node that by then follows in term 3, with a commit index that does not even exceed
  prevIndex. The follower commits an entry that only a later term has committed, the leader of a term in between overwrites
  it, and two nodes have applied different entries at index 1. For a node in a later term than the read's
  `Witnesses.LateHeartbeatHarmless` gives the exact condition (`Unbroken`): no commit index; or a prevTerm that no node in the read's
  term can match; or commitIndex <= prevIndex and the log skips no term from the read's up to the node's own; or commitIndex
  stays within the term at prevIndex and the log skips no term from that one up to the node's own.

  Both equivalences range over all states that satisfy the protocol's invariant and all other nodes in them, so that the log
  and the numbers alone decide. Harmless means that every leader of the follower's term or a later one holds what the
  follower has then committed. Every leader and every reader of every run is in such a state with every other
  node (`History.HeartbeatsMeet`, `History.LateReadersMeet`). The runs of the safety theorems (`IsRun`) contain exactly the
  heartbeats that meet the condition for their sender, and any probe without a commit index.
- **Reads before the first commit of a term.** `LinearizableRead` does not test that the leader's commit index
  covers its own term. `StaleRead.MissedWrite` is a run, in every cluster of three, in which a confirmed read
  misses an acknowledged write. `ReadIndex.ReadIndexSafety` holds when nothing of an earlier term lies beyond the
  leader's commit index, which the leader can check before it starts; `OwnTermSuffices` shows that having
  committed an entry of the own term implies it. `Witnesses.ReadConditionExact` shows that no weaker test of log and commit
  index would do: for every log and commit index that fail it, some state of the protocol has a commit beyond.
- **Snapshots ahead of their index.** At a fixed threshold every snapshot a node takes is exact, even after
  crashes and during replay over a later store (`Replay.ScheduledSnapshots`). Two cases remain. A crash between the
  two renames leaves new data under the old meta file (`Replay.NewDataUnderOldMeta`); the node itself recovers from it
  (`Replay.CrashSafe`), but sent as InstallSnapshot it puts a follower ahead of its applied index for a while, which is
  what the `settled` index of an install stands for. And a node started again with another threshold can snapshot
  during replay (`Replay.EarlySnapshot`); replay over a store left behind is exact if and only if every key of that
  store has been written by the entries replayed (`Replay.ReplayExact`).
- **Installing below commitIndex** moves commitIndex back and drops committed entries from the log, exactly when the
  snapshot is not ignored and its index is below commitIndex (`Replay.CommitMovesBack`). lastApplied, and with it the store, moves
  back exactly when the index is also below lastApplied (`Replay.AppliedMovesBack`). Where all nodes have one threshold, the second never
  happens (`Replay.ScheduledInstall`) and the first does: `Replay.InstallLosesCommitted` loses an entry from the log only.
  `Replay.MixedThresholdsLoseApplied` loses one from the store, with a sender at another threshold. The replay invariant
  itself survives every install.

## Model

| member | source | states |
|---|---|---|
| `Safety.StateMachineSafety` | internal/raft/replication.go:55-283 | In every run, at any two moments, the logs of any two nodes agree up to the lower of their applied indices, and up to the lower of their commit indices; so no two nodes ever apply different entries at one index. |
| `Safety.LeaderCompleteness` | internal/raft/replication.go:165-199 | What a leader's commitIndex covers is, from then on, in the log of every leader of the same or a later term, at the same indices. |
| `Safety.LogMatching` | internal/raft/replication.go:203-264 | At any two moments of a run, an index and a term shared by two logs fix everything up to that index; terms never decrease along a log. |
| `Safety.TruncationSafety` | internal/raft/log.go:318-346 | A request of the leader in office, delivered, leaves in place every entry the follower's log shared with the leader's, although the write drops the tail unread and replies may have been lost. |
| `Safety.NextBatchCovers` | internal/raft/replication.go:72-94 | In every run, for a leader and any peer whose term is at most the leader's, the longest common prefix of their logs ends at or before the end of the next batch, after lost replies and under the batch cap too. |
| `Safety.ElectionSafety` | internal/raft/election.go:14-101 | No term has two leaders in a whole run, restarts included. |
| `Safety.OneVotePerTerm` | internal/raft/election.go:107-140 | Two votes a node ever grants in one term are for the same candidate. |
| `Safety.TermsNeverDecrease` | internal/raft/log.go:173-188 | A node's term never decreases along a run, through crashes and restarts. |
| `Safety.ProposalOutcome` | internal/raft/propose.go:24-96 | A waiter's channel receives at most one value, so the one-slot send never blocks; if it is success, every node that has applied the proposal's index has applied exactly the proposed entry there. |
| `Safety.NeverMalformed` | internal/raft/replication.go:55-108 | In every run a leader can build a request for each peer without needing a snapshot, and every request and probe in flight is well-formed for the node that receives it. |
| `Availability.MajorityProgresses` | internal/raft/replication.go:26-283 | From every state of every run, every majority can go on with only its own members taking part and nothing failing, to a state in which one of them leads, has taken any given command, all of them hold its log, committed and applied to the end, and the proposer has been told success; the other nodes are untouched. |
| `Availability.MajorityReads` | internal/raft/readindex.go:28-127 | In the same way, from every state of every run, every majority can serve a read: a leader with nothing uncommitted starts it, a majority confirms it, and what it waits for is applied. |
| `Availability.Elects` | internal/raft/election.go:14-152 | From every state of every run, whatever terms and stale leaders it has, every majority can elect one of its members, unless its latest term already has its leader there. |
| `Availability.CatchUp` | internal/raft/replication.go:55-157 | From every state of every run, finitely many undisturbed exchanges bring any peer not past the leader's term to exactly the leader's log, and the leader's matchIndex to its end; nothing else changes. |
| `Availability.Commits` | internal/raft/replication.go:165-199 | Once a majority has caught up, the leader commits its whole log. |
| `Duties.CompleteTotal` | internal/raft/election.go:145-152 | Of any two logs one is at least as complete as the other, and the order is transitive, so no two nodes can refuse each other. |
| `Duties.VoteAnswered` | internal/raft/election.go:107-152 | For every node and request, a vote is granted if and only if the term is not stale, no other candidate has the vote in that term, and the candidate's last term is later, or the same and its log at least as long; term, vote and role are what the answer says, and nothing else changes. |
| `Duties.Electable` | internal/raft/election.go:107-152 | In every run, some member of every majority would get the vote of the whole majority, in any term none of it has reached. |
| `Duties.TimedOut` | internal/raft/election.go:14-20 | A campaign is in the next term, with the own vote, and asks with the log's last index and term. |
| `Duties.MajorityElects` | internal/raft/election.go:21-22 | Votes of more than half the members are enough to take office. |
| `Duties.TookOffice` | internal/raft/node_lifecycle.go:116-139 | The new leader's log ends in an entry of its term, every peer is to be tried from there and nothing is known to be held. |
| `Duties.LaterTermHeeded` | internal/raft/node_lifecycle.go:85-102 | In every run, every request, vote, reply or probe answer of a later term than its receiver's makes that a follower in that term, its vote free or given to the asker. |
| `Duties.OutrankedStepsDown` | internal/raft/replication.go:113-116 | An answer from a later term than was asked in (append reply, vote reply or probe answer) makes a follower in the later of the two terms, its vote cleared if the term rose, log and indices untouched. |
| `Duties.RequestAnswered` | internal/raft/replication.go:203-283 | A request that is not stale succeeds if and only if prevIndex is 0 or held with prevTerm; then the log is the old prefix plus the entries and commitIndex the higher of its own and the announced one within the log; otherwise the hint is one past a short log, or the term in the way and where it begins. |
| `Duties.ProbeAnswered` | internal/raft/readindex.go:71-91 | A read's heartbeat is handled the same way, and its answer carries the higher of the two terms. |
| `Duties.ProbeGoesOut` | internal/raft/readindex.go:58-78 | It is sent in the read's term with the node's present prevIndex, prevTerm and commit index. |
| `Duties.RequestPossible` | internal/raft/replication.go:61-77 | A request is built, instead of a snapshot sent, if and only if nextIndex is above the boundary and at most one past the log. |
| `Duties.RequestBuilt` | internal/raft/replication.go:72-108 | It carries all entries from nextIndex on, or as many as the batch limit allows. |
| `Duties.AnswerHeard` | internal/raft/replication.go:118-157 | Success moves matchIndex and nextIndex to the end of the batch; a refusal moves nextIndex past the leader's last entry of the term in the way if it has one, else to the hinted index. |
| `Duties.CommitAdvances` | internal/raft/replication.go:165-199 | In every run, each own-term entry that more than half the members hold, by the leader's bookkeeping, is committed; and if commitIndex moves, it is to the greatest index so held, which is of the leader's own term. |
| `Duties.AppliesNext` | internal/raft/node_lifecycle.go:187-214 | The next entry is applied whenever one is committed, and the waiter at its index, and no other, is told success. |
| `Duties.CrashKeeps` | internal/raft/state.go:186-227 | A crash leaves term, vote and log, and nothing waits. |
| `Duties.Proposed` | internal/raft/propose.go:24-57 | A proposal is the log's next entry, in the leader's term, with its waiter at that index. |
| `Duties.StepTreats` | internal/raft/propose.go:24-96 | Every step treats every proposal so: a waiting one is told success when its index is applied, dropped when its node leaves office, and goes on waiting otherwise, unless the node crashes or a call gives up at its index; one that does not wait is left alone. |
| `Duties.OfficeLost` | internal/raft/propose.go:91-96 | In every run, a leader that stops leading without a crash has told every waiting proposal that it was dropped, and none waits. |
| `Duties.TicketAccounted` | internal/raft/propose.go:24-96 | At every moment of every run each proposal ever made waits, unanswered, at its entry in a leader's log and ahead of lastApplied; or was answered exactly once; or was silenced by a crash, or by a call that gave up at its index. |
| `CoreSteps.AcceptKeeps` | internal/raft/log.go:318-346 | The truncating write keeps the core invariant, provided the logs do not agree at the index after it. |
| `CoreSteps.ElectKeeps` | internal/raft/election.go:107-152 | A candidate elected by voters who found its log up to date keeps the core invariant: whatever can still be committed is in its log. |
| `CoreSteps.CommitKeeps` | internal/raft/replication.go:184-197 | Committing an own-term entry acknowledged by a quorum keeps the core invariant. |
| `CoreSteps.DecisionsAgree` | internal/raft/replication.go:165-199 | All prefixes ever decided lie on one line, whichever leaders decided them. |
| `Safety.StepKeeps` | internal/raft/replication.go:26-283 | Each step of the cluster has core steps behind it that keep both invariants and take nothing back. |
| `DeliverySteps.AppendStep` | internal/raft/replication.go:203-283 | Handling a replication request keeps the simulation invariant, whatever was lost before it. |
| `ReplySteps.ReplyStep` | internal/raft/replication.go:113-157 | Handling the reply keeps it: nextIndex and matchIndex stay where the follower's log bears them out. |
| `ElectionSteps.VoteRequestStep` | internal/raft/election.go:107-140 | Handling a vote request keeps it. |
| `ElectionSteps.WinStep` | internal/raft/node_lifecycle.go:116-144 | Taking office with the no-op keeps it. |
| `CommitSteps.TryCommitStep` | internal/raft/replication.go:165-199 | Advancing commitIndex to the median match keeps it: the holders are a quorum that acknowledged an own-term entry. |
| `CommitSteps.CrashStep` | internal/raft/state.go:186-227 | A crash and restart, which forgets everything but term, vote and log, keeps it. |
| `MajorityRule.MajorityIndexIsGreatest` | internal/raft/replication.go:173-182 | For every list of match indices, at least n/2+1 members hold index k if and only if k is at most the sorted list's element at (n-1)/2. |
| `MajorityRule.MajorityIndexIsHeld` | internal/raft/replication.go:173-182 | That element is one of the match indices. |
| `Quorums.QuorumsMeet` | internal/raft/election.go:21-22 | Any two sets of total/2+1 members share one. |
| `Safety.LogsCoherent` | internal/raft/replication.go:229-257 | Any two logs of a run, at any moments, meet the one condition the backtracking results below put on a leader's and a follower's log. |
| `Backtracking.RefusalLowers` | internal/raft/replication.go:132-157 | Each refusal strictly lowers nextIndex, and never below the common prefix plus one. |
| `Backtracking.RefusalExact` | internal/raft/replication.go:133-152 | If the leader holds the conflict term, one refusal moves nextIndex to exactly the common prefix plus one, which is then accepted. |
| `Backtracking.RefusalsBounded` | internal/raft/replication.go:132-157 | Until acceptance there are at most one refusal plus one per distinct term in the follower's divergent suffix. |
| `Backtracking.BacktrackLands` | internal/raft/replication.go:132-157 | Wherever the hint sends nextIndex, the logs do not agree there, so no shared entry is passed over. |
| `Backtracking.FindTermScan` | internal/raft/replication.go:136-148 | The backward scan finds the last entry of the conflict term if and only if the log holds one, although it gives up at the first older term. |
| `Backtracking.StartOfRunScan` | internal/raft/replication.go:241-250 | The follower's scan stops at the first retained index of the conflicting term's run. |
| `ReadIndex.ReadIndexSafety` | internal/raft/readindex.go:28-127 | If nothing of an earlier term lies beyond the leader's commit index when a read starts, a majority confirmation implies that the read's index covers every commit index reached and every write acknowledged before the start, by any node. |
| `ReadIndex.ReadRecorded` | internal/raft/readindex.go:28-43 | The index and term a read goes by, to its end, are the leader's commit index and term when it started. |
| `ReadIndex.OwnTermSuffices` | internal/raft/node_lifecycle.go:134-139 | A leader whose commit index covers an entry of its own term, the purpose of the no-op, meets that condition. |
| `ReadIndex.ReadSeesEverything` | internal/raft/readindex.go:28-43 | A read that returns has applied, entry for entry, all that any node had committed when it began. |
| `Witnesses.HeartbeatHarmless` | internal/raft/readindex.go:63-78 | For every log a leader can have, its term, prevIndex and commit index: over all states of the protocol's invariant in which it leads with them, the heartbeat makes no other node commit anything that some leader of that node's term or a later one does not hold, if and only if the commit index is seamless: at most prevIndex, or reached by entries of one term from which on the log skips no term before its last one below the leader's. |
| `Witnesses.LateHeartbeatHarmless` | internal/raft/readindex.go:58-78 | The same for every log and commit index of a node that led term t and is in a later one, and its heartbeat in term t: harmless to every other node if and only if unbroken, as spelled out above. |
| `Heartbeats.SeamlessAnnounced` | internal/raft/readindex.go:63-78 | A leader whose commit index is seamless announces only what was committed in some term w, and what every leader from the first term that matters up to w held. |
| `Heartbeats.UnbrokenAnnounced` | internal/raft/readindex.go:58-78 | So does any node whose commit index is unbroken for the term it sends in. |
| `Heartbeats.AnnouncedShares` | internal/raft/replication.go:266-280 | Whoever passes such a heartbeat's check, not past its term, shares with term w all it may then commit, whatever its own tail; this is kept of every heartbeat in flight. |
| `Heartbeats.SeamlessCases` | internal/raft/readindex.go:63-78 | A commit index at most prevIndex is seamless; so is any when prevIndex holds an entry of the leader's own term, and one reached within the term at prevIndex when the log holds no term between that and the leader's. |
| `History.HeartbeatsMeet` | internal/raft/replication.go:203-221 | In every run, a leader in office and any other node are in a state `Witnesses.HeartbeatHarmless` ranges over. |
| `History.LateReadersMeet` | internal/raft/readindex.go:58-78 | In every run, the node that began a read, once it is in a later term, and any other node are in a state `Witnesses.LateHeartbeatHarmless` ranges over. |
| `LateProbe.LateDivergence` | internal/raft/readindex.go:58-78 | In every cluster of seven there is an execution with one heartbeat, sent for a read of term 1 by a follower of term 3 whose commit index is prevIndex, that ends with two nodes that have applied different entries at index 1. |
| `Witnesses.ReadConditionExact` | internal/raft/readindex.go:28-43 | For every log and commit index of a leader: over all states of the protocol's invariant in which nobody has voted past its term, no term has committed beyond the commit index if and only if the entry after it, if any, is the leader's own. |
| `Counterexamples.DivergentApply` | internal/raft/replication.go:266-280 | As coded, the heartbeat leads every cluster of three to a state in which two nodes have applied different entries at index 1. |
| `StaleRead.MissedWrite` | internal/raft/readindex.go:28-43 | In every cluster of three there is a run in which a read by a new leader is confirmed and returns without a write acknowledged before it began; the leader's commit index left an inherited entry uncovered. |
| `PersistentLogs.Recovery` | internal/raft/log.go:94-142 | After any legal sequence of operations, cut off after any number of batches, the disk holds exactly one log: the plain log after that many operations. |
| `PersistentLogs.BatchStores` | internal/raft/log.go:309-466 | The batch of each operation turns a disk that stores a log into one that stores the log the operation means, keys exactly (lastIncludedIndex, lastIndex]. |
| `PersistentLogs.EffectAt` | internal/raft/log.go:309-466 | What each operation means, index by index: which entries go, which stay as they were, and where boundary and last index end up. |
| `PersistentLogs.StoresOnce` | internal/raft/log.go:94-142 | A disk stores at most one log. |
| `PersistentLogs.EvictedSize` | internal/raft/log.go:357-370 | However the 64-bit threshold wraps, what eviction leaves is at most limit + 1 + the number of appended entries. |
| `PersistentLogs.PersistentLog.Open` | internal/raft/log.go:94-142 | Opening finds the stored log's bounds, term and vote by scanning the keys, with an empty cache. |
| `PersistentLogs.PersistentLog.SetTermAndVote` | internal/raft/log.go:173-188 | Term and vote change together in one batch; log and cache do not change. |
| `PersistentLogs.PersistentLog.LastTerm` | internal/raft/log.go:203-218 | The plain log's last term, from boundary, cache or disk. |
| `PersistentLogs.PersistentLog.TermAt` | internal/raft/log.go:241-256 | The plain log's answer, the boundary included, whether cached or not. |
| `PersistentLogs.PersistentLog.Get` | internal/raft/log.go:260-282 | What an uncached log would answer, the compacted and not-found errors included. |
| `PersistentLogs.PersistentLog.Range` | internal/raft/log.go:285-304 | The slice of the plain log, an error as soon as one index is missing, nothing for an empty range. |
| `PersistentLogs.PersistentLog.AppendEntries` | internal/raft/log.go:309-355 | The log becomes the old prefix before the first new index plus the new entries, in one batch, and the cache still mirrors the disk and holds at most limit + 1 + len(entries) entries. |
| `PersistentLogs.PersistentLog.EvictTailCache` | internal/raft/log.go:357-370 | Above the limit, exactly the entries below the wrapped threshold go; otherwise nothing. |
| `PersistentLogs.PersistentLog.TruncateSuffix` | internal/raft/log.go:374-394 | The suffix goes from disk, cache and log in one batch; past the end nothing is written. |
| `PersistentLogs.PersistentLog.CompactPrefix` | internal/raft/log.go:399-434 | The prefix goes and the boundary moves in one batch, also beyond the last index; an old boundary writes nothing. |
| `PersistentLogs.PersistentLog.RestoreSnapshotBoundary` | internal/raft/log.go:440-466 | The log becomes empty above the new boundary, in one batch. |
| `RaftNodes.RaftNode.Recover` | internal/raft/state.go:186-227 | Without a snapshot a restarted node has its durable term, vote and log and starts over in everything else. |
| `RaftNodes.RaftNode.BecomeFollower` | internal/raft/node_lifecycle.go:85-102 | The node steps down whatever the term, drops its waiters if it led, and its term only rises. |
| `RaftNodes.RaftNode.BecomeCandidate` | internal/raft/node_lifecycle.go:104-114 | The term rises by one, with a vote for itself. |
| `RaftNodes.RaftNode.BecomeLeader` | internal/raft/node_lifecycle.go:116-139 | Only a candidate takes office; every peer's indices are reset and the no-op of the term is appended. |
| `RaftNodes.RaftNode.AppendLocal` | internal/raft/replication.go:13-19 | The log grows by one entry at the next index in the current term. |
| `RaftNodes.RaftNode.HandleRequestVote` | internal/raft/election.go:107-152 | State and reply are those of the protocol's vote rule: stale terms refused, later terms adopted, one vote per term, only for logs at least as up to date. |
| `RaftNodes.RaftNode.FirstOfTerm` | internal/raft/replication.go:241-250 | The loop stops at the start of the run of equal terms that ends at prevIndex. |
| `RaftNodes.RaftNode.CheckPrevious` | internal/raft/replication.go:229-258 | It refuses exactly when prevIndex is missing or has another term, with the hint the protocol gives. |
| `RaftNodes.RaftNode.HandleAppendEntries` | internal/raft/replication.go:203-283 | State and reply are those of the protocol's handler, on a log kept in memory, cache and storage. |
| `RaftNodes.RaftNode.PrepareRequest` | internal/raft/replication.go:55-108 | The request for a peer, batch limit included, or none where a snapshot is needed. |
| `RaftNodes.RaftNode.LastOfTerm` | internal/raft/replication.go:136-148 | The loop finds what the protocol's scan finds. |
| `RaftNodes.RaftNode.Backtrack` | internal/raft/replication.go:132-157 | nextIndex of the peer moves as the protocol says; nothing else changes. |
| `RaftNodes.RaftNode.HandleAppendReply` | internal/raft/replication.go:113-157 | A later term steps the node down, a reply from another term is ignored, success moves both indices to the end of the batch, refusal backtracks. |
| `RaftNodes.RaftNode.TryAdvanceCommitIndex` | internal/raft/replication.go:165-199 | commitIndex moves to the sorted match list's median exactly when that is higher and of the current term. |
| `RaftNodes.SortInPlace` | internal/raft/replication.go:178-178 | The array ends up as the sorted list of what it held. |
| `RaftNodes.RaftNode.StartProposal` | internal/raft/propose.go:24-57 | A leader appends the entry and registers its waiter at the entry's index in one step; anyone else refuses and changes nothing. |
| `RaftNodes.RaftNode.CancelProposal` | internal/raft/propose.go:66-76 | Giving up removes whatever waiter sits at the proposal's index, and sends nothing. |
| `RaftNodes.RaftNode.NotifyWriters` | internal/raft/propose.go:80-85 | The waiter at the applied index, if any, is told success and removed. |
| `RaftNodes.RaftNode.FailStaleWriters` | internal/raft/propose.go:91-96 | Every waiter is told its proposal was dropped, once, and none remains. |
| `RaftNodes.RaftNode.ApplyRound` | internal/raft/node_lifecycle.go:187-214 | One round of the apply loop reads the next entry exactly when it is committed and retained, and then moves lastApplied and tells its proposer. |
| `RaftNodes.CountVotes` | internal/raft/election.go:21-101 | The node goes on to take office if and only if it is alone, or some vote completes or extends a strict majority before any higher term, found the node still a candidate of the term, and the last look finds it so again; the first higher term, if it comes before a winning vote, is the one stepped down to. |
| `RaftNodes.CountConfirmations` | internal/raft/readindex.go:95-126 | Stopping early, the count succeeds if and only if a strict majority of all answers, self included, agreed. |
| `PendingReads.FilterExact` | internal/raft/readindex.go:167-180 | Exactly the waiters above lastApplied stay, and exactly the others' channels are closed. |
| `PendingReads.FilterConserves` | internal/raft/readindex.go:167-180 | No waiter is lost and none is doubled. |
| `PendingReads.FilterOrder` | internal/raft/readindex.go:167-180 | Those that stay keep their order. |
| `PendingReads.ClosedExactly` | internal/raft/readindex.go:129-180 | Over any run of waiting, giving up and applying, a channel is closed at most once, and one whose reader has not given up is closed if and only if its index is applied. |
| `PendingReads.ClosedOnce` | internal/raft/readindex.go:167-180 | While every channel is accounted for, which RunAccounted shows of every run, none is closed twice and none that is pending is closed or cancelled. |
| `PendingReads.ReadQueue.WaitForApplied` | internal/raft/readindex.go:129-137 | The read goes ahead at once if and only if its index is applied; otherwise it is queued last under a channel of its own. |
| `PendingReads.ReadQueue.RemovePending` | internal/raft/readindex.go:139-148 | The caller's waiter, if still there, is spliced out of the slice in place; the others keep their order. |
| `PendingReads.ReadQueue.SatisfyPending` | internal/raft/readindex.go:167-180 | The in-place compaction of the slice computes the filter, with every channel still accounted for. |
| `Bytes.PrefixRange` | internal/kv/state_machine.go:173-183 | For every key and prefix, carries, all-0xFF and empty prefixes included, the key lies between the prefix and its upper bound if and only if it starts with the prefix. |
| `Bytes.PrefixUpperBound` | internal/raft/log.go:144-154 | The in-place carry computes that bound, or none. |
| `Bytes.LogKeys` | internal/raft/log.go:49-58 | A log key gives back its index, log keys sort as their indices, and all lie in the range the log is loaded from. |
| `DiskKeys.ScanFindsLog` | internal/raft/log.go:128-139 | In the engine's byte keys, with any keys under the metadata prefix beside them, the range from the log prefix to its upper bound visits exactly the stored indices. |
| `DiskKeys.BatchByKeys` | internal/raft/log.go:309-466 | Each operation's batch of byte-key writes and deletes does to the engine's keys what the numbered batch does to the entries, for every index below 2^64. |
| `DiskKeys.RawSet` | internal/raft/log.go:328-334 | Writing an entry under its byte key is writing it at its index. |
| `DiskKeys.RawDelete` | internal/raft/log.go:321-326 | Deleting an entry's byte key is deleting its index. |
| `StateMachines.StateMachine.Get` | internal/kv/state_machine.go:44-55 | The user map's value, or none. |
| `StateMachines.StateMachine.ApplyPut` | internal/kv/state_machine.go:59-67 | The key then has the value; every other user key and everything else in the engine is as before. |
| `StateMachines.StateMachine.ApplyDelete` | internal/kv/state_machine.go:70-78 | The key is then absent; every other user key and everything else in the engine is as before. |
| `StateMachines.StateMachine.Dump` | internal/kv/state_machine.go:106-124 | The snapshot is exactly the user map. |
| `StateMachines.StateMachine.Restore` | internal/kv/state_machine.go:129-153 | Whatever the engine held, the user map becomes exactly the snapshot and every other key stays. |
| `StateMachines.DumpThenRestore` | internal/kv/state_machine.go:106-153 | Dump, anything at all, Restore: the dumped user map is back, nothing else moved. |
| `StateMachines.Whole` | internal/kv/state_machine.go:14-22 | The user map and the other keys determine the engine's contents. |
| `Replay.FoldIsLatest` | internal/kv/state_machine.go:44-86 | By the entries alone: after any entries on any store, a key reads as the value last put there, as absent if it was last deleted, and as before if none of them writes it. |
| `Replay.ReplayIdempotent` | internal/raft/state.go:216-224 | For every m >= k, replaying entries 1..m over the effects of 1..k equals folding 1..m from empty. |
| `Replay.ReplayExact` | internal/raft/state.go:211-224 | For every store left behind and all entries, replaying them over it gives what they give from empty if and only if each key the store holds is written by one of them. |
| `Replay.Rewind` | internal/raft/state.go:211-224 | A store that is right from some index on stays right from there on if replay starts further back. |
| `Replay.RunSound` | internal/raft/snapshot.go:135-253 | Apply, replication, each durable write of a snapshot, installs at any index and crashes all keep the replay invariant. |
| `Replay.CrashSafe` | internal/raft/snapshot.go:47-73 | After a crash at any point, between the renames and the compaction batch included, and with any unsynced writes lost, restarting and applying up to any c at or above the index the saved data was taken at (without a snapshot: the highest index applied) gives the fold of the whole history to c, and no entry needed is compacted. |
| `Replay.CaughtUp` | internal/raft/node_lifecycle.go:182-225 | Once a node has reached the highest index its stores may contain, its store is exactly the fold of the history to lastApplied. |
| `Replay.SnapshotTransparency` | internal/raft/snapshot.go:135-253 | Without crashes, and with exact installs at any index, the store always equals the fold of the history to lastApplied, and the saved snapshot the fold to its own index. |
| `Replay.ApplyNeverBlocked` | internal/raft/node_lifecycle.go:182-214 | Always lastIncludedIndex <= lastApplied <= commitIndex <= lastIndex, the boundary has the history's term, and apply never meets a compacted entry. |
| `Replay.ScheduledSnapshots` | internal/raft/node_lifecycle.go:216-223 | At a fixed threshold, through any crashes and replays, every snapshot taken is the fold of the history to its own index; the meta index is always a multiple of the threshold, and the data is the state at some index with no further multiple between. |
| `Replay.SendableSettles` | internal/raft/snapshot.go:169-183 | Such files, sent as a snapshot, are what any replica can install and settle from. |
| `Replay.InstallTakes` | internal/raft/snapshot.go:204-253 | In every run an install is ignored if and only if a snapshot at its index or later is saved; otherwise store, files, log boundary and both indices are the snapshot's, wherever the node was, and applying on gives the history from where the snapshot settles. |
| `Replay.CommitMovesBack` | internal/raft/snapshot.go:218-250 | In every run commitIndex moves back at a crash, to the snapshot's index, and at an install if and only if that is not ignored and lies below commitIndex, and never otherwise; the install drops entries from the log that were committed and in it. |
| `Replay.AppliedMovesBack` | internal/raft/snapshot.go:218-250 | In every run lastApplied moves back at a crash, to the snapshot's index, and at an install if and only if that is not ignored and lies below lastApplied, and never otherwise. |
| `Replay.ScheduledInstall` | internal/raft/snapshot.go:218-250 | With one threshold for all nodes, an install that is not ignored is at or above the highest index the store may contain, so lastApplied never moves back but in a crash. |
| `Replay.NeverAtZero` | internal/raft/node_lifecycle.go:216-223 | At threshold 0 no snapshot is ever taken or installed. |
| `Replay.InstallLosesCommitted` | internal/raft/snapshot.go:218-250 | A run at threshold 1 in which a node that knows two entries committed, and has applied none, installs the snapshot of the first and has the second no longer in its log. |
| `Replay.MixedThresholdsLoseApplied` | internal/raft/snapshot.go:218-250 | A run of a node at threshold 0 in which a late snapshot at 1, from a node at threshold 1, takes a write that was committed and applied at 2 out of log and store. |
| `Replay.NewDataUnderOldMeta` | internal/raft/snapshot.go:47-73 | A run at threshold 1 in which a crash between the renames leaves the state at 2 under the meta of 1. |
| `Replay.EarlySnapshot` | internal/raft/node_lifecycle.go:216-223 | A run, first on schedule at threshold 3 and after a crash at threshold 1, in which a snapshot taken during replay holds a write beyond its own index. |
| `Replicas.SnapshotStore.Save` | internal/raft/snapshot.go:47-73 | Two directory states become visible, in this order: new data under the old meta, then both new. |
| `Replicas.SnapshotStore.LoadLatest` | internal/raft/snapshot.go:76-99 | No meta file means no snapshot whatever the data file holds; meta without data is an error. |
| `Replicas.SnapshotTakes` | internal/raft/snapshot.go:135-164 | A snapshot is taken unless one at lastApplied or later is saved: then the files hold the store at lastApplied with the history's term, and the log keeps exactly the entries above. |
| `Replicas.SnapshotsKeepUp` | internal/raft/node_lifecycle.go:216-223 | After a pass on schedule there is a snapshot at or above every multiple of the threshold reached, and the log is compacted to each that was still missing one. |
| `Replicas.ApplyDrains` | internal/raft/node_lifecycle.go:182-225 | One pass of the apply loop, snapshots and compactions on the way included, applies everything committed and keeps the invariant. |
| `Replicas.ApplyKeepsSchedule` | internal/raft/node_lifecycle.go:216-223 | The pass takes each snapshot when it is due, so that it leaves none due and none passed over. |
| `Replicas.Replica.Recover` | internal/raft/state.go:186-227 | NewNode is the replay machine's restart, with the snapshot restored if there is one. |
| `Replicas.Replica.ApplyCommitted` | internal/raft/node_lifecycle.go:182-225 | The loop over storage, log and engine computes that pass. |
| `Replicas.Replica.MaybeSnapshot` | internal/raft/snapshot.go:135-164 | It does the machine's three durable writes or none, and the directory passes through exactly the states those writes leave. |
| `Replicas.Replica.HandleInstallSnapshot` | internal/raft/snapshot.go:204-253 | A stale term changes nothing; otherwise the node is a follower, with its vote cleared if the term rose. An old snapshot changes nothing more; a newer one becomes files (data first, then meta), store, log boundary, lastApplied and commitIndex. |
| `History.CommonHistory` | internal/raft/node_lifecycle.go:182-214 | Every run of the cluster has one history that each node's log holds up to its commit index, at every moment. |
| `History.LifeExists` | internal/raft/node_lifecycle.go:182-225 | Every run of the cluster is lived through by each node's state machine. |
| `History.StoreIsHistory` | internal/kv/state_machine.go:24-35 | In every run, each node's store, once caught up, is the fold of that history to its applied index, whatever crashes lost. |
| `History.ReplicasAgree` | internal/kv/state_machine.go:24-35 | Any two nodes caught up at the same index, at any two moments, hold the same store. |
| `History.LinearizableRead` | internal/raft/readindex.go:28-43 | A confirmed read reads a store that is the fold of the history to lastApplied, and every write acknowledged by any node before the read began is in that part of the history; so each key reads as what the last write to it there left, and for a key with an acknowledged write that is this one or a later one. |

## Left out

- gRPC translation, configuration, process wiring, the Pebble wrapper and the encodings: field copies and library code.
- Timers, randomized timeouts, contexts and shutdown: a timeout is a step that may happen at any time. `Availability` shows that progress is always possible, not that it always happens.
- Delayed or duplicated AppendEntries requests of the replication path: the truncating write does not support them.
- Interleavings inside a handler, where the code releases its lock between parts of its work.
- FsyncOnAppend = false and failing storage writes.
- Snapshots in the cluster layer: sendInstallSnapshot and its effect on nextIndex and matchIndex; HandleInstallSnapshot steps down without failing waiters, so it stays outside the proposal theorem.
- Crashes in the middle of HandleInstallSnapshot, an install racing with the apply loop, and the remove-then-rename fallback of replaceFile.
- Leader hints, client addresses, log printing and request ids: no effect on the state proved about.
- ReadIndex.ReadIndexSafety: its runs have no heartbeat that carries a commit index without meeting its sender's condition above, which the code does not rule out; DivergentApply and LateDivergence show that with such heartbeats no safety result holds.
- RaftNodes.RaftNode.HandleAppendEntries: a request that passes the check has consecutive entries from prevIndex + 1, above the boundary, because the log write has no meaning otherwise; NeverMalformed shows that requests in flight are so.
- RaftNodes.CountVotes: takes the answers in order of arrival, with what each look at role and term finds as an input.
