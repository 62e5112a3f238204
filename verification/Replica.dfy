/** The objects behind Replay: the snapshot files, and the part of a node that applies and snapshots. */
module Replicas {
  import opened Types
  import opened PersistentLogs
  import opened StateMachines
  import opened Replay
  import Protocol

  type Role = Protocol.Role

  /** What the snapshot directory shows: the renamed files. */
  datatype Files = Files(data: Option<Store>, meta: Option<Meta>)

  datatype Loaded = Absent | Broken | Present(snap: Store, meta: Meta)

  class SnapshotStore {
    var files: Files
    var tmpData: Option<Store>
    var tmpMeta: Option<Meta>
    /** Every state a crash could have found the directory in. */
    ghost var images: seq<Files>

    constructor ()
      ensures files == Files(None, None) && images == []
    {
      files, tmpData, tmpMeta, images := Files(None, None), None, None, [];
    }

    /** The data first, then the meta file; each written aside and renamed. */
    method Save(snap: Store, meta: Meta)
      modifies this
      ensures files == Files(Some(snap), Some(meta))
      ensures images == old(images) + [Files(Some(snap), old(files).meta), files]
    {
      tmpData := Some(snap);
      files := files.(data := tmpData);
      tmpData := None;
      images := images + [files];
      tmpMeta := Some(meta);
      files := files.(meta := tmpMeta);
      tmpMeta := None;
      images := images + [files];
    }

    /** No meta file means no snapshot, whatever the data file holds; meta without data is an error. */
    method LoadLatest() returns (r: Loaded)
      ensures r == match files
                   case Files(_, None) => Absent
                   case Files(None, Some(_)) => Broken
                   case Files(Some(snap), Some(meta)) => Present(snap, meta)
    {
      if files.meta.None? {
        return Absent;
      }
      if files.data.None? {
        return Broken;
      }
      r := Present(files.data.value, files.meta.value);
    }
  }

  // ---------------------------------------------------------------- the apply loop as a function

  /** maybeSnapshot run to its end. */
  function Snapshot(m: Machine): (m': Machine)
    ensures m'.lastApplied == m.lastApplied && m'.commitIndex == m.commitIndex
  {
    if WantsSnapshot(m) then CompactLog(SaveMeta(SaveData(m))) else m
  }

  function ApplyAll(m: Machine, threshold: nat): Machine
    decreases m.commitIndex - m.lastApplied
  {
    var m' := ApplyOne(m);
    if m'.lastApplied == m.lastApplied then m
    else ApplyAll(if threshold > 0 && m'.lastApplied % threshold == 0 then Snapshot(m') else m', threshold)
  }

  /** A snapshot is taken unless one at this index or a later one is saved: files at lastApplied, and nothing up to there left in the log. */
  lemma SnapshotTakes(h: seq<Entry>, m: Machine)
    requires Sound(h, m) && m.phase.Idle?
    ensures var m' := Snapshot(m);
            if m.meta.Some? && m.lastApplied <= m.meta.value.index then m' == m
            else
              && m'.data == Some(m.kv) && m'.meta == Some(Meta(m.lastApplied, TermOf(h, m.lastApplied)))
              && m'.kv == m.kv && m'.survivors == m.survivors && m'.phase.Idle?
              && m'.log.base == m.lastApplied && m'.log.LastIndex() == m.log.LastIndex()
              && forall i | m.lastApplied < i <= m.log.LastIndex() :: m'.log.At(i) == m.log.At(i)
  {
    hide Settles;
    assert m.log.base < m.lastApplied ==> m.log.At(m.lastApplied) == h[m.lastApplied - 1];
  }

  lemma SnapshotSound(h: seq<Entry>, m: Machine)
    requires Sound(h, m) && m.phase.Idle?
    ensures Sound(h, Snapshot(m)) && Snapshot(m).phase.Idle?
  {
    hide Sound;
    if WantsSnapshot(m) {
      WriteDataSound(h, m);
      WriteMetaSound(h, SaveData(m));
      CompactSound(h, SaveMeta(SaveData(m)));
    }
  }

  /** However many snapshots and compactions it makes on the way, one pass applies everything committed. */
  lemma {:induction false} ApplyDrains(h: seq<Entry>, m: Machine, threshold: nat)
    requires Sound(h, m) && m.phase.Idle?
    ensures Sound(h, ApplyAll(m, threshold)) && ApplyAll(m, threshold).lastApplied == m.commitIndex
    decreases m.commitIndex - m.lastApplied
  {
    hide Sound, Snapshot;
    var m' := ApplyOne(m);
    ApplySound(h, m);
    NextReadable(h, m);
    if m.lastApplied < m.commitIndex {
      SnapshotSound(h, m');
      ApplyDrains(h, if threshold > 0 && m'.lastApplied % threshold == 0 then Snapshot(m') else m', threshold);
    }
  }

  lemma SnapshotPunctual(h: seq<Entry>, m: Machine, threshold: nat)
    requires Sound(h, m) && m.phase.Idle? && Punctual(h, threshold, m)
    ensures Point(threshold, m.lastApplied) ==> Punctual(h, threshold, Snapshot(m)) && !Due(Snapshot(m), threshold)
  {
    hide Settles, Point, Fold;
    if Due(m, threshold) {
      DueIsExact(h, threshold, m);
    }
  }

  /** The loop keeps to its schedule, so ScheduledSnapshots speaks of every snapshot it takes. */
  lemma {:induction false} ApplyKeepsSchedule(h: seq<Entry>, m: Machine, threshold: nat)
    requires Sound(h, m) && m.phase.Idle? && Punctual(h, threshold, m) && !Due(m, threshold)
    ensures var r := ApplyAll(m, threshold); Punctual(h, threshold, r) && !Due(r, threshold) && r.phase.Idle?
    decreases m.commitIndex - m.lastApplied
  {
    hide Sound, Snapshot, Punctual, Due, WantsSnapshot;
    var m' := ApplyOne(m);
    ApplySound(h, m);
    NextReadable(h, m);
    ApplyPunctual(h, threshold, m);
    if m.lastApplied < m.commitIndex {
      assert Point(threshold, m'.lastApplied) <==> threshold > 0 && m'.lastApplied % threshold == 0;
      hide Point;
      SnapshotSound(h, m');
      SnapshotPunctual(h, m', threshold);
      NotDue(m', threshold);
      ApplyKeepsSchedule(h, if Point(threshold, m'.lastApplied) then Snapshot(m') else m', threshold);
    }
  }

  lemma {:induction false} BaseRises(h: seq<Entry>, m: Machine, threshold: nat)
    requires Sound(h, m) && m.phase.Idle?
    ensures m.log.base <= ApplyAll(m, threshold).log.base
    decreases m.commitIndex - m.lastApplied
  {
    hide Sound, Snapshot;
    var m' := ApplyOne(m);
    ApplySound(h, m);
    NextReadable(h, m);
    NextReadable(h, m');
    if m.lastApplied < m.commitIndex {
      SnapshotSound(h, m');
      SnapshotTakes(h, m');
      BaseRises(h, if threshold > 0 && m'.lastApplied % threshold == 0 then Snapshot(m') else m', threshold);
    }
  }

  /** Passing a multiple of the threshold beyond the last snapshot leaves nothing up to there in the log. */
  lemma {:induction false} CompactsThere(h: seq<Entry>, m: Machine, threshold: nat, i: nat)
    requires Sound(h, m) && m.phase.Idle? && threshold > 0 && i % threshold == 0 && Covered(m) < i && m.lastApplied < i <= m.commitIndex
    ensures i <= ApplyAll(m, threshold).log.base
    decreases m.commitIndex - m.lastApplied
  {
    hide Sound, Snapshot;
    var m' := ApplyOne(m);
    ApplySound(h, m);
    NextReadable(h, m);
    SnapshotSound(h, m');
    SnapshotTakes(h, m');
    var next := if m'.lastApplied % threshold == 0 then Snapshot(m') else m';
    if m'.lastApplied == i {
      BaseRises(h, next, threshold);
    } else {
      CompactsThere(h, next, threshold, i);
    }
  }

  /**
   One pass of the loop, on schedule: for every multiple of the threshold it has reached there is a snapshot, and where that was
   still missing the log has been compacted to it.
   */
  lemma SnapshotsKeepUp(h: seq<Entry>, m: Machine, threshold: nat, i: nat)
    requires Sound(h, m) && m.phase.Idle? && Punctual(h, threshold, m) && !Due(m, threshold)
    requires threshold > 0 && 0 < i <= m.commitIndex && i % threshold == 0
    ensures var r := ApplyAll(m, threshold);
            && r.meta.Some? && i <= r.meta.value.index
            && (Covered(m) < i ==> i <= r.log.base)
  {
    hide ApplyAll, Fold, Settles;
    var r := ApplyAll(m, threshold);
    ApplyDrains(h, m, threshold);
    ApplyKeepsSchedule(h, m, threshold);
    assert Point(threshold, i);
    ReachedIsSaved(h, r, threshold, i);
    if Covered(m) < i {
      if i <= m.lastApplied {
        ReachedIsSaved(h, m, threshold, i);
      } else {
        CompactsThere(h, m, threshold, i);
      }
    }
  }

  lemma ReachedIsSaved(h: seq<Entry>, m: Machine, threshold: nat, i: nat)
    requires Sound(h, m) && m.phase.Idle? && Punctual(h, threshold, m) && !Due(m, threshold)
    requires Point(threshold, i) && i <= m.lastApplied
    ensures m.meta.Some? && i <= m.meta.value.index
  {
    hide Fold, Settles;
  }

  lemma NotDue(m: Machine, threshold: nat)
    ensures !Point(threshold, m.lastApplied) ==> !Due(m, threshold)
  {
  }

  lemma NextReadable(h: seq<Entry>, m: Machine)
    requires Sound(h, m)
    ensures m.log.base <= m.lastApplied <= m.commitIndex <= m.log.LastIndex()
  {
  }

  // ---------------------------------------------------------------- the node's side

  class Replica {
    const log: PersistentLog
    const sm: StateMachine
    const store: SnapshotStore
    const threshold: nat
    var role: Role
    var lastApplied: nat
    var commitIndex: nat
    ghost var survivors: set<Store>
    ghost var high: nat
    ghost var dataHigh: nat

    ghost predicate Valid()
      reads log, log.engine
    {
      log.Valid()
    }

    ghost function State(): Machine
      reads this, log, sm, sm.engine, store
    {
      Machine(sm.Pairs(), survivors, store.files.data, store.files.meta, log.contents, lastApplied, commitIndex, Idle, high, dataHigh)
    }

    /** NewNode on the disks `was` left behind; a meta file without data would make it fail instead. */
    constructor Recover(engine: Engine, sm: StateMachine, store: SnapshotStore, threshold: nat, ghost was: Machine)
      requires Stores(engine.disk, was.log) && was.log.LastIndex() < TWO64
      requires store.files == Files(was.data, was.meta) && (was.meta.Some? ==> was.data.Some?)
      modifies sm, sm.engine
      ensures Valid() && this.store == store && this.sm == sm
      ensures State() == Restart(was, old(sm.Pairs())) && role.Follower?
    {
      log := new PersistentLog.Open(engine, was.log);
      this.sm, this.store, this.threshold := sm, store, threshold;
      lastApplied, commitIndex := 0, 0;
      role := Protocol.Follower;
      survivors, high, dataHigh := {sm.Pairs()}, was.high, was.dataHigh;
      new;
      var latest := store.LoadLatest();
      if latest.Present? {
        sm.Restore(latest.snap, latest.meta.index);
        survivors, high := {latest.snap}, was.dataHigh;
        lastApplied := latest.meta.index;
        commitIndex := latest.meta.index;
      }
    }

    method ApplyEntry(e: Entry)
      modifies sm, sm.engine
      ensures sm.Pairs() == Apply(old(sm.Pairs()), e.command) && sm.Rest() == old(sm.Rest())
    {
      hide UserMap, Others;
      ghost var before := sm.Pairs();
      match e.command
      case Put(key, value) =>
        sm.ApplyPut(e.index, key, value);
        ChangedAt(before, sm.Pairs(), key, value);
      case Delete(key) => sm.ApplyDelete(e.index, key);
      case Noop => sm.ApplyNoop(e.index);
    }

    method ApplyCommitted()
      requires Valid()
      modifies this, log, log.engine, sm, sm.engine, store
      ensures Valid() && State() == ApplyAll(old(State()), threshold)
    {
      hide UserMap, Others, Stores, Mirrors, Snapshot;
      var commit, applied := commitIndex, lastApplied;
      while applied < commit
        invariant Valid() && applied == lastApplied && commit == commitIndex
        invariant ApplyAll(State(), threshold) == ApplyAll(old(State()), threshold)
        decreases commit - applied
      {
        applied := applied + 1;
        var entry := log.Get(applied);
        if entry.Err? {
          return;
        }
        ghost var before := State();
        ApplyEntry(entry.value);
        lastApplied := applied;
        survivors := survivors + {sm.Pairs()};
        high := Max(high, applied);
        assert State() == ApplyOne(before);
        if threshold > 0 && applied % threshold == 0 {
          MaybeSnapshot(applied);
        }
      }
    }

    /** Every durable write on the way leaves what Replay's three steps say it leaves. */
    method MaybeSnapshot(appliedIndex: nat)
      requires Valid() && appliedIndex == lastApplied
      modifies this`dataHigh, log, log.engine, store
      ensures Valid() && State() == Snapshot(old(State()))
      ensures !WantsSnapshot(old(State())) ==> store.images == old(store.images)
      ensures WantsSnapshot(old(State())) ==>
                var s := SaveData(old(State()));
                store.images == old(store.images) + [Files(s.data, s.meta), Files(SaveMeta(s).data, SaveMeta(s).meta)]
    {
      hide UserMap, Others, Stores, Mirrors, Compact;
      var existing := store.LoadLatest();
      if existing.Present? && existing.meta.index >= appliedIndex {
        return;
      }
      var term := log.TermAt(appliedIndex);
      if term.None? {
        return;
      }
      var dump := sm.Dump();
      store.Save(dump, Meta(appliedIndex, term.value));
      dataHigh := high;
      log.CompactPrefix(appliedIndex, term.value);
    }

    /** HandleInstallSnapshot; `settled` is where the sender's snapshot settles. */
    method HandleInstallSnapshot(term: nat, snap: Store, meta: Meta, ghost settled: nat) returns (replyTerm: nat)
      requires Valid() && meta.index < TWO64
      modifies this, log, log.engine, sm, sm.engine, store
      ensures Valid() && replyTerm == log.currentTerm == Max(old(log.currentTerm), term)
      ensures State() == if term < old(log.currentTerm) then old(State()) else Install(old(State()), snap, meta, settled)
      ensures role == if term < old(log.currentTerm) then old(role) else Protocol.Follower
      ensures log.votedFor == if term > old(log.currentTerm) then NOBODY else old(log.votedFor)
      ensures store.images == old(store.images) +
                if term < old(log.currentTerm) || HasSnapshot(old(State()), meta.index) then []
                else [Files(Some(snap), old(store.files).meta), store.files]
      ensures sm.Rest() == old(sm.Rest())
    {
      hide UserMap, Others, Stores, Mirrors;
      if term < log.currentTerm {
        return log.currentTerm;
      }
      if term > log.currentTerm {
        log.SetTermAndVote(term, NOBODY);
      }
      role := Protocol.Follower;
      var existing := store.LoadLatest();
      if existing.Present? && existing.meta.index >= meta.index {
        return log.currentTerm;
      }
      store.Save(snap, meta);
      sm.Restore(snap, meta.index);
      log.RestoreSnapshotBoundary(meta.index, meta.term);
      lastApplied := meta.index;
      commitIndex := meta.index;
      survivors, high, dataHigh := {snap}, settled, settled;
      replyTerm := log.currentTerm;
    }
  }
}
