/**
 One node's state machine over its life: applying, snapshotting, compacting, installing snapshots,
 crashing and replaying. `h` is the committed history, entry i at position i - 1; no node knows it.
 */
module Replay {
  import opened Types
  import opened StateMachines
  import opened PersistentLogs

  // ---------------------------------------------------------------- folding the history

  function Fold(kv: Store, es: seq<Entry>): Store {
    if es == [] then kv else Apply(Fold(kv, es[..|es| - 1]), es[|es| - 1].command)
  }

  lemma {:induction false} FoldSplit(kv: Store, a: seq<Entry>, b: seq<Entry>)
    ensures Fold(kv, a + b) == Fold(Fold(kv, a), b)
  {
    if b == [] {
      assert a + b == a;
    } else {
      FoldSplit(kv, a, b[..|b| - 1]);
      assert (a + b)[..|a + b| - 1] == a + b[..|b| - 1];
    }
  }

  predicate Writes(c: Command, k: Key) {
    !c.Noop? && c.key == k
  }

  predicate Touches(es: seq<Entry>, k: Key) {
    exists i | 0 <= i < |es| :: Writes(es[i].command, k)
  }

  predicate SameAt(a: Store, b: Store, k: Key) {
    (k in a <==> k in b) && (k in a ==> a[k] == b[k])
  }

  /** A key the entries write comes out the same from every start; any other key is left as it was. */
  lemma {:induction false} FoldAt(kv: Store, kv': Store, es: seq<Entry>, k: Key)
    ensures Touches(es, k) ==> SameAt(Fold(kv, es), Fold(kv', es), k)
    ensures !Touches(es, k) ==> SameAt(Fold(kv, es), kv, k)
    decreases |es|
  {
    if es != [] {
      var init, last := es[..|es| - 1], es[|es| - 1].command;
      FoldAt(kv, kv', init, k);
      FoldAt(kv', kv', init, k);
      assert Touches(es, k) <==> Touches(init, k) || Writes(last, k) by {
        if Touches(init, k) {
          var i :| 0 <= i < |init| && Writes(init[i].command, k);
          assert Writes(es[i].command, k);
        }
        assert Writes(last, k) ==> Writes(es[|es| - 1].command, k);
      }
    }
  }

  /** The last of the entries that writes k. */
  predicate LastWrite(es: seq<Entry>, k: Key, i: nat) {
    i < |es| && Writes(es[i].command, k) && forall j | i < j < |es| :: !Writes(es[j].command, k)
  }

  /** What a read of k finds. */
  function Lookup(kv: Store, k: Key): Option<Value> {
    if k in kv then Some(kv[k]) else None
  }

  /** By the entries alone: v is the value last put at k, nothing if k was last deleted, and what was there before if none writes k. */
  ghost predicate Latest(es: seq<Entry>, k: Key, before: Option<Value>, v: Option<Value>) {
    && (forall i: nat | LastWrite(es, k, i) ::
          if es[i].command == Delete(k) then v == None else v.Some? && es[i].command == Put(k, v.value))
    && ((forall i | 0 <= i < |es| :: !Writes(es[i].command, k)) ==> v == before)
  }

  lemma LatestIsLast(es: seq<Entry>, k: Key, before: Option<Value>, v: Option<Value>)
    requires es != [] && Writes(es[|es| - 1].command, k)
    requires if es[|es| - 1].command == Delete(k) then v == None else v.Some? && es[|es| - 1].command == Put(k, v.value)
    ensures Latest(es, k, before, v)
  {
    hide Writes;
    forall i: nat | LastWrite(es, k, i) ensures i == |es| - 1 {
    }
  }

  lemma LatestBefore(es: seq<Entry>, k: Key, before: Option<Value>, v: Option<Value>)
    requires es != [] && !Writes(es[|es| - 1].command, k) && Latest(es[..|es| - 1], k, before, v)
    ensures Latest(es, k, before, v)
  {
    hide Writes;
    var init := es[..|es| - 1];
    assert forall i | 0 <= i < |init| :: init[i] == es[i];
    forall i: nat | LastWrite(es, k, i) ensures LastWrite(init, k, i) {
    }
  }

  /** The store after the entries: at every key what the last write to it left, a deleted key gone. */
  lemma {:induction false} FoldIsLatest(kv: Store, es: seq<Entry>, k: Key)
    ensures Latest(es, k, Lookup(kv, k), Lookup(Fold(kv, es), k))
    decreases |es|
  {
    if es != [] {
      hide Latest;
      FoldIsLatest(kv, es[..|es| - 1], k);
      if Writes(es[|es| - 1].command, k) {
        LatestIsLast(es, k, Lookup(kv, k), Lookup(Fold(kv, es), k));
      } else {
        LatestBefore(es, k, Lookup(kv, k), Lookup(Fold(kv, es), k));
      }
    }
  }

  /** A written key has a last write, so Latest fixes what is read. */
  lemma {:induction false} HasLastWrite(es: seq<Entry>, k: Key, j: nat) returns (i: nat)
    requires j < |es| && Writes(es[j].command, k)
    ensures LastWrite(es, k, i) && j <= i
    decreases |es| - j
  {
    if x: nat :| j < x < |es| && Writes(es[x].command, k) {
      i := HasLastWrite(es, k, x);
    } else {
      i := j;
    }
  }

  lemma SameEverywhere(a: Store, b: Store)
    requires forall k :: SameAt(a, b, k)
    ensures a == b
  {
    forall k ensures k in a <==> k in b {
      assert SameAt(a, b, k);
    }
    forall k | k in a ensures a[k] == b[k] {
      assert SameAt(a, b, k);
    }
  }

  /**
   The store is right once replay has caught up: applying entries a+1 .. x to it gives the state at x, for
   every x from `settled` on. Before that the store may be ahead of the index it is labelled with.
   */
  ghost predicate Settles(h: seq<Entry>, kv: Store, a: nat, settled: nat) {
    && a <= |h| && settled <= |h|
    && forall x | a <= x <= |h| && settled <= x :: Fold(kv, h[a..x]) == Fold(map[], h[..x])
  }

  lemma SettlesAt(h: seq<Entry>, kv: Store, a: nat, settled: nat, x: nat)
    requires Settles(h, kv, a, settled) && a <= x <= |h| && settled <= x
    ensures Fold(kv, h[a..x]) == Fold(map[], h[..x])
  {
  }

  /** Replay over a later state: starting further back is harmless from the same point on. */
  lemma Rewind(h: seq<Entry>, kv: Store, a: nat, settled: nat, m: nat)
    requires Settles(h, kv, a, settled) && m <= a <= settled
    ensures Settles(h, kv, m, settled)
  {
    forall x | m <= x <= |h| && settled <= x ensures Fold(kv, h[m..x]) == Fold(map[], h[..x]) {
      RewindAt(h, kv, a, m, x);
    }
  }

  lemma RewindAt(h: seq<Entry>, kv: Store, a: nat, m: nat, x: nat)
    requires m <= a <= x <= |h| && Fold(kv, h[a..x]) == Fold(map[], h[..x])
    ensures Fold(kv, h[m..x]) == Fold(map[], h[..x])
  {
    var replayed, rest := h[m..a], h[a..x];
    assert h[m..x] == replayed + rest && h[..x] == h[..m] + h[m..x];
    FoldSplit(kv, replayed, rest);
    FoldSplit(map[], h[..m], h[m..x]);
    var at := Fold(map[], h[..m]);
    forall k ensures SameAt(Fold(kv, h[m..x]), Fold(map[], h[..x]), k) {
      FoldAt(Fold(kv, replayed), kv, rest, k);
      FoldAt(kv, kv, rest, k);
      FoldAt(kv, at, h[m..x], k);
      FoldAt(kv, kv, replayed, k);
      TouchesJoin(replayed, rest, k);
    }
    SameEverywhere(Fold(kv, h[m..x]), Fold(map[], h[..x]));
  }

  lemma TouchesJoin(a: seq<Entry>, b: seq<Entry>, k: Key)
    ensures Touches(a + b, k) <==> Touches(a, k) || Touches(b, k)
  {
    var ab := a + b;
    if Touches(a, k) {
      var i :| 0 <= i < |a| && Writes(a[i].command, k);
      assert Writes(ab[i].command, k);
    }
    if Touches(b, k) {
      var i :| 0 <= i < |b| && Writes(b[i].command, k);
      assert Writes(ab[|a| + i].command, k);
    }
    if Touches(ab, k) {
      var i :| 0 <= i < |ab| && Writes(ab[i].command, k);
      assert i < |a| ==> Writes(a[i].command, k);
      assert i >= |a| ==> Writes(b[i - |a|].command, k);
    }
  }

  lemma Later(h: seq<Entry>, kv: Store, a: nat, settled: nat, settled': nat)
    requires Settles(h, kv, a, settled) && settled <= settled' <= |h|
    ensures Settles(h, kv, a, settled')
  {
  }

  lemma Onward(h: seq<Entry>, kv: Store, a: nat, settled: nat)
    requires Settles(h, kv, a, settled) && a < |h|
    ensures Settles(h, Apply(kv, h[a].command), a + 1, settled)
  {
    var kv' := Apply(kv, h[a].command);
    forall x | a + 1 <= x <= |h| && settled <= x ensures Fold(kv', h[a + 1..x]) == Fold(map[], h[..x]) {
      assert h[a..x] == [h[a]] + h[a + 1..x];
      FoldSplit(kv, [h[a]], h[a + 1..x]);
      assert Fold(kv, [h[a]]) == kv' by {
        assert [h[a]][..0] == [];
      }
    }
  }

  /** Restart without a snapshot: replaying 1 .. m over the effects of 1 .. k is folding 1 .. m, for every m >= k. */
  lemma ReplayIdempotent(h: seq<Entry>, k: nat, m: nat)
    requires k <= m <= |h|
    ensures Fold(Fold(map[], h[..k]), h[..m]) == Fold(map[], h[..m])
  {
    assert h[..m] == h[..k] + h[k..m];
    FoldSplit(map[], h[..k], h[k..m]);
    RewindAt(h, Fold(map[], h[..k]), k, 0, m);
    assert h[0..m] == h[..m];
  }

  /**
   Replaying entries over a store left behind gives what they give from empty exactly when each key the
   store holds is written by one of them.
   */
  lemma ReplayExact(kv: Store, es: seq<Entry>)
    ensures Fold(kv, es) == Fold(map[], es) <==> forall k | k in kv :: Touches(es, k)
  {
    forall k ensures Touches(es, k) || k !in kv <==> SameAt(Fold(kv, es), Fold(map[], es), k) {
      FoldAt(kv, map[], es, k);
      FoldAt(map[], map[], es, k);
    }
    if forall k | k in kv :: Touches(es, k) {
      SameEverywhere(Fold(kv, es), Fold(map[], es));
    }
  }

  // ---------------------------------------------------------------- the machine

  datatype Meta = Meta(index: nat, term: nat)

  /** Where maybeSnapshot stands: its three durable writes are the two renames and the compaction batch. */
  datatype Phase = Idle | DataSaved(index: nat, term: nat) | MetaSaved(index: nat, term: nat)

  /**
   `survivors` are the stores a crash may leave, since applied writes are not synced; `high` is the
   highest index whose effects the live store may contain, `dataHigh` the same for the data file.
   */
  datatype Machine = Machine(
    kv: Store,
    survivors: set<Store>,
    data: Option<Store>,
    meta: Option<Meta>,
    log: Log,
    lastApplied: nat,
    commitIndex: nat,
    phase: Phase,
    high: nat,
    dataHigh: nat)

  function Fresh(): Machine {
    Machine(map[], {map[]}, None, None, Log(0, 0, []), 0, 0, Idle, 0, 0)
  }

  function Max(a: nat, b: nat): nat {
    if a < b then b else a
  }

  /** One round of applyCommitted; an entry that cannot be read stops it. */
  function ApplyOne(m: Machine): Machine {
    var i := m.lastApplied + 1;
    if m.commitIndex < i || i <= m.log.base || m.log.LastIndex() < i then m
    else
      var kv := Apply(m.kv, m.log.At(i).command);
      m.(kv := kv, survivors := m.survivors + {kv}, lastApplied := i, high := Max(m.high, i))
  }

  /** LoadLatest succeeds with a snapshot at `index` or later. */
  predicate HasSnapshot(m: Machine, index: nat) {
    m.meta.Some? && m.data.Some? && m.meta.value.index >= index
  }

  /** maybeSnapshot goes ahead: no snapshot at this index or later, and the term is known. */
  predicate WantsSnapshot(m: Machine) {
    !HasSnapshot(m, m.lastApplied) && m.log.TermAt(m.lastApplied).Some?
  }

  function SaveData(m: Machine): Machine
    requires WantsSnapshot(m)
  {
    m.(data := Some(m.kv), dataHigh := m.high, phase := DataSaved(m.lastApplied, m.log.TermAt(m.lastApplied).value))
  }

  function SaveMeta(m: Machine): Machine
    requires m.phase.DataSaved?
  {
    m.(meta := Some(Meta(m.phase.index, m.phase.term)), phase := MetaSaved(m.phase.index, m.phase.term))
  }

  function CompactLog(m: Machine): Machine
    requires m.phase.MetaSaved?
  {
    m.(log := Compact(m.log, m.phase.index, m.phase.term), phase := Idle)
  }

  /** HandleInstallSnapshot once the term is settled; a snapshot that is not newer is ignored. */
  function Install(m: Machine, snap: Store, meta: Meta, settled: nat): Machine {
    if HasSnapshot(m, meta.index) then m
    else
      m.(kv := snap, survivors := {snap}, data := Some(snap), meta := Some(meta),
         log := Log(meta.index, meta.term, []), lastApplied := meta.index, commitIndex := meta.index,
         high := settled, dataHigh := settled)
  }

  /** NewNode on what the crash left: a snapshot, if there is one, replaces the store. */
  function Restart(m: Machine, survivor: Store): Machine {
    if m.meta.Some? && m.data.Some? then
      m.(kv := m.data.value, survivors := {m.data.value},
         lastApplied := m.meta.value.index, commitIndex := m.meta.value.index, phase := Idle, high := m.dataHigh)
    else
      m.(kv := survivor, survivors := {survivor}, lastApplied := 0, commitIndex := 0, phase := Idle)
  }

  // ---------------------------------------------------------------- runs

  datatype Step =
    | Replicate(log: Log, commit: nat)
    | ApplyEntry
    | WriteData
    | WriteMeta
    | WriteBoundary
    | InstallSnapshot(snap: Store, meta: Meta, settled: nat)
    | Crash(survivor: Store)

  function TermOf(h: seq<Entry>, i: nat): nat {
    if 0 < i <= |h| then h[i - 1].term else 0
  }

  /** The log holds the history from its boundary, whose term it knows, up to `upto`. */
  predicate Matches(h: seq<Entry>, log: Log, upto: nat) {
    && log.base <= upto <= log.LastIndex() && upto <= |h| && log.baseTerm == TermOf(h, log.base)
    && forall i | log.base < i <= upto :: log.At(i) == h[i - 1]
  }

  /**
   What may happen. Replication may do anything to the log that agrees with the history up to the
   commit index, also while a snapshot is being written; the apply loop waits for the snapshot.
   An installed snapshot may lie below the commit index, and settles at an index of its own: a sender
   that crashed between its two renames has new data under the old meta file, and sends that.
   */
  ghost predicate Enabled(h: seq<Entry>, m: Machine, step: Step) {
    match step
    case Replicate(log, commit) =>
      log.base == m.log.base && log.baseTerm == m.log.baseTerm &&
      m.commitIndex <= commit && Matches(h, log, commit)
    case ApplyEntry => m.phase.Idle?
    case WriteData => m.phase.Idle? && m.lastApplied > 0 && WantsSnapshot(m)
    case WriteMeta => m.phase.DataSaved?
    case WriteBoundary => m.phase.MetaSaved?
    case InstallSnapshot(snap, meta, settled) =>
      m.phase.Idle? && meta.index <= settled && Settles(h, snap, meta.index, settled) &&
      meta.term == TermOf(h, meta.index)
    case Crash(survivor) => survivor in m.survivors
  }

  ghost function After(h: seq<Entry>, m: Machine, step: Step): Machine
    requires Enabled(h, m, step)
  {
    match step
    case Replicate(log, commit) => m.(log := log, commitIndex := commit)
    case ApplyEntry => ApplyOne(m)
    case WriteData => SaveData(m)
    case WriteMeta => SaveMeta(m)
    case WriteBoundary => CompactLog(m)
    case InstallSnapshot(snap, meta, settled) => Install(m, snap, meta, settled)
    case Crash(survivor) => Restart(m, survivor)
  }

  ghost predicate IsRun(h: seq<Entry>, run: seq<Machine>, steps: seq<Step>) {
    && |run| == |steps| + 1
    && run[0] == Fresh()
    && forall i | 0 <= i < |steps| :: Enabled(h, run[i], steps[i]) && run[i + 1] == After(h, run[i], steps[i])
  }

  // ---------------------------------------------------------------- what every step keeps

  predicate Bounded(h: seq<Entry>, m: Machine) {
    && Matches(h, m.log, m.commitIndex)
    && m.log.base <= m.lastApplied <= m.commitIndex
    && m.lastApplied <= m.high <= |h| && m.dataHigh <= m.high
  }

  ghost predicate Stored(h: seq<Entry>, m: Machine) {
    && m.kv in m.survivors
    && Settles(h, m.kv, m.lastApplied, m.high)
    && (m.meta.None? ==> m.log.base == 0 && forall u | u in m.survivors :: Settles(h, u, 0, m.high))
    && (m.meta.Some? ==>
          && m.data.Some?
          && m.log.base <= m.meta.value.index <= m.lastApplied
          && m.meta.value.term == TermOf(h, m.meta.value.index)
          && m.meta.value.index <= m.dataHigh
          && Settles(h, m.data.value, m.meta.value.index, m.dataHigh))
  }

  ghost predicate Saving(h: seq<Entry>, m: Machine) {
    match m.phase
    case Idle => true
    case DataSaved(index, term) =>
      && index == m.lastApplied && term == TermOf(h, index) && (m.meta.Some? ==> m.meta.value.index < index)
      && m.data.Some? && index <= m.dataHigh && Settles(h, m.data.value, index, m.dataHigh)
    case MetaSaved(index, term) => index == m.lastApplied && m.meta == Some(Meta(index, term))
  }

  ghost predicate Sound(h: seq<Entry>, m: Machine) {
    Bounded(h, m) && Stored(h, m) && Saving(h, m)
  }

  lemma FreshSound(h: seq<Entry>)
    ensures Sound(h, Fresh())
  {
    forall x | 0 <= x <= |h| ensures Fold(map[], h[0..x]) == Fold(map[], h[..x]) {
      assert h[0..x] == h[..x];
    }
  }

  lemma ApplySound(h: seq<Entry>, m: Machine)
    requires Sound(h, m) && m.phase.Idle?
    ensures Sound(h, ApplyOne(m))
  {
    hide Settles, Apply;
    var i, m' := m.lastApplied + 1, ApplyOne(m);
    if i <= m.commitIndex {
      assert m.log.At(i) == h[i - 1];
      Onward(h, m.kv, i - 1, m.high);
      forall u, a | Settles(h, u, a, m.high) ensures Settles(h, u, a, m'.high) {
        Later(h, u, a, m.high, m'.high);
      }
      Later(h, m'.kv, i, m.high, m'.high);
      Rewind(h, m'.kv, i, m'.high, 0);
    }
  }

  lemma WriteDataSound(h: seq<Entry>, m: Machine)
    requires Sound(h, m) && m.phase.Idle? && WantsSnapshot(m)
    ensures Sound(h, SaveData(m))
  {
    hide Settles;
    assert m.log.base < m.lastApplied ==> m.log.At(m.lastApplied) == h[m.lastApplied - 1];
    if m.meta.Some? {
      Rewind(h, m.kv, m.lastApplied, m.high, m.meta.value.index);
    }
  }

  lemma WriteMetaSound(h: seq<Entry>, m: Machine)
    requires Sound(h, m) && m.phase.DataSaved?
    ensures Sound(h, SaveMeta(m))
  {
    hide Settles;
  }

  lemma CompactSound(h: seq<Entry>, m: Machine)
    requires Sound(h, m) && m.phase.MetaSaved?
    ensures Sound(h, CompactLog(m))
  {
    hide Settles;
    var m' := CompactLog(m);
    forall i | m'.log.base < i <= m.commitIndex ensures m'.log.At(i) == h[i - 1] {
      assert m'.log.At(i) == m.log.At(i);
    }
  }

  lemma InstallSound(h: seq<Entry>, m: Machine, snap: Store, meta: Meta, settled: nat)
    requires Sound(h, m) && m.phase.Idle? && meta.index <= settled && Settles(h, snap, meta.index, settled)
    requires meta.term == TermOf(h, meta.index)
    ensures Sound(h, Install(m, snap, meta, settled))
  {
    hide Settles;
    assert meta.index <= |h| && settled <= |h| by {
      SettlesWithin(h, snap, meta.index, settled);
    }
  }

  lemma SettlesWithin(h: seq<Entry>, kv: Store, a: nat, settled: nat)
    requires Settles(h, kv, a, settled)
    ensures a <= |h| && settled <= |h|
  {
  }

  lemma CrashSound(h: seq<Entry>, m: Machine, survivor: Store)
    requires Sound(h, m) && survivor in m.survivors
    ensures Sound(h, Restart(m, survivor))
  {
    hide Settles;
  }

  lemma StepSound(h: seq<Entry>, m: Machine, step: Step)
    requires Sound(h, m) && Enabled(h, m, step)
    ensures Sound(h, After(h, m, step))
  {
    hide Sound, ApplyOne, SaveData, SaveMeta, CompactLog, Install, Restart, Settles, WantsSnapshot;
    match step
    case Replicate(log, commit) => ReplicateSound(h, m, log, commit);
    case ApplyEntry => ApplySound(h, m);
    case WriteData => WriteDataSound(h, m);
    case WriteMeta => WriteMetaSound(h, m);
    case WriteBoundary => CompactSound(h, m);
    case InstallSnapshot(snap, meta, settled) => InstallSound(h, m, snap, meta, settled);
    case Crash(survivor) => CrashSound(h, m, survivor);
  }

  lemma ReplicateSound(h: seq<Entry>, m: Machine, log: Log, commit: nat)
    requires Sound(h, m) && log.base == m.log.base
    requires m.commitIndex <= commit && Matches(h, log, commit)
    ensures Sound(h, m.(log := log, commitIndex := commit))
  {
    hide Settles;
  }

  lemma {:induction false} RunSound(h: seq<Entry>, run: seq<Machine>, steps: seq<Step>, n: nat)
    requires IsRun(h, run, steps) && n < |run|
    ensures Sound(h, run[n])
  {
    hide Sound, Enabled, After;
    if n == 0 {
      FreshSound(h);
    } else {
      RunSound(h, run, steps, n - 1);
      assert Enabled(h, run[n - 1], steps[n - 1]);
      StepSound(h, run[n - 1], steps[n - 1]);
    }
  }

  // ---------------------------------------------------------------- theorems

  /**
   lastIncludedIndex <= lastApplied <= commitIndex <= lastIndex, the boundary has the history's term, and
   the next entry to apply is there to be read.
   */
  lemma ApplyNeverBlocked(h: seq<Entry>, run: seq<Machine>, steps: seq<Step>, n: nat)
    requires IsRun(h, run, steps) && n < |run|
    ensures var m := run[n];
            && m.log.base <= m.lastApplied <= m.commitIndex <= m.log.LastIndex()
            && m.commitIndex <= |h| && m.log.baseTerm == TermOf(h, m.log.base)
            && (m.lastApplied < m.commitIndex ==>
                  m.log.At(m.lastApplied + 1) == h[m.lastApplied] && ApplyOne(m).lastApplied == m.lastApplied + 1)
  {
    RunSound(h, run, steps, n);
  }

  /** The highest index whose effects a restart finds: in the data file if there is a snapshot, else in the store. */
  function Found(m: Machine): nat {
    if m.meta.Some? && m.data.Some? then m.dataHigh else m.high
  }

  /**
   Crash safety. Whatever has happened, crashes between the durable writes of a snapshot included,
   and whichever unsynced writes a further crash loses: restarting and applying the history up to
   any c from what the restart finds gives the state at c, and the log still has every entry this needs.
   */
  lemma CrashSafe(h: seq<Entry>, run: seq<Machine>, steps: seq<Step>, n: nat, survivor: Store, c: nat)
    requires IsRun(h, run, steps) && n < |run| && survivor in run[n].survivors
    requires Found(run[n]) <= c <= |h|
    ensures var r := Restart(run[n], survivor);
            && r.log.base <= r.lastApplied <= c
            && Fold(r.kv, h[r.lastApplied..c]) == Fold(map[], h[..c])
  {
    RunSound(h, run, steps, n);
    CrashSound(h, run[n], survivor);
    var r := Restart(run[n], survivor);
    SettlesAt(h, r.kv, r.lastApplied, r.high, c);
  }

  lemma ExactAt(h: seq<Entry>, kv: Store, a: nat, settled: nat)
    requires Settles(h, kv, a, settled) && settled <= a
    ensures a <= |h| && kv == Fold(map[], h[..a])
  {
    SettlesAt(h, kv, a, settled, a);
    assert h[a..a] == [];
  }

  /** Caught up, the store is the fold of the history to lastApplied. */
  lemma CaughtUp(h: seq<Entry>, run: seq<Machine>, steps: seq<Step>, n: nat)
    requires IsRun(h, run, steps) && n < |run| && run[n].high <= run[n].lastApplied
    ensures run[n].lastApplied <= |h| && run[n].kv == Fold(map[], h[..run[n].lastApplied])
  {
    RunSound(h, run, steps, n);
    ExactAt(h, run[n].kv, run[n].lastApplied, run[n].high);
  }

  /** No crash, and every installed snapshot exact. */
  predicate Uninterrupted(steps: seq<Step>) {
    forall i | 0 <= i < |steps| ::
      !steps[i].Crash? && (steps[i].InstallSnapshot? ==> steps[i].settled == steps[i].meta.index)
  }

  /** The saved snapshot is the state at the index it is saved under. */
  predicate ExactSnapshot(h: seq<Entry>, m: Machine) {
    var index := if m.phase.DataSaved? then Some(m.phase.index) else if m.meta.Some? then Some(m.meta.value.index) else None;
    index.Some? ==> index.value <= |h| && m.data == Some(Fold(map[], h[..index.value]))
  }

  lemma {:induction false} StaysCaughtUp(h: seq<Entry>, run: seq<Machine>, steps: seq<Step>, n: nat)
    requires IsRun(h, run, steps) && Uninterrupted(steps) && n < |run|
    ensures run[n].high == run[n].lastApplied && ExactSnapshot(h, run[n])
  {
    hide Settles, Matches, Fold;
    if n > 0 {
      StaysCaughtUp(h, run, steps, n - 1);
      var m, step := run[n - 1], steps[n - 1];
      assert Enabled(h, m, step) && run[n] == After(h, m, step);
      CaughtUp(h, run, steps, n - 1);
      if step.InstallSnapshot? {
        ExactAt(h, step.snap, step.meta.index, step.settled);
      }
    }
  }

  /** Snapshots, compactions and installs do not show: the store is always the fold of the history. */
  lemma SnapshotTransparency(h: seq<Entry>, run: seq<Machine>, steps: seq<Step>, n: nat)
    requires IsRun(h, run, steps) && Uninterrupted(steps) && n < |run|
    ensures run[n].lastApplied <= |h| && run[n].kv == Fold(map[], h[..run[n].lastApplied])
    ensures ExactSnapshot(h, run[n])
  {
    StaysCaughtUp(h, run, steps, n);
    CaughtUp(h, run, steps, n);
  }

  // ---------------------------------------------------------------- a fixed threshold

  /** An index at which applyCommitted calls maybeSnapshot; with threshold 0 there is none. */
  predicate Point(threshold: nat, i: nat) {
    threshold > 0 && i > 0 && i % threshold == 0
  }

  predicate Due(m: Machine, threshold: nat) {
    Point(threshold, m.lastApplied) && WantsSnapshot(m)
  }

  predicate NonePassed(threshold: nat, from: nat, to: nat) {
    forall i | from < i < to :: !Point(threshold, i)
  }

  /** A snapshot file as a node at this threshold may hold and send it: the state at `settled`, perhaps still under the meta before. */
  predicate Sendable(h: seq<Entry>, threshold: nat, snap: Store, meta: Meta, settled: nat) {
    && Point(threshold, meta.index)
    && meta.index <= settled <= |h| && meta.term == TermOf(h, meta.index)
    && snap == Fold(map[], h[..settled])
    && NonePassed(threshold, meta.index, settled)
  }

  /** The apply loop stops for every snapshot that is due and takes no other; installs come from nodes with the same threshold. */
  predicate OnSchedule(h: seq<Entry>, threshold: nat, m: Machine, step: Step) {
    match step
    case ApplyEntry => !Due(m, threshold)
    case WriteData => Due(m, threshold)
    case InstallSnapshot(snap, meta, settled) => Sendable(h, threshold, snap, meta, settled)
    case _ => true
  }

  ghost predicate IsScheduled(h: seq<Entry>, threshold: nat, run: seq<Machine>, steps: seq<Step>) {
    IsRun(h, run, steps) && forall i | 0 <= i < |steps| :: OnSchedule(h, threshold, run[i], steps[i])
  }

  function Covered(m: Machine): nat {
    if m.meta.Some? then m.meta.value.index else 0
  }

  /** Snapshots are at points, none has been passed over, and while one is written the store is caught up. */
  predicate Punctual(h: seq<Entry>, threshold: nat, m: Machine) {
    && NonePassed(threshold, Covered(m), m.high)
    && (m.meta.Some? ==> Point(threshold, m.meta.value.index))
    && (!m.phase.Idle? ==> Point(threshold, m.phase.index))
    && (!m.phase.Idle? ==> m.phase.index == m.lastApplied == m.high == m.dataHigh)
    && (m.data.Some? ==> m.dataHigh <= |h| && m.data.value == Fold(map[], h[..m.dataHigh]))
  }

  lemma ApplyPunctual(h: seq<Entry>, threshold: nat, m: Machine)
    requires Sound(h, m) && m.phase.Idle? && Punctual(h, threshold, m) && !Due(m, threshold)
    ensures Punctual(h, threshold, ApplyOne(m))
  {
    hide Settles, Point, Fold, Apply;
    var m' := ApplyOne(m);
    forall i | Covered(m) < i < m'.high ensures !Point(threshold, i) {
      if i == m.high {
        assert i == m.lastApplied && WantsSnapshot(m);
      }
    }
  }

  /** A snapshot that is due finds the store caught up, whatever was replayed. */
  lemma DueIsExact(h: seq<Entry>, threshold: nat, m: Machine)
    requires Sound(h, m) && m.phase.Idle? && Punctual(h, threshold, m) && Due(m, threshold)
    ensures m.high == m.lastApplied <= |h| && m.kv == Fold(map[], h[..m.lastApplied])
    ensures Punctual(h, threshold, SaveData(m))
  {
    hide Settles, Fold;
    assert m.lastApplied > 0;
    hide Point;
    assert Covered(m) < m.lastApplied && Point(threshold, m.lastApplied);
    ExactAt(h, m.kv, m.lastApplied, m.high);
  }

  lemma StepPunctual(h: seq<Entry>, threshold: nat, m: Machine, step: Step)
    requires Sound(h, m) && Punctual(h, threshold, m) && Enabled(h, m, step) && OnSchedule(h, threshold, m, step)
    ensures Punctual(h, threshold, After(h, m, step))
  {
    hide Settles, Point, Fold, Matches, WantsSnapshot, Due;
    match step
    case ApplyEntry => ApplyPunctual(h, threshold, m);
    case WriteData => DueIsExact(h, threshold, m);
    case _ =>
  }

  lemma {:induction false} RunPunctual(h: seq<Entry>, threshold: nat, run: seq<Machine>, steps: seq<Step>, n: nat)
    requires IsScheduled(h, threshold, run, steps) && n < |run|
    ensures Punctual(h, threshold, run[n])
  {
    hide Sound, Enabled, After, OnSchedule, Settles;
    if n > 0 {
      RunPunctual(h, threshold, run, steps, n - 1);
      RunSound(h, run, steps, n - 1);
      assert Enabled(h, run[n - 1], steps[n - 1]) && OnSchedule(h, threshold, run[n - 1], steps[n - 1]);
      StepPunctual(h, threshold, run[n - 1], steps[n - 1]);
    }
  }

  /**
   At a fixed threshold every snapshot is exact, crashes anywhere and replays over later stores included: it is taken
   of the state at its own index. The files then always hold something another such node can install.
   */
  lemma ScheduledSnapshots(h: seq<Entry>, threshold: nat, run: seq<Machine>, steps: seq<Step>, n: nat)
    requires IsScheduled(h, threshold, run, steps) && n < |run|
    ensures n < |steps| && steps[n].WriteData? ==>
              run[n].lastApplied <= |h| && run[n].kv == Fold(map[], h[..run[n].lastApplied])
    ensures run[n].phase.DataSaved? ==>
              run[n].phase.index <= |h| && run[n].data == Some(Fold(map[], h[..run[n].phase.index]))
    ensures run[n].meta.Some? ==>
              run[n].data.Some? && Sendable(h, threshold, run[n].data.value, run[n].meta.value, run[n].dataHigh)
  {
    hide Settles, Point, Fold, Matches;
    RunPunctual(h, threshold, run, steps, n);
    RunSound(h, run, steps, n);
    if n < |steps| && steps[n].WriteData? {
      assert Enabled(h, run[n], steps[n]) && OnSchedule(h, threshold, run[n], steps[n]);
      DueIsExact(h, threshold, run[n]);
    }
  }

  /** What such a node sends, any machine may install: it settles where the data was taken. */
  lemma SendableSettles(h: seq<Entry>, threshold: nat, snap: Store, meta: Meta, settled: nat)
    requires Sendable(h, threshold, snap, meta, settled)
    ensures Settles(h, snap, meta.index, settled)
  {
    forall x | settled <= x <= |h| ensures Fold(snap, h[settled..x]) == Fold(map[], h[..x]) {
      assert h[..x] == h[..settled] + h[settled..x];
      FoldSplit(map[], h[..settled], h[settled..x]);
    }
    Rewind(h, snap, settled, settled, meta.index);
  }

  // ---------------------------------------------------------------- where the promise stops

  /**
   commitIndex moves back in a crash, to the snapshot's index, and in an install below it that is not ignored; never
   else. The install drops entries from the log that were committed and in it.
   */
  lemma CommitMovesBack(h: seq<Entry>, run: seq<Machine>, steps: seq<Step>, n: nat)
    requires IsRun(h, run, steps) && n < |steps|
    ensures run[n + 1].commitIndex < run[n].commitIndex <==>
            match steps[n]
            case InstallSnapshot(_, meta, _) => meta.index < run[n].commitIndex && !HasSnapshot(run[n], meta.index)
            case Crash(_) => Covered(run[n]) < run[n].commitIndex
            case _ => false
    ensures steps[n].InstallSnapshot? && run[n + 1].commitIndex < run[n].commitIndex ==>
              Matches(h, run[n].log, run[n].commitIndex) && run[n + 1].log.LastIndex() < run[n].commitIndex
  {
    hide Settles;
    assert Enabled(h, run[n], steps[n]) && run[n + 1] == After(h, run[n], steps[n]);
    RunSound(h, run, steps, n);
  }

  /**
   An install is ignored exactly when a snapshot at its index or a later one is saved. Otherwise the node is, in store, files, log
   and indices, at the snapshot, wherever it was before; and applying on from there gives the history from `settled` on.
   */
  lemma InstallTakes(h: seq<Entry>, run: seq<Machine>, steps: seq<Step>, n: nat)
    requires IsRun(h, run, steps) && n < |steps| && steps[n].InstallSnapshot?
    ensures var m, m', InstallSnapshot(snap, meta, settled) := run[n], run[n + 1], steps[n];
            if m.meta.Some? && meta.index <= m.meta.value.index then m' == m
            else
              && m'.kv == snap && m'.data == Some(snap) && m'.meta == Some(meta) && m'.survivors == {snap}
              && m'.lastApplied == meta.index == m'.commitIndex
              && m'.log.base == meta.index == m'.log.LastIndex() && m'.log.baseTerm == meta.term
              && forall c | meta.index <= c <= |h| && settled <= c :: Fold(m'.kv, h[meta.index..c]) == Fold(map[], h[..c])
  {
    hide Fold, Matches;
    assert Enabled(h, run[n], steps[n]) && run[n + 1] == After(h, run[n], steps[n]);
    RunSound(h, run, steps, n);
  }

  /** Likewise for lastApplied, and with it the store. */
  lemma AppliedMovesBack(h: seq<Entry>, run: seq<Machine>, steps: seq<Step>, n: nat)
    requires IsRun(h, run, steps) && n < |steps|
    ensures run[n + 1].lastApplied < run[n].lastApplied <==>
            match steps[n]
            case InstallSnapshot(_, meta, _) => meta.index < run[n].lastApplied && !HasSnapshot(run[n], meta.index)
            case Crash(_) => Covered(run[n]) < run[n].lastApplied
            case _ => false
  {
    hide Settles;
    assert Enabled(h, run[n], steps[n]) && run[n + 1] == After(h, run[n], steps[n]);
    RunSound(h, run, steps, n);
  }

  /**
   Where all nodes have one threshold, an install that is not ignored is at or above everything the node's store ever
   held: lastApplied moves back in crashes only.
   */
  lemma ScheduledInstall(h: seq<Entry>, threshold: nat, run: seq<Machine>, steps: seq<Step>, n: nat)
    requires IsScheduled(h, threshold, run, steps) && n < |steps|
    ensures steps[n].InstallSnapshot? && !HasSnapshot(run[n], steps[n].meta.index) ==> run[n].high <= steps[n].meta.index
    ensures run[n + 1].lastApplied < run[n].lastApplied ==> steps[n].Crash?
  {
    hide Settles, Point, Fold, Matches;
    RunPunctual(h, threshold, run, steps, n);
    RunSound(h, run, steps, n);
    assert Enabled(h, run[n], steps[n]) && run[n + 1] == After(h, run[n], steps[n]) && OnSchedule(h, threshold, run[n], steps[n]);
    if steps[n].InstallSnapshot? {
      PointPositive(threshold, steps[n].meta.index);
    }
  }

  lemma PointPositive(threshold: nat, i: nat)
    ensures Point(threshold, i) ==> i > 0
  {
  }

  /** At threshold 0 no snapshot is ever taken or installed. */
  lemma NeverAtZero(h: seq<Entry>, run: seq<Machine>, steps: seq<Step>, n: nat)
    requires IsScheduled(h, 0, run, steps) && n < |run|
    ensures run[n].meta.None?
  {
    RunPunctual(h, 0, run, steps, n);
  }

  function TwoWrites(a: Key, b: Key, v: Value): seq<Entry> {
    [Entry(1, 1, Put(a, v)), Entry(2, 1, Put(b, v))]
  }

  lemma FirstWrite(a: Key, b: Key, v: Value)
    ensures var h := TwoWrites(a, b, v);
            Sendable(h, 1, map[a := v], Meta(1, 1), 1) && Settles(h, map[a := v], 1, 1)
  {
    var h := TwoWrites(a, b, v);
    assert h[..1] == [h[0]] && [h[0]][..0] == [];
    assert Fold(map[], h[..1]) == map[a := v];
    SendableSettles(h, 1, map[a := v], Meta(1, 1), 1);
  }

  /**
   With one threshold, such an install loses a committed entry from the log: two writes are known to be committed and none is
   applied, when a snapshot of the first arrives.
   */
  lemma InstallLosesCommitted(a: Key, b: Key, v: Value) returns (run: seq<Machine>, steps: seq<Step>)
    requires a != b
    ensures IsScheduled(TwoWrites(a, b, v), 1, run, steps) && |run| == 3 && steps[1].InstallSnapshot?
    ensures run[1].commitIndex == 2 && run[1].log.entries == TwoWrites(a, b, v)
    ensures run[2].commitIndex == run[2].lastApplied == run[2].log.LastIndex() == 1
  {
    var h := TwoWrites(a, b, v);
    var log := Log(0, 0, h);
    FirstWrite(a, b, v);
    steps := [Replicate(log, 2), InstallSnapshot(map[a := v], Meta(1, 1), 1)];
    var m1 := Fresh().(log := log, commitIndex := 2);
    run := [Fresh(), m1, Install(m1, map[a := v], Meta(1, 1), 1)];
    hide Settles, Sendable;
    forall i | 0 <= i < 2
      ensures Enabled(h, run[i], steps[i]) && run[i + 1] == After(h, run[i], steps[i]) && OnSchedule(h, 1, run[i], steps[i])
    {
    }
  }

  /**
   With different thresholds it loses a write from the store too: a node that takes no snapshots has applied both writes
   when the first one's snapshot arrives, late, from a node at threshold 1.
   */
  lemma MixedThresholdsLoseApplied(a: Key, b: Key, v: Value) returns (run: seq<Machine>, steps: seq<Step>)
    requires a != b
    ensures IsRun(TwoWrites(a, b, v), run, steps) && |run| == 5
    ensures forall i | 0 <= i < 3 :: OnSchedule(TwoWrites(a, b, v), 0, run[i], steps[i])
    ensures steps[3].InstallSnapshot? && OnSchedule(TwoWrites(a, b, v), 1, run[3], steps[3])
    ensures run[3].commitIndex == run[3].lastApplied == 2 && b in run[3].kv
    ensures run[4].commitIndex == run[4].lastApplied == run[4].log.LastIndex() == 1 && b !in run[4].kv
  {
    var h := TwoWrites(a, b, v);
    var log := Log(0, 0, h);
    FirstWrite(a, b, v);
    steps := [Replicate(log, 2), ApplyEntry, ApplyEntry, InstallSnapshot(map[a := v], Meta(1, 1), 1)];
    var m1 := Fresh().(log := log, commitIndex := 2);
    var m2 := ApplyOne(m1);
    var m3 := ApplyOne(m2);
    run := [Fresh(), m1, m2, m3, Install(m3, map[a := v], Meta(1, 1), 1)];
    hide Settles, Sendable;
    forall i | 0 <= i < 4 ensures Enabled(h, run[i], steps[i]) && run[i + 1] == After(h, run[i], steps[i]) {
    }
  }

  /**
   A changed threshold does let a snapshot run ahead of its index. A node at threshold 3 applies two writes and
   crashes without losing either; started again at threshold 1, it replays the first write over both
   and snapshots: the file labelled 1 holds both. It still settles at 2, which is why CrashSafe holds.
   */
  lemma EarlySnapshot(a: Key, b: Key, v: Value) returns (h: seq<Entry>, run: seq<Machine>, steps: seq<Step>)
    requires a != b
    ensures |h| == 2 && IsRun(h, run, steps) && |run| == 9
    ensures forall i | 0 <= i < 4 :: OnSchedule(h, 3, run[i], steps[i])
    ensures steps[3].Crash? && forall i | 4 <= i < 8 :: OnSchedule(h, 1, run[i], steps[i])
    ensures run[8].meta == Some(Meta(1, 1)) && run[8].data == Some(map[a := v, b := v])
    ensures Fold(map[], h[..1]) == map[a := v]
  {
    h := [Entry(1, 1, Put(a, v)), Entry(2, 1, Put(b, v))];
    var log := Log(0, 0, h);
    var both: Store := map[a := v, b := v];
    steps := [Replicate(log, 2), ApplyEntry, ApplyEntry, Crash(both), Replicate(log, 1), ApplyEntry, WriteData, WriteMeta];
    var m0 := Fresh();
    var m1 := m0.(log := log, commitIndex := 2);
    var m2 := ApplyOne(m1);
    var m3 := ApplyOne(m2);
    assert m3.kv == both;
    var m4 := Restart(m3, both);
    var m5 := m4.(log := log, commitIndex := 1);
    var m6 := ApplyOne(m5);
    assert m6.kv == both;
    var m7 := SaveData(m6);
    var m8 := SaveMeta(m7);
    run := [m0, m1, m2, m3, m4, m5, m6, m7, m8];
    assert h[..1] == [h[0]] && [h[0]][..0] == [];
    forall i | 0 <= i < 8 ensures Enabled(h, run[i], steps[i]) && run[i + 1] == After(h, run[i], steps[i]) {
    }
  }

  /**
   What remains at a fixed threshold: a crash between the two renames leaves new data under the old meta file. At
   threshold 1, with the second snapshot cut off there, the file labelled 1 is the state at 2; a follower that installs it
   is ahead of its applied index until it has applied 2.
   */
  lemma NewDataUnderOldMeta(a: Key, b: Key, v: Value) returns (h: seq<Entry>, run: seq<Machine>, steps: seq<Step>)
    requires a != b
    ensures |h| == 2 && IsScheduled(h, 1, run, steps) && |run| == 9
    ensures var m := run[8];
            && m.meta == Some(Meta(1, 1)) && m.lastApplied == 1
            && m.data == Some(m.kv) && m.kv == Fold(map[], h[..2]) != Fold(map[], h[..1])
            && Sendable(h, 1, m.kv, Meta(1, 1), 2)
  {
    h := [Entry(1, 1, Put(a, v)), Entry(2, 1, Put(b, v))];
    var log := Log(0, 0, h);
    var both: Store := map[a := v, b := v];
    assert h[..1] == [h[0]] && [h[0]][..0] == [] && h[..2] == h && h[..2][..1] == h[..1];
    var first: Store := map[a := v];
    assert Fold(map[], h[..1]) == first;
    assert Fold(map[], h[..2]) == Apply(first, h[1].command) == both && b in both && b !in first;
    steps := [Replicate(log, 2), ApplyEntry, WriteData, WriteMeta, WriteBoundary, ApplyEntry, WriteData, Crash(both)];
    var m0 := Fresh();
    var m1 := m0.(log := log, commitIndex := 2);
    var m2 := ApplyOne(m1);
    var m3 := SaveData(m2);
    var m4 := SaveMeta(m3);
    var m5 := CompactLog(m4);
    assert m5.log.entries == [h[1]];
    var m6 := ApplyOne(m5);
    assert m6.kv == both;
    var m7 := SaveData(m6);
    var m8 := Restart(m7, both);
    run := [m0, m1, m2, m3, m4, m5, m6, m7, m8];
    hide Fold;
    forall i | 0 <= i < 8
      ensures Enabled(h, run[i], steps[i]) && run[i + 1] == After(h, run[i], steps[i]) && OnSchedule(h, 1, run[i], steps[i])
    {
    }
  }
}
