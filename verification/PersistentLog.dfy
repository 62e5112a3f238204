/**
 The durable log: a storage engine with atomic batches, index fields kept in memory, and a cache of
 the most recent entries. It refines the plain Log of Types, across restarts.
 */
module PersistentLogs {
  import opened Types

  const TWO64 := 0x1_0000_0000_0000_0000
  const CACHE_LIMIT := 4096

  /** uint64 subtraction wraps. */
  function Sub64(a: nat, b: nat): nat
    requires a < TWO64 && b < TWO64
  {
    (a - b + TWO64) % TWO64
  }

  /** What the engine holds: entries by index, and the metadata keys; an absent key reads as zero. */
  datatype Disk = Disk(entries: map<nat, Entry>, term: nat, votedFor: Id, base: nat, baseTerm: nat)

  /** The engine. A batch is the image its commit would leave; `history` lists every committed image. */
  class Engine {
    var disk: Disk
    ghost var history: seq<Disk>

    constructor ()
      ensures disk == Disk(map[], 0, NOBODY, 0, 0) && history == []
    {
      disk := Disk(map[], 0, NOBODY, 0, 0);
      history := [];
    }

    method Commit(batch: Disk)
      modifies this
      ensures disk == batch && history == old(history) + [batch]
    {
      disk := batch;
      history := history + [batch];
    }
  }

  /** The disk holds exactly this log: keys from just above the boundary to the last index. */
  ghost predicate Stores(d: Disk, log: Log) {
    && log.Valid()
    && d.base == log.base && d.baseTerm == log.baseTerm
    && (forall i :: i in d.entries <==> log.base < i <= log.LastIndex())
    && (forall i | log.base < i <= log.LastIndex() :: d.entries[i] == log.At(i))
  }

  /** A disk holds one log only. */
  lemma StoresOnce(d: Disk, a: Log, b: Log)
    requires Stores(d, a) && Stores(d, b)
    ensures a == b
  {
    assert a.base < a.LastIndex() ==> a.LastIndex() in d.entries;
    assert b.base < b.LastIndex() ==> b.LastIndex() in d.entries;
    forall k | 0 <= k < |a.entries| ensures k < |b.entries| && a.entries[k] == b.entries[k] {
      assert a.At(a.base + 1 + k) == b.At(a.base + 1 + k);
    }
  }

  // ---------------------------------------------------------------- operations on the plain log

  function Truncate(log: Log, from: nat): Log
    requires log.base < from
  {
    if from > log.LastIndex() then log else log.(entries := log.entries[..from - log.base - 1])
  }

  function Compact(log: Log, index: nat, term: nat): Log {
    if index <= log.base then log
    else Log(index, term, if index <= log.LastIndex() then log.entries[index - log.base..] else [])
  }

  // ---------------------------------------------------------------- batches

  function Without(m: map<nat, Entry>, lo: nat, hi: nat): map<nat, Entry> {
    map i | i in m && !(lo <= i < hi) :: m[i]
  }

  function With(m: map<nat, Entry>, es: seq<Entry>): map<nat, Entry> {
    if es == [] then m else With(m, es[..|es| - 1])[es[|es| - 1].index := es[|es| - 1]]
  }

  lemma {:induction false} WithContents(m: map<nat, Entry>, es: seq<Entry>, first: nat)
    requires Contiguous(es, first)
    ensures forall i :: i in With(m, es) <==> i in m || first <= i < first + |es|
    ensures forall i | i in With(m, es) :: With(m, es)[i] == if first <= i < first + |es| then es[i - first] else m[i]
  {
    if es != [] {
      WithContents(m, es[..|es| - 1], first);
    }
  }

  lemma AppendedAt(log: Log, es: seq<Entry>)
    requires log.Valid() && es != [] && Contiguous(es, es[0].index) && log.base < es[0].index <= log.LastIndex() + 1
    ensures var log', first := log.Append(es), es[0].index;
            && log'.base == log.base && log'.baseTerm == log.baseTerm && log'.LastIndex() == first + |es| - 1
            && log'.Valid()
            && forall i | log.base < i <= log'.LastIndex() :: log'.At(i) == if i < first then log.At(i) else es[i - first]
  {
  }

  /** Deleting the old tail and writing the new entries is the plain log's Append. */
  lemma AppendStored(d: Disk, log: Log, es: seq<Entry>)
    requires Stores(d, log) && es != [] && Contiguous(es, es[0].index) && log.base < es[0].index <= log.LastIndex() + 1
    ensures Stores(d.(entries := With(Without(d.entries, es[0].index, log.LastIndex() + 1), es)), log.Append(es))
  {
    hide With, Log.Append;
    var first := es[0].index;
    WithContents(Without(d.entries, first, log.LastIndex() + 1), es, first);
    AppendedAt(log, es);
  }

  lemma TruncateStored(d: Disk, log: Log, from: nat)
    requires Stores(d, log) && log.base < from <= log.LastIndex()
    ensures Stores(d.(entries := Without(d.entries, from, log.LastIndex() + 1)), Truncate(log, from))
  {
    var log' := Truncate(log, from);
    forall i | log'.base < i <= log'.LastIndex() ensures log'.At(i) == log.At(i) {
    }
  }

  lemma CompactStored(d: Disk, log: Log, index: nat, term: nat)
    requires Stores(d, log) && log.base < index
    ensures var end := if index > log.LastIndex() then log.LastIndex() else index;
            Stores(d.(entries := Without(d.entries, log.FirstIndex(), end + 1), base := index, baseTerm := term),
                   Compact(log, index, term))
  {
    var log' := Compact(log, index, term);
    forall i | log'.base < i <= log'.LastIndex() ensures log'.At(i) == log.At(i) {
    }
  }

  // ---------------------------------------------------------------- runs of operations

  datatype Operation =
    | Vote(term: nat, vote: Id)
    | Append(entries: seq<Entry>)
    | Cut(from: nat)
    | Compaction(index: nat, term: nat)
    | Boundary(index: nat, term: nat)

  /** What callers keep to: new entries start above the boundary and leave no gap, cuts stay above it. */
  predicate Legal(log: Log, op: Operation) {
    match op
    case Append(es) =>
      es != [] ==> Contiguous(es, es[0].index) && log.base < es[0].index <= log.LastIndex() + 1
    case Cut(from) => log.base < from
    case _ => true
  }

  /** What an operation does to the plain log. */
  function Effect(log: Log, op: Operation): Log
    requires Legal(log, op)
  {
    match op
    case Vote(_, _) => log
    case Append(es) => log.Append(es)
    case Cut(from) => Truncate(log, from)
    case Compaction(index, term) => Compact(log, index, term)
    case Boundary(index, term) => Log(index, term, [])
  }

  /**
   Index by index: appending replaces everything from the first new index on, a cut drops everything from its index on, a
   compaction everything up to its index, a new boundary everything; what is left is as it was.
   */
  lemma EffectAt(log: Log, op: Operation)
    requires log.Valid() && Legal(log, op)
    ensures var log', last := Effect(log, op), log.LastIndex();
            match op
            case Vote(_, _) => log' == log
            case Append(es) =>
              if es == [] then log' == log
              else
                && log'.base == log.base && log'.baseTerm == log.baseTerm && log'.LastIndex() == es[0].index + |es| - 1
                && forall i | log.base < i <= log'.LastIndex() ::
                     log'.At(i) == if i < es[0].index then log.At(i) else es[i - es[0].index]
            case Cut(from) =>
              && log'.base == log.base && log'.baseTerm == log.baseTerm
              && log'.LastIndex() == (if from <= last then from - 1 else last)
              && forall i | log.base < i <= log'.LastIndex() :: log'.At(i) == log.At(i)
            case Compaction(index, term) =>
              if index <= log.base then log' == log
              else
                && log'.base == index && log'.baseTerm == term && log'.LastIndex() == (if index <= last then last else index)
                && forall i | index < i <= last :: log'.At(i) == log.At(i)
            case Boundary(index, term) => log'.base == index == log'.LastIndex() && log'.baseTerm == term
  {
    match op
    case Append(es) => if es != [] { AppendedAt(log, es); }
    case _ =>
  }

  /** The image its one batch leaves; an operation with nothing to write commits nothing. */
  function Batch(d: Disk, log: Log, op: Operation): Disk
    requires Legal(log, op)
  {
    var last := log.LastIndex();
    match op
    case Vote(term, vote) => d.(term := term, votedFor := vote)
    case Append(es) =>
      if es == [] then d else d.(entries := With(Without(d.entries, es[0].index, last + 1), es))
    case Cut(from) =>
      if from > last then d else d.(entries := Without(d.entries, from, last + 1))
    case Compaction(index, term) =>
      if index <= log.base then d
      else
        d.(entries := Without(d.entries, log.FirstIndex(), (if index > last then last else index) + 1),
           base := index, baseTerm := term)
    case Boundary(index, term) =>
      d.(entries := Without(d.entries, log.FirstIndex(), last + 1), base := index, baseTerm := term)
  }

  lemma BatchStores(d: Disk, log: Log, op: Operation)
    requires Stores(d, log) && Legal(log, op)
    ensures Stores(Batch(d, log, op), Effect(log, op))
  {
    hide Stores, Without, With, Log.Append, Truncate, Compact;
    match op
    case Vote(_, _) => VoteStored(d, log, op.term, op.vote);
    case Append(es) => if es != [] { AppendStored(d, log, es); } else { AppendNothing(log); }
    case Cut(from) => if from <= log.LastIndex() { TruncateStored(d, log, from); } else { CutNothing(log, from); }
    case Compaction(index, term) =>
      if log.base < index { CompactStored(d, log, index, term); } else { CompactNothing(log, index, term); }
    case Boundary(index, term) => BoundaryStored(d, log, index, term);
  }

  lemma VoteStored(d: Disk, log: Log, term: nat, vote: Id)
    requires Stores(d, log)
    ensures Stores(d.(term := term, votedFor := vote), log)
  {
  }

  lemma BoundaryStored(d: Disk, log: Log, index: nat, term: nat)
    requires Stores(d, log)
    ensures Stores(d.(entries := Without(d.entries, log.FirstIndex(), log.LastIndex() + 1), base := index, baseTerm := term),
                   Log(index, term, []))
  {
  }

  lemma AppendNothing(log: Log)
    ensures log.Append([]) == log
  {
  }

  lemma CutNothing(log: Log, from: nat)
    requires log.base <= log.LastIndex() < from
    ensures Truncate(log, from) == log
  {
  }

  lemma CompactNothing(log: Log, index: nat, term: nat)
    requires index <= log.base
    ensures Compact(log, index, term) == log
  {
  }

  /** A run: each operation is legal where the ones before it lead. */
  predicate LegalRun(log: Log, ops: seq<Operation>)
    decreases |ops|
  {
    ops == [] || (Legal(log, ops[0]) && LegalRun(Effect(log, ops[0]), ops[1..]))
  }

  /** The plain log after the first n operations. */
  function LogAfter(log: Log, ops: seq<Operation>, n: nat): Log
    requires LegalRun(log, ops) && n <= |ops|
    decreases n
  {
    if n == 0 then log else LogAfter(Effect(log, ops[0]), ops[1..], n - 1)
  }

  /** The disk after the batches of the first n operations. */
  function DiskAfter(d: Disk, log: Log, ops: seq<Operation>, n: nat): Disk
    requires LegalRun(log, ops) && n <= |ops|
    decreases n
  {
    if n == 0 then d else DiskAfter(Batch(d, log, ops[0]), Effect(log, ops[0]), ops[1..], n - 1)
  }

  /**
   Crash recovery over whole runs. An operation commits one batch, so a crash leaves the disk as it
   was before or after it; reopening then finds the plain log after n or n + 1 operations, and no other.
   */
  lemma {:induction false} Recovery(d: Disk, log: Log, ops: seq<Operation>, n: nat)
    requires Stores(d, log) && LegalRun(log, ops) && n <= |ops|
    ensures Stores(DiskAfter(d, log, ops, n), LogAfter(log, ops, n))
    ensures forall other | Stores(DiskAfter(d, log, ops, n), other) :: other == LogAfter(log, ops, n)
    decreases n
  {
    hide Stores, Batch, Effect;
    if n == 0 {
    } else {
      BatchStores(d, log, ops[0]);
      Recovery(Batch(d, log, ops[0]), Effect(log, ops[0]), ops[1..], n - 1);
    }
    forall other | Stores(DiskAfter(d, log, ops, n), other) ensures other == LogAfter(log, ops, n) {
      StoresOnce(DiskAfter(d, log, ops, n), other, LogAfter(log, ops, n));
    }
  }

  // ---------------------------------------------------------------- the cache

  /** What is cached is what is stored. */
  predicate Mirrors(cache: map<nat, Entry>, d: Disk) {
    forall i | i in cache :: i in d.entries && cache[i] == d.entries[i]
  }

  lemma {:induction false} RangeSize(s: set<nat>, lo: nat, hi: nat)
    requires forall i | i in s :: lo <= i < hi
    ensures |s| <= if lo <= hi then hi - lo else 0
    decreases hi
  {
    if s != {} {
      assert lo < hi by { var i :| i in s; }
      var top := hi - 1;
      RangeSize(s - {top}, lo, top);
    }
  }

  /** However the threshold wraps, eviction leaves at most limit + 1 + (newly appended) entries. */
  lemma EvictedSize(cache: map<nat, Entry>, oldLast: nat, newLast: nat, added: nat)
    requires oldLast < TWO64 && newLast <= oldLast + added
    requires forall i | i in cache :: Sub64(oldLast, CACHE_LIMIT) <= i <= newLast
    ensures |cache| <= CACHE_LIMIT + 1 + added
  {
    RangeSize(cache.Keys, Sub64(oldLast, CACHE_LIMIT), newLast + 1);
    assert |cache| == |cache.Keys|;
  }

  /** The cache takes the same deletions and writes as the disk, so it still mirrors it. */
  lemma CacheAppended(d: Disk, end: nat, cache: map<nat, Entry>, es: seq<Entry>, first: nat)
    requires Mirrors(cache, d) && Contiguous(es, first) && (forall i | i in d.entries :: i < end)
    ensures Mirrors(With(Without(cache, first, end), es), d.(entries := With(Without(d.entries, first, end), es)))
    ensures forall i | i in With(Without(cache, first, end), es) :: i < first + |es|
  {
    hide With;
    WithContents(Without(d.entries, first, end), es, first);
    WithContents(Without(cache, first, end), es, first);
  }

  lemma EvictedMirrors(cache: map<nat, Entry>, kept: map<nat, Entry>, d: Disk)
    requires Mirrors(cache, d) && forall i | i in kept :: i in cache && kept[i] == cache[i]
    ensures Mirrors(kept, d)
  {
  }

  lemma CacheCut(d: Disk, cache: map<nat, Entry>, lo: nat, hi: nat)
    requires Mirrors(cache, d)
    ensures Mirrors(Without(cache, lo, hi), d.(entries := Without(d.entries, lo, hi)))
  {
  }

  lemma MirrorsEntries(cache: map<nat, Entry>, d: Disk, d': Disk)
    requires Mirrors(cache, d) && d.entries == d'.entries
    ensures Mirrors(cache, d')
  {
  }

  lemma TruncatedLast(log: Log, from: nat)
    requires log.base < from <= log.LastIndex()
    ensures var log' := Truncate(log, from);
            log'.base == log.base && log'.baseTerm == log.baseTerm && log'.LastIndex() == from - 1
  {
  }

  lemma CompactedBounds(log: Log, index: nat, term: nat)
    requires log.base < index
    ensures var log' := Compact(log, index, term);
            && log'.base == index && log'.baseTerm == term
            && log'.LastIndex() == if log.LastIndex() < index then index else log.LastIndex()
  {
  }

  lemma Bounds(d: Disk, log: Log)
    requires Stores(d, log)
    ensures log.Valid() && forall i :: i in d.entries <==> log.base < i <= log.LastIndex()
  {
  }

  // ---------------------------------------------------------------- the class

  datatype LogError = Compacted | NotFound
  datatype Result<+T> = Ok(value: T) | Err(error: LogError)

  class PersistentLog {
    const engine: Engine
    var firstIndex: nat
    var lastIndex: nat
    var lastIncludedIndex: nat
    var lastIncludedTerm: nat
    var currentTerm: nat
    var votedFor: Id
    var tailCache: map<nat, Entry>

    /** The plain log this object and its engine hold. */
    ghost var contents: Log

    ghost predicate Valid()
      reads this, engine
    {
      && Stores(engine.disk, contents)
      && engine.disk.term == currentTerm && engine.disk.votedFor == votedFor
      && lastIncludedIndex == contents.base && lastIncludedTerm == contents.baseTerm
      && firstIndex == contents.FirstIndex() && lastIndex == contents.LastIndex() < TWO64
      && Mirrors(tailCache, engine.disk)
    }

    /** OpenPersistentLog: whatever log the disk holds comes back, with its term and vote. */
    constructor Open(e: Engine, ghost log: Log)
      requires Stores(e.disk, log) && log.LastIndex() < TWO64
      ensures Valid() && engine == e && contents == log
      ensures currentTerm == e.disk.term && votedFor == e.disk.votedFor
      ensures tailCache == map[]
    {
      engine := e;
      tailCache := map[];
      currentTerm := e.disk.term;
      votedFor := e.disk.votedFor;
      lastIncludedIndex := e.disk.base;
      lastIncludedTerm := e.disk.baseTerm;
      firstIndex := e.disk.base + 1;
      var last := e.disk.base;
      var keys := e.disk.entries.Keys;
      while keys != {}
        invariant keys <= e.disk.entries.Keys
        invariant last == log.base || last in e.disk.entries
        invariant forall i | i in e.disk.entries && i !in keys :: i <= last
        decreases keys
      {
        var i :| i in keys;
        if i > last {
          last := i;
        }
        keys := keys - {i};
      }
      lastIndex := last;
      contents := log;
      assert log.base < log.LastIndex() ==> log.LastIndex() in e.disk.entries;
    }

    method SetTermAndVote(term: nat, vote: Id)
      requires Valid()
      modifies this, engine
      ensures Valid() && currentTerm == term && votedFor == vote
      ensures contents == old(contents) && tailCache == old(tailCache)
      ensures engine.disk == Batch(old(engine.disk), old(contents), Vote(term, vote))
      ensures engine.history == old(engine.history) + [engine.disk]
    {
      engine.Commit(engine.disk.(term := term, votedFor := vote));
      currentTerm := term;
      votedFor := vote;
    }

    // -------------------------------------------------------------- reads

    method LastTerm() returns (term: nat)
      requires Valid()
      ensures term == contents.LastTerm()
    {
      if lastIndex == lastIncludedIndex {
        return lastIncludedTerm;
      }
      if lastIndex in tailCache {
        return tailCache[lastIndex].term;
      }
      term := 0;
      var r := GetLocked(lastIndex);
      if r.Ok? {
        term := r.value.term;
      }
    }

    method TermAt(index: nat) returns (term: Option<nat>)
      requires Valid()
      ensures term == contents.TermAt(index)
    {
      if index == lastIncludedIndex {
        return Some(lastIncludedTerm);
      }
      if index < firstIndex || index > lastIndex {
        return None;
      }
      if index in tailCache {
        return Some(tailCache[index].term);
      }
      var r := GetLocked(index);
      term := if r.Ok? then Some(r.value.term) else None;
    }

    /** What an uncached log would answer. */
    ghost function Lookup(index: nat): Result<Entry>
      reads this
    {
      if index <= contents.base then Err(Compacted)
      else if index <= contents.LastIndex() then Ok(contents.At(index))
      else Err(NotFound)
    }

    method Get(index: nat) returns (r: Result<Entry>)
      requires Valid()
      ensures r == Lookup(index)
    {
      if index in tailCache {
        return Ok(tailCache[index]);
      }
      r := GetLocked(index);
    }

    method GetLocked(index: nat) returns (r: Result<Entry>)
      requires Valid()
      ensures r == Lookup(index)
    {
      if index <= lastIncludedIndex {
        return Err(Compacted);
      }
      if index in engine.disk.entries {
        return Ok(engine.disk.entries[index]);
      }
      r := Err(NotFound);
    }

    method Range(from: nat, to: nat) returns (r: Result<seq<Entry>>)
      requires Valid()
      ensures from > to ==> r == Ok([])
      ensures from <= to && contents.base < from && to <= contents.LastIndex() ==> r == Ok(contents.Slice(from, to))
      ensures from <= to && !(contents.base < from && to <= contents.LastIndex()) ==> r.Err?
    {
      if from > to {
        return Ok([]);
      }
      var entries := [];
      var i := from;
      while i <= to
        invariant from <= i <= to + 1
        invariant i == from || (contents.base < from && i <= contents.LastIndex() + 1)
        invariant |entries| == i - from
        invariant forall k | 0 <= k < |entries| :: Lookup(from + k) == Ok(entries[k])
      {
        if i in tailCache {
          entries := entries + [tailCache[i]];
        } else {
          var e := GetLocked(i);
          if e.Err? {
            return Err(e.error);
          }
          entries := entries + [e.value];
        }
        i := i + 1;
      }
      assert entries == contents.Slice(from, to);
      r := Ok(entries);
    }

    // -------------------------------------------------------------- writes

    /** Starts a batch that deletes entries lo .. hi-1, and drops them from the cache. */
    method DeleteRange(lo: nat, hi: nat) returns (batch: Disk)
      modifies this`tailCache
      ensures batch == engine.disk.(entries := Without(engine.disk.entries, lo, hi))
      ensures tailCache == Without(old(tailCache), lo, hi)
    {
      batch := engine.disk;
      var i := lo;
      while i < hi
        invariant lo <= i && (lo <= hi ==> i <= hi) && (hi < lo ==> i == lo)
        invariant batch == engine.disk.(entries := Without(engine.disk.entries, lo, i))
        invariant tailCache == Without(old(tailCache), lo, i)
      {
        batch := batch.(entries := batch.entries - {i});
        tailCache := tailCache - {i};
        i := i + 1;
      }
      assert Without(engine.disk.entries, lo, i) == Without(engine.disk.entries, lo, hi);
      assert Without(old(tailCache), lo, i) == Without(old(tailCache), lo, hi);
    }

    /** AppendEntries: drops the old tail unread, writes the new entries, in one atomic batch. */
    method AppendEntries(entries: seq<Entry>)
      requires Valid()
      requires entries != [] ==>
                 && contents.base < entries[0].index <= contents.LastIndex() + 1
                 && Contiguous(entries, entries[0].index)
                 && entries[0].index + |entries| <= TWO64
      modifies this, engine
      ensures Valid() && contents == old(contents).Append(entries)
      ensures currentTerm == old(currentTerm) && votedFor == old(votedFor)
      ensures engine.disk == Batch(old(engine.disk), old(contents), Append(entries))
      ensures entries == [] ==> engine.history == old(engine.history) && tailCache == old(tailCache)
      ensures entries != [] ==>
                && engine.history == old(engine.history) + [engine.disk]
                && |tailCache| <= CACHE_LIMIT + 1 + |entries|
    {
      if entries != [] {
        AppendBatch(entries);
      }
    }

    method AppendBatch(entries: seq<Entry>)
      requires Valid() && entries != []
      requires contents.base < entries[0].index <= contents.LastIndex() + 1
      requires Contiguous(entries, entries[0].index) && entries[0].index + |entries| <= TWO64
      modifies this, engine
      ensures Valid() && contents == old(contents).Append(entries)
      ensures currentTerm == old(currentTerm) && votedFor == old(votedFor)
      ensures engine.disk == Batch(old(engine.disk), old(contents), Append(entries))
      ensures engine.history == old(engine.history) + [engine.disk]
      ensures |tailCache| <= CACHE_LIMIT + 1 + |entries|
    {
      hide With, Without, Stores, Mirrors, Log.Append;
      ghost var d, log, end := engine.disk, contents, lastIndex + 1;
      Bounds(d, log);
      AppendStored(d, log, entries);
      AppendedAt(log, entries);
      CacheAppended(d, end, tailCache, entries, entries[0].index);
      var batch := DeleteRange(entries[0].index, lastIndex + 1);
      batch := SetEntries(batch, entries);
      engine.Commit(batch);
      contents := log.Append(entries);
      CacheEntries(entries);
      EvictTailCache();
      EvictedMirrors(With(Without(old(tailCache), entries[0].index, end), entries), tailCache, engine.disk);
      assert |tailCache| <= CACHE_LIMIT + 1 + |entries| by {
        if |tailCache| > CACHE_LIMIT {
          EvictedSize(tailCache, lastIndex, contents.LastIndex(), |entries|);
        }
      }
      lastIndex := entries[|entries| - 1].index;
      // The two repairs of firstIndex that follow in the code never apply.
      assert firstIndex == lastIncludedIndex + 1 != 0;
      assert Stores(engine.disk, contents) && Mirrors(tailCache, engine.disk);
    }

    /** Adds entries to a batch. */
    static method SetEntries(start: Disk, entries: seq<Entry>) returns (batch: Disk)
      ensures batch == start.(entries := With(start.entries, entries))
    {
      batch := start;
      var k := 0;
      while k < |entries|
        invariant 0 <= k <= |entries|
        invariant batch == start.(entries := With(start.entries, entries[..k]))
      {
        assert entries[..k + 1][..k] == entries[..k];
        batch := batch.(entries := batch.entries[entries[k].index := entries[k]]);
        k := k + 1;
      }
      assert entries[..|entries|] == entries;
    }

    method CacheEntries(entries: seq<Entry>)
      modifies this`tailCache
      ensures tailCache == With(old(tailCache), entries)
    {
      var k := 0;
      while k < |entries|
        invariant 0 <= k <= |entries|
        invariant tailCache == With(old(tailCache), entries[..k])
      {
        assert entries[..k + 1][..k] == entries[..k];
        tailCache := tailCache[entries[k].index := entries[k]];
        k := k + 1;
      }
      assert entries[..|entries|] == entries;
    }

    method EvictTailCache()
      requires lastIndex < TWO64
      modifies this`tailCache
      ensures |old(tailCache)| <= CACHE_LIMIT ==> tailCache == old(tailCache)
      ensures |old(tailCache)| > CACHE_LIMIT ==>
                tailCache == map i | i in old(tailCache) && i >= Sub64(lastIndex, CACHE_LIMIT) :: old(tailCache)[i]
    {
      if |tailCache| <= CACHE_LIMIT {
        return;
      }
      var threshold := Sub64(lastIndex, CACHE_LIMIT);
      var keys := tailCache.Keys;
      while keys != {}
        invariant keys <= old(tailCache).Keys
        invariant tailCache == map i | i in old(tailCache) && (i in keys || i >= threshold) :: old(tailCache)[i]
        decreases keys
      {
        var i :| i in keys;
        if i < threshold {
          tailCache := tailCache - {i};
        }
        keys := keys - {i};
      }
    }

    method TruncateSuffix(from: nat)
      requires Valid() && contents.FirstIndex() <= from
      modifies this, engine
      ensures Valid() && contents == Truncate(old(contents), from)
      ensures currentTerm == old(currentTerm) && votedFor == old(votedFor)
      ensures engine.disk == Batch(old(engine.disk), old(contents), Cut(from))
      ensures engine.history == old(engine.history) + if from > old(lastIndex) then [] else [engine.disk]
    {
      hide Stores, Mirrors, Without, Truncate;
      ghost var log, op := contents, Cut(from);
      BatchStores(engine.disk, log, op);
      if from > lastIndex {
        CutNothing(log, from);
        return;
      }
      CacheCut(engine.disk, tailCache, from, lastIndex + 1);
      TruncatedLast(log, from);
      var batch := DeleteRange(from, lastIndex + 1);
      engine.Commit(batch);
      if from == firstIndex {
        lastIndex := lastIncludedIndex;
      } else {
        lastIndex := from - 1;
      }
      contents := Effect(log, op);
    }

    method CompactPrefix(index: nat, term: nat)
      requires Valid() && index < TWO64
      modifies this, engine
      ensures Valid() && contents == Compact(old(contents), index, term)
      ensures currentTerm == old(currentTerm) && votedFor == old(votedFor)
      ensures engine.disk == Batch(old(engine.disk), old(contents), Compaction(index, term))
      ensures engine.history == old(engine.history) + if index <= old(contents).base then [] else [engine.disk]
    {
      hide Stores, Mirrors, Without, Compact;
      ghost var log, op := contents, Compaction(index, term);
      BatchStores(engine.disk, log, op);
      if index <= lastIncludedIndex {
        CompactNothing(log, index, term);
        return;
      }
      CompactedBounds(log, index, term);
      var end := if index > lastIndex then lastIndex else index;
      CacheCut(engine.disk, tailCache, firstIndex, end + 1);
      var batch := DeleteRange(firstIndex, end + 1);
      engine.Commit(batch.(base := index, baseTerm := term));
      MirrorsEntries(tailCache, batch, engine.disk);
      lastIncludedIndex := index;
      lastIncludedTerm := term;
      firstIndex := index + 1;
      if lastIndex < index {
        lastIndex := index;
      }
      contents := Effect(log, op);
    }

    method RestoreSnapshotBoundary(index: nat, term: nat)
      requires Valid() && index < TWO64
      modifies this, engine
      ensures Valid() && contents == Log(index, term, [])
      ensures currentTerm == old(currentTerm) && votedFor == old(votedFor)
      ensures engine.disk == Batch(old(engine.disk), old(contents), Boundary(index, term))
      ensures engine.history == old(engine.history) + [engine.disk]
    {
      hide Stores, Without;
      ghost var log := contents;
      BatchStores(engine.disk, log, Boundary(index, term));
      var batch := DeleteRange(firstIndex, lastIndex + 1);
      tailCache := map[];
      engine.Commit(batch.(base := index, baseTerm := term));
      lastIncludedIndex := index;
      lastIncludedTerm := term;
      firstIndex := index + 1;
      lastIndex := index;
      contents := Effect(log, Boundary(index, term));
    }
  }
}
