/** The engine's byte keys behind the numbered entries of a Disk. */
module DiskKeys {
  import opened Types
  import opened Bytes
  import opened PersistentLogs

  /** Every index fits the eight bytes of a log key. */
  predicate Fits(entries: map<nat, Entry>) {
    forall i | i in entries :: i < Power256(8)
  }

  /** The part of the engine that holds the log, under the keys the code writes. */
  ghost function Raw(entries: map<nat, Entry>): (raw: map<Key, Entry>)
    requires Fits(entries)
  {
    map k | k in (set i | i in entries :: LogKey(i)) && IndexFromKey(k) in entries :: entries[IndexFromKey(k)]
  }

  function IndexFromKey(k: Key): nat {
    if |k| < 2 then 0 else IndexFromLogKey(k)
  }

  /** One entry per index, found under its key and nowhere else. */
  lemma RawHolds(entries: map<nat, Entry>)
    requires Fits(entries)
    ensures forall k :: k in Raw(entries) <==> exists i :: i in entries && k == LogKey(i)
    ensures forall i | i in entries :: LogKey(i) in Raw(entries) && Raw(entries)[LogKey(i)] == entries[i]
    ensures forall k | k in Raw(entries) :: IndexFromKey(k) in entries && k == LogKey(IndexFromKey(k))
  {
    hide LogKey, IndexFromLogKey, Power256;
    forall i | i in entries ensures IndexFromKey(LogKey(i)) == i {
      KeyIndex(i);
    }
  }

  lemma KeyIndex(i: nat)
    requires i < Power256(8)
    ensures IndexFromKey(LogKey(i)) == i
  {
    LogKeys(i, i);
  }

  /** These two facts determine it. */
  lemma RawOnly(entries: map<nat, Entry>, raw: map<Key, Entry>)
    requires Fits(entries)
    requires forall i | i in entries :: LogKey(i) in raw && raw[LogKey(i)] == entries[i]
    requires forall k | k in raw :: IndexFromKey(k) in entries && k == LogKey(IndexFromKey(k))
    ensures raw == Raw(entries)
  {
    hide Raw, LogKey, IndexFromKey;
    RawHolds(entries);
  }

  /** Writing by key is writing by index. */
  lemma RawSet(entries: map<nat, Entry>, i: nat, e: Entry)
    requires Fits(entries) && i < Power256(8)
    ensures Raw(entries[i := e]) == Raw(entries)[LogKey(i) := e]
  {
    hide Raw, LogKey, IndexFromKey, Power256;
    RawHolds(entries);
    KeyIndex(i);
    forall j | j in entries ensures IndexFromKey(LogKey(j)) == j {
      KeyIndex(j);
    }
    RawOnly(entries[i := e], Raw(entries)[LogKey(i) := e]);
  }

  /** Deleting by key is deleting by index. */
  lemma RawDelete(entries: map<nat, Entry>, i: nat)
    requires Fits(entries) && i < Power256(8)
    ensures Raw(entries - {i}) == Raw(entries) - {LogKey(i)}
  {
    hide Raw, LogKey, IndexFromKey, Power256;
    RawHolds(entries);
    KeyIndex(i);
    forall j | j in entries ensures IndexFromKey(LogKey(j)) == j {
      KeyIndex(j);
    }
    RawOnly(entries - {i}, Raw(entries) - {LogKey(i)});
  }

  /** The bound on indices is the eight bytes. */
  lemma EightBytes()
    ensures TWO64 == Power256(8)
  {
    assert Power256(2) == 0x1_0000;
    assert Power256(4) == 256 * (256 * Power256(2));
    assert Power256(6) == 256 * (256 * Power256(4));
    assert Power256(8) == 256 * (256 * Power256(6));
  }

  // ---------------------------------------------------------------- batches

  function KeysWritten(raw: map<Key, Entry>, es: seq<Entry>): map<Key, Entry> {
    if es == [] then raw else KeysWritten(raw, es[..|es| - 1])[LogKey(es[|es| - 1].index) := es[|es| - 1]]
  }

  function KeysDeleted(raw: map<Key, Entry>, lo: nat, hi: nat): map<Key, Entry>
    decreases hi
  {
    if hi <= lo then raw else KeysDeleted(raw, lo, hi - 1) - {LogKey(hi - 1)}
  }

  lemma {:induction false} RawWith(entries: map<nat, Entry>, es: seq<Entry>)
    requires Fits(entries) && forall k | 0 <= k < |es| :: es[k].index < Power256(8)
    ensures Fits(With(entries, es)) && Raw(With(entries, es)) == KeysWritten(Raw(entries), es)
  {
    hide Raw, LogKey, Power256;
    if es != [] {
      var init, last := es[..|es| - 1], es[|es| - 1];
      RawWith(entries, init);
      RawSet(With(entries, init), last.index, last);
    }
  }

  lemma {:induction false} RawWithout(entries: map<nat, Entry>, lo: nat, hi: nat)
    requires Fits(entries) && hi <= Power256(8)
    ensures Fits(Without(entries, lo, hi)) && Raw(Without(entries, lo, hi)) == KeysDeleted(Raw(entries), lo, hi)
    decreases hi
  {
    hide Raw, LogKey, Power256;
    if hi <= lo {
      assert Without(entries, lo, hi) == entries;
    } else {
      RawWithout(entries, lo, hi - 1);
      RawDelete(Without(entries, lo, hi - 1), hi - 1);
      assert Without(entries, lo, hi) == Without(entries, lo, hi - 1) - {hi - 1};
    }
  }

  /** What an operation's batch does to the keys. */
  function KeyBatch(raw: map<Key, Entry>, log: Log, op: Operation): map<Key, Entry> {
    var last := log.LastIndex();
    match op
    case Vote(_, _) => raw
    case Append(es) => if es == [] then raw else KeysWritten(KeysDeleted(raw, es[0].index, last + 1), es)
    case Cut(from) => if from > last then raw else KeysDeleted(raw, from, last + 1)
    case Compaction(index, _) =>
      if index <= log.base then raw else KeysDeleted(raw, log.FirstIndex(), (if index > last then last else index) + 1)
    case Boundary(_, _) => KeysDeleted(raw, log.FirstIndex(), last + 1)
  }

  /** Every batch of the numbered disk is the batch of byte keys the code commits. */
  lemma BatchByKeys(d: Disk, log: Log, op: Operation)
    requires Legal(log, op) && Fits(d.entries) && log.LastIndex() < TWO64
    requires op.Append? ==> forall k | 0 <= k < |op.entries| :: op.entries[k].index < TWO64
    ensures Fits(Batch(d, log, op).entries)
    ensures Raw(Batch(d, log, op).entries) == KeyBatch(Raw(d.entries), log, op)
  {
    hide Raw, LogKey, Power256, KeysWritten, KeysDeleted, With, Without;
    EightBytes();
    var last := log.LastIndex();
    match op
    case Vote(_, _) =>
    case Append(es) =>
      if es != [] {
        RawWithout(d.entries, es[0].index, last + 1);
        RawWith(Without(d.entries, es[0].index, last + 1), es);
      }
    case Cut(from) => RawWithout(d.entries, from, last + 1);
    case Compaction(index, _) => RawWithout(d.entries, log.FirstIndex(), (if index > last then last else index) + 1);
    case Boundary(_, _) => RawWithout(d.entries, log.FirstIndex(), last + 1);
  }

  // ---------------------------------------------------------------- opening

  const METADATA_PREFIX: Key := [0x6D, 0x2F] // "m/"

  /** The metadata keys stay out of the log's range. */
  lemma MetadataApart(k: Key)
    requires METADATA_PREFIX <= k
    ensures !(LOG_PREFIX <= k)
  {
    assert k[0] == 0x6D;
  }

  /**
   The scan that opens the log: among the log's keys and the metadata keys, the range from the log prefix to its upper
   bound visits exactly the stored indices.
   */
  lemma ScanFindsLog(entries: map<nat, Entry>, others: set<Key>)
    requires Fits(entries) && forall k | k in others :: METADATA_PREFIX <= k
    ensures (set k | k in Raw(entries).Keys + others && InRange(k, LOG_PREFIX, UpperBound(LOG_PREFIX)) :: IndexFromKey(k))
            == entries.Keys
  {
    hide Raw, LogKey, IndexFromKey, InRange, UpperBound;
    RawHolds(entries);
    forall k ensures InRange(k, LOG_PREFIX, UpperBound(LOG_PREFIX)) <==> LOG_PREFIX <= k {
      PrefixRange(k, LOG_PREFIX);
    }
    forall k | k in others ensures !(LOG_PREFIX <= k) {
      MetadataApart(k);
    }
    var found := set k | k in Raw(entries).Keys + others && InRange(k, LOG_PREFIX, UpperBound(LOG_PREFIX)) :: IndexFromKey(k);
    forall i | i in entries ensures i in found {
      KeyIndex(i);
      KeyPrefix(i);
      assert LogKey(i) in Raw(entries).Keys;
    }
  }

  lemma KeyPrefix(i: nat)
    ensures LOG_PREFIX <= LogKey(i)
  {
  }
}
