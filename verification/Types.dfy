/** Vocabulary shared by every module: node ids, log entries and the log as a value. */
module Types {

  datatype Option<+T> = None | Some(value: T)

  /** A node id. The empty string is never a member; as a vote it means "no vote". */
  type Id = string
  const NOBODY: Id := ""

  type Key = seq<byte>
  type Value = seq<byte>
  newtype byte = x: int | 0 <= x < 256

  /** A log entry's operation: the three entry types with the fields each one uses. */
  datatype Command =
    | Noop
    | Put(key: Key, value: Value)
    | Delete(key: Key)

  datatype Entry = Entry(index: nat, term: nat, command: Command)

  /** Consecutive indices, the first being `first`. */
  predicate Contiguous(es: seq<Entry>, first: nat)
  {
    forall i | 0 <= i < |es| :: es[i].index == first + i
  }

  /** `a` and `b` both hold at least `k` entries and the first `k` are the same. */
  predicate Agree(a: seq<Entry>, b: seq<Entry>, k: nat)
  {
    && k <= |a|
    && k <= |b|
    && forall i | 0 <= i < k :: a[i] == b[i]
  }

  /** Both logs hold an entry at (one-based) index `i`, with the same term. */
  predicate SameTermAt(a: seq<Entry>, b: seq<Entry>, i: nat)
  {
    0 < i <= |a| && i <= |b| && a[i - 1].term == b[i - 1].term
  }

  function LastTermOf(es: seq<Entry>): nat
  {
    if es == [] then 0 else es[|es| - 1].term
  }

  /** The value a PersistentLog stores: the entries above a compaction boundary. */
  datatype Log = Log(base: nat, baseTerm: nat, entries: seq<Entry>)
  {
    predicate Valid() {
      Contiguous(entries, base + 1)
    }

    function FirstIndex(): nat {
      base + 1
    }

    function LastIndex(): nat {
      base + |entries|
    }

    function LastTerm(): nat {
      if entries == [] then baseTerm else entries[|entries| - 1].term
    }

    /** The boundary's term is known although its entry is gone. */
    function TermAt(i: nat): Option<nat> {
      if i == base then Some(baseTerm)
      else if base < i <= LastIndex() then Some(entries[i - base - 1].term)
      else None
    }

    function At(i: nat): Entry
      requires base < i <= LastIndex()
    {
      entries[i - base - 1]
    }

    /** Entries `from` to `to`, both included. */
    function Slice(from: nat, to: nat): seq<Entry>
      requires base < from <= to + 1 <= LastIndex() + 1
    {
      entries[from - base - 1..to - base]
    }

    /** Drops everything from the first new index on, unread, and writes `es` there. */
    function Append(es: seq<Entry>): Log
      requires es != [] ==> base < es[0].index <= LastIndex() + 1
    {
      if es == [] then this else Log(base, baseTerm, entries[..es[0].index - base - 1] + es)
    }
  }
}
