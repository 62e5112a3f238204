/** The key-value state machine, kept under its own prefix of a storage engine it may share. */
module StateMachines {
  import opened Types
  import opened Bytes

  type Store = map<Key, Value>

  const DATA_PREFIX: Key := [0x64, 0x2F] // "d/"

  function DataKey(k: Key): Key {
    DATA_PREFIX + k
  }

  // ---------------------------------------------------------------- contents seen by users

  predicate IsData(dk: Key) {
    DATA_PREFIX <= dk
  }

  lemma DataKeyInverse(k: Key, dk: Key)
    ensures IsData(DataKey(k)) && DataKey(k)[2..] == k
    ensures IsData(dk) ==> DataKey(dk[2..]) == dk
  {
  }

  /** The user map: data keys without their prefix. */
  ghost function UserMap(content: Store): Store {
    Stripped(content, set dk | dk in content && IsData(dk))
  }

  lemma UserMapIs(content: Store)
    ensures forall k :: k in UserMap(content) <==> DataKey(k) in content
    ensures forall k | k in UserMap(content) :: UserMap(content)[k] == content[DataKey(k)]
  {
    forall k ensures IsData(DataKey(k)) {
      DataKeyInverse(k, []);
    }
  }

  ghost function Stripped(content: Store, dks: set<Key>): (m: Store)
    requires forall dk | dk in dks :: dk in content && IsData(dk)
    ensures forall k :: k in m <==> DataKey(k) in dks
    ensures forall k | k in m :: m[k] == content[DataKey(k)]
  {
    if dks == {} then map[]
    else
      var dk :| dk in dks;
      OnlyKey(dk);
      Stripped(content, dks - {dk})[dk[2..] := content[dk]]
  }

  /** Everything in the engine that is not user data. */
  function Others(content: Store): Store {
    map dk | dk in content && !IsData(dk) :: content[dk]
  }

  /** A user map and the rest of the engine determine the whole. */
  lemma Whole(a: Store, b: Store)
    requires UserMap(a) == UserMap(b) && Others(a) == Others(b)
    ensures a == b
  {
    UserMapIs(a);
    UserMapIs(b);
    forall dk ensures dk in a <==> dk in b {
      DataKeyInverse([], dk);
      assert IsData(dk) ==> (dk in a <==> dk[2..] in UserMap(a)) && (dk in b <==> dk[2..] in UserMap(b));
      assert !IsData(dk) ==> (dk in a <==> dk in Others(a)) && (dk in b <==> dk in Others(b));
    }
    forall dk | dk in a ensures a[dk] == b[dk] {
      DataKeyInverse([], dk);
      if IsData(dk) {
        assert UserMap(a)[dk[2..]] == UserMap(b)[dk[2..]];
      } else {
        assert Others(a)[dk] == Others(b)[dk];
      }
    }
  }

  // ---------------------------------------------------------------- commands

  function Apply(kv: Store, c: Command): Store {
    match c
    case Noop => kv
    case Put(k, v) => kv[k := v]
    case Delete(k) => kv - {k}
  }

  /** Two stores that differ at most at k, where the second has v. */
  lemma ChangedAt(a: Store, b: Store, k: Key, v: Value)
    requires k in b && b[k] == v && b - {k} == a - {k}
    ensures b == a[k := v]
  {
    forall j | j in b && j != k ensures j in a && b[j] == a[j] {
      assert j in b - {k};
    }
    forall j | j in a && j != k ensures j in b {
      assert j in a - {k};
    }
  }

  lemma SetData(content: Store, k: Key, v: Value)
    ensures UserMap(content[DataKey(k) := v]) == UserMap(content)[k := v]
    ensures Others(content[DataKey(k) := v]) == Others(content)
  {
    var after := content[DataKey(k) := v];
    UserMapIs(content);
    UserMapIs(after);
    DataKeyInverse(k, []);
    forall j ensures j in UserMap(after) <==> j in UserMap(content)[k := v] {
      DataKeyInverse(j, []);
    }
    forall j | j in UserMap(after) ensures UserMap(after)[j] == UserMap(content)[k := v][j] {
      DataKeyInverse(j, []);
    }
  }

  lemma DropData(content: Store, k: Key)
    ensures UserMap(content - {DataKey(k)}) == UserMap(content) - {k}
    ensures Others(content - {DataKey(k)}) == Others(content)
  {
    var after := content - {DataKey(k)};
    UserMapIs(content);
    UserMapIs(after);
    DataKeyInverse(k, []);
    forall j ensures j in UserMap(after) <==> j in UserMap(content) - {k} {
      DataKeyInverse(j, []);
    }
  }

  // ---------------------------------------------------------------- the class

  /** The storage engine: a key space, perhaps shared, with atomic batches. */
  class KvEngine {
    var content: Store

    /** The keys an iterator over [lower, upper) visits. */
    function KeysIn(lower: Key, upper: Option<Key>): set<Key>
      reads this
    {
      set k | k in content && InRange(k, lower, upper)
    }
  }

  class StateMachine {
    const engine: KvEngine
    var lastApplied: nat

    /** The user map and the rest of the engine, as this object's contracts see them. */
    ghost function Pairs(): Store
      reads engine
    {
      UserMap(engine.content)
    }

    ghost function Rest(): Store
      reads engine
    {
      Others(engine.content)
    }

    constructor (engine: KvEngine)
      ensures this.engine == engine && lastApplied == 0
    {
      this.engine := engine;
      lastApplied := 0;
    }

    method Get(key: Key) returns (v: Option<Value>)
      ensures v == if key in Pairs() then Some(Pairs()[key]) else None
    {
      UserMapIs(engine.content);
      v := if DataKey(key) in engine.content then Some(engine.content[DataKey(key)]) else None;
    }

    method ApplyPut(index: nat, key: Key, value: Value)
      modifies this, engine
      ensures key in Pairs() && Pairs()[key] == value && Pairs() - {key} == old(Pairs()) - {key}
      ensures Rest() == old(Rest()) && lastApplied == index
    {
      SetData(engine.content, key, value);
      engine.content := engine.content[DataKey(key) := value];
      lastApplied := index;
    }

    method ApplyDelete(index: nat, key: Key)
      modifies this, engine
      ensures key !in Pairs() && Pairs() == old(Pairs()) - {key}
      ensures Rest() == old(Rest()) && lastApplied == index
    {
      DropData(engine.content, key);
      engine.content := engine.content - {DataKey(key)};
      lastApplied := index;
    }

    method ApplyNoop(index: nat)
      modifies this
      ensures Pairs() == old(Pairs()) && Rest() == old(Rest()) && lastApplied == index
    {
      lastApplied := index;
    }

    /** The keys between the data prefix and its upper bound are the data keys. */
    method DataKeys() returns (keys: set<Key>)
      ensures keys == set dk | dk in engine.content && IsData(dk)
    {
      var upper := PrefixUpperBound(DATA_PREFIX);
      keys := engine.KeysIn(DATA_PREFIX, upper);
      forall k ensures InRange(k, DATA_PREFIX, upper) <==> IsData(k) {
        PrefixRange(k, DATA_PREFIX);
      }
    }

    /** Dump reads out exactly the user map. */
    method Dump() returns (snap: Store)
      ensures snap == Pairs()
    {
      hide IsData;
      var keys := DataKeys();
      snap := map[];
      ghost var all := keys;
      while keys != {}
        invariant keys <= all
        invariant forall k :: k in snap <==> DataKey(k) in all - keys
        invariant forall k | k in snap :: snap[k] == engine.content[DataKey(k)]
        decreases keys
      {
        var dk :| dk in keys;
        OnlyKey(dk);
        snap := snap[dk[|DATA_PREFIX|..] := engine.content[dk]];
        keys := keys - {dk};
      }
      UserMapIs(engine.content);
      forall k ensures IsData(DataKey(k)) {
        DataKeyInverse(k, []);
      }
    }

    /** Restore replaces the user map by the snapshot, in one batch, and leaves every other key alone. */
    method Restore(snap: Store, appliedIndex: nat)
      modifies this, engine
      ensures Pairs() == snap && Rest() == old(Rest()) && lastApplied == appliedIndex
    {
      var batch := engine.content;
      var keys := DataKeys();
      while keys != {}
        invariant forall dk | dk in keys :: dk in batch && IsData(dk)
        invariant forall dk | dk in batch && IsData(dk) :: dk in keys
        invariant Others(batch) == Others(engine.content)
        decreases keys
      {
        var dk :| dk in keys;
        batch := batch - {dk};
        keys := keys - {dk};
      }
      batch := SetPairs(batch, snap);
      engine.content := batch;
      lastApplied := appliedIndex;
    }
  }

  lemma OnlyKey(dk: Key)
    requires IsData(dk)
    ensures |dk| >= |DATA_PREFIX| && forall k :: DataKey(k) == dk <==> k == dk[|DATA_PREFIX|..]
  {
    forall k ensures DataKey(k) == dk <==> k == dk[2..] {
      DataKeyInverse(k, dk);
    }
  }

  method SetPairs(start: Store, pairs: Store) returns (batch: Store)
    requires forall dk | dk in start :: !IsData(dk)
    ensures UserMap(batch) == pairs && Others(batch) == Others(start)
  {
    hide UserMap, Others, IsData, DataKey, Part;
    batch := start;
    var keys := pairs.Keys;
    NoPairs(start);
    PartEnds(pairs);
    while keys != {}
      invariant keys <= pairs.Keys
      invariant UserMap(batch) == Part(pairs, keys)
      invariant Others(batch) == Others(start)
      decreases keys
    {
      var k :| k in keys;
      SetData(batch, k, pairs[k]);
      PartGrows(pairs, keys, k);
      batch := batch[DataKey(k) := pairs[k]];
      keys := keys - {k};
    }
  }

  lemma PartGrows(pairs: Store, todo: set<Key>, k: Key)
    requires k in todo && k in pairs
    ensures Part(pairs, todo - {k}) == Part(pairs, todo)[k := pairs[k]]
  {
  }

  lemma PartEnds(pairs: Store)
    ensures Part(pairs, pairs.Keys) == map[] && Part(pairs, {}) == pairs
  {
  }

  /** The pairs whose keys are done. */
  function Part(pairs: Store, todo: set<Key>): Store {
    map k | k in pairs && k !in todo :: pairs[k]
  }

  lemma NoPairs(content: Store)
    requires forall dk | dk in content :: !IsData(dk)
    ensures UserMap(content) == map[]
  {
    UserMapIs(content);
    forall k ensures k !in UserMap(content) {
      DataKeyInverse(k, []);
    }
  }

  /** Restore after Dump: whatever happened in between, the dumped user map is back and nothing else moved. */
  method DumpThenRestore(sm: StateMachine, later: Store, index: nat)
    modifies sm, sm.engine
    ensures UserMap(sm.engine.content) == old(UserMap(sm.engine.content))
    ensures Others(sm.engine.content) == Others(later)
    ensures Others(later) == old(Others(sm.engine.content)) ==> sm.engine.content == old(sm.engine.content)
  {
    var snap := sm.Dump();
    sm.engine.content := later;
    sm.Restore(snap, index);
    if Others(later) == old(Others(sm.engine.content)) {
      Whole(sm.engine.content, old(sm.engine.content));
    }
  }
}
