/** The bounded cache of telemirror/misc/lrucache.py. Entries are kept in order, oldest first. */
module LruCache {
  import opened Text

  datatype Entry<V> = Entry(key: string, value: V)

  predicate DistinctKeys<V>(es: seq<Entry<V>>) {
    forall i, k :: 0 <= i < k < |es| ==> es[i].key != es[k].key
  }

  function Find<V>(es: seq<Entry<V>>, key: string): Option<V> {
    if es == [] then None
    else if es[|es| - 1].key == key then Some(es[|es| - 1].value)
    else Find(es[..|es| - 1], key)
  }

  function Without<V>(es: seq<Entry<V>>, key: string): seq<Entry<V>> {
    if es == [] then []
    else Without(es[..|es| - 1], key) + if es[|es| - 1].key == key then [] else [es[|es| - 1]]
  }

  function Replaced<V>(es: seq<Entry<V>>, key: string, value: V): seq<Entry<V>> {
    if es == [] then []
    else Replaced(es[..|es| - 1], key, value)
         + [if es[|es| - 1].key == key then Entry(key, value) else es[|es| - 1]]
  }

  /** How many entries a purge leaves. */
  function Kept(n: nat, keepLast: real): (m: nat)
    requires keepLast >= 0.0
    ensures m <= n
  {
    if n as real <= keepLast then n else keepLast.Floor
  }

  function Put<V>(es: seq<Entry<V>>, key: string, value: V, capacity: nat, keepLast: real): seq<Entry<V>>
    requires keepLast >= 0.0
  {
    var put := Moved(es, key, value);
    if |put| > capacity then put[|put| - Kept(|put|, keepLast)..] else put
  }

  lemma {:induction false} WithoutFacts<V>(es: seq<Entry<V>>, key: string)
    requires DistinctKeys(es)
    ensures DistinctKeys(Without(es, key))
    ensures forall i :: 0 <= i < |Without(es, key)| ==> Without(es, key)[i].key != key && Without(es, key)[i] in es
    ensures |Without(es, key)| == if Find(es, key).Some? then |es| - 1 else |es|
  {
    if es != [] {
      var front, last := es[..|es| - 1], es[|es| - 1];
      WithoutFacts(front, key);
      var rest := Without(front, key);
      if last.key != key {
        forall i | 0 <= i < |rest|
          ensures rest[i].key != last.key
        {
          assert rest[i] in front;
        }
      } else {
        FindAbsent(front, key);
      }
    }
  }

  lemma {:induction false} WithoutFind<V>(es: seq<Entry<V>>, key: string, k: string)
    ensures Find(Without(es, key), k) == if k == key then None else Find(es, k)
  {
    if es != [] {
      var front, last := es[..|es| - 1], es[|es| - 1];
      WithoutFind(front, key, k);
      var rest := Without(front, key);
      if last.key != key {
        assert Without(es, key) == rest + [last];
        assert (rest + [last])[..|rest|] == rest;
      } else {
        assert Without(es, key) == rest;
      }
    }
  }

  lemma {:induction false} FindAbsent<V>(es: seq<Entry<V>>, key: string)
    requires forall i :: 0 <= i < |es| ==> es[i].key != key
    ensures Find(es, key).None?
  {
    if es != [] {
      FindAbsent(es[..|es| - 1], key);
    }
  }

  lemma {:induction false} FindPresent<V>(es: seq<Entry<V>>, i: int)
    requires DistinctKeys(es) && 0 <= i < |es|
    ensures Find(es, es[i].key) == Some(es[i].value)
  {
    if i < |es| - 1 {
      FindPresent(es[..|es| - 1], i);
    }
  }

  lemma {:induction false} FoundSomewhere<V>(es: seq<Entry<V>>, key: string) returns (i: int)
    requires Find(es, key).Some?
    ensures 0 <= i < |es| && es[i] == Entry(key, Find(es, key).value)
  {
    if es[|es| - 1].key == key {
      i := |es| - 1;
    } else {
      i := FoundSomewhere(es[..|es| - 1], key);
    }
  }

  lemma {:induction false} ReplacedFacts<V>(es: seq<Entry<V>>, key: string, value: V)
    requires DistinctKeys(es)
    ensures |Replaced(es, key, value)| == |es|
    ensures forall i :: 0 <= i < |es| ==> Replaced(es, key, value)[i].key == es[i].key
    ensures forall k ::
              Find(Replaced(es, key, value), k) == if k == key && Find(es, k).Some? then Some(value) else Find(es, k)
  {
    if es != [] {
      var front := es[..|es| - 1];
      ReplacedFacts(front, key, value);
      assert Replaced(es, key, value)[..|es| - 1] == Replaced(front, key, value);
    }
  }

  /** A purged tail keeps its own entries and forgets the rest. */
  lemma {:induction false} TailFind<V>(es: seq<Entry<V>>, n: nat, key: string)
    requires DistinctKeys(es) && n <= |es|
    ensures DistinctKeys(es[n..])
    ensures Find(es[n..], key).Some? ==> Find(es[n..], key) == Find(es, key)
  {
    if Find(es[n..], key).Some? {
      var i := FoundSomewhere(es[n..], key);
      FindPresent(es, n + i);
    }
  }

  /** Moving a key to the end with a new value. */
  function Moved<V>(es: seq<Entry<V>>, key: string, value: V): seq<Entry<V>> {
    Without(es, key) + [Entry(key, value)]
  }

  lemma MovedFacts<V>(es: seq<Entry<V>>, key: string, value: V)
    requires DistinctKeys(es)
    ensures DistinctKeys(Moved(es, key, value))
    ensures |Moved(es, key, value)| == if Find(es, key).Some? then |es| else |es| + 1
    ensures forall k :: Find(Moved(es, key, value), k) == if k == key then Some(value) else Find(es, k)
  {
    WithoutFacts(es, key);
    assert Moved(es, key, value)[..|Without(es, key)|] == Without(es, key);
    forall k
      ensures Find(Moved(es, key, value), k) == if k == key then Some(value) else Find(es, k)
    {
      WithoutFind(es, key, k);
    }
  }

  predicate ProperCache<V>(es: seq<Entry<V>>, capacity: nat, keepLast: real) {
    DistinctKeys(es) && |es| <= capacity && 1.0 <= keepLast <= capacity as real
  }

  /** Inserting keeps the cache within capacity and leaves the key just put as the newest, purge or not. */
  lemma PutKeepsNewest<V>(es: seq<Entry<V>>, key: string, value: V, capacity: nat, keepLast: real)
    requires ProperCache(es, capacity, keepLast)
    ensures ProperCache(Put(es, key, value, capacity, keepLast), capacity, keepLast)
    ensures Put(es, key, value, capacity, keepLast) != []
    ensures Put(es, key, value, capacity, keepLast)[|Put(es, key, value, capacity, keepLast)| - 1] == Entry(key, value)
  {
    MovedFacts(es, key, value);
    var put := Moved(es, key, value);
    if |put| > capacity {
      var kept := Kept(|put|, keepLast);
      assert put[|put| - kept..][kept - 1] == put[|put| - 1];
    }
  }

  /** Any other key is as before or forgotten, and forgotten only when a new key overflows the cache. */
  lemma PutFind<V>(es: seq<Entry<V>>, key: string, value: V, capacity: nat, keepLast: real, k: string)
    requires ProperCache(es, capacity, keepLast)
    ensures k == key ==> Find(Put(es, key, value, capacity, keepLast), k) == Some(value)
    ensures k != key ==> Find(Put(es, key, value, capacity, keepLast), k) in {Find(es, k), None}
    ensures k != key && (Find(es, key).Some? || |es| < capacity) ==>
              Find(Put(es, key, value, capacity, keepLast), k) == Find(es, k)
  {
    MovedFacts(es, key, value);
    var put := Moved(es, key, value);
    if |put| > capacity {
      TailFind(put, |put| - Kept(|put|, keepLast), k);
      PutKeepsNewest(es, key, value, capacity, keepLast);
    }
  }

  /** How many entries there are after an insert: one that overflows the cache leaves floor(keep_last) of them. */
  lemma PutSize<V>(es: seq<Entry<V>>, key: string, value: V, capacity: nat, keepLast: real)
    requires ProperCache(es, capacity, keepLast)
    ensures |Put(es, key, value, capacity, keepLast)|
         == if Find(es, key).Some? then |es| else if |es| < capacity then |es| + 1 else keepLast.Floor
  {
    MovedFacts(es, key, value);
  }

  // ---------- who is newer ----------

  /** The key has an entry, and only these keys have newer ones. */
  ghost predicate NewerAre<V>(es: seq<Entry<V>>, key: string, keys: set<string>) {
    exists i :: HasNewer(es, key, keys, i)
  }

  predicate HasNewer<V>(es: seq<Entry<V>>, key: string, keys: set<string>, i: int) {
    0 <= i < |es| && es[i].key == key && forall k :: i < k < |es| ==> es[k].key in keys
  }

  lemma NewerIsFound<V>(es: seq<Entry<V>>, key: string, keys: set<string>)
    requires DistinctKeys(es) && NewerAre(es, key, keys)
    ensures Find(es, key).Some?
  {
    var i :| HasNewer(es, key, keys, i);
    FindPresent(es, i);
  }

  lemma {:induction false} FewNewer<V>(es: seq<Entry<V>>, i: int, keys: set<string>)
    requires DistinctKeys(es) && 0 <= i < |es| && forall k :: i < k < |es| ==> es[k].key in keys
    ensures |es| - 1 - i <= |keys|
    decreases |es|
  {
    if i < |es| - 1 {
      var last := es[|es| - 1].key;
      FewNewer(es[..|es| - 1], i, keys - {last});
    }
  }

  lemma {:induction false} NewerWithout<V>(es: seq<Entry<V>>, gone: string, key: string, keys: set<string>)
    requires gone != key && NewerAre(es, key, keys)
    ensures NewerAre(Without(es, gone), key, keys)
  {
    var i :| HasNewer(es, key, keys, i);
    var front, last := es[..|es| - 1], es[|es| - 1];
    if i == |es| - 1 {
      var rest := Without(front, gone);
      assert Without(es, gone) == rest + [last];
      assert HasNewer(Without(es, gone), key, keys, |rest|);
    } else {
      assert HasNewer(front, key, keys, i);
      NewerWithout(front, gone, key, keys);
      var j :| HasNewer(Without(front, gone), key, keys, j);
      assert HasNewer(Without(es, gone), key, keys, j);
    }
  }

  /** Moving or putting another key adds it to the newer ones, and a purge forgets no key with few enough newer ones. */
  lemma NewerMoved<V>(es: seq<Entry<V>>, moved: string, value: V, key: string, keys: set<string>)
    requires moved != key && NewerAre(es, key, keys)
    ensures NewerAre(Moved(es, moved, value), key, keys + {moved})
  {
    NewerWithout(es, moved, key, keys);
    var i :| HasNewer(Without(es, moved), key, keys, i);
    assert HasNewer(Moved(es, moved, value), key, keys + {moved}, i);
  }

  lemma NewerTouched<V>(es: seq<Entry<V>>, moved: string, default: V, capacity: nat, keepLast: real, key: string,
                        keys: set<string>)
    requires ProperCache(es, capacity, keepLast) && moved != key && NewerAre(es, key, keys)
    requires |keys + {moved}| < keepLast.Floor
    ensures NewerAre(Touched(es, moved, default, capacity, keepLast), key, keys + {moved})
  {
    NewerMoved(es, moved, default, key, keys);
    MovedFacts(es, moved, default);
    if Find(es, moved).Some? {
      NewerMoved(es, moved, Find(es, moved).value, key, keys);
    } else {
      var put := Moved(es, moved, default);
      if |put| > capacity {
        var i :| HasNewer(put, key, keys + {moved}, i);
        var cut := |put| - Kept(|put|, keepLast);
        FewNewer(put, i, keys + {moved});
        assert HasNewer(put[cut..], key, keys + {moved}, i - cut);
      }
    }
  }

  lemma NewerReplaced<V>(es: seq<Entry<V>>, other: string, value: V, key: string, keys: set<string>)
    requires DistinctKeys(es) && NewerAre(es, key, keys)
    ensures NewerAre(Replaced(es, other, value), key, keys)
  {
    ReplacedFacts(es, other, value);
    var i :| HasNewer(es, key, keys, i);
    assert HasNewer(Replaced(es, other, value), key, keys, i);
  }

  class Cache<V> {
    var entries: seq<Entry<V>>
    const capacity: nat
    const keepLast: real

    ghost predicate Valid()
      reads this
    {
      ProperCache(entries, capacity, keepLast)
    }

    constructor (capacity: nat, freeFactor: real)
      requires capacity > 0 && 0.1 < freeFactor <= 1.0
      ensures Valid() && entries == [] && this.capacity == capacity
      ensures var keep := capacity as real * (1.0 - freeFactor); keepLast == if keep <= 1.0 then 1.0 else keep
    {
      this.capacity := capacity;
      var keep := capacity as real * (1.0 - freeFactor);
      keepLast := if keep <= 1.0 then 1.0 else keep;
      entries := [];
      new;
      assert keep <= capacity as real by {
        assert capacity as real * freeFactor >= 0.0;
      }
    }

    /** __setitem__ with the purge loop. */
    method SetItem(key: string, value: V)
      requires Valid()
      modifies this
      ensures Valid() && entries == Put(old(entries), key, value, capacity, keepLast)
    {
      PutKeepsNewest(entries, key, value, capacity, keepLast);
      entries := Moved(entries, key, value);
      ghost var put := entries;
      if |entries| > capacity {
        while |entries| as real > keepLast
          invariant |entries| <= |put| && entries == put[|put| - |entries|..]
          invariant |entries| as real > keepLast - 1.0
          decreases |entries|
        {
          entries := entries[1..];
        }
        assert |entries| == Kept(|put|, keepLast);
      }
    }

    /** __getitem__: the key becomes the newest; no key is lost and none changes its value. */
    method GetItem(key: string) returns (value: V)
      requires Valid() && Find(entries, key).Some?
      modifies this
      ensures Valid() && Find(old(entries), key) == Some(value)
      ensures entries == Moved(old(entries), key, value)
      ensures |entries| == |old(entries)| && entries[|entries| - 1] == Entry(key, value)
      ensures forall k :: Find(entries, k) == Find(old(entries), k)
    {
      value := Find(entries, key).value;
      MovedFacts(entries, key, value);
      entries := Moved(entries, key, value);
    }

    /** setdefault goes through the two methods above. */
    method SetDefault(key: string, default: V) returns (value: V)
      requires Valid()
      modifies this
      ensures Valid()
      ensures value == if Find(old(entries), key).Some? then Find(old(entries), key).value else default
      ensures entries == Touched(old(entries), key, default, capacity, keepLast)
    {
      if Find(entries, key).Some? {
        value := GetItem(key);
      } else {
        SetItem(key, default);
        value := default;
      }
    }

    /** Changing the stored object in place: no key moves, and only this key's value changes. */
    method Store(key: string, value: V)
      requires Valid()
      modifies this
      ensures Valid() && entries == Replaced(old(entries), key, value)
      ensures |entries| == |old(entries)| && forall i :: 0 <= i < |entries| ==> entries[i].key == old(entries)[i].key
      ensures forall k ::
                Find(entries, k)
                == if k == key && Find(old(entries), k).Some? then Some(value) else Find(old(entries), k)
    {
      ReplacedFacts(entries, key, value);
      entries := Replaced(entries, key, value);
    }

    /** The key is gone; every other key keeps its value, and the room of the key is free. */
    method Pop(key: string)
      requires Valid()
      modifies this
      ensures Valid() && entries == Without(old(entries), key)
      ensures forall k :: Find(entries, k) == if k == key then None else Find(old(entries), k)
      ensures |entries| == if Find(old(entries), key).Some? then |old(entries)| - 1 else |old(entries)|
    {
      WithoutFacts(entries, key);
      forall k
        ensures Find(Without(entries, key), k) == if k == key then None else Find(entries, k)
      {
        WithoutFind(entries, key, k);
      }
      entries := Without(entries, key);
    }
  }

  function Touched<V>(es: seq<Entry<V>>, key: string, default: V, capacity: nat, keepLast: real): seq<Entry<V>>
    requires keepLast >= 0.0
  {
    if Find(es, key).Some? then Moved(es, key, Find(es, key).value) else Put(es, key, default, capacity, keepLast)
  }
}

/** The in-memory mirror-id database against the SQL one (telemirror/storage.py). */
module MirrorStore {
  import opened Text
  import opened LruCache

  datatype MirrorMessage = MirrorMessage(originalId: int, originalChannel: int, mirrorId: int, mirrorChannel: int)

  /** Original id and channel. */
  datatype Original = Original(id: int, channel: int)

  function OriginalOf(e: MirrorMessage): Original {
    Original(e.originalId, e.originalChannel)
  }

  function MessageKey(o: Original): string {
    IntText(o.channel) + ":" + IntText(o.id)
  }

  lemma MessageKeyInjective(o: Original, p: Original)
    ensures MessageKey(o) == MessageKey(p) <==> o == p
  {
    if MessageKey(o) == MessageKey(p) {
      SplitFirst(IntText(o.channel), IntText(o.id), IntText(p.channel), IntText(p.id));
      IntTextInjective(o.channel, p.channel);
      IntTextInjective(o.id, p.id);
    }
  }

  type Entries = seq<Entry<seq<MirrorMessage>>>

  /** InMemoryDatabase.get_messages. */
  function Stored(es: Entries, o: Original): seq<MirrorMessage> {
    var found := Find(es, MessageKey(o));
    if found.None? then [] else found.value
  }

  function Inserted(es: Entries, e: MirrorMessage, capacity: nat, keepLast: real): Entries
    requires keepLast >= 0.0
  {
    var key := MessageKey(OriginalOf(e));
    Replaced(Touched(es, key, [], capacity, keepLast), key, Stored(es, OriginalOf(e)) + [e])
  }

  function Deleted(es: Entries, o: Original): Entries {
    Without(es, MessageKey(o))
  }

  // ---------- the unbounded store ----------

  datatype Op = Insert(e: MirrorMessage) | Lookup(o: Original) | Delete(o: Original)

  function StepBounded(es: Entries, op: Op, capacity: nat, keepLast: real): Entries
    requires keepLast >= 0.0
  {
    match op
    case Insert(e) => Inserted(es, e, capacity, keepLast)
    case Lookup(_) => es
    case Delete(o) => Deleted(es, o)
  }

  function RunBounded(es: Entries, ops: seq<Op>, capacity: nat, keepLast: real): Entries
    requires keepLast >= 0.0
  {
    if ops == [] then es
    else StepBounded(RunBounded(es, ops[..|ops| - 1], capacity, keepLast), ops[|ops| - 1], capacity, keepLast)
  }

  /** A batch insert is the inserts of its messages in order. */
  function Inserts(batch: seq<MirrorMessage>): seq<Op> {
    if batch == [] then [] else Inserts(batch[..|batch| - 1]) + [Op.Insert(batch[|batch| - 1])]
  }

  lemma InsertsPush(history: seq<Op>, batch: seq<MirrorMessage>, n: nat)
    requires n < |batch|
    ensures history + Inserts(batch[..n + 1]) == history + Inserts(batch[..n]) + [Op.Insert(batch[n])]
  {
    assert batch[..n + 1][..n] == batch[..n];
    assert Inserts(batch[..n + 1]) == Inserts(batch[..n]) + [Op.Insert(batch[n])];
  }

  /** The rows of the SQL table that a select by original returns. */
  function Selected(table: seq<MirrorMessage>, o: Original): seq<MirrorMessage> {
    if table == [] then []
    else Selected(table[..|table| - 1], o) + if OriginalOf(table[|table| - 1]) == o then [table[|table| - 1]] else []
  }

  function DeletedRows(table: seq<MirrorMessage>, o: Original): seq<MirrorMessage> {
    if table == [] then []
    else DeletedRows(table[..|table| - 1], o) + if OriginalOf(table[|table| - 1]) == o then [] else [table[|table| - 1]]
  }

  function StepSql(table: seq<MirrorMessage>, op: Op): seq<MirrorMessage> {
    match op
    case Insert(e) => table + [e]
    case Lookup(_) => table
    case Delete(o) => DeletedRows(table, o)
  }

  function RunSql(ops: seq<Op>): seq<MirrorMessage> {
    if ops == [] then [] else StepSql(RunSql(ops[..|ops| - 1]), ops[|ops| - 1])
  }

  lemma {:induction false} SelectedAfterDelete(table: seq<MirrorMessage>, o: Original, p: Original)
    ensures Selected(DeletedRows(table, o), p) == if p == o then [] else Selected(table, p)
  {
    if table != [] {
      var front, last := table[..|table| - 1], table[|table| - 1];
      SelectedAfterDelete(front, o, p);
      if OriginalOf(last) != o {
        assert (DeletedRows(front, o) + [last])[..|DeletedRows(front, o)|] == DeletedRows(front, o);
      } else {
        assert DeletedRows(table, o) == DeletedRows(front, o);
      }
    }
  }

  predicate IsSuffix(xs: seq<MirrorMessage>, ys: seq<MirrorMessage>) {
    |xs| <= |ys| && xs == ys[|ys| - |xs|..]
  }

  lemma InsertKeepsProper(es: Entries, e: MirrorMessage, capacity: nat, keepLast: real)
    requires ProperCache(es, capacity, keepLast)
    ensures ProperCache(Inserted(es, e, capacity, keepLast), capacity, keepLast)
  {
    var key := MessageKey(OriginalOf(e));
    MovedFacts(es, key, Stored(es, OriginalOf(e)));
    PutKeepsNewest(es, key, [], capacity, keepLast);
    ReplacedFacts(Touched(es, key, [], capacity, keepLast), key, Stored(es, OriginalOf(e)) + [e]);
  }

  /** An insert appends under its own original; another original keeps its messages or, on overflow, loses them. */
  lemma {:induction false} InsertStored(es: Entries, e: MirrorMessage, capacity: nat, keepLast: real, o: Original)
    requires ProperCache(es, capacity, keepLast)
    ensures o == OriginalOf(e) ==> Stored(Inserted(es, e, capacity, keepLast), o) == Stored(es, o) + [e]
    ensures o != OriginalOf(e) ==> Stored(Inserted(es, e, capacity, keepLast), o) in {Stored(es, o), []}
    ensures o != OriginalOf(e) && (Find(es, MessageKey(OriginalOf(e))).Some? || |es| < capacity) ==>
              Find(Inserted(es, e, capacity, keepLast), MessageKey(o)) == Find(es, MessageKey(o))
  {
    var key := MessageKey(OriginalOf(e));
    MovedFacts(es, key, Stored(es, OriginalOf(e)));
    PutKeepsNewest(es, key, [], capacity, keepLast);
    PutFind(es, key, [], capacity, keepLast, MessageKey(o));
    MessageKeyInjective(o, OriginalOf(e));
    ReplacedFacts(Touched(es, key, [], capacity, keepLast), key, Stored(es, OriginalOf(e)) + [e]);
  }

  lemma DeleteStored(es: Entries, p: Original, o: Original)
    requires DistinctKeys(es)
    ensures Stored(Deleted(es, p), o) == if o == p then [] else Stored(es, o)
  {
    WithoutFind(es, MessageKey(p), MessageKey(o));
    MessageKeyInjective(o, p);
  }

  lemma StepKeepsProper(es: Entries, op: Op, capacity: nat, keepLast: real)
    requires ProperCache(es, capacity, keepLast)
    ensures ProperCache(StepBounded(es, op, capacity, keepLast), capacity, keepLast)
  {
    match op
    case Insert(e) => InsertKeepsProper(es, e, capacity, keepLast);
    case Lookup(_) =>
    case Delete(p) => WithoutFacts(es, MessageKey(p));
  }

  /** Over every history the cache never exceeds its capacity. */
  lemma {:induction false} NeverOverCapacity(ops: seq<Op>, capacity: nat, keepLast: real)
    requires 1.0 <= keepLast <= capacity as real
    ensures ProperCache(RunBounded([], ops, capacity, keepLast), capacity, keepLast)
  {
    if ops != [] {
      var front := ops[..|ops| - 1];
      NeverOverCapacity(front, capacity, keepLast);
      StepKeepsProper(RunBounded([], front, capacity, keepLast), ops[|ops| - 1], capacity, keepLast);
    }
  }

  /** The message just inserted is always there to be looked up, whatever the insert purged. */
  lemma JustInsertedIsFound(ops: seq<Op>, e: MirrorMessage, capacity: nat, keepLast: real)
    requires 1.0 <= keepLast <= capacity as real
    ensures e in Stored(RunBounded([], ops + [Op.Insert(e)], capacity, keepLast), OriginalOf(e))
  {
    NeverOverCapacity(ops, capacity, keepLast);
    assert (ops + [Op.Insert(e)])[..|ops|] == ops;
    InsertStored(RunBounded([], ops, capacity, keepLast), e, capacity, keepLast, OriginalOf(e));
  }

  lemma StepSelected(table: seq<MirrorMessage>, op: Op, o: Original)
    ensures op.Insert? ==>
              Selected(StepSql(table, op), o) == Selected(table, o) + if OriginalOf(op.e) == o then [op.e] else []
    ensures op.Delete? ==> Selected(StepSql(table, op), o) == if op.o == o then [] else Selected(table, o)
  {
    match op
    case Insert(e) => assert (table + [e])[..|table|] == table;
    case Lookup(_) =>
    case Delete(p) => SelectedAfterDelete(table, p, o);
  }

  lemma {:induction false} SuffixAfter(before: seq<MirrorMessage>, rows: seq<MirrorMessage>,
                                       after: seq<MirrorMessage>, e: MirrorMessage, own: bool)
    requires IsSuffix(before, rows)
    requires if own then after == before + [e] else after == before || after == []
    ensures IsSuffix(after, rows + if own then [e] else [])
  {
    assert rows + [] == rows;
  }

  lemma {:induction false} DeleteKeepsSuffix(es: Entries, table: seq<MirrorMessage>, p: Original, o: Original)
    requires DistinctKeys(es) && IsSuffix(Stored(es, o), Selected(table, o))
    ensures IsSuffix(Stored(Deleted(es, p), o), Selected(DeletedRows(table, p), o))
  {
    SelectedAfterDelete(table, p, o);
    DeleteStored(es, p, o);
  }

  lemma {:induction false} StepKeepsSuffix(es: Entries, table: seq<MirrorMessage>, op: Op, capacity: nat,
                                           keepLast: real, o: Original)
    requires ProperCache(es, capacity, keepLast) && IsSuffix(Stored(es, o), Selected(table, o))
    ensures IsSuffix(Stored(StepBounded(es, op, capacity, keepLast), o), Selected(StepSql(table, op), o))
  {
    match op
    case Insert(e) =>
      StepSelected(table, op, o);
      InsertStored(es, e, capacity, keepLast, o);
      SuffixAfter(Stored(es, o), Selected(table, o), Stored(StepBounded(es, op, capacity, keepLast), o), e,
                  OriginalOf(e) == o);
    case Lookup(_) =>
    case Delete(p) => DeleteKeepsSuffix(es, table, p, o);
  }

  /** Over every history, what the cache returns for an original is a suffix of what the unbounded table returns. */
  lemma {:induction false} BoundedIsSuffix(ops: seq<Op>, capacity: nat, keepLast: real, o: Original)
    requires 1.0 <= keepLast <= capacity as real
    ensures IsSuffix(Stored(RunBounded([], ops, capacity, keepLast), o), Selected(RunSql(ops), o))
  {
    if ops != [] {
      var front := ops[..|ops| - 1];
      BoundedIsSuffix(front, capacity, keepLast, o);
      NeverOverCapacity(front, capacity, keepLast);
      StepKeepsSuffix(RunBounded([], front, capacity, keepLast), RunSql(front), ops[|ops| - 1], capacity, keepLast, o);
    }
  }

  // ---------- what is never forgotten ----------

  /** The operation neither inserts for the original nor deletes it. */
  predicate Leaves(op: Op, o: Original) {
    match op
    case Insert(e) => OriginalOf(e) != o
    case Lookup(_) => true
    case Delete(p) => p != o
  }

  function InsertedOriginals(ops: seq<Op>): set<Original> {
    set i | 0 <= i < |ops| && ops[i].Insert? :: OriginalOf(ops[i].e)
  }

  function KeysOfAll(os: set<Original>): set<string> {
    set o | o in os :: MessageKey(o)
  }

  lemma {:induction false} KeyCount(os: set<Original>)
    ensures |KeysOfAll(os)| == |os|
  {
    if os != {} {
      var o :| o in os;
      KeyCount(os - {o});
      forall p | p in os - {o}
        ensures MessageKey(p) != MessageKey(o)
      {
        MessageKeyInjective(p, o);
      }
      assert KeysOfAll(os) == KeysOfAll(os - {o}) + {MessageKey(o)};
    } else {
      assert KeysOfAll(os) == {};
    }
  }

  lemma InsertedPush(ops: seq<Op>, op: Op)
    ensures InsertedOriginals(ops + [op]) == InsertedOriginals(ops) + if op.Insert? then {OriginalOf(op.e)} else {}
  {
    var all := ops + [op];
    forall o | o in InsertedOriginals(ops)
      ensures o in InsertedOriginals(all)
    {
      var i :| 0 <= i < |ops| && ops[i].Insert? && OriginalOf(ops[i].e) == o;
      assert all[i] == ops[i];
    }
    if op.Insert? {
      assert all[|ops|] == op;
    }
  }

  /** One operation on other originals: the entry stays, with its value, as long as few enough others are newer. */
  lemma StepRetains(es: Entries, op: Op, capacity: nat, keepLast: real, o: Original, newer: set<Original>)
    requires ProperCache(es, capacity, keepLast) && Leaves(op, o)
    requires NewerAre(es, MessageKey(o), KeysOfAll(newer))
    requires op.Insert? ==> |newer + {OriginalOf(op.e)}| < keepLast.Floor
    ensures var after := newer + if op.Insert? then {OriginalOf(op.e)} else {};
            NewerAre(StepBounded(es, op, capacity, keepLast), MessageKey(o), KeysOfAll(after))
    ensures Find(StepBounded(es, op, capacity, keepLast), MessageKey(o)) == Find(es, MessageKey(o))
  {
    var key := MessageKey(o);
    match op
    case Insert(e) => InsertRetains(es, e, capacity, keepLast, o, newer);
    case Lookup(_) => assert newer + {} == newer;
    case Delete(p) =>
      assert newer + {} == newer;
      MessageKeyInjective(o, p);
      NewerWithout(es, MessageKey(p), key, KeysOfAll(newer));
      WithoutFind(es, MessageKey(p), key);
  }

  lemma InsertRetains(es: Entries, e: MirrorMessage, capacity: nat, keepLast: real, o: Original, newer: set<Original>)
    requires ProperCache(es, capacity, keepLast) && OriginalOf(e) != o
    requires NewerAre(es, MessageKey(o), KeysOfAll(newer)) && |newer + {OriginalOf(e)}| < keepLast.Floor
    ensures NewerAre(Inserted(es, e, capacity, keepLast), MessageKey(o), KeysOfAll(newer + {OriginalOf(e)}))
    ensures Find(Inserted(es, e, capacity, keepLast), MessageKey(o)) == Find(es, MessageKey(o))
  {
    var key, other := MessageKey(o), MessageKey(OriginalOf(e));
    MessageKeyInjective(o, OriginalOf(e));
    KeyCount(newer + {OriginalOf(e)});
    assert KeysOfAll(newer + {OriginalOf(e)}) == KeysOfAll(newer) + {other};
    var touched := Touched(es, other, [], capacity, keepLast);
    NewerTouched(es, other, [], capacity, keepLast, key, KeysOfAll(newer));
    TouchedFind(es, other, capacity, keepLast, key, KeysOfAll(newer) + {other});
    NewerReplaced(touched, other, Stored(es, OriginalOf(e)) + [e], key, KeysOfAll(newer) + {other});
    ReplacedFacts(touched, other, Stored(es, OriginalOf(e)) + [e]);
  }

  lemma TouchedFind(es: Entries, other: string, capacity: nat, keepLast: real, key: string, keys: set<string>)
    requires ProperCache(es, capacity, keepLast) && other != key
    requires NewerAre(Touched(es, other, [], capacity, keepLast), key, keys)
    ensures DistinctKeys(Touched(es, other, [], capacity, keepLast))
    ensures Find(Touched(es, other, [], capacity, keepLast), key) == Find(es, key)
  {
    if Find(es, other).Some? {
      MovedFacts(es, other, Find(es, other).value);
    } else {
      PutKeepsNewest(es, other, [], capacity, keepLast);
      PutFind(es, other, [], capacity, keepLast, key);
      NewerIsFound(Put(es, other, [], capacity, keepLast), key, keys);
    }
  }

  lemma JustInsertedIsNewest(es: Entries, e: MirrorMessage, capacity: nat, keepLast: real)
    requires ProperCache(es, capacity, keepLast)
    ensures NewerAre(Inserted(es, e, capacity, keepLast), MessageKey(OriginalOf(e)), {})
  {
    var key := MessageKey(OriginalOf(e));
    var touched := Touched(es, key, [], capacity, keepLast);
    PutKeepsNewest(es, key, [], capacity, keepLast);
    if Find(es, key).Some? {
      MovedFacts(es, key, Find(es, key).value);
    }
    assert HasNewer(touched, key, {}, |touched| - 1);
    NewerReplaced(touched, key, Stored(es, OriginalOf(e)) + [e], key, {});
  }

  /** The entry of o is still there with its value; only originals inserted later have newer entries. */
  ghost predicate Retains(first: Entries, now: Entries, o: Original, later: seq<Op>) {
    && NewerAre(now, MessageKey(o), KeysOfAll(InsertedOriginals(later)))
    && Find(now, MessageKey(o)) == Find(first, MessageKey(o))
  }

  lemma NothingLater(before: seq<Op>, e: MirrorMessage, capacity: nat, keepLast: real)
    requires 1.0 <= keepLast <= capacity as real
    ensures var first := RunBounded([], before + [Op.Insert(e)], capacity, keepLast);
            Retains(first, first, OriginalOf(e), [])
  {
    NeverOverCapacity(before, capacity, keepLast);
    JustInsertedIsNewest(RunBounded([], before, capacity, keepLast), e, capacity, keepLast);
    assert (before + [Op.Insert(e)])[..|before|] == before;
    assert KeysOfAll(InsertedOriginals([])) == {};
  }

  lemma OneMoreLater(first: Entries, now: Entries, o: Original, later: seq<Op>, op: Op, capacity: nat, keepLast: real)
    requires ProperCache(now, capacity, keepLast) && Leaves(op, o) && Retains(first, now, o, later)
    requires |InsertedOriginals(later + [op])| < keepLast.Floor
    ensures Retains(first, StepBounded(now, op, capacity, keepLast), o, later + [op])
  {
    InsertedPush(later, op);
    StepRetains(now, op, capacity, keepLast, o, InsertedOriginals(later));
  }

  lemma {:induction false} RetainedSince(start: seq<Op>, o: Original, later: seq<Op>, capacity: nat, keepLast: real)
    requires 1.0 <= keepLast <= capacity as real
    requires forall i :: 0 <= i < |later| ==> Leaves(later[i], o)
    requires |InsertedOriginals(later)| < keepLast.Floor
    requires var first := RunBounded([], start, capacity, keepLast); Retains(first, first, o, [])
    ensures Retains(RunBounded([], start, capacity, keepLast), RunBounded([], start + later, capacity, keepLast), o,
                    later)
  {
    if later == [] {
      assert start + [] == start;
    } else {
      var front, last := later[..|later| - 1], later[|later| - 1];
      assert later == front + [last];
      assert (start + later)[..|start + later| - 1] == start + front;
      FewerInserted(front, last);
      RetainedSince(start, o, front, capacity, keepLast);
      NeverOverCapacity(start + front, capacity, keepLast);
      OneMoreLater(RunBounded([], start, capacity, keepLast), RunBounded([], start + front, capacity, keepLast), o,
                   front,
                   last, capacity, keepLast);
    }
  }

  /** Since the last insert for an original it was not deleted, and fewer other originals were inserted than a purge
      keeps: then its messages are all there still. */
  lemma {:induction false} RecentIsRetained(before: seq<Op>, e: MirrorMessage, later: seq<Op>, capacity: nat,
                                            keepLast: real)
    requires 1.0 <= keepLast <= capacity as real
    requires forall i :: 0 <= i < |later| ==> Leaves(later[i], OriginalOf(e))
    requires |InsertedOriginals(later)| < keepLast.Floor
    ensures var first := RunBounded([], before + [Op.Insert(e)], capacity, keepLast);
            var now := RunBounded([], before + [Op.Insert(e)] + later, capacity, keepLast);
            e in Stored(now, OriginalOf(e)) && Stored(now, OriginalOf(e)) == Stored(first, OriginalOf(e))
  {
    NothingLater(before, e, capacity, keepLast);
    RetainedSince(before + [Op.Insert(e)], OriginalOf(e), later, capacity, keepLast);
    JustInsertedIsFound(before, e, capacity, keepLast);
  }

  lemma FewerInserted(ops: seq<Op>, op: Op)
    ensures |InsertedOriginals(ops)| <= |InsertedOriginals(ops + [op])|
  {
    InsertedPush(ops, op);
    if op.Insert? && OriginalOf(op.e) in InsertedOriginals(ops) {
      assert InsertedOriginals(ops + [op]) == InsertedOriginals(ops);
    }
  }

  // ---------- exactly when nothing is ever missing ----------

  /** The originals the unbounded table holds a message for. */
  function Originals(table: seq<MirrorMessage>): set<Original> {
    set i | 0 <= i < |table| :: OriginalOf(table[i])
  }

  lemma {:induction false} SelectedSome(table: seq<MirrorMessage>, o: Original)
    ensures Selected(table, o) != [] <==> o in Originals(table)
  {
    if table != [] {
      var front, last := table[..|table| - 1], table[|table| - 1];
      SelectedSome(front, o);
      OriginalsPush(front, last);
      assert table == front + [last];
    }
  }

  lemma OriginalsPush(table: seq<MirrorMessage>, e: MirrorMessage)
    ensures Originals(table + [e]) == Originals(table) + {OriginalOf(e)}
  {
    var all := table + [e];
    forall o | o in Originals(table) + {OriginalOf(e)}
      ensures o in Originals(all)
    {
      if o == OriginalOf(e) {
        assert all[|table|] == e;
      } else {
        var i :| 0 <= i < |table| && o == OriginalOf(table[i]);
        assert all[i] == table[i];
      }
    }
  }

  lemma OriginalsDelete(table: seq<MirrorMessage>, p: Original)
    ensures Originals(DeletedRows(table, p)) == Originals(table) - {p}
  {
    forall o
      ensures o in Originals(DeletedRows(table, p)) <==> o in Originals(table) - {p}
    {
      SelectedSome(table, o);
      SelectedSome(DeletedRows(table, p), o);
      SelectedAfterDelete(table, p, o);
    }
  }

  predicate SameAt(es: Entries, table: seq<MirrorMessage>, o: Original) {
    Stored(es, o) == Selected(table, o)
  }

  /** The bounded store answers every lookup as the unbounded one does. */
  ghost predicate SameAnswers(es: Entries, table: seq<MirrorMessage>) {
    forall o :: SameAt(es, table, o)
  }

  /** Every entry of the cache belongs to an original of the table, one for one. */
  ghost predicate Mirrors(es: Entries, table: seq<MirrorMessage>) {
    SameAnswers(es, table) && |es| == |Originals(table)|
    && forall o :: Find(es, MessageKey(o)).Some? ==> o in Originals(table)
  }

  lemma {:induction false} StepSameAt(es: Entries, table: seq<MirrorMessage>, op: Op, capacity: nat, keepLast: real,
                                      o: Original)
    requires ProperCache(es, capacity, keepLast) && SameAt(es, table, o)
    requires op.Insert? ==> Find(es, MessageKey(OriginalOf(op.e))).Some? || |es| < capacity
    ensures SameAt(StepBounded(es, op, capacity, keepLast), StepSql(table, op), o)
    ensures op.Insert? && o != OriginalOf(op.e) ==>
              Find(StepBounded(es, op, capacity, keepLast), MessageKey(o)) == Find(es, MessageKey(o))
    ensures op.Delete? ==>
              Find(StepBounded(es, op, capacity, keepLast), MessageKey(o)) ==
                if o == op.o then None else Find(es, MessageKey(o))
  {
    StepSelected(table, op, o);
    match op
    case Insert(e) => InsertStored(es, e, capacity, keepLast, o);
    case Lookup(_) =>
    case Delete(p) =>
      WithoutFind(es, MessageKey(p), MessageKey(o));
      MessageKeyInjective(o, p);
  }

  lemma InsertSize(es: Entries, e: MirrorMessage, capacity: nat, keepLast: real)
    requires ProperCache(es, capacity, keepLast)
    requires Find(es, MessageKey(OriginalOf(e))).Some? || |es| < capacity
    ensures |Inserted(es, e, capacity, keepLast)| ==
            if Find(es, MessageKey(OriginalOf(e))).Some? then |es| else |es| + 1
  {
    var key := MessageKey(OriginalOf(e));
    MovedFacts(es, key, Stored(es, OriginalOf(e)));
    MovedFacts(es, key, []);
    PutKeepsNewest(es, key, [], capacity, keepLast);
    ReplacedFacts(Touched(es, key, [], capacity, keepLast), key, Stored(es, OriginalOf(e)) + [e]);
  }

  /** An original the mirrored table holds has its entry, so only a new original can grow the cache. */
  lemma MirroredHasEntry(es: Entries, table: seq<MirrorMessage>, o: Original)
    requires Mirrors(es, table)
    ensures Find(es, MessageKey(o)).Some? <==> o in Originals(table)
  {
    SelectedSome(table, o);
    assert SameAt(es, table, o);
  }

  lemma StepSizes(es: Entries, table: seq<MirrorMessage>, op: Op, capacity: nat, keepLast: real)
    requires ProperCache(es, capacity, keepLast) && Mirrors(es, table) && |Originals(StepSql(table, op))| <= capacity
    ensures op.Insert? ==> Find(es, MessageKey(OriginalOf(op.e))).Some? || |es| < capacity
    ensures |StepBounded(es, op, capacity, keepLast)| == |Originals(StepSql(table, op))|
  {
    match op
    case Insert(e) =>
      OriginalsPush(table, e);
      MirroredHasEntry(es, table, OriginalOf(e));
      if OriginalOf(e) in Originals(table) {
        assert Originals(table) + {OriginalOf(e)} == Originals(table);
      }
      InsertSize(es, e, capacity, keepLast);
    case Lookup(_) =>
    case Delete(p) =>
      OriginalsDelete(table, p);
      MirroredHasEntry(es, table, p);
      WithoutFacts(es, MessageKey(p));
  }

  lemma {:induction false} StepOriginals(es: Entries, table: seq<MirrorMessage>, op: Op, capacity: nat,
                                         keepLast: real, o: Original)
    requires ProperCache(es, capacity, keepLast) && Mirrors(es, table)
    requires op.Insert? ==> Find(es, MessageKey(OriginalOf(op.e))).Some? || |es| < capacity
    ensures SameAt(StepBounded(es, op, capacity, keepLast), StepSql(table, op), o)
    ensures Find(StepBounded(es, op, capacity, keepLast), MessageKey(o)).Some? ==> o in Originals(StepSql(table, op))
  {
    assert SameAt(es, table, o);
    StepSameAt(es, table, op, capacity, keepLast, o);
    match op
    case Insert(e) => OriginalsPush(table, e);
    case Lookup(_) =>
    case Delete(p) => OriginalsDelete(table, p);
  }

  lemma {:induction false} StepMirrors(es: Entries, table: seq<MirrorMessage>, op: Op, capacity: nat, keepLast: real)
    requires ProperCache(es, capacity, keepLast) && Mirrors(es, table) && |Originals(StepSql(table, op))| <= capacity
    ensures Mirrors(StepBounded(es, op, capacity, keepLast), StepSql(table, op))
  {
    StepSizes(es, table, op, capacity, keepLast);
    forall o
      ensures SameAt(StepBounded(es, op, capacity, keepLast), StepSql(table, op), o)
      ensures Find(StepBounded(es, op, capacity, keepLast), MessageKey(o)).Some? ==> o in Originals(StepSql(table, op))
    {
      StepOriginals(es, table, op, capacity, keepLast, o);
    }
  }

  predicate FitsSoFar(ops: seq<Op>, n: nat, capacity: nat)
    requires n <= |ops|
  {
    |Originals(RunSql(ops[..n]))| <= capacity
  }

  ghost predicate SameSoFar(ops: seq<Op>, n: nat, capacity: nat, keepLast: real)
    requires n <= |ops| && keepLast >= 0.0
  {
    SameAnswers(RunBounded([], ops[..n], capacity, keepLast), RunSql(ops[..n]))
  }

  lemma {:induction false} FittingHistoryMirrors(ops: seq<Op>, n: nat, capacity: nat, keepLast: real)
    requires 1.0 <= keepLast <= capacity as real && n <= |ops|
    requires forall m :: 0 <= m <= n ==> FitsSoFar(ops, m, capacity)
    ensures Mirrors(RunBounded([], ops[..n], capacity, keepLast), RunSql(ops[..n]))
  {
    if n == 0 {
      forall o
        ensures SameAt([], [], o)
      {
      }
    } else {
      FittingHistoryMirrors(ops, n - 1, capacity, keepLast);
      NeverOverCapacity(ops[..n - 1], capacity, keepLast);
      assert ops[..n][..n - 1] == ops[..n - 1];
      assert FitsSoFar(ops, n, capacity);
      StepMirrors(RunBounded([], ops[..n - 1], capacity, keepLast), RunSql(ops[..n - 1]), ops[n - 1], capacity,
                  keepLast);
    }
  }

  /** Originals that all have an entry are at most as many as the entries. */
  lemma {:induction false} EntriesBoundOriginals(es: Entries, os: set<Original>)
    requires forall o :: o in os ==> Find(es, MessageKey(o)).Some?
    ensures |os| <= |es|
  {
    if es == [] {
      assert os == {};
    } else {
      var last := es[|es| - 1];
      if o :| o in os && MessageKey(o) == last.key {
        forall p | p in os - {o}
          ensures Find(es[..|es| - 1], MessageKey(p)).Some?
        {
          MessageKeyInjective(o, p);
        }
        EntriesBoundOriginals(es[..|es| - 1], os - {o});
      } else {
        EntriesBoundOriginals(es[..|es| - 1], os);
      }
    }
  }

  lemma SameAnswersFit(es: Entries, table: seq<MirrorMessage>)
    requires SameAnswers(es, table)
    ensures |Originals(table)| <= |es|
  {
    forall o | o in Originals(table)
      ensures Find(es, MessageKey(o)).Some?
    {
      SelectedSome(table, o);
      assert SameAt(es, table, o);
    }
    EntriesBoundOriginals(es, Originals(table));
  }

  /** The bounded store answers as the unbounded one throughout a history exactly when the history never holds
      messages for more originals than the capacity. */
  lemma SameThroughoutIffFits(ops: seq<Op>, capacity: nat, keepLast: real)
    requires 1.0 <= keepLast <= capacity as real
    ensures (forall n :: 0 <= n <= |ops| ==> SameSoFar(ops, n, capacity, keepLast))
            <==> (forall n :: 0 <= n <= |ops| ==> FitsSoFar(ops, n, capacity))
  {
    if forall n :: 0 <= n <= |ops| ==> FitsSoFar(ops, n, capacity) {
      forall n | 0 <= n <= |ops|
        ensures SameSoFar(ops, n, capacity, keepLast)
      {
        FittingHistoryMirrors(ops, n, capacity, keepLast);
      }
    }
    if forall n :: 0 <= n <= |ops| ==> SameSoFar(ops, n, capacity, keepLast) {
      forall n | 0 <= n <= |ops|
        ensures FitsSoFar(ops, n, capacity)
      {
        assert SameSoFar(ops, n, capacity, keepLast);
        NeverOverCapacity(ops[..n], capacity, keepLast);
        SameAnswersFit(RunBounded([], ops[..n], capacity, keepLast), RunSql(ops[..n]));
      }
    }
  }

  // ---------- the class ----------

  class InMemoryDatabase {
    const storage: Cache<seq<MirrorMessage>>
    ghost var history: seq<Op>

    /** The store is what its history of inserts and deletes makes of an empty one. */
    ghost predicate Valid()
      reads this, storage
    {
      storage.Valid() && storage.entries == RunBounded([], history, storage.capacity, storage.keepLast)
    }

    constructor (maxCapacity: nat)
      requires maxCapacity > 0
      ensures Valid() && fresh(storage) && storage.capacity == maxCapacity && history == []
      ensures storage.keepLast == if maxCapacity <= 2 then 1.0 else maxCapacity as real * 0.5
    {
      storage := new Cache(maxCapacity, 0.5);
      history := [];
    }

    method Insert(e: MirrorMessage)
      requires Valid()
      modifies this`history, storage
      ensures Valid() && history == old(history) + [Op.Insert(e)]
      ensures storage.entries == Inserted(old(storage.entries), e, storage.capacity, storage.keepLast)
    {
      var key := MessageKey(OriginalOf(e));
      var messages := storage.SetDefault(key, []);
      storage.Store(key, messages + [e]);
      history := history + [Op.Insert(e)];
      assert history[..|history| - 1] == old(history);
    }

    method InsertBatch(batch: seq<MirrorMessage>)
      requires Valid()
      modifies this`history, storage
      ensures Valid() && history == old(history) + Inserts(batch)
    {
      for n := 0 to |batch|
        invariant Valid() && history == old(history) + Inserts(batch[..n])
      {
        Insert(batch[n]);
        InsertsPush(old(history), batch, n);
      }
      assert batch[..|batch|] == batch;
    }

    /** The answer is the newest part of what the SQL table of the same history returns - all of it when the history
        never held messages of more originals than the capacity. */
    method GetMessages(o: Original) returns (messages: seq<MirrorMessage>)
      requires Valid()
      ensures messages == Stored(storage.entries, o)
      ensures IsSuffix(messages, Selected(RunSql(history), o))
      ensures (forall n :: 0 <= n <= |history| ==> FitsSoFar(history, n, storage.capacity)) ==>
                messages == Selected(RunSql(history), o)
    {
      var found := Find(storage.entries, MessageKey(o));
      messages := if found.None? then [] else found.value;
      BoundedIsSuffix(history, storage.capacity, storage.keepLast, o);
      if forall n :: 0 <= n <= |history| ==> FitsSoFar(history, n, storage.capacity) {
        FittingHistoryMirrors(history, |history|, storage.capacity, storage.keepLast);
        assert history[..|history|] == history;
        assert SameAt(storage.entries, RunSql(history), o);
      }
    }

    method DeleteMessages(o: Original)
      requires Valid()
      modifies this`history, storage
      ensures Valid() && history == old(history) + [Op.Delete(o)]
      ensures storage.entries == Deleted(old(storage.entries), o)
    {
      storage.Pop(MessageKey(o));
      history := history + [Op.Delete(o)];
      assert history[..|history| - 1] == old(history);
    }
  }
}
