/**
 Which key the LRU cache evicts. `Lru` is what one uninterrupted call after another does to map, queue and size;
 `Stamped` is the reference, a map from keys to values and the time of their last recorded use, with no queue. A use is
 recorded when a key is inserted and when it is found in a full cache.
 */
module LruRecency {
  import opened Options
  import C = LruCache

  type Key = C.Key
  type Value = C.Value

  // ----- The cache, call by call -----

  datatype Lru = Lru(limit: nat, entries: map<Key, Value>, queue: seq<Key>, size: nat)

  datatype Op = GetOp(key: Key) | RemoveOp(key: Key) | ClearOp

  /** What generator.apply does: None if it throws. */
  type Generator = Key -> Option<Value>

  function Touch(queue: seq<Key>, key: Key): seq<Key> {
    if key in queue then C.RemoveLast(queue, key) + [key] else queue
  }

  function Get(s: Lru, key: Key, gen: Generator): Lru {
    if s.limit == 0 then s
    else if key in s.entries then
      if s.size < s.limit then s else s.(queue := Touch(s.queue, key))
    else if gen(key).None? then s
    else
      var evict := s.size == s.limit && s.queue != [];
      var kept := if evict then s.entries - {s.queue[0]} else s.entries;
      var queue := if evict then s.queue[1..] else s.queue;
      s.(queue := queue + [key], entries := kept[key := gen(key).value], size := |kept[key := gen(key).value]|)
  }

  function Remove(s: Lru, key: Key): Lru {
    s.(entries := s.entries - {key}, queue := C.RemoveFirst(s.queue, key), size := |s.entries - {key}|)
  }

  function Clear(s: Lru): Lru {
    s.(entries := map[], queue := [], size := 0)
  }

  function Do(s: Lru, op: Op, gen: Generator): Lru {
    match op
    case GetOp(key) => Get(s, key, gen)
    case RemoveOp(key) => Remove(s, key)
    case ClearOp => Clear(s)
  }

  function Run(s: Lru, ops: seq<Op>, gen: Generator): Lru {
    if ops == [] then s else Do(Run(s, ops[..|ops| - 1], gen), ops[|ops| - 1], gen)
  }

  // ----- The reference -----

  datatype Entry = Entry(value: Value, lastUse: nat)

  datatype Stamped = Stamped(limit: nat, entries: map<Key, Entry>, clock: nat)

  ghost predicate IsOldest(a: Stamped, key: Key) {
    key in a.entries && forall k :: k in a.entries ==> a.entries[key].lastUse <= a.entries[k].lastUse
  }

  lemma {:induction false} OldestExists(a: Stamped, keys: set<Key>)
    requires keys != {} && keys <= a.entries.Keys
    ensures exists key :: key in keys && forall k :: k in keys ==> a.entries[key].lastUse <= a.entries[k].lastUse
    decreases |keys|
  {
    var some :| some in keys;
    if keys == {some} {
      assert some in keys;
    } else {
      OldestExists(a, keys - {some});
      var rest :| rest in keys - {some} &&
                  forall k :: k in keys - {some} ==> a.entries[rest].lastUse <= a.entries[k].lastUse;
      var key := if a.entries[some].lastUse < a.entries[rest].lastUse then some else rest;
      assert key in keys && forall k :: k in keys ==> a.entries[key].lastUse <= a.entries[k].lastUse;
    }
  }

  lemma SomeOldest(a: Stamped)
    requires a.entries != map[]
    ensures exists key :: IsOldest(a, key)
  {
    assert a.entries.Keys != {};
    OldestExists(a, a.entries.Keys);
    var key :| key in a.entries.Keys &&
               forall k :: k in a.entries.Keys ==> a.entries[key].lastUse <= a.entries[k].lastUse;
    assert IsOldest(a, key);
  }

  ghost function Oldest(a: Stamped): Key
    requires a.entries != map[]
    ensures IsOldest(a, Oldest(a))
  {
    SomeOldest(a);
    var key :| IsOldest(a, key);
    key
  }

  function Restamp(a: Stamped, key: Key): Stamped
    requires key in a.entries
  {
    a.(clock := a.clock + 1, entries := a.entries[key := a.entries[key].(lastUse := a.clock + 1)])
  }

  function StampedInsert(a: Stamped, key: Key, value: Value): Stamped {
    a.(clock := a.clock + 1, entries := a.entries[key := Entry(value, a.clock + 1)])
  }

  ghost function StampedGet(a: Stamped, key: Key, gen: Generator): Stamped {
    if a.limit == 0 then a
    else if key in a.entries then
      if |a.entries| < a.limit then a else Restamp(a, key)
    else if gen(key).None? then a
    else
      StampedInsert(if |a.entries| == a.limit then a.(entries := a.entries - {Oldest(a)}) else a, key, gen(key).value)
  }

  ghost function StampedDo(a: Stamped, op: Op, gen: Generator): Stamped {
    match op
    case GetOp(key) => StampedGet(a, key, gen)
    case RemoveOp(key) => a.(entries := a.entries - {key})
    case ClearOp => a.(entries := map[])
  }

  ghost function StampedRun(a: Stamped, ops: seq<Op>, gen: Generator): Stamped {
    if ops == [] then a else StampedDo(StampedRun(a, ops[..|ops| - 1], gen), ops[|ops| - 1], gen)
  }

  // ----- The queue is the order of last use -----

  ghost predicate Ordered(a: Stamped, queue: seq<Key>) {
    && (forall i :: 0 <= i < |queue| ==> queue[i] in a.entries)
    && (forall i, j :: 0 <= i < j < |queue| ==> a.entries[queue[i]].lastUse < a.entries[queue[j]].lastUse)
  }

  ghost predicate SameEntries(s: Lru, a: Stamped) {
    && s.entries.Keys == a.entries.Keys
    && forall k :: k in s.entries ==> s.entries[k] == a.entries[k].value
  }

  ghost predicate Refines(s: Lru, a: Stamped) {
    && s.limit == a.limit && s.size == |s.entries| <= s.limit && |a.entries| == |s.entries|
    && SameEntries(s, a)
    && Ordered(a, s.queue) && (forall k :: k in s.entries ==> k in s.queue)
    && (forall k :: k in a.entries ==> a.entries[k].lastUse <= a.clock)
  }

  lemma OrderedIsDistinct(a: Stamped, queue: seq<Key>)
    requires Ordered(a, queue)
    ensures C.Distinct(queue)
  {
  }

  /** The head of the queue is the key with the oldest recorded use. */
  lemma HeadIsOldest(s: Lru, a: Stamped)
    requires Refines(s, a) && s.queue != []
    ensures a.entries != map[] && Oldest(a) == s.queue[0]
  {
  }

  /** Removing a key leaves the others in their order. */
  lemma {:induction false} RemoveLastOrdered(a: Stamped, queue: seq<Key>, key: Key)
    requires Ordered(a, queue)
    ensures Ordered(a, C.RemoveLast(queue, key))
  {
    OrderedIsDistinct(a, queue);
    if queue != [] {
      var n := |queue| - 1;
      RemoveLastOrdered(a, queue[..n], key);
      C.RemoveLastSpec(queue[..n], key);
      var shorter := C.RemoveLast(queue[..n], key);
      forall i | 0 <= i < |shorter|
        ensures a.entries[shorter[i]].lastUse < a.entries[queue[n]].lastUse
      {
        assert shorter[i] in queue[..n];
      }
    }
  }

  lemma OrderedTail(a: Stamped, queue: seq<Key>)
    requires Ordered(a, queue) && queue != []
    ensures Ordered(a, queue[1..])
    ensures forall k :: k in queue[1..] ==> k in a.entries && a.entries[queue[0]].lastUse < a.entries[k].lastUse
  {
  }

  lemma OrderedCons(a: Stamped, key: Key, queue: seq<Key>)
    requires Ordered(a, queue) && key in a.entries
    requires forall k :: k in queue ==> a.entries[key].lastUse < a.entries[k].lastUse
    ensures Ordered(a, [key] + queue)
  {
    assert forall i :: 0 <= i < |queue| ==> queue[i] in queue;
  }

  lemma {:induction false} RemoveFirstOrdered(a: Stamped, queue: seq<Key>, key: Key)
    requires Ordered(a, queue)
    ensures Ordered(a, C.RemoveFirst(queue, key))
  {
    if queue != [] {
      OrderedTail(a, queue);
      if queue[0] != key {
        RemoveFirstOrdered(a, queue[1..], key);
        OrderedIsDistinct(a, queue[1..]);
        C.RemoveFirstSpec(queue[1..], key);
        OrderedCons(a, queue[0], C.RemoveFirst(queue[1..], key));
      }
    }
  }

  /** A queue stays ordered when its keys keep their stamps and a newly stamped key goes to the end. */
  lemma OrderedPush(a: Stamped, b: Stamped, queue: seq<Key>, key: Key)
    requires Ordered(a, queue) && key !in queue && key in b.entries && b.entries[key].lastUse == a.clock + 1
    requires forall k :: k in queue ==> k in b.entries && b.entries[k].lastUse == a.entries[k].lastUse <= a.clock
    ensures Ordered(b, queue + [key])
  {
    var longer := queue + [key];
    forall i | 0 <= i < |longer|
      ensures longer[i] in b.entries
      ensures i < |queue| ==> b.entries[longer[i]].lastUse == a.entries[queue[i]].lastUse <= a.clock
    {
      assert i < |queue| ==> longer[i] == queue[i] && queue[i] in queue;
    }
  }

  /** Moving a key to the end goes with stamping it anew. */
  lemma TouchOrdered(s: Lru, a: Stamped, key: Key)
    requires Refines(s, a) && key in s.entries
    ensures Ordered(Restamp(a, key), C.RemoveLast(s.queue, key) + [key])
    ensures forall k :: k in s.entries ==> k in C.RemoveLast(s.queue, key) + [key]
  {
    OrderedIsDistinct(a, s.queue);
    C.RemoveLastSpec(s.queue, key);
    RemoveLastOrdered(a, s.queue, key);
    var shorter := C.RemoveLast(s.queue, key);
    assert forall k :: k in shorter ==> k in s.queue && k in a.entries;
    OrderedPush(a, Restamp(a, key), shorter, key);
  }

  lemma TouchSame(s: Lru, a: Stamped, queue: seq<Key>, key: Key)
    requires SameEntries(s, a) && key in a.entries && forall k :: k in a.entries ==> a.entries[k].lastUse <= a.clock
    ensures SameEntries(s.(queue := queue), Restamp(a, key)) && |Restamp(a, key).entries| == |a.entries|
    ensures var b := Restamp(a, key); forall k :: k in b.entries ==> b.entries[k].lastUse <= b.clock
  {
    C.Cardinality(a.entries, key, a.entries[key].(lastUse := a.clock + 1));
  }

  lemma TouchRefines(s: Lru, a: Stamped, key: Key)
    requires Refines(s, a) && key in s.entries
    ensures Refines(s.(queue := C.RemoveLast(s.queue, key) + [key]), Restamp(a, key))
  {
    var queue := C.RemoveLast(s.queue, key) + [key];
    TouchOrdered(s, a, key);
    TouchSame(s, a, queue, key);
    RefinesFrom(s.(queue := queue), Restamp(a, key));
  }

  /** The parts of Refines put together. */
  lemma RefinesFrom(s: Lru, a: Stamped)
    requires s.limit == a.limit && s.size == |s.entries| <= s.limit && |a.entries| == |s.entries|
    requires SameEntries(s, a) && Ordered(a, s.queue) && forall k :: k in s.entries ==> k in s.queue
    requires forall k :: k in a.entries ==> a.entries[k].lastUse <= a.clock
    ensures Refines(s, a)
  {
  }

  lemma HitRefines(s: Lru, a: Stamped, key: Key, gen: Generator)
    requires Refines(s, a) && s.limit > 0 && key in s.entries
    ensures Refines(Get(s, key, gen), StampedGet(a, key, gen))
  {
    if s.size == s.limit {
      assert key in s.queue;
      TouchRefines(s, a, key);
    }
  }

  function Insert(s: Lru, key: Key, value: Value): Lru {
    s.(queue := s.queue + [key], entries := s.entries[key := value], size := |s.entries[key := value]|)
  }

  lemma InsertOrdered(s: Lru, a: Stamped, key: Key, value: Value)
    requires Refines(s, a) && key !in s.entries
    ensures Ordered(StampedInsert(a, key, value), s.queue + [key])
  {
    OrderedPush(a, StampedInsert(a, key, value), s.queue, key);
  }

  lemma InsertSame(s: Lru, a: Stamped, key: Key, value: Value)
    requires SameEntries(s, a) && forall k :: k in a.entries ==> a.entries[k].lastUse <= a.clock
    ensures SameEntries(Insert(s, key, value), StampedInsert(a, key, value))
    ensures var b := StampedInsert(a, key, value); forall k :: k in b.entries ==> b.entries[k].lastUse <= b.clock
  {
  }

  /** Inserting a key that is not there, while there is room. */
  lemma InsertRefines(s: Lru, a: Stamped, key: Key, value: Value)
    requires Refines(s, a) && key !in s.entries && s.size < s.limit
    ensures Refines(Insert(s, key, value), StampedInsert(a, key, value))
  {
    InsertOrdered(s, a, key, value);
    InsertSame(s, a, key, value);
    C.Cardinality(s.entries, key, value);
    C.Cardinality(a.entries, key, Entry(value, a.clock + 1));
  }

  lemma OrderedWithout(a: Stamped, queue: seq<Key>, key: Key)
    requires Ordered(a, queue) && key !in queue
    ensures Ordered(a.(entries := a.entries - {key}), queue)
  {
    assert forall i :: 0 <= i < |queue| ==> queue[i] in queue;
  }

  lemma RemoveOrdered(s: Lru, a: Stamped, key: Key)
    requires Refines(s, a)
    ensures Ordered(a.(entries := a.entries - {key}), C.RemoveFirst(s.queue, key))
    ensures forall k :: k in s.entries - {key} ==> k in C.RemoveFirst(s.queue, key)
  {
    OrderedIsDistinct(a, s.queue);
    C.RemoveFirstSpec(s.queue, key);
    RemoveFirstOrdered(a, s.queue, key);
    OrderedWithout(a, C.RemoveFirst(s.queue, key), key);
  }

  lemma RemoveRefines(s: Lru, a: Stamped, key: Key)
    requires Refines(s, a)
    ensures Refines(Remove(s, key), a.(entries := a.entries - {key}))
  {
    RemoveOrdered(s, a, key);
    C.Cardinality(s.entries, key, 0);
    C.Cardinality(a.entries, key, Entry(0, 0));
  }

  lemma MissInserts(s: Lru, a: Stamped, key: Key, gen: Generator)
    requires Refines(s, a) && s.limit > 0 && key !in s.entries && gen(key).Some?
    ensures s.size < s.limit ==> Get(s, key, gen) == Insert(s, key, gen(key).value)
    ensures s.size == s.limit ==>
              && s.queue != []
              && Get(s, key, gen) == Insert(Remove(s, s.queue[0]), key, gen(key).value)
  {
    if s.entries != map[] {
      var k :| k in s.entries;
      assert k in s.queue;
    }
  }

  /** A miss in a full cache drops the key with the oldest use and then inserts. */
  lemma ReplaceRefines(s: Lru, a: Stamped, key: Key, value: Value)
    requires Refines(s, a) && s.queue != [] && key !in s.entries
    ensures a.entries != map[]
    ensures Refines(Insert(Remove(s, s.queue[0]), key, value),
                    StampedInsert(a.(entries := a.entries - {Oldest(a)}), key, value))
  {
    var least := s.queue[0];
    HeadIsOldest(s, a);
    RemoveRefines(s, a, least);
    C.Cardinality(s.entries, least, 0);
    InsertRefines(Remove(s, least), a.(entries := a.entries - {least}), key, value);
  }

  lemma MissRefines(s: Lru, a: Stamped, key: Key, gen: Generator)
    requires Refines(s, a) && s.limit > 0 && key !in s.entries && gen(key).Some?
    ensures Refines(Get(s, key, gen), StampedGet(a, key, gen))
  {
    MissInserts(s, a, key, gen);
    if s.size == s.limit {
      ReplaceRefines(s, a, key, gen(key).value);
    } else {
      InsertRefines(s, a, key, gen(key).value);
    }
  }

  lemma StepRefines(s: Lru, a: Stamped, op: Op, gen: Generator)
    requires Refines(s, a)
    ensures Refines(Do(s, op, gen), StampedDo(a, op, gen))
  {
    match op
    case GetOp(key) =>
      if s.limit > 0 && key in s.entries {
        HitRefines(s, a, key, gen);
      } else if s.limit > 0 && gen(key).Some? {
        MissRefines(s, a, key, gen);
      }
    case RemoveOp(key) => RemoveRefines(s, a, key);
    case ClearOp =>
  }

  /** Over any sequence of calls the cache holds exactly what the reference holds: what it evicts is the key with the
      oldest recorded use, and its queue is the order of last use. */
  lemma {:induction false} Recency(limit: nat, ops: seq<Op>, gen: Generator)
    ensures Refines(Run(Lru(limit, map[], [], 0), ops, gen), StampedRun(Stamped(limit, map[], 0), ops, gen))
  {
    if ops != [] {
      var n := |ops| - 1;
      Recency(limit, ops[..n], gen);
      StepRefines(Run(Lru(limit, map[], [], 0), ops[..n], gen), StampedRun(Stamped(limit, map[], 0), ops[..n], gen),
                  ops[n], gen);
    }
  }

  // ----- The cache object -----

  class ConcurrentLruCache {
    const sizeLimit: nat
    const generator: Generator
    var cache: map<Key, Value>
    var queue: seq<Key>
    var size: nat
    ghost var reference: Stamped

    ghost function Contents(): Lru
      reads this
    {
      Lru(sizeLimit, cache, queue, size)
    }

    ghost predicate Valid()
      reads this
    {
      Refines(Contents(), reference)
    }

    constructor (sizeLimit: nat, generator: Generator)
      ensures Valid() && this.sizeLimit == sizeLimit && this.generator == generator
      ensures cache == map[] && queue == [] && reference == Stamped(sizeLimit, map[], 0)
    {
      this.sizeLimit := sizeLimit;
      this.generator := generator;
      cache, queue, size := map[], [], 0;
      reference := Stamped(sizeLimit, map[], 0);
    }

    /** The cache's own fields on a call of get; None if the generator throws. */
    method Fetch(key: Key) returns (result: Option<Value>)
      modifies this`cache, this`queue, this`size
      ensures Contents() == Get(old(Contents()), key, generator)
      ensures result == if sizeLimit > 0 && key in old(cache) then Some(old(cache)[key]) else generator(key)
    {
      if sizeLimit == 0 {
        return generator(key);
      }
      if key in cache {
        result := Some(cache[key]);
        if size < sizeLimit {
          return;
        }
        if key in queue {
          queue := C.RemoveLast(queue, key);
          queue := queue + [key];
        }
        return;
      }
      var value := generator(key);
      if value.None? {
        return None;
      }
      if size == sizeLimit && queue != [] {
        var leastUsed := queue[0];
        queue := queue[1..];
        cache := cache - {leastUsed};
      }
      queue := queue + [key];
      cache := cache[key := value.value];
      size := |cache|;
      return value;
    }

    method Lookup(key: Key) returns (result: Option<Value>)
      requires Valid()
      modifies this
      ensures Valid()
      ensures Contents() == Get(old(Contents()), key, generator)
      ensures reference == StampedGet(old(reference), key, generator)
      ensures result == if sizeLimit > 0 && key in old(cache) then Some(old(cache)[key]) else generator(key)
    {
      StepRefines(Contents(), reference, GetOp(key), generator);
      reference := StampedGet(reference, key, generator);
      result := Fetch(key);
    }

    /** The cache's own fields on a call of remove. */
    method Drop(key: Key) returns (wasPresent: bool)
      modifies this`cache, this`queue, this`size
      ensures Contents() == Remove(old(Contents()), key)
      ensures wasPresent <==> key in old(cache)
    {
      wasPresent := key in cache;
      cache := cache - {key};
      queue := C.RemoveFirst(queue, key);
      size := |cache|;
    }

    method Evict(key: Key) returns (wasPresent: bool)
      requires Valid()
      modifies this
      ensures Valid()
      ensures Contents() == Remove(old(Contents()), key)
      ensures reference == old(reference).(entries := old(reference).entries - {key})
      ensures wasPresent <==> key in old(cache)
    {
      RemoveRefines(Contents(), reference, key);
      reference := reference.(entries := reference.entries - {key});
      wasPresent := Drop(key);
    }

    method Reset()
      requires Valid()
      modifies this
      ensures Valid()
      ensures Contents() == Clear(old(Contents()))
      ensures reference == old(reference).(entries := map[])
    {
      reference := reference.(entries := map[]);
      cache := map[];
      queue := [];
      size := 0;
    }
  }
}
