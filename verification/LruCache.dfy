/**
 The concurrent LRU cache as a machine: any number of `get`, `remove` and `clear` calls, each advancing by one operation
 on the map, the deque, the size field or the lock at a time. The fast path of `get` takes no lock; hits on a full cache
 move their key under the shared lock; misses, `remove` and `clear` hold the lock exclusively.

 The generator is a function of the key that may also throw.
 */
module LruCache {
  import opened Options

  type Key = nat
  type Value = nat

  datatype Pc =
    // get
    | Getting(key: Key)
    | Generating0(key: Key)                          // sizeLimit is 0: no caching
    | Hit(key: Key, value: Value)                    // found without a lock; size not read yet
    | WantRead(key: Key, value: Value)
    | Taking(key: Key, value: Value)                 // shared lock held; about to remove the last occurrence
    | Offering(key: Key, value: Value)               // removed it; about to put it back at the end
    | ReadUnlock(key: Key, value: Value)
    | WantWrite(key: Key)
    | Retrying(key: Key)                             // exclusive lock held; about to look again
    | LateTaking(key: Key, value: Value)
    | LateOffering(key: Key, value: Value)
    | Generating(key: Key)
    | Sizing(key: Key, value: Value)
    | Polling(key: Key, value: Value)
    | Evicting(key: Key, value: Value, least: Key)
    | Inserting(key: Key, value: Value)
    | Putting(key: Key, value: Value)
    | Resizing(key: Key, value: Value)
    | WriteUnlock(key: Key, value: Value)
    | Returned(key: Key, value: Value)
    // remove
    | WantRemove(key: Key)
    | RemoveEntry(key: Key)
    | RemoveQueued(key: Key)
    | RemoveResize
    // clear
    | WantClear
    | ClearEntries
    | ClearQueue
    | ClearSize
    // the exclusive lock is to be released, by remove, by clear, or because the generator threw
    | Unlock
    | Finished

  datatype Cache = Cache(
    limit: nat,
    entries: map<Key, Value>,
    queue: seq<Key>,
    size: int,
    readers: set<nat>,       // the calls that hold the shared lock
    writer: Option<nat>,     // the call that holds the exclusive lock
    calls: seq<Pc>)

  /** Advance call t, or let the generator throw in it. */
  datatype Action = Step(t: nat) | Throw(t: nat)

  predicate Waiting(p: Pc) {
    p.WantRead? || p.WantWrite? || p.WantRemove? || p.WantClear?
  }

  predicate Enabled(s: Cache, a: Action) {
    && a.t < |s.calls|
    && match a
       case Step(t) =>
         && !s.calls[t].Returned? && !s.calls[t].Finished?
         && (Waiting(s.calls[t]) ==> s.writer.None?)
         && (Waiting(s.calls[t]) && !s.calls[t].WantRead? ==> s.readers == {})
       case Throw(t) => s.calls[t].Generating0? || s.calls[t].Generating?
  }

  function Goto(s: Cache, t: nat, p: Pc): Cache
    requires t < |s.calls|
  {
    s.(calls := s.calls[t := p])
  }

  /** removeLastOccurrence */
  function RemoveLast(queue: seq<Key>, key: Key): seq<Key> {
    if queue == [] then []
    else
      var n := |queue| - 1;
      if queue[n] == key then queue[..n] else RemoveLast(queue[..n], key) + [queue[n]]
  }

  /** remove(Object): the first occurrence */
  function RemoveFirst(queue: seq<Key>, key: Key): seq<Key> {
    if queue == [] then [] else if queue[0] == key then queue[1..] else [queue[0]] + RemoveFirst(queue[1..], key)
  }

  function StepRead(s: Cache, t: nat, gen: Key -> Value): Cache
    requires t < |s.calls| && InRead(s.calls[t])
  {
    match s.calls[t]
    case Getting(key) =>
      Goto(s, t, if s.limit == 0 then Generating0(key)
                 else if key in s.entries then Hit(key, s.entries[key]) else WantWrite(key))
    case Generating0(key) => Goto(s, t, Returned(key, gen(key)))
    case Hit(key, value) => Goto(s, t, if s.size < s.limit then Returned(key, value) else WantRead(key, value))
    case WantRead(key, value) => Goto(s, t, Taking(key, value)).(readers := s.readers + {t})
    case Taking(key, value) =>
      if key in s.queue then Goto(s, t, Offering(key, value)).(queue := RemoveLast(s.queue, key))
      else Goto(s, t, ReadUnlock(key, value))
    case Offering(key, value) => Goto(s, t, ReadUnlock(key, value)).(queue := s.queue + [key])
    case ReadUnlock(key, value) => Goto(s, t, Returned(key, value)).(readers := s.readers - {t})
  }

  predicate InRead(p: Pc) {
    p.Getting? || p.Generating0? || p.Hit? || p.WantRead? || p.Taking? || p.Offering? || p.ReadUnlock?
  }

  function StepMiss(s: Cache, t: nat, gen: Key -> Value): Cache
    requires t < |s.calls| && InMiss(s.calls[t])
  {
    match s.calls[t]
    case WantWrite(key) => Goto(s, t, Retrying(key)).(writer := Some(t))
    case Retrying(key) => Goto(s, t, if key in s.entries then LateTaking(key, s.entries[key]) else Generating(key))
    case LateTaking(key, value) =>
      if key in s.queue then Goto(s, t, LateOffering(key, value)).(queue := RemoveLast(s.queue, key))
      else Goto(s, t, WriteUnlock(key, value))
    case LateOffering(key, value) => Goto(s, t, WriteUnlock(key, value)).(queue := s.queue + [key])
    case Generating(key) => Goto(s, t, Sizing(key, gen(key)))
    case Sizing(key, value) => Goto(s, t, if s.size == s.limit then Polling(key, value) else Inserting(key, value))
    case Polling(key, value) =>
      if s.queue == [] then Goto(s, t, Inserting(key, value))
      else Goto(s, t, Evicting(key, value, s.queue[0])).(queue := s.queue[1..])
    case Evicting(key, value, least) => Goto(s, t, Inserting(key, value)).(entries := s.entries - {least})
    case Inserting(key, value) => Goto(s, t, Putting(key, value)).(queue := s.queue + [key])
    case Putting(key, value) => Goto(s, t, Resizing(key, value)).(entries := s.entries[key := value])
    case Resizing(key, value) => Goto(s, t, WriteUnlock(key, value)).(size := |s.entries|)
    case WriteUnlock(key, value) => Goto(s, t, Returned(key, value)).(writer := None)
  }

  predicate InMiss(p: Pc) {
    || p.WantWrite? || p.Retrying? || p.LateTaking? || p.LateOffering? || p.Generating? || p.Sizing? || p.Polling?
    || p.Evicting? || p.Inserting? || p.Putting? || p.Resizing? || p.WriteUnlock?
  }

  function StepRemove(s: Cache, t: nat): Cache
    requires t < |s.calls| && InRemove(s.calls[t])
  {
    match s.calls[t]
    case WantRemove(key) => Goto(s, t, RemoveEntry(key)).(writer := Some(t))
    case RemoveEntry(key) => Goto(s, t, RemoveQueued(key)).(entries := s.entries - {key})
    case RemoveQueued(key) => Goto(s, t, RemoveResize).(queue := RemoveFirst(s.queue, key))
    case RemoveResize => Goto(s, t, Unlock).(size := |s.entries|)
    case WantClear => Goto(s, t, ClearEntries).(writer := Some(t))
    case ClearEntries => Goto(s, t, ClearQueue).(entries := map[])
    case ClearQueue => Goto(s, t, ClearSize).(queue := [])
    case ClearSize => Goto(s, t, Unlock).(size := 0)
    case Unlock => Goto(s, t, Finished).(writer := None)
  }

  predicate InRemove(p: Pc) {
    || p.WantRemove? || p.RemoveEntry? || p.RemoveQueued? || p.RemoveResize? || p.WantClear? || p.ClearEntries?
    || p.ClearQueue? || p.ClearSize? || p.Unlock?
  }

  function Apply(s: Cache, a: Action, gen: Key -> Value): Cache
    requires Enabled(s, a)
  {
    match a
    case Step(t) =>
      if InRead(s.calls[t]) then StepRead(s, t, gen)
      else if InMiss(s.calls[t]) then StepMiss(s, t, gen)
      else StepRemove(s, t)
    case Throw(t) => Goto(s, t, if s.calls[t].Generating0? then Finished else Unlock)
  }

  function Exec(s: Cache, run: seq<Action>, gen: Key -> Value): Option<Cache> {
    if run == [] then Some(s)
    else
      var last := run[|run| - 1];
      match Exec(s, run[..|run| - 1], gen)
      case None => None
      case Some(t) => if Enabled(t, last) then Some(Apply(t, last, gen)) else None
  }

  ghost predicate Initial(s: Cache) {
    && s.entries == map[] && s.queue == [] && s.size == 0 && s.readers == {} && s.writer == None
    && forall t :: 0 <= t < |s.calls| ==> s.calls[t].Getting? || s.calls[t].WantRemove? || s.calls[t].WantClear?
  }

  // ----- Removing from a queue without duplicates -----

  ghost predicate Distinct(queue: seq<Key>) {
    forall i, j :: 0 <= i < j < |queue| ==> queue[i] != queue[j]
  }

  lemma {:induction false} RemoveLastSpec(queue: seq<Key>, key: Key)
    requires Distinct(queue)
    ensures Distinct(RemoveLast(queue, key))
    ensures forall k :: k in RemoveLast(queue, key) <==> k in queue && k != key
  {
    if queue != [] {
      var n := |queue| - 1;
      assert queue == queue[..n] + [queue[n]];
      assert queue[n] !in queue[..n];
      RemoveLastSpec(queue[..n], key);
    }
  }

  lemma {:induction false} RemoveFirstSpec(queue: seq<Key>, key: Key)
    requires Distinct(queue)
    ensures Distinct(RemoveFirst(queue, key))
    ensures forall k :: k in RemoveFirst(queue, key) <==> k in queue && k != key
  {
    if queue != [] {
      assert queue == [queue[0]] + queue[1..];
      assert queue[0] !in queue[1..];
      RemoveFirstSpec(queue[1..], key);
    }
  }

  // ----- Locks -----

  ghost predicate HoldsRead(p: Pc) {
    p.Taking? || p.Offering? || p.ReadUnlock?
  }

  ghost predicate HoldsWrite(p: Pc) {
    (InMiss(p) && !p.WantWrite?) || (InRemove(p) && !p.WantRemove? && !p.WantClear?)
  }

  ghost predicate CallLocks(s: Cache, t: nat)
    requires t < |s.calls|
  {
    (HoldsRead(s.calls[t]) <==> t in s.readers) && (HoldsWrite(s.calls[t]) <==> s.writer == Some(t))
  }

  ghost predicate LockInv(s: Cache) {
    && (forall t :: 0 <= t < |s.calls| ==> CallLocks(s, t))
    && (s.writer.Some? ==> s.writer.value < |s.calls| && s.readers == {})
    && (forall t :: t in s.readers ==> t < |s.calls|)
  }

  // ----- Queue and map in step -----

  /** Readers that have taken their key out of the queue and not yet put it back hold different keys, each in the map
      and not in the queue. */
  ghost predicate HeldInv(s: Cache) {
    && (forall t :: 0 <= t < |s.calls| && s.calls[t].Offering? ==>
          s.calls[t].key in s.entries && s.calls[t].key !in s.queue)
    && (forall t, u :: 0 <= t < u < |s.calls| && s.calls[t].Offering? && s.calls[u].Offering? ==>
          s.calls[t].key != s.calls[u].key)
  }

  ghost predicate Held(s: Cache, k: Key) {
    exists t :: 0 <= t < |s.calls| && s.calls[t].Offering? && s.calls[t].key == k
  }

  ghost predicate Exact(s: Cache) {
    forall k :: k in s.queue <==> k in s.entries
  }

  ghost predicate Settled(s: Cache) {
    s.size == |s.entries| <= s.limit
  }

  /** What holds of queue, map and size while a writer stands at p. */
  ghost predicate WriterInv(s: Cache, p: Pc) {
    match p
    case Retrying(_) => Exact(s) && Settled(s) && s.limit > 0
    case LateTaking(key, _) => Exact(s) && Settled(s) && key in s.entries
    case LateOffering(key, _) =>
      Settled(s) && key !in s.queue && key in s.entries && forall k :: k in s.queue <==> k in s.entries && k != key
    case Generating(key) => Exact(s) && Settled(s) && key !in s.entries && s.limit > 0
    case Sizing(key, _) => Exact(s) && Settled(s) && key !in s.entries && s.limit > 0
    case Polling(key, _) => Exact(s) && |s.entries| == s.limit && key !in s.entries && s.limit > 0
    case Evicting(key, _, least) =>
      && |s.entries| == s.limit && key !in s.entries && least in s.entries
      && forall k :: k in s.queue <==> k in s.entries && k != least
    case Inserting(key, _) => Exact(s) && |s.entries| < s.limit && key !in s.entries
    case Putting(key, _) =>
      |s.entries| < s.limit && key !in s.entries && forall k :: k in s.queue <==> k in s.entries || k == key
    case Resizing(_, _) => Exact(s) && |s.entries| <= s.limit
    case RemoveQueued(key) =>
      |s.entries| <= s.limit && key !in s.entries && forall k :: k != key ==> (k in s.queue <==> k in s.entries)
    case RemoveResize => Exact(s) && |s.entries| <= s.limit
    case ClearQueue => s.entries == map[]
    case ClearSize => s.entries == map[] && s.queue == []
    case _ => Exact(s) && Settled(s)
  }

  ghost predicate FreeInv(s: Cache) {
    && Settled(s)
    && (forall k :: k in s.queue ==> k in s.entries)
    && (forall k :: k in s.entries ==> k in s.queue || Held(s, k))
  }

  /** With limit 0 nothing is ever looked up or inserted. */
  ghost predicate Uncached(s: Cache, p: Pc) {
    s.limit == 0 ==> !InMiss(p) && !HoldsRead(p) && !p.Hit? && !p.WantRead?
  }

  ghost predicate StructureInv(s: Cache) {
    && Distinct(s.queue) && HeldInv(s) && |s.entries| <= s.limit
    && (forall t :: 0 <= t < |s.calls| ==> Uncached(s, s.calls[t]))
    && match s.writer
       case None => FreeInv(s)
       case Some(w) => w < |s.calls| ==> WriterInv(s, s.calls[w])
  }

  lemma LockFrame(s: Cache, u: Cache, t: nat)
    requires LockInv(s) && t < |s.calls| == |u.calls| && u.calls == s.calls[t := u.calls[t]] && CallLocks(u, t)
    requires || u.writer == s.writer
             || (s.writer == None && u.writer == Some(t)) || (s.writer == Some(t) && u.writer == None)
    requires u.readers == s.readers || u.readers == s.readers + {t} || u.readers == s.readers - {t}
    requires u.writer.Some? ==> u.readers == {}
    ensures LockInv(u)
  {
    forall j | 0 <= j < |u.calls|
      ensures CallLocks(u, j)
    {
      assert CallLocks(s, j);
    }
  }

  lemma LockStep(s: Cache, a: Action, gen: Key -> Value)
    requires LockInv(s) && Enabled(s, a)
    ensures LockInv(Apply(s, a, gen))
  {
    assert CallLocks(s, a.t);
    if a.Throw? {
      LockFrame(s, Apply(s, a, gen), a.t);
    } else if InRead(s.calls[a.t]) {
      LockFrame(s, StepRead(s, a.t, gen), a.t);
    } else if InMiss(s.calls[a.t]) {
      LockMiss(s, a.t, gen);
    } else {
      LockRemove(s, a.t);
    }
  }

  lemma LockMiss(s: Cache, t: nat, gen: Key -> Value)
    requires LockInv(s) && Enabled(s, Step(t)) && InMiss(s.calls[t])
    ensures LockInv(StepMiss(s, t, gen))
  {
    assert CallLocks(s, t);
    LockFrame(s, StepMiss(s, t, gen), t);
  }

  lemma LockRemove(s: Cache, t: nat)
    requires LockInv(s) && Enabled(s, Step(t)) && InRemove(s.calls[t])
    ensures LockInv(StepRemove(s, t))
  {
    assert CallLocks(s, t);
    LockFrame(s, StepRemove(s, t), t);
  }

  // ----- Readers -----

  /** A call that holds no key moves on and takes none. */
  lemma HeldFrame(s: Cache, u: Cache, t: nat)
    requires t < |s.calls| == |u.calls| && u.calls == s.calls[t := u.calls[t]]
    requires !s.calls[t].Offering? && !u.calls[t].Offering?
    ensures forall k :: Held(s, k) <==> Held(u, k)
    ensures HeldInv(s) && u.queue == s.queue && u.entries == s.entries ==> HeldInv(u)
  {
    forall k
      ensures Held(s, k) <==> Held(u, k)
    {
      if Held(s, k) {
        var j :| 0 <= j < |s.calls| && s.calls[j].Offering? && s.calls[j].key == k;
        assert u.calls[j].Offering? && u.calls[j].key == k;
      }
      if Held(u, k) {
        var j :| 0 <= j < |u.calls| && u.calls[j].Offering? && u.calls[j].key == k;
        assert s.calls[j].Offering? && s.calls[j].key == k;
      }
    }
  }

  lemma StructureFrame(s: Cache, u: Cache, t: nat)
    requires LockInv(s) && StructureInv(s) && t < |s.calls| == |u.calls| && u.calls == s.calls[t := u.calls[t]]
    requires !HoldsWrite(s.calls[t]) && !s.calls[t].Offering? && !u.calls[t].Offering? && Uncached(u, u.calls[t])
    requires u.writer == s.writer && u.entries == s.entries && u.queue == s.queue
    requires u.size == s.size && u.limit == s.limit
    ensures StructureInv(u)
  {
    assert CallLocks(s, t);
    HeldFrame(s, u, t);
  }

  lemma TakeStructure(s: Cache, t: nat, gen: Key -> Value)
    requires LockInv(s) && StructureInv(s) && t < |s.calls| && s.calls[t].Taking? && s.calls[t].key in s.queue
    ensures StructureInv(StepRead(s, t, gen))
  {
    var u, key := StepRead(s, t, gen), s.calls[t].key;
    assert CallLocks(s, t);
    RemoveLastSpec(s.queue, key);
    assert u.calls[t].Offering? && u.calls[t].key == key;
    forall k | k in u.entries
      ensures k in u.queue || Held(u, k)
    {
      if k != key && Held(s, k) {
        var j :| 0 <= j < |s.calls| && s.calls[j].Offering? && s.calls[j].key == k;
        assert u.calls[j].Offering? && u.calls[j].key == k;
      }
    }
  }

  lemma OfferStructure(s: Cache, t: nat, gen: Key -> Value)
    requires LockInv(s) && StructureInv(s) && t < |s.calls| && s.calls[t].Offering?
    ensures StructureInv(StepRead(s, t, gen))
  {
    var u, key := StepRead(s, t, gen), s.calls[t].key;
    assert CallLocks(s, t);
    forall k | k in u.entries
      ensures k in u.queue || Held(u, k)
    {
      if k != key && Held(s, k) {
        var j :| 0 <= j < |s.calls| && s.calls[j].Offering? && s.calls[j].key == k;
        assert u.calls[j].Offering? && u.calls[j].key == k;
      }
    }
  }

  lemma ReadStructure(s: Cache, t: nat, gen: Key -> Value)
    requires LockInv(s) && StructureInv(s) && Enabled(s, Step(t)) && InRead(s.calls[t])
    ensures StructureInv(StepRead(s, t, gen))
  {
    if s.calls[t].Offering? {
      OfferStructure(s, t, gen);
    } else if s.calls[t].Taking? && s.calls[t].key in s.queue {
      TakeStructure(s, t, gen);
    } else {
      StructureFrame(s, StepRead(s, t, gen), t);
    }
  }

  // ----- Writers -----

  /** Nobody holds a key back while a writer is in. */
  lemma NoneHeld(s: Cache)
    requires LockInv(s) && s.readers == {}
    ensures forall t :: 0 <= t < |s.calls| ==> !s.calls[t].Offering?
  {
    forall t | 0 <= t < |s.calls|
      ensures !s.calls[t].Offering?
    {
      assert CallLocks(s, t);
    }
  }

  ghost predicate CardinalityFact<K(!new), V(!new)>(m: map<K, V>, k: K, v: V) {
    && (k in m ==> |m - {k}| == |m| - 1)
    && (k !in m ==> |m - {k}| == |m| && |m[k := v]| == |m| + 1)
  }

  lemma Cardinality<K(!new), V(!new)>(m: map<K, V>, k: K, v: V)
    ensures CardinalityFact(m, k, v)
  {
    assert (m - {k}).Keys == m.Keys - {k};
    assert m[k := v].Keys == m.Keys + {k};
    if k !in m {
      assert m - {k} == m;
    }
  }

  lemma {:induction false} SameSize(queue: seq<Key>, keys: set<Key>)
    requires Distinct(queue) && forall k :: k in queue <==> k in keys
    ensures |queue| == |keys|
  {
    if queue == [] {
      assert keys == {};
    } else {
      var n := |queue| - 1;
      assert queue == queue[..n] + [queue[n]];
      assert queue[n] !in queue[..n];
      SameSize(queue[..n], keys - {queue[n]});
    }
  }

  lemma WriterFrame(s: Cache, u: Cache, t: nat)
    requires LockInv(s) && StructureInv(s) && s.writer == Some(t) && t < |s.calls| == |u.calls|
    requires u.calls == s.calls[t := u.calls[t]] && u.limit == s.limit
    requires !u.calls[t].Offering? && Uncached(u, u.calls[t])
    requires Distinct(u.queue) && |u.entries| <= u.limit
    requires if u.writer == Some(t) then WriterInv(u, u.calls[t]) else u.writer == None && Exact(u) && Settled(u)
    ensures StructureInv(u)
  {
    NoneHeld(s);
    assert HeldInv(u);
  }

  /** What a writer's step must establish for its next phase. */
  ghost predicate NextPhase(s: Cache, u: Cache, t: nat)
    requires t < |s.calls| == |u.calls|
  {
    && Distinct(u.queue) && |u.entries| <= u.limit
    && (if s.calls[t].WriteUnlock? || s.calls[t].Unlock? then Exact(u) && Settled(u) else WriterInv(u, u.calls[t]))
  }

  lemma LatePhase(s: Cache, t: nat, gen: Key -> Value)
    requires t < |s.calls| && WriterInv(s, s.calls[t]) && Distinct(s.queue) && |s.entries| <= s.limit
    requires s.calls[t].Retrying? || s.calls[t].LateTaking? || s.calls[t].LateOffering? || s.calls[t].Generating?
    ensures NextPhase(s, StepMiss(s, t, gen), t)
  {
    if s.calls[t].LateTaking? {
      RemoveLastSpec(s.queue, s.calls[t].key);
    }
  }

  lemma PollPhase(s: Cache, t: nat, gen: Key -> Value)
    requires t < |s.calls| && WriterInv(s, s.calls[t]) && Distinct(s.queue) && |s.entries| <= s.limit
    requires s.calls[t].Sizing? || s.calls[t].Polling?
    ensures NextPhase(s, StepMiss(s, t, gen), t)
  {
    SameSize(s.queue, s.entries.Keys);
    if s.calls[t].Polling? {
      assert s.queue == [s.queue[0]] + s.queue[1..];
      assert s.queue[0] !in s.queue[1..];
    }
  }

  lemma EvictPhase(s: Cache, t: nat, gen: Key -> Value)
    requires t < |s.calls| && WriterInv(s, s.calls[t]) && Distinct(s.queue) && |s.entries| <= s.limit
    requires s.calls[t].Evicting?
    ensures NextPhase(s, StepMiss(s, t, gen), t)
  {
    Cardinality(s.entries, s.calls[t].least, 0);
  }

  lemma InsertPhase(s: Cache, t: nat, gen: Key -> Value)
    requires t < |s.calls| && WriterInv(s, s.calls[t]) && Distinct(s.queue) && |s.entries| <= s.limit
    requires s.calls[t].Inserting?
    ensures NextPhase(s, StepMiss(s, t, gen), t)
  {
  }

  lemma PutPhase(s: Cache, t: nat, gen: Key -> Value)
    requires t < |s.calls| && WriterInv(s, s.calls[t]) && Distinct(s.queue) && |s.entries| <= s.limit
    requires s.calls[t].Putting? || s.calls[t].Resizing? || s.calls[t].WriteUnlock?
    ensures NextPhase(s, StepMiss(s, t, gen), t)
  {
    if s.calls[t].Putting? {
      Cardinality(s.entries, s.calls[t].key, s.calls[t].value);
    }
  }

  /** One step of the writer keeps its own phase. */
  lemma MissPhase(s: Cache, t: nat, gen: Key -> Value)
    requires t < |s.calls| && InMiss(s.calls[t]) && !s.calls[t].WantWrite?
    requires WriterInv(s, s.calls[t]) && Distinct(s.queue)
    requires |s.entries| <= s.limit
    ensures NextPhase(s, StepMiss(s, t, gen), t)
  {
    var p := s.calls[t];
    if p.Sizing? || p.Polling? {
      PollPhase(s, t, gen);
    } else if p.Evicting? {
      EvictPhase(s, t, gen);
    } else if p.Inserting? {
      InsertPhase(s, t, gen);
    } else if p.Putting? || p.Resizing? || p.WriteUnlock? {
      PutPhase(s, t, gen);
    } else {
      LatePhase(s, t, gen);
    }
  }

  lemma MissStructure(s: Cache, t: nat, gen: Key -> Value)
    requires LockInv(s) && StructureInv(s) && Enabled(s, Step(t)) && InMiss(s.calls[t])
    ensures StructureInv(StepMiss(s, t, gen))
  {
    assert CallLocks(s, t);
    if s.calls[t].WantWrite? {
      EnterStructure(s, StepMiss(s, t, gen), t);
    } else {
      MissPhase(s, t, gen);
      WriterFrame(s, StepMiss(s, t, gen), t);
    }
  }

  /** A writer comes in: nobody holds a key back, so queue and map agree. */
  lemma EnterStructure(s: Cache, u: Cache, t: nat)
    requires LockInv(s) && StructureInv(s) && s.writer.None? && s.readers == {} && t < |s.calls|
    requires s.calls[t].WantWrite? || s.calls[t].WantRemove? || s.calls[t].WantClear?
    requires u.calls[..] == s.calls[t := if s.calls[t].WantWrite? then Retrying(s.calls[t].key)
                                    else if s.calls[t].WantRemove? then RemoveEntry(s.calls[t].key) else ClearEntries]
    requires u == s.(writer := Some(t), calls := u.calls)
    ensures StructureInv(u)
  {
    NoneHeld(s);
    assert forall k :: !Held(s, k);
    assert Exact(u);
  }

  lemma RemoveEntryPhase(s: Cache, t: nat)
    requires t < |s.calls| && WriterInv(s, s.calls[t]) && Distinct(s.queue) && |s.entries| <= s.limit
    requires s.calls[t].RemoveEntry? || s.calls[t].RemoveQueued? || s.calls[t].RemoveResize?
    ensures NextPhase(s, StepRemove(s, t), t)
  {
    if s.calls[t].RemoveEntry? {
      Cardinality(s.entries, s.calls[t].key, 0);
    } else if s.calls[t].RemoveQueued? {
      RemoveFirstSpec(s.queue, s.calls[t].key);
    }
  }

  lemma ClearPhase(s: Cache, t: nat)
    requires t < |s.calls| && WriterInv(s, s.calls[t]) && Distinct(s.queue) && |s.entries| <= s.limit
    requires s.calls[t].ClearEntries? || s.calls[t].ClearQueue? || s.calls[t].ClearSize? || s.calls[t].Unlock?
    ensures NextPhase(s, StepRemove(s, t), t)
  {
  }

  lemma RemovePhase(s: Cache, t: nat)
    requires t < |s.calls| && InRemove(s.calls[t]) && !s.calls[t].WantRemove? && !s.calls[t].WantClear?
    requires WriterInv(s, s.calls[t]) && Distinct(s.queue) && |s.entries| <= s.limit
    ensures NextPhase(s, StepRemove(s, t), t)
  {
    if s.calls[t].RemoveEntry? || s.calls[t].RemoveQueued? || s.calls[t].RemoveResize? {
      RemoveEntryPhase(s, t);
    } else {
      ClearPhase(s, t);
    }
  }

  lemma RemoveStructure(s: Cache, t: nat)
    requires LockInv(s) && StructureInv(s) && Enabled(s, Step(t)) && InRemove(s.calls[t])
    ensures StructureInv(StepRemove(s, t))
  {
    assert CallLocks(s, t);
    if s.calls[t].WantRemove? || s.calls[t].WantClear? {
      EnterStructure(s, StepRemove(s, t), t);
    } else {
      RemovePhase(s, t);
      WriterFrame(s, StepRemove(s, t), t);
    }
  }

  lemma ThrowStructure(s: Cache, t: nat, gen: Key -> Value)
    requires LockInv(s) && StructureInv(s) && Enabled(s, Throw(t))
    ensures StructureInv(Apply(s, Throw(t), gen))
  {
    assert CallLocks(s, t);
    if s.calls[t].Generating0? {
      StructureFrame(s, Apply(s, Throw(t), gen), t);
    } else {
      WriterFrame(s, Apply(s, Throw(t), gen), t);
    }
  }

  lemma StructureStep(s: Cache, a: Action, gen: Key -> Value)
    requires LockInv(s) && StructureInv(s) && Enabled(s, a)
    ensures StructureInv(Apply(s, a, gen))
  {
    if a.Throw? {
      ThrowStructure(s, a.t, gen);
    } else if InRead(s.calls[a.t]) {
      ReadStructure(s, a.t, gen);
    } else if InMiss(s.calls[a.t]) {
      MissStructure(s, a.t, gen);
    } else {
      RemoveStructure(s, a.t);
    }
  }

  // ----- Values -----

  ghost predicate CarriesValue(p: Pc) {
    || p.Hit? || p.WantRead? || p.Taking? || p.Offering? || p.ReadUnlock? || p.LateTaking? || p.LateOffering?
    || p.Sizing? || p.Polling? || p.Evicting? || p.Inserting? || p.Putting? || p.Resizing? || p.WriteUnlock?
    || p.Returned?
  }

  ghost predicate ValueInv(s: Cache, gen: Key -> Value) {
    && (forall k :: k in s.entries ==> s.entries[k] == gen(k))
    && (forall t :: 0 <= t < |s.calls| && CarriesValue(s.calls[t]) ==> s.calls[t].value == gen(s.calls[t].key))
  }

  ghost predicate PcValue(p: Pc, gen: Key -> Value) {
    CarriesValue(p) ==> p.value == gen(p.key)
  }

  lemma ValueFrame(s: Cache, u: Cache, t: nat, gen: Key -> Value)
    requires ValueInv(s, gen) && t < |s.calls| == |u.calls| && u.calls == s.calls[t := u.calls[t]]
    requires PcValue(u.calls[t], gen) && forall k :: k in u.entries ==> u.entries[k] == gen(k)
    ensures ValueInv(u, gen)
  {
  }

  lemma ValueRead(s: Cache, t: nat, gen: Key -> Value)
    requires ValueInv(s, gen) && t < |s.calls| && InRead(s.calls[t])
    ensures ValueInv(StepRead(s, t, gen), gen)
  {
    assert PcValue(s.calls[t], gen);
    ValueFrame(s, StepRead(s, t, gen), t, gen);
  }

  lemma ValueRemove(s: Cache, t: nat, gen: Key -> Value)
    requires ValueInv(s, gen) && t < |s.calls| && InRemove(s.calls[t])
    ensures ValueInv(StepRemove(s, t), gen)
  {
    ValueFrame(s, StepRemove(s, t), t, gen);
  }

  lemma ValueStep(s: Cache, a: Action, gen: Key -> Value)
    requires ValueInv(s, gen) && Enabled(s, a)
    ensures ValueInv(Apply(s, a, gen), gen)
  {
    if a.Throw? {
      ValueFrame(s, Apply(s, a, gen), a.t, gen);
    } else if InRead(s.calls[a.t]) {
      ValueRead(s, a.t, gen);
    } else if InMiss(s.calls[a.t]) {
      ValueMiss(s, a.t, gen);
    } else {
      ValueRemove(s, a.t, gen);
    }
  }

  lemma ValueMiss(s: Cache, t: nat, gen: Key -> Value)
    requires ValueInv(s, gen) && t < |s.calls| && InMiss(s.calls[t])
    ensures ValueInv(StepMiss(s, t, gen), gen)
  {
    assert PcValue(s.calls[t], gen);
    ValueFrame(s, StepMiss(s, t, gen), t, gen);
  }

  // ----- What follows for every run -----

  ghost predicate Inv(s: Cache, gen: Key -> Value) {
    LockInv(s) && StructureInv(s) && ValueInv(s, gen)
  }

  lemma {:induction false} RunKeepsInv(s: Cache, run: seq<Action>, gen: Key -> Value)
    requires Inv(s, gen) && Exec(s, run, gen).Some?
    ensures Inv(Exec(s, run, gen).value, gen)
  {
    if run != [] {
      var n := |run| - 1;
      RunKeepsInv(s, run[..n], gen);
      var u := Exec(s, run[..n], gen).value;
      LockStep(u, run[n], gen);
      StructureStep(u, run[n], gen);
      ValueStep(u, run[n], gen);
    }
  }

  lemma InitialInv(s: Cache, gen: Key -> Value)
    requires Initial(s)
    ensures Inv(s, gen)
  {
    assert LockInv(s);
    assert StructureInv(s);
  }

  lemma Reachable(init: Cache, run: seq<Action>, gen: Key -> Value)
    requires Initial(init) && Exec(init, run, gen).Some?
    ensures Inv(Exec(init, run, gen).value, gen)
  {
    InitialInv(init, gen);
    RunKeepsInv(init, run, gen);
  }

  /** Whatever readers and writers do, every get that has returned gave the generator's value for its key. */
  lemma Transparent(init: Cache, run: seq<Action>, gen: Key -> Value, t: nat)
    requires Initial(init) && Exec(init, run, gen).Some?
    requires t < |Exec(init, run, gen).value.calls| && Exec(init, run, gen).value.calls[t].Returned?
    ensures var p := Exec(init, run, gen).value.calls[t]; p.value == gen(p.key)
  {
    Reachable(init, run, gen);
  }

  /** The map is within its limit after every single action, also between an eviction and the insertion it is for. */
  lemma Bounded(init: Cache, run: seq<Action>, gen: Key -> Value)
    requires Initial(init) && Exec(init, run, gen).Some?
    ensures |Exec(init, run, gen).value.entries| <= init.limit
  {
    Reachable(init, run, gen);
    LimitStays(init, run, gen);
  }

  lemma LimitStep(s: Cache, a: Action, gen: Key -> Value)
    requires Enabled(s, a)
    ensures Apply(s, a, gen).limit == s.limit
  {
  }

  lemma {:induction false} LimitStays(s: Cache, run: seq<Action>, gen: Key -> Value)
    requires Exec(s, run, gen).Some?
    ensures Exec(s, run, gen).value.limit == s.limit
  {
    if run != [] {
      var n := |run| - 1;
      LimitStays(s, run[..n], gen);
      LimitStep(Exec(s, run[..n], gen).value, run[n], gen);
    }
  }

  /** The keys that readers hold between taking them out of the queue and offering them back. */
  ghost function HeldKeys(calls: seq<Pc>): seq<Key> {
    if calls == [] then []
    else
      var last := calls[|calls| - 1];
      HeldKeys(calls[..|calls| - 1]) + if last.Offering? then [last.key] else []
  }

  lemma {:induction false} HeldKeysAre(s: Cache, n: nat)
    requires n <= |s.calls| && HeldInv(s)
    ensures forall k :: k in HeldKeys(s.calls[..n]) <==>
              exists t :: 0 <= t < n && s.calls[t].Offering? && s.calls[t].key == k
    ensures Distinct(HeldKeys(s.calls[..n]))
  {
    if n > 0 {
      HeldKeysAre(s, n - 1);
      assert s.calls[..n][..n - 1] == s.calls[..n - 1];
      if s.calls[n - 1].Offering? {
        assert s.calls[n - 1].key !in HeldKeys(s.calls[..n - 1]);
      }
    }
  }

  /** Whenever no writer holds the lock, the queue and the keys held by readers together are the keys of the map, each
      once, and size is the size of the map. */
  lemma QueueMatchesMap(init: Cache, run: seq<Action>, gen: Key -> Value)
    requires Initial(init) && Exec(init, run, gen).Some? && Exec(init, run, gen).value.writer.None?
    ensures var s := Exec(init, run, gen).value;
            && Distinct(s.queue + HeldKeys(s.calls))
            && (forall k :: k in s.queue + HeldKeys(s.calls) <==> k in s.entries)
            && s.size == |s.entries|
  {
    Reachable(init, run, gen);
    FreeMatches(Exec(init, run, gen).value);
  }

  lemma FreeMatches(s: Cache)
    requires Distinct(s.queue) && HeldInv(s) && FreeInv(s)
    ensures Distinct(s.queue + HeldKeys(s.calls))
    ensures forall k :: k in s.queue + HeldKeys(s.calls) <==> k in s.entries
  {
    HeldKeysAre(s, |s.calls|);
    assert s.calls[..|s.calls|] == s.calls;
    var held := HeldKeys(s.calls);
    forall k
      ensures k in held <==> Held(s, k)
      ensures k in held ==> k in s.entries && k !in s.queue
    {
    }
    DistinctConcat(s.queue, held);
  }

  lemma DistinctConcat(xs: seq<Key>, ys: seq<Key>)
    requires Distinct(xs) && Distinct(ys) && forall k :: k in ys ==> k !in xs
    ensures Distinct(xs + ys)
  {
    var all := xs + ys;
    forall i, j | 0 <= i < j < |all|
      ensures all[i] != all[j]
    {
      assert i < |xs| <= j ==> ys[j - |xs|] in ys;
    }
  }
}
