/**
 The concurrent cache does what the sequential one does: between taking the exclusive lock and giving it back, a call
 changes map, queue and size as LruRecency says, whatever the other calls do meanwhile; and a call that is left alone
 returns, having done just that, also where it takes the shared lock or none.
 */
module LruSections {
  import opened Options
  import opened C = LruCache
  import L = LruRecency

  /** Map, queue and size of the cache are those of l. */
  ghost predicate Is(u: Cache, l: L.Lru) {
    u.limit == l.limit && u.entries == l.entries && u.queue == l.queue && u.size == l.size
  }

  function Always(gen: Key -> Value): L.Generator {
    k => Some(gen(k))
  }

  /** Where a call stands right after it took the exclusive lock for op. */
  function Locked(op: L.Op): Pc {
    match op
    case GetOp(key) => Retrying(key)
    case RemoveOp(key) => RemoveEntry(key)
    case ClearOp => ClearEntries
  }

  /** The least recently used key is out, if the cache is full. */
  function Evicted(l: L.Lru): L.Lru {
    if l.size == l.limit && l.queue != [] then l.(entries := l.entries - {l.queue[0]}, queue := l.queue[1..]) else l
  }

  /** How far a get that holds the exclusive lock has come from l. */
  ghost predicate GetPhase(l: L.Lru, u: Cache, key: Key, p: Pc, gen: Key -> Value) {
    match p
    case Retrying(k) => k == key && Is(u, l)
    case LateTaking(k, v) => k == key && key in l.entries && v == l.entries[key] && Is(u, l)
    case LateOffering(k, v) =>
      && k == key && key in l.entries && v == l.entries[key] && key in l.queue
      && Is(u, l.(queue := RemoveLast(l.queue, key)))
    case Generating(k) => k == key && key !in l.entries && Is(u, l)
    case Sizing(k, v) => k == key && key !in l.entries && v == gen(key) && Is(u, l)
    case Polling(k, v) => k == key && key !in l.entries && v == gen(key) && l.size == l.limit && Is(u, l)
    case Evicting(k, v, least) =>
      && k == key && key !in l.entries && v == gen(key) && l.size == l.limit && l.queue != [] && least == l.queue[0]
      && Is(u, l.(queue := l.queue[1..]))
    case Inserting(k, v) => k == key && key !in l.entries && v == gen(key) && Is(u, Evicted(l))
    case Putting(k, v) =>
      && k == key && key !in l.entries && v == gen(key)
      && Is(u, Evicted(l).(queue := Evicted(l).queue + [key]))
    case Resizing(k, v) =>
      && k == key && key !in l.entries && v == gen(key)
      && Is(u, Evicted(l).(queue := Evicted(l).queue + [key], entries := Evicted(l).entries[key := v]))
    case WriteUnlock(k, v) =>
      k == key && v == (if key in l.entries then l.entries[key] else gen(key)) && GetDone(l, u, key, gen)
    case Unlock => key !in l.entries && Is(u, l)
    case _ => false
  }

  /** A key that is found once the lock is held goes to the end of the queue, full or not; a key that is not is inserted
      as the sequential get does. */
  ghost predicate GetDone(l: L.Lru, u: Cache, key: Key, gen: Key -> Value) {
    if key in l.entries then Is(u, l.(queue := L.Touch(l.queue, key)))
    else Is(u, L.Do(l, L.GetOp(key), Always(gen)))
  }

  ghost predicate RemovePhase(l: L.Lru, u: Cache, key: Key, p: Pc) {
    match p
    case RemoveEntry(k) => k == key && Is(u, l)
    case RemoveQueued(k) => k == key && Is(u, l.(entries := l.entries - {key}))
    case RemoveResize => Is(u, l.(entries := l.entries - {key}, queue := RemoveFirst(l.queue, key)))
    case Unlock => Is(u, L.Remove(l, key))
    case _ => false
  }

  ghost predicate ClearPhase(l: L.Lru, u: Cache, p: Pc) {
    match p
    case ClearEntries => Is(u, l)
    case ClearQueue => Is(u, l.(entries := map[]))
    case ClearSize => Is(u, l.(entries := map[], queue := []))
    case Unlock => Is(u, L.Clear(l))
    case _ => false
  }

  ghost predicate Phase(l: L.Lru, u: Cache, op: L.Op, p: Pc, gen: Key -> Value) {
    match op
    case GetOp(key) => l.limit > 0 && GetPhase(l, u, key, p, gen)
    case RemoveOp(key) => RemovePhase(l, u, key, p)
    case ClearOp => ClearPhase(l, u, p)
  }

  // ----- The holder of the lock -----

  lemma GetStepA(l: L.Lru, u: Cache, t: nat, key: Key, gen: Key -> Value)
    requires t < |u.calls| && l.limit > 0 && GetPhase(l, u, key, u.calls[t], gen)
    requires u.calls[t].Retrying? || u.calls[t].LateTaking? || u.calls[t].LateOffering? || u.calls[t].Generating?
             || u.calls[t].Sizing?
    ensures var v := StepMiss(u, t, gen); GetPhase(l, v, key, v.calls[t], gen)
  {
  }

  lemma GetStepB(l: L.Lru, u: Cache, t: nat, key: Key, gen: Key -> Value)
    requires t < |u.calls| && l.limit > 0 && GetPhase(l, u, key, u.calls[t], gen)
    requires u.calls[t].Polling? || u.calls[t].Evicting? || u.calls[t].Inserting? || u.calls[t].Putting?
    ensures var v := StepMiss(u, t, gen); GetPhase(l, v, key, v.calls[t], gen)
  {
  }

  lemma GetStepC(l: L.Lru, u: Cache, t: nat, key: Key, gen: Key -> Value)
    requires t < |u.calls| && l.limit > 0 && GetPhase(l, u, key, u.calls[t], gen) && u.calls[t].Resizing?
    ensures var v := StepMiss(u, t, gen); GetPhase(l, v, key, v.calls[t], gen)
  {
  }

  lemma GetStep(l: L.Lru, u: Cache, a: Action, key: Key, gen: Key -> Value)
    requires Enabled(u, a) && l.limit > 0 && GetPhase(l, u, key, u.calls[a.t], gen)
    requires !u.calls[a.t].WriteUnlock? && !u.calls[a.t].Unlock?
    ensures var v := Apply(u, a, gen); GetPhase(l, v, key, v.calls[a.t], gen)
  {
    var p := u.calls[a.t];
    if a.Step? {
      if p.Polling? || p.Evicting? || p.Inserting? || p.Putting? {
        GetStepB(l, u, a.t, key, gen);
      } else if p.Resizing? {
        GetStepC(l, u, a.t, key, gen);
      } else {
        GetStepA(l, u, a.t, key, gen);
      }
    }
  }

  lemma RemoveStep(l: L.Lru, u: Cache, a: Action, key: Key, gen: Key -> Value)
    requires Enabled(u, a) && RemovePhase(l, u, key, u.calls[a.t]) && !u.calls[a.t].Unlock?
    ensures var v := Apply(u, a, gen); RemovePhase(l, v, key, v.calls[a.t])
  {
  }

  lemma ClearStep(l: L.Lru, u: Cache, a: Action, gen: Key -> Value)
    requires Enabled(u, a) && ClearPhase(l, u, u.calls[a.t]) && !u.calls[a.t].Unlock?
    ensures var v := Apply(u, a, gen); ClearPhase(l, v, v.calls[a.t])
  {
  }

  lemma OwnStep(l: L.Lru, u: Cache, a: Action, op: L.Op, gen: Key -> Value)
    requires Enabled(u, a) && Phase(l, u, op, u.calls[a.t], gen)
    requires !u.calls[a.t].WriteUnlock? && !u.calls[a.t].Unlock?
    ensures var v := Apply(u, a, gen); Phase(l, v, op, v.calls[a.t], gen)
  {
    match op
    case GetOp(key) => GetStep(l, u, a, key, gen);
    case RemoveOp(key) => RemoveStep(l, u, a, key, gen);
    case ClearOp => ClearStep(l, u, a, gen);
  }

  // ----- Everyone else -----

  /** While t holds the exclusive lock, the other calls change nothing. */
  lemma OthersWait(u: Cache, a: Action, t: nat, gen: Key -> Value)
    requires LockInv(u) && Enabled(u, a) && t < |u.calls| && u.writer == Some(t) && a.t != t
    ensures var v := Apply(u, a, gen);
            && v.entries == u.entries && v.queue == u.queue && v.size == u.size && v.limit == u.limit
            && t < |v.calls| && v.calls[t] == u.calls[t]
  {
    assert CallLocks(u, a.t);
    assert !HoldsWrite(u.calls[a.t]) && !HoldsRead(u.calls[a.t]);
  }

  lemma PhaseFrame(l: L.Lru, u: Cache, v: Cache, op: L.Op, p: Pc, gen: Key -> Value)
    requires Phase(l, u, op, p, gen)
    requires v.entries == u.entries && v.queue == u.queue && v.size == u.size && v.limit == u.limit
    ensures Phase(l, v, op, p, gen)
  {
    assert forall m :: Is(u, m) ==> Is(v, m);
  }

  lemma PhaseHolds(l: L.Lru, u: Cache, op: L.Op, p: Pc, gen: Key -> Value)
    requires Phase(l, u, op, p, gen)
    ensures HoldsWrite(p)
  {
  }

  /** Either t is still at it, or it has given the lock back for good. */
  ghost predicate AtIt(l: L.Lru, u: Cache, t: nat, op: L.Op, gen: Key -> Value) {
    t < |u.calls| && (Phase(l, u, op, u.calls[t], gen) || u.calls[t].Returned? || u.calls[t].Finished?)
  }

  lemma ReleaseStep(u: Cache, a: Action, gen: Key -> Value)
    requires Enabled(u, a) && (u.calls[a.t].WriteUnlock? || u.calls[a.t].Unlock?)
    ensures Apply(u, a, gen).calls[a.t].Returned? || Apply(u, a, gen).calls[a.t].Finished?
  {
  }

  /** A step moves its own call only. */
  lemma MovesOwn(u: Cache, a: Action, gen: Key -> Value)
    requires Enabled(u, a)
    ensures var v := Apply(u, a, gen); |v.calls| == |u.calls| && v.calls == u.calls[a.t := v.calls[a.t]]
  {
    if a.Step? {
      if InRead(u.calls[a.t]) {
        assert StepRead(u, a.t, gen).calls == u.calls[a.t := StepRead(u, a.t, gen).calls[a.t]];
      } else if InMiss(u.calls[a.t]) {
        assert StepMiss(u, a.t, gen).calls == u.calls[a.t := StepMiss(u, a.t, gen).calls[a.t]];
      } else {
        assert StepRemove(u, a.t).calls == u.calls[a.t := StepRemove(u, a.t).calls[a.t]];
      }
    }
  }

  lemma GoneStays(u: Cache, a: Action, t: nat, gen: Key -> Value)
    requires Enabled(u, a) && t < |u.calls| && (u.calls[t].Returned? || u.calls[t].Finished?)
    ensures t < |Apply(u, a, gen).calls| && Apply(u, a, gen).calls[t] == u.calls[t]
  {
    MovesOwn(u, a, gen);
    assert a.t != t;
  }

  lemma AtItStep(l: L.Lru, u: Cache, a: Action, t: nat, op: L.Op, gen: Key -> Value)
    requires LockInv(u) && Enabled(u, a) && AtIt(l, u, t, op, gen)
    ensures AtIt(l, Apply(u, a, gen), t, op, gen)
  {
    if u.calls[t].Returned? || u.calls[t].Finished? {
      GoneStays(u, a, t, gen);
    } else if a.t != t {
      PhaseHolds(l, u, op, u.calls[t], gen);
      assert CallLocks(u, t);
      OthersWait(u, a, t, gen);
      PhaseFrame(l, u, Apply(u, a, gen), op, u.calls[t], gen);
    } else if u.calls[t].WriteUnlock? || u.calls[t].Unlock? {
      ReleaseStep(u, a, gen);
    } else {
      OwnStep(l, u, a, op, gen);
    }
  }

  lemma {:induction false} AtItRun(l: L.Lru, s: Cache, more: seq<Action>, t: nat, op: L.Op, gen: Key -> Value)
    requires C.Inv(s, gen) && Exec(s, more, gen).Some? && AtIt(l, s, t, op, gen)
    ensures AtIt(l, Exec(s, more, gen).value, t, op, gen)
  {
    if more != [] {
      var n := |more| - 1;
      AtItRun(l, s, more[..n], t, op, gen);
      RunKeepsInv(s, more[..n], gen);
      AtItStep(l, Exec(s, more[..n], gen).value, more[n], t, op, gen);
    }
  }

  /** What has happened to l when the call is about to give the lock back. */
  ghost predicate Done(l: L.Lru, u: Cache, op: L.Op, p: Pc, gen: Key -> Value) {
    match op
    case GetOp(key) =>
      if p.Unlock? then key !in l.entries && Is(u, l)    // the generator threw
      else GetDone(l, u, key, gen)
    case RemoveOp(_) => Is(u, L.Do(l, op, Always(gen)))
    case ClearOp => Is(u, L.Do(l, op, Always(gen)))
  }

  lemma PhaseStarts(l: L.Lru, s: Cache, t: nat, op: L.Op, gen: Key -> Value)
    requires t < |s.calls| && s.calls[t] == Locked(op) && Is(s, l) && Uncached(s, s.calls[t])
    ensures Phase(l, s, op, s.calls[t], gen)
  {
  }

  lemma GetEnds(l: L.Lru, u: Cache, key: Key, p: Pc, gen: Key -> Value)
    requires GetPhase(l, u, key, p, gen) && (p.WriteUnlock? || p.Unlock?)
    ensures if p.Unlock? then key !in l.entries && Is(u, l) else GetDone(l, u, key, gen) && p.key == key
  {
  }

  lemma PhaseEnds(l: L.Lru, u: Cache, op: L.Op, p: Pc, gen: Key -> Value)
    requires Phase(l, u, op, p, gen) && (p.WriteUnlock? || p.Unlock?)
    ensures Done(l, u, op, p, gen) && (p.WriteUnlock? ==> op.GetOp? && p.key == op.key)
  {
    if op.GetOp? {
      GetEnds(l, u, op.key, p, gen);
    } else if op.RemoveOp? {
      assert p.Unlock? && Is(u, L.Remove(l, op.key));
    } else {
      assert p.Unlock? && Is(u, L.Clear(l));
    }
  }

  /** In every run, from the moment a call has the exclusive lock until it gives it back, map, queue and size go from
      what they were to what the sequential operation makes of them. A key that turned up meanwhile is moved to the end
      of the queue, as the sequential get does in a full cache; a generator that throws leaves all as it was. */
  lemma Section(init: Cache, run: seq<Action>, more: seq<Action>, gen: Key -> Value, t: nat, op: L.Op, l: L.Lru)
    requires Initial(init) && Exec(init, run, gen).Some? && Exec(Exec(init, run, gen).value, more, gen).Some?
    requires var s := Exec(init, run, gen).value; t < |s.calls| && s.calls[t] == Locked(op) && Is(s, l)
    ensures var u := Exec(Exec(init, run, gen).value, more, gen).value;
            && t < |u.calls|
            && (u.calls[t].WriteUnlock? || u.calls[t].Unlock? ==> Done(l, u, op, u.calls[t], gen))
            && (u.calls[t].WriteUnlock? ==> op.GetOp? && u.calls[t].key == op.key)
  {
    Reachable(init, run, gen);
    var s := Exec(init, run, gen).value;
    SectionFrom(s, more, gen, t, op, l);
  }

  lemma SectionFrom(s: Cache, more: seq<Action>, gen: Key -> Value, t: nat, op: L.Op, l: L.Lru)
    requires C.Inv(s, gen) && Exec(s, more, gen).Some? && t < |s.calls| && s.calls[t] == Locked(op) && Is(s, l)
    ensures var u := Exec(s, more, gen).value;
            && t < |u.calls|
            && (u.calls[t].WriteUnlock? || u.calls[t].Unlock? ==> Done(l, u, op, u.calls[t], gen))
            && (u.calls[t].WriteUnlock? ==> op.GetOp? && u.calls[t].key == op.key)
  {
    PhaseStarts(l, s, t, op, gen);
    AtItRun(l, s, more, t, op, gen);
    var u := Exec(s, more, gen).value;
    if u.calls[t].WriteUnlock? || u.calls[t].Unlock? {
      PhaseEnds(l, u, op, u.calls[t], gen);
    }
  }

  /** A late hit in a full cache is what the sequential get does. */
  lemma LateHitInFull(l: L.Lru, key: Key, gen: Key -> Value)
    requires 0 < l.limit <= l.size && key in l.entries
    ensures L.Do(l, L.GetOp(key), Always(gen)) == l.(queue := L.Touch(l.queue, key))
  {
  }

  /** A hit under the shared lock takes its key out of the queue and nothing else, and puts it back as the last one,
      whoever was at the queue in between. */
  lemma HitMoves(s: Cache, gen: Key -> Value, t: nat)
    requires Enabled(s, Step(t)) && (s.calls[t].Taking? || s.calls[t].Offering?) && Distinct(s.queue)
    ensures var key, v := s.calls[t].key, Apply(s, Step(t), gen);
            && v.entries == s.entries && v.size == s.size
            && (s.calls[t].Offering? ==> v.queue == s.queue + [key])
            && (s.calls[t].Taking? ==> forall k :: k in v.queue <==> k in s.queue && k != key)
            && (v.calls[t].Offering? <==> s.calls[t].Taking? && key in s.queue)
  {
    RemoveLastSpec(s.queue, s.calls[t].key);
    assert Apply(s, Step(t), gen) == StepRead(s, t, gen);
  }

  // ----- A call left alone -----

  /** Where a call stands before it is made. */
  function Called(op: L.Op): Pc {
    match op
    case GetOp(key) => Getting(key)
    case RemoveOp(key) => WantRemove(key)
    case ClearOp => WantClear
  }

  /** How far a get has come that takes the shared lock or none. */
  ghost predicate ReadPhase(l: L.Lru, u: Cache, key: Key, p: Pc) {
    match p
    case Getting(k) => k == key && Is(u, l)
    case Generating0(k) => k == key && l.limit == 0 && Is(u, l)
    case Hit(k, v) => k == key && l.limit > 0 && key in l.entries && v == l.entries[key] && Is(u, l)
    case WantRead(k, v) =>
      k == key && 0 < l.limit <= l.size && key in l.entries && v == l.entries[key] && Is(u, l)
    case Taking(k, v) =>
      k == key && 0 < l.limit <= l.size && key in l.entries && v == l.entries[key] && Is(u, l)
    case Offering(k, v) =>
      && k == key && 0 < l.limit <= l.size && key in l.entries && v == l.entries[key] && key in l.queue
      && Is(u, l.(queue := RemoveLast(l.queue, key)))
    case ReadUnlock(k, v) =>
      && k == key && 0 < l.limit <= l.size && key in l.entries && v == l.entries[key]
      && Is(u, l.(queue := L.Touch(l.queue, key)))
    case WantWrite(k) => k == key && l.limit > 0 && key !in l.entries && Is(u, l)
    case _ => false
  }

  ghost predicate Free(u: Cache, t: nat) {
    (u.writer.None? || u.writer == Some(t)) && u.readers <= {t}
  }

  /** The call has returned with the right value, and the cache is as the sequential operation leaves it. */
  ghost predicate Returns(l: L.Lru, u: Cache, op: L.Op, p: Pc, gen: Key -> Value) {
    && Is(u, L.Do(l, op, Always(gen)))
    && match op
       case GetOp(key) => p == Returned(key, if l.limit > 0 && key in l.entries then l.entries[key] else gen(key))
       case _ => p.Finished?
  }

  ghost predicate Alone(l: L.Lru, u: Cache, t: nat, op: L.Op, gen: Key -> Value) {
    && t < |u.calls| && Free(u, t)
    && var p := u.calls[t];
       || Returns(l, u, op, p, gen)
       || (op.GetOp? && ReadPhase(l, u, op.key, p))
       || (Phase(l, u, op, p, gen) && (op.GetOp? ==> op.key !in l.entries && !p.Unlock?))
       || (p == Called(op) && Is(u, l))
  }

  lemma AloneLook(l: L.Lru, u: Cache, t: nat, key: Key, gen: Key -> Value)
    requires t < |u.calls| && Free(u, t) && ReadPhase(l, u, key, u.calls[t])
    requires u.calls[t].Getting? || u.calls[t].Generating0? || u.calls[t].Hit?
    ensures Enabled(u, Step(t)) && Alone(l, Apply(u, Step(t), gen), t, L.GetOp(key), gen)
  {
    assert Apply(u, Step(t), gen) == StepRead(u, t, gen);
  }

  lemma AloneTouch(l: L.Lru, u: Cache, t: nat, key: Key, gen: Key -> Value)
    requires t < |u.calls| && Free(u, t) && u.writer.None? && ReadPhase(l, u, key, u.calls[t])
    requires u.calls[t].WantRead? || u.calls[t].Taking? || u.calls[t].Offering? || u.calls[t].ReadUnlock?
    ensures Enabled(u, Step(t)) && Alone(l, Apply(u, Step(t), gen), t, L.GetOp(key), gen)
  {
    assert Apply(u, Step(t), gen) == StepRead(u, t, gen);
  }

  lemma AloneLock(l: L.Lru, u: Cache, t: nat, key: Key, gen: Key -> Value)
    requires t < |u.calls| && u.writer.None? && u.readers == {} && ReadPhase(l, u, key, u.calls[t])
    requires u.calls[t].WantWrite?
    ensures Enabled(u, Step(t)) && Alone(l, Apply(u, Step(t), gen), t, L.GetOp(key), gen)
  {
    assert Apply(u, Step(t), gen) == StepMiss(u, t, gen);
  }

  lemma AloneRead(l: L.Lru, u: Cache, t: nat, key: Key, gen: Key -> Value)
    requires LockInv(u) && t < |u.calls| && Free(u, t) && ReadPhase(l, u, key, u.calls[t])
    ensures Enabled(u, Step(t)) && Alone(l, Apply(u, Step(t), gen), t, L.GetOp(key), gen)
  {
    assert CallLocks(u, t);
    var p := u.calls[t];
    if p.Getting? || p.Generating0? || p.Hit? {
      AloneLook(l, u, t, key, gen);
    } else if p.WantWrite? {
      AloneLock(l, u, t, key, gen);
    } else {
      AloneTouch(l, u, t, key, gen);
    }
  }

  lemma AloneUnlock(l: L.Lru, u: Cache, t: nat, op: L.Op, gen: Key -> Value)
    requires LockInv(u) && t < |u.calls| && Free(u, t) && Phase(l, u, op, u.calls[t], gen)
    requires u.calls[t].WriteUnlock? || u.calls[t].Unlock?
    requires op.GetOp? ==> op.key !in l.entries && !u.calls[t].Unlock?
    ensures Enabled(u, Step(t)) && Alone(l, Apply(u, Step(t), gen), t, op, gen)
  {
    assert CallLocks(u, t);
  }

  lemma AloneRemoves(l: L.Lru, u: Cache, t: nat, key: Key, gen: Key -> Value)
    requires t < |u.calls| && u.writer.None? && u.readers == {} && u.calls[t] == WantRemove(key) && Is(u, l)
    ensures Enabled(u, Step(t)) && Alone(l, Apply(u, Step(t), gen), t, L.RemoveOp(key), gen)
  {
    assert Apply(u, Step(t), gen) == StepRemove(u, t);
  }

  lemma AloneClears(l: L.Lru, u: Cache, t: nat, gen: Key -> Value)
    requires t < |u.calls| && u.writer.None? && u.readers == {} && u.calls[t] == WantClear && Is(u, l)
    ensures Enabled(u, Step(t)) && Alone(l, Apply(u, Step(t), gen), t, L.ClearOp, gen)
  {
    assert Apply(u, Step(t), gen) == StepRemove(u, t);
  }

  lemma AloneCalled(l: L.Lru, u: Cache, t: nat, op: L.Op, gen: Key -> Value)
    requires LockInv(u) && t < |u.calls| && Free(u, t) && u.calls[t] == Called(op) && Is(u, l) && !op.GetOp?
    ensures Enabled(u, Step(t)) && Alone(l, Apply(u, Step(t), gen), t, op, gen)
  {
    assert CallLocks(u, t);
    if op.RemoveOp? {
      AloneRemoves(l, u, t, op.key, gen);
    } else {
      AloneClears(l, u, t, gen);
    }
  }

  lemma AlonePhase(l: L.Lru, u: Cache, t: nat, op: L.Op, gen: Key -> Value)
    requires LockInv(u) && t < |u.calls| && Free(u, t) && Phase(l, u, op, u.calls[t], gen)
    requires !u.calls[t].WriteUnlock? && !u.calls[t].Unlock? && (op.GetOp? ==> op.key !in l.entries)
    ensures Enabled(u, Step(t)) && Alone(l, Apply(u, Step(t), gen), t, op, gen)
  {
    PhaseHolds(l, u, op, u.calls[t], gen);
    assert CallLocks(u, t);
    OwnStep(l, u, Step(t), op, gen);
    LockStep(u, Step(t), gen);
    PhaseHolds(l, Apply(u, Step(t), gen), op, Apply(u, Step(t), gen).calls[t], gen);
    assert CallLocks(Apply(u, Step(t), gen), t);
  }

  lemma AloneStep(l: L.Lru, u: Cache, t: nat, op: L.Op, gen: Key -> Value)
    requires LockInv(u) && Alone(l, u, t, op, gen) && !Returns(l, u, op, u.calls[t], gen)
    ensures Enabled(u, Step(t)) && Alone(l, Apply(u, Step(t), gen), t, op, gen)
  {
    if op.GetOp? && ReadPhase(l, u, op.key, u.calls[t]) {
      AloneRead(l, u, t, op.key, gen);
    } else if !Phase(l, u, op, u.calls[t], gen) {
      AloneCalled(l, u, t, op, gen);
    } else if u.calls[t].WriteUnlock? || u.calls[t].Unlock? {
      AloneUnlock(l, u, t, op, gen);
    } else {
      AlonePhase(l, u, t, op, gen);
    }
  }

  // ----- It returns -----

  /** How many steps a call may still have to take. */
  function Rank(p: Pc): nat {
    match p
    case Getting(_) => 14
    case Generating0(_) => 1
    case Hit(_, _) => 5
    case WantRead(_, _) => 4
    case Taking(_, _) => 3
    case Offering(_, _) => 2
    case ReadUnlock(_, _) => 1
    case WantWrite(_) => 13
    case Retrying(_) => 12
    case LateTaking(_, _) => 3
    case LateOffering(_, _) => 2
    case Generating(_) => 11
    case Sizing(_, _) => 10
    case Polling(_, _) => 9
    case Evicting(_, _, _) => 8
    case Inserting(_, _) => 7
    case Putting(_, _) => 6
    case Resizing(_, _) => 5
    case WriteUnlock(_, _) => 1
    case Returned(_, _) => 0
    case WantRemove(_) => 6
    case RemoveEntry(_) => 5
    case RemoveQueued(_) => 4
    case RemoveResize => 3
    case WantClear => 6
    case ClearEntries => 5
    case ClearQueue => 4
    case ClearSize => 3
    case Unlock => 1
    case Finished => 0
  }

  lemma RankRead(u: Cache, t: nat, gen: Key -> Value)
    requires t < |u.calls| && InRead(u.calls[t])
    ensures Rank(StepRead(u, t, gen).calls[t]) < Rank(u.calls[t])
  {
  }

  lemma RankLate(u: Cache, t: nat, gen: Key -> Value)
    requires t < |u.calls|
    requires u.calls[t].WantWrite? || u.calls[t].Retrying? || u.calls[t].LateTaking? || u.calls[t].LateOffering?
    ensures Rank(StepMiss(u, t, gen).calls[t]) < Rank(u.calls[t])
  {
  }

  lemma RankGenerate(u: Cache, t: nat, gen: Key -> Value)
    requires t < |u.calls|
    requires u.calls[t].Generating? || u.calls[t].Sizing? || u.calls[t].Polling? || u.calls[t].Evicting?
    ensures Rank(StepMiss(u, t, gen).calls[t]) < Rank(u.calls[t])
  {
  }

  lemma RankInsert(u: Cache, t: nat, gen: Key -> Value)
    requires t < |u.calls|
    requires u.calls[t].Inserting? || u.calls[t].Putting? || u.calls[t].Resizing? || u.calls[t].WriteUnlock?
    ensures Rank(StepMiss(u, t, gen).calls[t]) < Rank(u.calls[t])
  {
  }

  lemma RankMiss(u: Cache, t: nat, gen: Key -> Value)
    requires t < |u.calls| && InMiss(u.calls[t])
    ensures Rank(StepMiss(u, t, gen).calls[t]) < Rank(u.calls[t])
  {
    var p := u.calls[t];
    if p.WantWrite? || p.Retrying? || p.LateTaking? || p.LateOffering? {
      RankLate(u, t, gen);
    } else if p.Generating? || p.Sizing? || p.Polling? || p.Evicting? {
      RankGenerate(u, t, gen);
    } else {
      RankInsert(u, t, gen);
    }
  }

  lemma RankLocking(u: Cache, t: nat)
    requires t < |u.calls| && (u.calls[t].WantRemove? || u.calls[t].RemoveEntry?)
    ensures Rank(StepRemove(u, t).calls[t]) < Rank(u.calls[t])
  {
  }

  lemma RankRemoving(u: Cache, t: nat)
    requires t < |u.calls| && (u.calls[t].RemoveQueued? || u.calls[t].RemoveResize?)
    ensures Rank(StepRemove(u, t).calls[t]) < Rank(u.calls[t])
  {
  }

  lemma RankClearing(u: Cache, t: nat)
    requires t < |u.calls|
    requires u.calls[t].WantClear? || u.calls[t].ClearEntries? || u.calls[t].ClearQueue? || u.calls[t].ClearSize?
             || u.calls[t].Unlock?
    ensures Rank(StepRemove(u, t).calls[t]) < Rank(u.calls[t])
  {
  }

  lemma RankRemove(u: Cache, t: nat)
    requires t < |u.calls| && InRemove(u.calls[t])
    ensures Rank(StepRemove(u, t).calls[t]) < Rank(u.calls[t])
  {
    var p := u.calls[t];
    if p.WantRemove? || p.RemoveEntry? {
      RankLocking(u, t);
    } else if p.RemoveQueued? || p.RemoveResize? {
      RankRemoving(u, t);
    } else {
      RankClearing(u, t);
    }
  }

  lemma RankStep(u: Cache, t: nat, gen: Key -> Value)
    requires Enabled(u, Step(t))
    ensures t < |Apply(u, Step(t), gen).calls| && Rank(Apply(u, Step(t), gen).calls[t]) < Rank(u.calls[t])
  {
    MovesOwn(u, Step(t), gen);
    if InRead(u.calls[t]) {
      RankRead(u, t, gen);
    } else if InMiss(u.calls[t]) {
      RankMiss(u, t, gen);
    } else {
      RankRemove(u, t);
    }
  }

  /** The steps of call t and nothing else. */
  function Steps(t: nat, n: nat): seq<Action> {
    if n == 0 then [] else Steps(t, n - 1) + [Step(t)]
  }

  /** After n steps of its own the call is on its way to u. */
  ghost predicate Underway(l: L.Lru, s: Cache, n: nat, u: Cache, t: nat, op: L.Op, gen: Key -> Value) {
    Exec(s, Steps(t, n), gen) == Some(u) && LockInv(u) && Alone(l, u, t, op, gen)
  }

  lemma GoesOn(l: L.Lru, s: Cache, n: nat, u: Cache, t: nat, op: L.Op, gen: Key -> Value)
    requires Underway(l, s, n, u, t, op, gen) && !Returns(l, u, op, u.calls[t], gen)
    ensures Enabled(u, Step(t))
    ensures var v := Apply(u, Step(t), gen);
            Underway(l, s, n + 1, v, t, op, gen) && Rank(v.calls[t]) < Rank(u.calls[t])
  {
    AloneStep(l, u, t, op, gen);
    RankStep(u, t, gen);
    LockStep(u, Step(t), gen);
    assert Steps(t, n + 1)[..|Steps(t, n + 1)| - 1] == Steps(t, n);
    assert Exec(s, Steps(t, n + 1), gen) == Some(Apply(u, Step(t), gen));
  }

  lemma {:induction false} Goes(l: L.Lru, s: Cache, n: nat, u: Cache, t: nat, op: L.Op, gen: Key -> Value)
    returns (m: nat, v: Cache)
    requires Underway(l, s, n, u, t, op, gen)
    ensures Underway(l, s, m, v, t, op, gen) && Returns(l, v, op, v.calls[t], gen)
    decreases Rank(u.calls[t])
  {
    m, v := n, u;
    if !Returns(l, u, op, u.calls[t], gen) {
      GoesOn(l, s, n, u, t, op, gen);
      m, v := Goes(l, s, n + 1, Apply(u, Step(t), gen), t, op, gen);
    }
  }

  /** In every reachable state in which nobody holds a lock, a call that is left alone returns after a number of its own
      steps, with the value the sequential operation gives and with map, queue and size as it leaves them. */
  lemma LeftAlone(init: Cache, run: seq<Action>, gen: Key -> Value, t: nat, op: L.Op, l: L.Lru)
    requires Initial(init) && Exec(init, run, gen).Some?
    requires var s := Exec(init, run, gen).value;
             t < |s.calls| && s.calls[t] == Called(op) && Is(s, l) && s.writer.None? && s.readers == {}
    ensures exists n :: Exec(Exec(init, run, gen).value, Steps(t, n), gen).Some? &&
              var u := Exec(Exec(init, run, gen).value, Steps(t, n), gen).value;
              t < |u.calls| && Returns(l, u, op, u.calls[t], gen)
  {
    Reachable(init, run, gen);
    var s := Exec(init, run, gen).value;
    assert Underway(l, s, 0, s, t, op, gen);
    var n, u := Goes(l, s, 0, s, t, op, gen);
  }
}
