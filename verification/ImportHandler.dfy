/**
 The outbound handler as written, on the objects of ImportObjects, and the proof that one call of its write, left alone,
 is a run of the step machine in ImportWire: the machine's actions, taken in the order of the code, lead from the state
 the objects stand for before the call to the state they stand for after it.
 */
module ImportHandler {
  import opened Options
  import opened ImportObjects
  import R = Reservation
  import W = ImportWire
  import D = ImportDrain
  import G = ImportGuarantees
  import V = ImportWrites

  class RedisCommand {
    const command: W.Command
    var done: bool

    constructor (command: W.Command)
      ensures this.command == command && !done
    {
      this.command := command;
      done := false;
    }
  }

  ghost function Commands(batch: seq<RedisCommand>): seq<W.Command> {
    seq(|batch|, i requires 0 <= i < |batch| => batch[i].command)
  }

  /** The state s is one that the machine can reach from s0. */
  ghost predicate Reaches(s0: W.System, s: W.System) {
    exists run :: W.Exec(s0, run) == Some(s)
  }

  lemma ReachStep(s0: W.System, s: W.System, a: W.Action)
    requires Reaches(s0, s) && W.Enabled(s, a)
    ensures Reaches(s0, W.Apply(s, a))
  {
    var run :| W.Exec(s0, run) == Some(s);
    assert (run + [a])[..|run|] == run;
    assert W.Exec(s0, run + [a]) == Some(W.Apply(s, a));
  }

  // ----- What the objects stand for -----

  ghost predicate Faithful(h: HashImport, context: HashImportContext, s: W.System, c: nat, f: nat)
    requires f < |s.fieldsets|
    reads h
  {
    var F := s.fieldsets[f];
    && h.id == f && h.Valid()
    && h.closed == F.closed && h.inFlight == F.inFlight && h.cleanedUp == F.cleanedUp
    && (context in h.preparedOn <==> c in F.preparedOn)
  }

  ghost predicate StandsForFieldsets(imports: seq<HashImport>, context: HashImportContext, s: W.System, c: nat)
    reads imports
  {
    && |imports| == |s.fieldsets|
    && forall f :: 0 <= f < |imports| ==> Faithful(imports[f], context, s, c, f)
  }

  /** A SET is done exactly if its call has moved on from having it dispatched. */
  ghost predicate StandsForCommand(x: RedisCommand, s: W.System)
    reads x
  {
    W.Known(s, x.command) && (x.command.Set? ==> x.done == W.IsDone(s, x.command, false))
  }

  /** No two objects for the same SET. */
  ghost predicate Unshared(batch: seq<RedisCommand>) {
    forall i, j | 0 <= i < |batch| && 0 <= j < |batch| ::
      batch[i].command.Set? && batch[i].command == batch[j].command ==> batch[i] == batch[j]
  }

  ghost predicate StandsForBatch(batch: seq<RedisCommand>, s: W.System)
    reads batch
  {
    Unshared(batch) && forall i :: 0 <= i < |batch| ==> StandsForCommand(batch[i], s)
  }

  lemma SameCalls(batch: seq<RedisCommand>, s: W.System, t: W.System)
    requires StandsForBatch(batch, s) && |t.fieldsets| == |s.fieldsets|
    requires forall f :: 0 <= f < |s.fieldsets| ==> t.fieldsets[f].calls == s.fieldsets[f].calls
    ensures StandsForBatch(batch, t)
  {
    forall i | 0 <= i < |batch|
      ensures StandsForCommand(batch[i], t)
    {
      assert StandsForCommand(batch[i], s);
    }
  }

  /** One SET is done now and its call finished; the others are as they were. */
  lemma OneDone(batch: seq<RedisCommand>, x: RedisCommand, s: W.System, t: W.System, f: nat, k: nat)
    requires Unshared(batch) && x in batch && x.command == W.Set(f, k) && x.done
    requires forall y :: y in batch && y != x ==> StandsForCommand(y, s)
    requires f < |s.fieldsets| && k < |s.fieldsets[f].calls|
    requires t.fieldsets == s.fieldsets[f := Gone(s.fieldsets[f], k, R.Finished)]
    ensures StandsForBatch(batch, t)
  {
    forall i | 0 <= i < |batch|
      ensures StandsForCommand(batch[i], t)
    {
      if batch[i] != x {
        assert batch[i] in batch;
        assert batch[i].command.Set? ==> batch[i].command != x.command;
      }
    }
  }

  /** One fieldset is accounted for; the others are as they were. */
  lemma OneFieldset(imports: seq<HashImport>, context: HashImportContext, s: W.System, t: W.System, c: nat, f: nat)
    requires |imports| == |s.fieldsets| == |t.fieldsets|
    requires forall g :: 0 <= g < |imports| && g != f ==> Faithful(imports[g], context, s, c, g)
    requires forall g :: 0 <= g < |imports| && g != f ==> t.fieldsets[g] == s.fieldsets[g]
    requires f < |imports| && Faithful(imports[f], context, t, c, f)
    ensures StandsForFieldsets(imports, context, t, c)
  {
  }

  /** The elements looked at so far, of which the skipped ones are done. */
  ghost predicate SeenSoFar(w: W.Write, batch: seq<RedisCommand>)
    reads batch
  {
    && w.batch == Commands(batch) && |w.seen| <= |batch|
    && forall i :: 0 <= i < |w.seen| && w.seen[i].Skipped? ==> batch[i].done
  }

  lemma BeginStep(s: W.System, c: nat, batch: seq<RedisCommand>)
    requires c < |s.channels| && s.channels[c].active && s.channels[c].loop.Idle? && StandsForBatch(batch, s)
    ensures W.Enabled(s, W.BeginWrite(c, Commands(batch)))
  {
    forall i | 0 <= i < |batch|
      ensures W.Known(s, Commands(batch)[i])
    {
      assert StandsForCommand(batch[i], s);
    }
  }

  ghost predicate ShowsDone(batch: seq<RedisCommand>, done: seq<bool>)
    reads batch
  {
    |done| == |batch| && forall i :: 0 <= i < |batch| ==> batch[i].done == done[i]
  }

  ghost predicate ShowsCleaned(imports: seq<HashImport>, cleaned: seq<bool>)
    reads imports
  {
    |cleaned| == |imports| && forall f :: 0 <= f < |imports| ==> imports[f].cleanedUp == cleaned[f]
  }

  /** After element i was looked at, exactly the objects of a SET that failed are done in addition. */
  lemma DoneShown(batch: seq<RedisCommand>, l: V.Look, cleaned: seq<bool>, i: nat)
    requires Unshared(batch) && i < |batch| == |l.done|
    requires batch[i].command.Set? ==> batch[i].command.f < |cleaned|
    requires forall j :: 0 <= j < |batch| && batch[j] != batch[i] ==> batch[j].done == l.done[j]
    requires forall j :: 0 <= j < |batch| && batch[j] == batch[i] ==> l.done[j] == l.done[i]
    requires batch[i].done == V.ObserveOne(l, Commands(batch), cleaned, i).done[i]
    ensures ShowsDone(batch, V.ObserveOne(l, Commands(batch), cleaned, i).done)
  {
    var next := V.ObserveOne(l, Commands(batch), cleaned, i);
    forall j | 0 <= j < |batch|
      ensures batch[j].done == next.done[j]
    {
      assert Commands(batch)[j] == batch[j].command && Commands(batch)[i] == batch[i].command;
      if batch[j] != batch[i] {
        assert batch[i].command.Set? ==> batch[i].command != batch[j].command;
      }
    }
  }

  class HashImportOutboundHandler {
    const context: HashImportContext
    var open: bool
    ghost var sent: seq<W.Item>   // what ctx.write and super.write have put on the channel

    constructor ()
      ensures fresh(context) && !open && sent == []
      ensures StandsFor(W.FRESH)
    {
      context := new HashImportContext();
      open := false;
      sent := [];
    }

    ghost predicate StandsFor(ch: W.Channel)
      reads this, context
    {
      && ch.prepared == context.prepared && ch.pending == context.pendingDiscards
      && ch.flag == context.discardsPending && ch.builder == context.commandBuilder
      && ch.open == open && ch.wire == sent
    }

    /** The whole picture, with the event loop at `loop`. */
    ghost predicate Pictures(s: W.System, c: nat, loop: W.Loop, imports: seq<HashImport>, batch: seq<RedisCommand>)
      reads this, context, imports, batch
    {
      && c < |s.channels| && s.channels[c].active && s.channels[c].loop == loop && StandsFor(s.channels[c])
      && StandsForFieldsets(imports, context, s, c) && StandsForBatch(batch, s)
    }

    /** The objects as l has them, with `before` on the channel when the call began. */
    ghost predicate Looks(l: V.Look, before: seq<W.Item>, b: V.Start, imports: seq<HashImport>,
                          batch: seq<RedisCommand>)
      reads this, context, imports, batch
    {
      && open == l.open && context.prepared == l.prepared
      && ShowsDone(batch, l.done) && ShowsCleaned(imports, b.cleaned)
      && sent == before + V.PrepareItems(l.prepares, b.open)
    }

    /** The objects as b has them when a call of write begins. */
    ghost predicate Starts(b: V.Start, imports: seq<HashImport>, batch: seq<RedisCommand>)
      reads this, context, imports, batch
    {
      && open == b.open && context.prepared == b.prepared
      && ShowsDone(batch, b.done) && ShowsCleaned(imports, b.cleaned)
    }

    /** context.prepareFor, with the PREPARE written: the next element is a live SET seen outside a transaction. The
        reservation of a SET that fails is released by its completion. */
    method PrepareFor(x: RedisCommand, ghost w: W.Write, ghost s0: W.System, ghost s: W.System, ghost c: nat,
                      imports: seq<HashImport>, ghost batch: seq<RedisCommand>)
      returns (ghost t: W.System)
      requires Pictures(s, c, W.Registering(w), imports, batch) && Reaches(s0, s)
      requires |w.seen| < |batch| && x == batch[|w.seen|] && w.batch == Commands(batch)
      requires x.command.Set? && !x.done && x.command.f !in context.prepared
      modifies this`sent, context, imports, x
      ensures Pictures(t, c, W.Observing(W.Advance(w, W.Live(false))), imports, batch) && Reaches(s0, t)
      ensures x.done == old(imports[x.command.f].cleanedUp)
      ensures sent == old(sent) + if x.done then [] else [W.PrepareItem(x.command.f, w.beganOpen)]
      ensures context.prepared == old(context.prepared) + if x.done then {} else {x.command.f}
      ensures context.pendingDiscards == old(context.pendingDiscards)
      ensures context.discardsPending == old(context.discardsPending)
      ensures forall h :: h in imports ==> h.cleanedUp == old(h.cleanedUp)
    {
      var f := x.command.f;
      var accepted := imports[f].RegisterConnection(context);
      if !accepted {
        t := Reject(x, w, s0, s, c, imports, batch);
        return;
      }
      t := InjectRun(s0, s, c, w, f, x.command.k);
      context.commandBuilder := true;
      context.prepared := context.prepared + {f};
      sent := sent + [W.PrepareItem(f, w.beganOpen)];
      SameCalls(batch, s, t);
      OneFieldset(imports, context, s, t, c, f);
    }

    /** The SET of a cleaned-up fieldset is failed, and its completion gives the reservation back. */
    method Reject(x: RedisCommand, ghost w: W.Write, ghost s0: W.System, ghost s: W.System, ghost c: nat,
                  imports: seq<HashImport>, ghost batch: seq<RedisCommand>)
      returns (ghost t: W.System)
      requires Pictures(s, c, W.Registering(w), imports, batch) && Reaches(s0, s)
      requires |w.seen| < |batch| && x == batch[|w.seen|] && w.batch == Commands(batch)
      requires x.command.Set? && !x.done && x.command.f < |imports| && imports[x.command.f].cleanedUp
      modifies imports, x
      ensures Pictures(t, c, W.Observing(W.Advance(w, W.Live(false))), imports, batch) && Reaches(s0, t)
      ensures x.done && forall h :: h in imports ==> h.cleanedUp == old(h.cleanedUp)
    {
      var f := x.command.f;
      t := RefusedRun(s0, s, c, w, f, x.command.k);
      x.done := true;
      imports[f].Release();
      OneDone(batch, x, s, t, f, x.command.k);
      OneFieldset(imports, context, s, t, c, f);
    }

    /** TransactionState.observe */
    method ObserveTransaction(command: W.Command)
      modifies this`open
      ensures open == W.OpenAfterCommand(old(open), command)
    {
      if command == W.Mark(W.Multi) {
        open := true;
      } else if command == W.Mark(W.ExecTx) || command == W.Mark(W.DiscardTx) {
        if open {
          open := false;
        }
      }
    }

    method ObserveAndPrepare(x: RedisCommand, ghost w: W.Write, ghost s0: W.System, ghost s: W.System, ghost c: nat,
                             imports: seq<HashImport>, ghost batch: seq<RedisCommand>)
      returns (ghost t: W.System, ghost seen: W.Seen)
      requires Pictures(s, c, W.Observing(w), imports, batch) && Reaches(s0, s)
      requires |w.seen| < |batch| && x == batch[|w.seen|] && SeenSoFar(w, batch)
      modifies this, context, imports, x
      ensures Pictures(t, c, W.Observing(W.Advance(w, seen)), imports, batch) && Reaches(s0, t)
      ensures SeenSoFar(W.Advance(w, seen), batch)
      ensures seen == if old(x.done) then W.Skipped else W.Live(open)
      ensures open == if old(x.done) then old(open) else W.OpenAfterCommand(old(open), x.command)
      ensures var needs := !old(x.done) && !open && x.command.Set? && x.command.f !in old(context.prepared);
              var fails := needs && x.command.f < |imports| && old(imports[x.command.f].cleanedUp);
              && x.done == (old(x.done) || fails)
              && sent == old(sent) + (if needs && !fails then [W.PrepareItem(x.command.f, w.beganOpen)] else [])
              && context.prepared == old(context.prepared) + (if needs && !fails then {x.command.f} else {})
      ensures context.pendingDiscards == old(context.pendingDiscards)
      ensures context.discardsPending == old(context.discardsPending)
      ensures forall h :: h in imports ==> h.cleanedUp == old(h.cleanedUp)
    {
      if x.done {
        seen := W.Skipped;
        t := Skip(x, w, s0, s, c, imports, batch);
        return;
      }
      t := ObserveUndone(x, w, s0, s, c, imports, batch);
      seen := W.Live(open);
    }

    /** What observeAndPrepare does with an element that is not done. */
    method ObserveUndone(x: RedisCommand, ghost w: W.Write, ghost s0: W.System, ghost s: W.System, ghost c: nat,
                         imports: seq<HashImport>, ghost batch: seq<RedisCommand>)
      returns (ghost t: W.System)
      requires Pictures(s, c, W.Observing(w), imports, batch) && Reaches(s0, s)
      requires |w.seen| < |batch| && x == batch[|w.seen|] && w.batch == Commands(batch) && !x.done
      modifies this, context, imports, x
      ensures Pictures(t, c, W.Observing(W.Advance(w, W.Live(open))), imports, batch) && Reaches(s0, t)
      ensures open == W.OpenAfterCommand(old(open), x.command)
      ensures var needs := !open && x.command.Set? && x.command.f !in old(context.prepared);
              var fails := needs && x.command.f < |imports| && old(imports[x.command.f].cleanedUp);
              && x.done == fails
              && sent == old(sent) + (if needs && !fails then [W.PrepareItem(x.command.f, w.beganOpen)] else [])
              && context.prepared == old(context.prepared) + (if needs && !fails then {x.command.f} else {})
      ensures context.pendingDiscards == old(context.pendingDiscards)
      ensures context.discardsPending == old(context.discardsPending)
      ensures forall h :: h in imports ==> h.cleanedUp == old(h.cleanedUp)
    {
      t := ObserveLive(x, w, s0, s, c, imports, batch);
      if !open && x.command.Set? && x.command.f !in context.prepared {
        assert StandsForCommand(x, t);
        t := PrepareFor(x, w, s0, t, c, imports, batch);
      }
    }

    /** A done element changes nothing. */
    ghost method Skip(x: RedisCommand, w: W.Write, s0: W.System, s: W.System, c: nat, imports: seq<HashImport>,
                      batch: seq<RedisCommand>)
      returns (t: W.System)
      requires Pictures(s, c, W.Observing(w), imports, batch) && Reaches(s0, s)
      requires |w.seen| < |batch| && x == batch[|w.seen|] && SeenSoFar(w, batch) && x.done
      ensures Pictures(t, c, W.Observing(W.Advance(w, W.Skipped)), imports, batch) && Reaches(s0, t)
    {
      ObserveStep(s, c, w, true);
      ReachStep(s0, s, W.Observe(c, true));
      t := W.Apply(s, W.Observe(c, true));
      SameCalls(batch, s, t);
    }

    /** A live element moves the transaction state, and may turn out to need a PREPARE. */
    method ObserveLive(x: RedisCommand, ghost w: W.Write, ghost s0: W.System, ghost s: W.System, ghost c: nat,
                       imports: seq<HashImport>, ghost batch: seq<RedisCommand>)
      returns (ghost t: W.System)
      requires Pictures(s, c, W.Observing(w), imports, batch) && Reaches(s0, s)
      requires |w.seen| < |batch| && x == batch[|w.seen|] && w.batch == Commands(batch) && !x.done
      modifies this`open
      ensures open == W.OpenAfterCommand(old(open), x.command) && Reaches(s0, t)
      ensures var needs := !open && x.command.Set? && x.command.f !in context.prepared;
              var loop := if needs then W.Registering(w) else W.Observing(W.Advance(w, W.Live(open)));
              Pictures(t, c, loop, imports, batch)
    {
      ObserveStep(s, c, w, false);
      ReachStep(s0, s, W.Observe(c, false));
      t := W.Apply(s, W.Observe(c, false));
      SameCalls(batch, s, t);
      ObserveTransaction(x.command);
    }

    /** super.write: the command handler puts on the channel what is not done by then. */
    method Forward(x: RedisCommand, i: nat, ghost w: W.Write, ghost s0: W.System, ghost s: W.System, ghost c: nat,
                   imports: seq<HashImport>, ghost batch: seq<RedisCommand>)
      returns (ghost t: W.System)
      requires Pictures(s, c, W.Forwarding(w, i), imports, batch) && Reaches(s0, s)
      requires i < |batch| == |w.seen| && x == batch[i] && w.batch == Commands(batch)
      requires w.seen[i].Skipped? ==> x.done
      modifies this`sent
      ensures Pictures(t, c, W.Forwarding(w, i + 1), imports, batch) && Reaches(s0, t)
      ensures sent == old(sent) + V.ToSend(x.command, w.seen[i], x.done)
    {
      ForwardStep(s, c, w, i, x.done);
      ReachStep(s0, s, W.Forward(c, x.done));
      t := W.Apply(s, W.Forward(c, x.done));
      SameCalls(batch, s, t);
      sent := sent + V.ToSend(x.command, w.seen[i], x.done);
    }

    /** drainDiscards and the write of its batch, once the flag was found set outside a transaction. */
    method Drain(ghost s0: W.System, ghost s: W.System, ghost c: nat, imports: seq<HashImport>,
                 batch: seq<RedisCommand>)
      returns (ghost t: W.System)
      requires Pictures(s, c, W.ClearingFlag, imports, batch) && Reaches(s0, s)
      modifies this, context
      ensures Pictures(t, c, W.Idle, imports, batch) && Reaches(s0, t)
      ensures sent == old(sent) + W.DiscardItems(old(context.pendingDiscards))
      ensures open == old(open) && context.prepared == old(context.prepared)
      ensures context.pendingDiscards == [] && !context.discardsPending
    {
      t := DrainRun(s0, s, c);
      SameCalls(batch, s, t);
      var discards := context.DrainDiscards();
      sent := sent + W.DiscardItems(discards);
    }

    ghost method Begin(batch: seq<RedisCommand>, imports: seq<HashImport>, s0: W.System, s: W.System, c: nat)
      returns (t: W.System)
      requires Reaches(s0, s) && Pictures(s, c, W.Idle, imports, batch)
      ensures Reaches(s0, t) && Pictures(t, c, W.Observing(W.Write(Commands(batch), [], open)), imports, batch)
    {
      BeginStep(s, c, batch);
      t := LoopStep(s0, s, c, W.BeginWrite(c, Commands(batch)), W.Observing(W.Write(Commands(batch), [], open)));
      SameCalls(batch, s, t);
    }

    /** In the middle of that loop, with the objects as l has them. */
    ghost predicate Midway(t: W.System, c: nat, w: W.Write, l: V.Look, before: seq<W.Item>, b: V.Start, s0: W.System,
                           imports: seq<HashImport>, batch: seq<RedisCommand>)
      reads this, context, imports, batch
    {
      && Pictures(t, c, W.Observing(w), imports, batch) && Reaches(s0, t)
      && SeenSoFar(w, batch) && w.beganOpen == b.open && w.seen == l.seen
      && Looks(l, before, b, imports, batch)
    }

    lemma MidwayAtFirst(s: W.System, c: nat, b: V.Start, s0: W.System, imports: seq<HashImport>,
                        batch: seq<RedisCommand>)
      requires Reaches(s0, s) && Pictures(s, c, W.Observing(W.Write(Commands(batch), [], open)), imports, batch)
      requires Starts(b, imports, batch) && V.Fits(b, Commands(batch))
      ensures Midway(s, c, W.Write(Commands(batch), [], open), V.Observe(b, Commands(batch), 0), sent, b, s0, imports,
                     batch)
    {
      assert sent == sent + V.PrepareItems([], b.open);
    }

    /** The loop of write over its elements. */
    method ObserveAll(batch: seq<RedisCommand>, imports: seq<HashImport>, ghost b: V.Start, ghost s0: W.System,
                      ghost s: W.System, ghost c: nat)
      returns (ghost t: W.System, ghost w: W.Write)
      requires Reaches(s0, s) && Pictures(s, c, W.Observing(W.Write(Commands(batch), [], open)), imports, batch)
      requires Starts(b, imports, batch) && V.Fits(b, Commands(batch))
      modifies this, context, imports, batch
      ensures V.Fits(b, Commands(batch)) && |w.seen| == |batch|
      ensures Midway(t, c, w, V.Observe(b, Commands(batch), |batch|), old(sent), b, s0, imports, batch)
      ensures context.pendingDiscards == old(context.pendingDiscards)
      ensures context.discardsPending == old(context.discardsPending)
    {
      ghost var commands, before := Commands(batch), sent;
      w := W.Write(commands, [], open);
      t := s;
      MidwayAtFirst(s, c, b, s0, imports, batch);
      for i := 0 to |batch|
        invariant Midway(t, c, w, V.Observe(b, commands, i), before, b, s0, imports, batch) && |w.seen| == i
        invariant context.pendingDiscards == old(context.pendingDiscards)
        invariant context.discardsPending == old(context.discardsPending)
      {
        t, w := ObserveTurn(batch, i, before, b, w, s0, t, c, imports);
      }
    }

    /** One turn of that loop. */
    method ObserveTurn(batch: seq<RedisCommand>, i: nat, ghost before: seq<W.Item>, ghost b: V.Start, ghost w: W.Write,
                       ghost s0: W.System, ghost s: W.System, ghost c: nat, imports: seq<HashImport>)
      returns (ghost t: W.System, ghost v: W.Write)
      requires i < |batch| && |w.seen| == i && V.Fits(b, Commands(batch))
      requires Midway(s, c, w, V.Observe(b, Commands(batch), i), before, b, s0, imports, batch)
      modifies this, context, imports, batch[i]
      ensures Midway(t, c, v, V.Observe(b, Commands(batch), i + 1), before, b, s0, imports, batch)
      ensures |v.seen| == i + 1
      ensures context.pendingDiscards == old(context.pendingDiscards)
      ensures context.discardsPending == old(context.discardsPending)
    {
      V.ObserveMore(b, Commands(batch), i);
      t, v := ObserveNext(batch, i, V.Observe(b, Commands(batch), i), before, b, w, s0, s, c, imports);
    }

    method ObserveNext(batch: seq<RedisCommand>, i: nat, ghost l: V.Look, ghost before: seq<W.Item>, ghost b: V.Start,
                       ghost w: W.Write, ghost s0: W.System, ghost s: W.System, ghost c: nat, imports: seq<HashImport>)
      returns (ghost t: W.System, ghost v: W.Write)
      requires i < |batch| && |w.seen| == i && Midway(s, c, w, l, before, b, s0, imports, batch)
      modifies this, context, imports, batch[i]
      ensures batch[i].command.Set? ==> batch[i].command.f < |b.cleaned|
      ensures Midway(t, c, v, V.ObserveOne(l, Commands(batch), b.cleaned, i), before, b, s0, imports, batch)
      ensures |v.seen| == i + 1
      ensures context.pendingDiscards == old(context.pendingDiscards)
      ensures context.discardsPending == old(context.discardsPending)
    {
      assert StandsForCommand(batch[i], s);
      ghost var seen;
      t, seen := ObserveAndPrepare(batch[i], w, s0, s, c, imports, batch);
      v := W.Advance(w, seen);
      V.PrepareItemsSnoc(l.prepares, if batch[i].command.Set? then batch[i].command.f else 0, b.open);
      DoneShown(batch, l, b.cleaned, i);
    }

    ghost method EndObserving(batch: seq<RedisCommand>, imports: seq<HashImport>, w: W.Write, s0: W.System, s: W.System,
                              c: nat)
      returns (t: W.System)
      requires Reaches(s0, s) && Pictures(s, c, W.Observing(w), imports, batch)
      requires SeenSoFar(w, batch) && |w.seen| == |batch|
      ensures Reaches(s0, t) && Pictures(t, c, W.Forwarding(w, 0), imports, batch)
    {
      t := LoopStep(s0, s, c, W.EndObserve(c), W.Forwarding(w, 0));
      SameCalls(batch, s, t);
    }

    /** In the middle of forwarding, with the first i elements behind it. */
    ghost predicate ForwardMid(t: W.System, c: nat, w: W.Write, i: nat, before: seq<W.Item>, b: V.Start,
                               done: seq<bool>, s0: W.System, imports: seq<HashImport>, batch: seq<RedisCommand>)
      reads this, context, imports, batch
    {
      && Pictures(t, c, W.Forwarding(w, i), imports, batch) && Reaches(s0, t)
      && SeenSoFar(w, batch) && ShowsDone(batch, done) && i <= |batch|
      && V.Sends(b, Commands(batch), w.seen, done)
      && sent == before + V.Forwarded(b, Commands(batch), done, i)
    }

    method ForwardNext(batch: seq<RedisCommand>, i: nat, imports: seq<HashImport>, ghost before: seq<W.Item>,
                       ghost b: V.Start, ghost done: seq<bool>, ghost w: W.Write, ghost s0: W.System, ghost s: W.System,
                       ghost c: nat)
      returns (ghost t: W.System)
      requires i < |batch| && ForwardMid(s, c, w, i, before, b, done, s0, imports, batch)
      modifies this`sent
      ensures ForwardMid(t, c, w, i + 1, before, b, done, s0, imports, batch)
    {
      V.ForwardedMore(before, b, Commands(batch), w.seen, done, i);
      t := Forward(batch[i], i, w, s0, s, c, imports, batch);
    }

    method ForwardAll(batch: seq<RedisCommand>, imports: seq<HashImport>, ghost b: V.Start, ghost done: seq<bool>,
                      ghost w: W.Write, ghost s0: W.System, ghost s: W.System, ghost c: nat)
      returns (ghost t: W.System)
      requires ForwardMid(s, c, w, 0, sent, b, done, s0, imports, batch)
      modifies this`sent
      ensures Reaches(s0, t) && Pictures(t, c, W.CheckingFlag, imports, batch)
      ensures |b.done| == |batch| == |done| && sent == old(sent) + V.Forwarded(b, Commands(batch), done, |batch|)
    {
      t := s;
      ghost var before := sent;
      for i := 0 to |batch|
        invariant ForwardMid(t, c, w, i, before, b, done, s0, imports, batch)
      {
        t := ForwardNext(batch, i, imports, before, b, done, w, s0, t, c);
      }
      t := EndForwarding(batch, imports, w, s0, t, c);
    }

    ghost method EndForwarding(batch: seq<RedisCommand>, imports: seq<HashImport>, w: W.Write, s0: W.System,
                               s: W.System, c: nat)
      returns (t: W.System)
      requires Reaches(s0, s) && Pictures(s, c, W.Forwarding(w, |batch|), imports, batch) && w.batch == Commands(batch)
      ensures Reaches(s0, t) && Pictures(t, c, W.CheckingFlag, imports, batch)
    {
      t := LoopStep(s0, s, c, W.EndForward(c), W.CheckingFlag);
      SameCalls(batch, s, t);
    }

    method DrainIfPending(batch: seq<RedisCommand>, imports: seq<HashImport>, ghost s0: W.System, ghost s: W.System,
                          ghost c: nat)
      returns (ghost t: W.System)
      requires Reaches(s0, s) && Pictures(s, c, W.CheckingFlag, imports, batch)
      modifies this, context
      ensures Reaches(s0, t) && Pictures(t, c, W.Idle, imports, batch)
      ensures open == old(open) && context.prepared == old(context.prepared)
      ensures var drains := old(context.discardsPending && !open);
              && sent == old(sent) + W.DiscardItems(if drains then old(context.pendingDiscards) else [])
              && context.pendingDiscards == (if drains then [] else old(context.pendingDiscards))
              && context.discardsPending == (old(context.discardsPending) && !drains)
    {
      t := LoopStep(s0, s, c, W.CheckFlag(c), if context.discardsPending && !open then W.ClearingFlag else W.Idle);
      SameCalls(batch, s, t);
      if context.discardsPending && !open {
        t := Drain(s0, t, c, imports, batch);
      }
    }

    /** Up to where the batch is forwarded. */
    method ObservePhase(batch: seq<RedisCommand>, imports: seq<HashImport>, ghost b: V.Start, ghost s: W.System,
                        ghost c: nat)
      returns (ghost t: W.System, ghost w: W.Write)
      requires Pictures(s, c, W.Idle, imports, batch) && Starts(b, imports, batch) && V.Fits(b, Commands(batch))
      modifies this, context, imports, batch
      ensures Reaches(s, t) && Pictures(t, c, W.Forwarding(w, 0), imports, batch)
      ensures SeenSoFar(w, batch) && |w.seen| == |batch| && V.Fits(b, Commands(batch))
      ensures w.seen == V.Observe(b, Commands(batch), |batch|).seen
      ensures Looks(V.Observe(b, Commands(batch), |batch|), old(sent), b, imports, batch)
      ensures context.pendingDiscards == old(context.pendingDiscards)
      ensures context.discardsPending == old(context.discardsPending)
    {
      ReachSelf(s);
      t := Begin(batch, imports, s, s, c);
      t, w := ObserveAll(batch, imports, b, s, t, c);
      t := EndObserving(batch, imports, w, s, t, c);
    }

    /** Up to where the flag is checked. */
    method ForwardPhase(batch: seq<RedisCommand>, imports: seq<HashImport>, ghost b: V.Start, ghost l: V.Look,
                        ghost s: W.System, ghost c: nat)
      returns (ghost t: W.System)
      requires Pictures(s, c, W.Idle, imports, batch) && Starts(b, imports, batch)
      requires V.Fits(b, Commands(batch)) && l == V.Observe(b, Commands(batch), |batch|)
      requires V.Sends(b, Commands(batch), l.seen, l.done)
      modifies this, context, imports, batch
      ensures Reaches(s, t) && Pictures(t, c, W.CheckingFlag, imports, batch)
      ensures open == l.open && context.prepared == l.prepared
      ensures ShowsDone(batch, l.done) && ShowsCleaned(imports, b.cleaned)
      ensures sent == old(sent) + V.PrepareItems(l.prepares, b.open)
                      + V.Forwarded(b, Commands(batch), l.done, |batch|)
      ensures context.pendingDiscards == old(context.pendingDiscards)
      ensures context.discardsPending == old(context.discardsPending)
    {
      ghost var w;
      t, w := ObservePhase(batch, imports, b, s, c);
      assert sent == sent + V.Forwarded(b, Commands(batch), l.done, 0);
      t := ForwardAll(batch, imports, b, l.done, w, s, t, c);
    }

    /** The phases of write, one after another. */
    method WritePhases(batch: seq<RedisCommand>, imports: seq<HashImport>, ghost b: V.Start, ghost l: V.Look,
                       ghost s: W.System, ghost c: nat)
      returns (ghost t: W.System)
      requires Pictures(s, c, W.Idle, imports, batch) && Starts(b, imports, batch)
      requires V.Fits(b, Commands(batch)) && l == V.Observe(b, Commands(batch), |batch|)
      requires V.Sends(b, Commands(batch), l.seen, l.done)
      modifies this, context, imports, batch
      ensures Reaches(s, t) && Pictures(t, c, W.Idle, imports, batch)
      ensures open == l.open && context.prepared == l.prepared
      ensures ShowsDone(batch, l.done) && ShowsCleaned(imports, b.cleaned)
      ensures var drains := old(context.discardsPending) && !l.open;
              && sent == old(sent) + V.PrepareItems(l.prepares, b.open)
                         + V.Forwarded(b, Commands(batch), l.done, |batch|)
                         + W.DiscardItems(if drains then old(context.pendingDiscards) else [])
              && context.pendingDiscards == (if drains then [] else old(context.pendingDiscards))
              && context.discardsPending == (old(context.discardsPending) && !drains)
    {
      t := ForwardPhase(batch, imports, b, l, s, c);
      t := DrainIfPending(batch, imports, s, t, c);
    }

    /** One call of write, left alone: what it sends and where it leaves the objects that stood at b; a run of the
        machine from the state the objects stood for to the one they stand for, so that what is on the channel has the
        order proved for all runs. */
    method Write(batch: seq<RedisCommand>, imports: seq<HashImport>, ghost b: V.Start, ghost init: W.System,
                 ghost s: W.System, ghost c: nat)
      returns (ghost t: W.System, ghost o: V.Outcome)
      requires W.Initial(init) && Reaches(init, s) && Pictures(s, c, W.Idle, imports, batch)
      requires Starts(b, imports, batch)
      modifies this, context, imports, batch
      ensures Reaches(s, t) && Pictures(t, c, W.Idle, imports, batch)
      ensures G.SetsPrepared(sent) && G.DiscardsLast(t, sent)
      ensures var drains := old(context.discardsPending) && !o.open;
              && old(sent) <= sent
              && V.Effect(b, Commands(batch), sent[|old(sent)|..],
                          if drains then old(context.pendingDiscards) else [], o)
              && context.pendingDiscards == (if drains then [] else old(context.pendingDiscards))
              && context.discardsPending == (old(context.discardsPending) && !drains)
      ensures open == o.open && ShowsDone(batch, o.done) && ShowsCleaned(imports, b.cleaned)
      ensures forall f: nat :: f in context.prepared <==> f in b.prepared || f in o.prepares
    {
      StartFits(b, s, c, context, imports, batch);
      V.ObserveIsObserved(b, Commands(batch), |batch|);
      ghost var l := V.Observe(b, Commands(batch), |batch|);
      V.SendsFrom(b, Commands(batch), l);
      o := V.Outcome(l.open, l.done, l.prepares);
      ghost var before := sent;
      ghost var drained := if context.discardsPending && !l.open then context.pendingDiscards else [];
      t := WritePhases(batch, imports, b, l, s, c);
      Appended(before, V.PrepareItems(l.prepares, b.open), V.Forwarded(b, Commands(batch), l.done, |batch|),
               W.DiscardItems(drained), sent);
      V.EffectFrom(b, Commands(batch), l, drained);
      Ordered(init, s, t, c);
    }

    method ChannelInactive(ghost init: W.System, ghost s: W.System, ghost c: nat) returns (ghost t: W.System)
      requires Reaches(init, s) && c < |s.channels| && s.channels[c].loop.Idle? && StandsFor(s.channels[c])
      modifies this, context
      ensures Reaches(init, t) && c < |t.channels| && !t.channels[c].active && StandsFor(t.channels[c])
      ensures !open && context.prepared == {} && context.pendingDiscards == [] && sent == old(sent)
    {
      ReachStep(init, s, W.GoInactive(c));
      t := W.Apply(s, W.GoInactive(c));
      open := false;
      context.Clear();
    }
  }

  lemma Appended<T>(before: seq<T>, x: seq<T>, y: seq<T>, z: seq<T>, all: seq<T>)
    requires all == before + x + y + z
    ensures before <= all && all[|before|..] == x + y + z
  {
  }

  lemma StartFits(b: V.Start, s: W.System, c: nat, context: HashImportContext, imports: seq<HashImport>,
                  batch: seq<RedisCommand>)
    requires StandsForFieldsets(imports, context, s, c) && StandsForBatch(batch, s)
    requires ShowsDone(batch, b.done) && |b.cleaned| == |imports|
    ensures V.Fits(b, Commands(batch))
  {
    var commands := Commands(batch);
    forall i | 0 <= i < |commands| && commands[i].Set?
      ensures commands[i].f < |b.cleaned|
    {
      assert StandsForCommand(batch[i], s);
    }
  }

  lemma ReachSelf(s: W.System)
    ensures Reaches(s, s)
  {
    assert W.Exec(s, []) == Some(s);
  }

  lemma Ordered(init: W.System, s: W.System, t: W.System, c: nat)
    requires W.Initial(init) && Reaches(init, s) && Reaches(s, t) && c < |t.channels|
    ensures G.SetsPrepared(t.channels[c].wire) && G.DiscardsLast(t, t.channels[c].wire)
  {
    var run :| W.Exec(init, run) == Some(s);
    G.Reachable(init, run);
    var more :| W.Exec(s, more) == Some(t);
    G.RunKeepsInv(s, more);
    G.OrderFromInv(t, c);
  }

  // ----- Stretches of a run -----

  ghost method CallerStep(s0: W.System, s: W.System, f: nat, a: R.Action) returns (t: W.System)
    requires Reaches(s0, s) && f < |s.fieldsets|
    requires R.Enabled(s.fieldsets[f], a) && !W.InDiscard(a) && !a.Register?
    ensures Reaches(s0, t) && t == s.(fieldsets := s.fieldsets[f := R.Apply(s.fieldsets[f], a)])
  {
    t := W.Apply(s, W.Caller(f, a));
    ReachStep(s0, s, W.Caller(f, a));
  }

  function Gone(F: R.Fieldset, k: nat, pc: R.Pc): R.Fieldset
    requires k < |F.calls|
  {
    F.(inFlight := F.inFlight - 1, calls := F.calls[k := pc])
  }

  lemma GoneSteps(F: R.Fieldset, k: nat)
    requires R.At(F, k, R.Completed) && F.cleanedUp
    ensures R.Enabled(F, R.Decrement(k))
    ensures R.Apply(F, R.Decrement(k)) == Gone(F, k, if F.inFlight == 1 then R.ReadClosed(F.closed) else R.Finished)
  {
  }

  lemma GoneAgain(F: R.Fieldset, k: nat)
    requires k < |F.calls| && F.cleanedUp
    ensures var G := Gone(F, k, R.ReadClosed(F.closed));
            && R.Enabled(G, R.ReadAgain(k))
            && R.Apply(G, R.ReadAgain(k)) ==
               Gone(F, k, if F.closed then R.EnterCleanup(R.ByRelease(F.closed)) else R.Finished)
    ensures var G := Gone(F, k, R.EnterCleanup(R.ByRelease(F.closed)));
            R.Enabled(G, R.RunCleanup(k)) && R.Apply(G, R.RunCleanup(k)) == Gone(F, k, R.Finished)
  {
  }

  /** The release of a completed import of a fieldset that is cleaned up already. */
  ghost method ReleaseRun(s0: W.System, s: W.System, f: nat, k: nat) returns (t: W.System)
    requires Reaches(s0, s) && f < |s.fieldsets| && R.At(s.fieldsets[f], k, R.Completed) && s.fieldsets[f].cleanedUp
    ensures Reaches(s0, t) && t == s.(fieldsets := s.fieldsets[f := Gone(s.fieldsets[f], k, R.Finished)])
  {
    var F := s.fieldsets[f];
    GoneSteps(F, k);
    t := CallerStep(s0, s, f, R.Decrement(k));
    if F.inFlight == 1 {
      GoneAgain(F, k);
      t := CallerStep(s0, t, f, R.ReadAgain(k));
      if F.closed {
        t := CallerStep(s0, t, f, R.RunCleanup(k));
      }
    }
  }

  ghost predicate AtJoin(s: W.System, c: nat, w: W.Write, f: nat, k: nat) {
    && c < |s.channels| && s.channels[c].loop == W.Registering(w)
    && W.HasNext(w) && W.Next(w) == W.Set(f, k)
    && f < |s.fieldsets| && k < |s.fieldsets[f].calls|
  }

  ghost function Looping(s: W.System, c: nat, loop: W.Loop): seq<W.Channel>
    requires c < |s.channels|
  {
    s.channels[c := s.channels[c].(loop := loop)]
  }

  lemma JoinRefused(s: W.System, c: nat, w: W.Write, f: nat, k: nat)
    requires AtJoin(s, c, w, f, k) && R.At(s.fieldsets[f], k, R.Dispatched) && s.fieldsets[f].cleanedUp
    ensures W.Enabled(s, W.Join(c))
    ensures W.Apply(s, W.Join(c)) == W.System(s.fieldsets[f := R.Goto(s.fieldsets[f], k, R.Completed)],
                                              Looping(s, c, W.Observing(W.Advance(w, W.Live(false)))))
  {
    assert W.FieldsetEffect(s, W.Join(c)) == Some((f, R.Complete(k)));
    assert W.ChannelEffect(s, W.Join(c)).value.0 == c;
  }

  function Joined(F: R.Fieldset, c: nat): R.Fieldset {
    F.(preparedOn := F.preparedOn + {c}, registered := F.registered + {c})
  }

  lemma JoinAccepted(s: W.System, c: nat, w: W.Write, f: nat, k: nat)
    requires AtJoin(s, c, w, f, k) && !s.fieldsets[f].cleanedUp
    ensures W.Enabled(s, W.Join(c))
    ensures W.Apply(s, W.Join(c)) ==
            W.System(s.fieldsets[f := Joined(s.fieldsets[f], c)], Looping(s, c, W.Registered(w)))
  {
    assert W.FieldsetEffect(s, W.Join(c)) == Some((f, R.Register(c)));
    assert W.ChannelEffect(s, W.Join(c)).value.0 == c;
  }

  function Injected(ch: W.Channel, w: W.Write, f: nat): W.Channel {
    ch.(builder := true, prepared := ch.prepared + {f}, wire := ch.wire + [W.PrepareItem(f, w.beganOpen)],
          loop := W.Observing(W.Advance(w, W.Live(false))))
  }

  lemma InjectStep(s: W.System, c: nat, w: W.Write, f: nat, k: nat)
    requires c < |s.channels| && s.channels[c].loop == W.Registered(w) && W.HasNext(w) && W.Next(w) == W.Set(f, k)
    ensures W.Enabled(s, W.Inject(c))
    ensures W.Apply(s, W.Inject(c)) == s.(channels := s.channels[c := Injected(s.channels[c], w, f)])
  {
    assert W.FieldsetEffect(s, W.Inject(c)) == None;
    assert W.ChannelEffect(s, W.Inject(c)).value.0 == c;
  }

  /** registerConnection refuses: the SET fails and its reservation is given back. */
  ghost method RefusedRun(s0: W.System, s: W.System, c: nat, w: W.Write, f: nat, k: nat) returns (t: W.System)
    requires Reaches(s0, s) && AtJoin(s, c, w, f, k)
    requires R.At(s.fieldsets[f], k, R.Dispatched) && s.fieldsets[f].cleanedUp
    ensures Reaches(s0, t)
    ensures t == W.System(s.fieldsets[f := Gone(s.fieldsets[f], k, R.Finished)],
                          Looping(s, c, W.Observing(W.Advance(w, W.Live(false)))))
  {
    var F := s.fieldsets[f];
    JoinRefused(s, c, w, f, k);
    ReachStep(s0, s, W.Join(c));
    t := ReleaseRun(s0, W.Apply(s, W.Join(c)), f, k);
    assert F.calls[k := R.Completed][k := R.Finished] == F.calls[k := R.Finished];
    assert t.fieldsets[f] == Gone(F, k, R.Finished);
  }

  /** registerConnection accepts: the PREPARE is written. */
  ghost method InjectRun(s0: W.System, s: W.System, c: nat, w: W.Write, f: nat, k: nat) returns (t: W.System)
    requires Reaches(s0, s) && AtJoin(s, c, w, f, k) && !s.fieldsets[f].cleanedUp
    ensures Reaches(s0, t)
    ensures t == W.System(s.fieldsets[f := Joined(s.fieldsets[f], c)],
                          s.channels[c := Injected(s.channels[c], w, f)])
  {
    JoinAccepted(s, c, w, f, k);
    ReachStep(s0, s, W.Join(c));
    var u := W.Apply(s, W.Join(c));
    InjectStep(u, c, w, f, k);
    ReachStep(s0, u, W.Inject(c));
    t := W.Apply(u, W.Inject(c));
  }

  /** An action that only moves the event loop. */
  ghost method LoopStep(s0: W.System, s: W.System, c: nat, a: W.Action, loop: W.Loop) returns (t: W.System)
    requires Reaches(s0, s) && W.Enabled(s, a) && c < |s.channels|
    requires W.FieldsetEffect(s, a) == None && W.ChannelEffect(s, a) == Some((c, s.channels[c].(loop := loop)))
    ensures Reaches(s0, t) && t == s.(channels := Looping(s, c, loop))
  {
    ReachStep(s0, s, a);
    t := W.Apply(s, a);
  }

  lemma ObserveStep(s: W.System, c: nat, w: W.Write, done: bool)
    requires c < |s.channels| && s.channels[c].loop == W.Observing(w) && W.HasNext(w) && W.Known(s, W.Next(w))
    ensures W.Enabled(s, W.Observe(c, done))
    ensures W.Apply(s, W.Observe(c, done)) ==
            s.(channels := s.channels[c := W.AfterObserve(s, s.channels[c], done)])
  {
    assert W.FieldsetEffect(s, W.Observe(c, done)) == None;
    assert W.ChannelEffect(s, W.Observe(c, done)).value.0 == c;
  }

  lemma ForwardStep(s: W.System, c: nat, w: W.Write, i: nat, done: bool)
    requires c < |s.channels| && s.channels[c].loop == W.Forwarding(w, i)
    requires i < |w.batch| == |w.seen| && W.Known(s, w.batch[i])
    ensures W.Enabled(s, W.Forward(c, done))
    ensures W.Apply(s, W.Forward(c, done)) ==
            s.(channels := s.channels[c := W.AfterForward(s, s.channels[c], done)])
  {
    assert W.FieldsetEffect(s, W.Forward(c, done)) == None;
    assert W.ChannelEffect(s, W.Forward(c, done)).value.0 == c;
  }

  /** A whole drain. */
  ghost method DrainRun(s0: W.System, s: W.System, c: nat) returns (t: W.System)
    requires Reaches(s0, s) && c < |s.channels| && s.channels[c].loop.ClearingFlag?
    ensures Reaches(s0, t) && t.fieldsets == s.fieldsets && |t.channels| == |s.channels|
    ensures t.channels[c] == s.channels[c].(
                               flag := false, pending := [], loop := W.Idle,
                               wire := s.channels[c].wire + W.DiscardItems(s.channels[c].pending))
  {
    ReachStep(s0, s, W.ClearFlag(c));
    t := W.Apply(s, W.ClearFlag(c));
    assert t.channels[c] == s.channels[c].(flag := false, loop := W.Polling([]));
    assert [] + s.channels[c].pending == s.channels[c].pending;
    t := PollRun(s0, t, c);
  }

  /** Polling until the queue is empty. */
  ghost method PollRun(s0: W.System, s: W.System, c: nat) returns (t: W.System)
    requires Reaches(s0, s) && c < |s.channels| && s.channels[c].loop.Polling?
    ensures Reaches(s0, t) && t.fieldsets == s.fieldsets && |t.channels| == |s.channels|
    ensures t.channels[c] == s.channels[c].(
                               pending := [], loop := W.Idle,
                               wire := s.channels[c].wire +
                                       W.DiscardItems(s.channels[c].loop.drained + s.channels[c].pending))
    decreases |s.channels[c].pending|
  {
    var ch := s.channels[c];
    D.PollOne(s, c);
    ReachStep(s0, s, W.Poll(c));
    t := W.Apply(s, W.Poll(c));
    if ch.pending == [] {
      assert ch.loop.drained + ch.pending == ch.loop.drained;
    } else {
      assert ch.loop.drained + [ch.pending[0]] + ch.pending[1..] == ch.loop.drained + ch.pending;
      t := PollRun(s0, t, c);
    }
  }
}
