/**
 What the HIMPORT write path guarantees in every run, from fresh fieldsets and channels. ImportRaces has the runs that
 show that none of the exceptions can be left out.
 */
module ImportGuarantees {
  import opened Options
  import R = Reservation
  import opened ImportWire
  import opened ImportOrder
  import opened ImportDrain
  import opened ImportTransactions

  ghost predicate PrepareOk(s: System) {
    forall c :: 0 <= c < |s.channels| ==> PrepareInv(s, s.channels[c])
  }

  ghost predicate WiresOk(s: System) {
    forall c :: 0 <= c < |s.channels| ==> WireOk(s, s.channels[c])
  }

  ghost predicate WakeOk(s: System) {
    forall c :: 0 <= c < |s.channels| ==> WakeInv(s, c)
  }

  ghost predicate TxOk(s: System) {
    forall c :: 0 <= c < |s.channels| ==> TxInv(s.channels[c])
  }

  ghost predicate Inv(s: System) {
    Sound(s) && Shaped(s) && Linked(s) && PrepareOk(s) && WiresOk(s) && WakeOk(s) && TxOk(s)
  }

  lemma InitialInv(s: System)
    requires Initial(s)
    ensures Inv(s)
  {
    forall f | 0 <= f < |s.fieldsets|
      ensures R.Inv(s.fieldsets[f])
    {
      R.InitialInv(s.fieldsets[f]);
    }
    forall c | 0 <= c < |s.channels|
      ensures Log(s.channels[c]) == []
    {
    }
  }

  lemma ChannelsStep(s: System, a: Action)
    requires Inv(s) && Enabled(s, a)
    ensures PrepareOk(Apply(s, a)) && WiresOk(Apply(s, a)) && WakeOk(Apply(s, a)) && TxOk(Apply(s, a))
  {
    var t := Apply(s, a);
    StepKeepsShape(s, a);
    forall c | 0 <= c < |t.channels|
      ensures PrepareInv(t, t.channels[c]) && WireOk(t, t.channels[c]) && WakeInv(t, c) && TxInv(t.channels[c])
    {
      PrepareStep(s, a, c);
      WireOkStep(s, a, c);
      WakeStep(s, a, c);
      TxStep(s, a, c);
    }
  }

  lemma StepKeepsInv(s: System, a: Action)
    requires Inv(s) && Enabled(s, a)
    ensures Inv(Apply(s, a))
  {
    SoundStep(s, a);
    ShapedStep(s, a);
    LinkedStep(s, a);
    ChannelsStep(s, a);
  }

  lemma {:induction false} RunKeepsInv(s: System, run: seq<Action>)
    requires Inv(s) && Exec(s, run).Some?
    ensures Inv(Exec(s, run).value)
  {
    if run != [] {
      var n := |run| - 1;
      RunKeepsInv(s, run[..n]);
      StepKeepsInv(Exec(s, run[..n]).value, run[n]);
    }
  }

  lemma Reachable(init: System, run: seq<Action>)
    requires Initial(init) && Exec(init, run).Some?
    ensures Inv(Exec(init, run).value)
  {
    InitialInv(init);
    RunKeepsInv(init, run);
  }

  // ----- Wire order -----

  /** A SET the handler saw outside a transaction stands behind a PREPARE of its fieldset. */
  ghost predicate SetsPrepared(wire: seq<Item>) {
    forall j :: 0 <= j < |wire| && wire[j].SetItem? && !wire[j].inTx ==>
      exists i :: 0 <= i < j && wire[i].PrepareItem? && wire[i].f == wire[j].f
  }

  /** A fieldset's DISCARD is written at most once, no PREPARE of the fieldset follows it, and no SET either, unless a
      releaser whose read of `closed` was overtaken by close ran the cleanup. */
  ghost predicate DiscardsLast(s: System, wire: seq<Item>) {
    forall i, j :: 0 <= i < j < |wire| && wire[i].DiscardItem? ==>
      && wire[j] != wire[i]
      && (wire[j].PrepareItem? ==> wire[j].f != wire[i].f)
      && (wire[j].SetItem? && wire[j].f == wire[i].f ==> Overtaken(s, wire[j].f))
  }

  ghost predicate Overtaken(s: System, f: nat) {
    f < |s.fieldsets| && s.fieldsets[f].raced && Late(s.fieldsets[f].cleaner)
  }

  lemma OrderFromInv(s: System, c: nat)
    requires Inv(s) && c < |s.channels|
    ensures SetsPrepared(s.channels[c].wire) && DiscardsLast(s, s.channels[c].wire)
  {
    assert PrepareInv(s, s.channels[c]) && WireOk(s, s.channels[c]);
    SetsPreparedFrom(s.channels[c].wire);
    DiscardsLastFrom(s, s.channels[c]);
  }

  /** The order of the wire, with transactions as the handler saw them. */
  lemma HandlerOrder(init: System, run: seq<Action>, c: nat)
    requires Initial(init) && Exec(init, run).Some? && c < |Exec(init, run).value.channels|
    ensures var s := Exec(init, run).value;
            SetsPrepared(s.channels[c].wire) && DiscardsLast(s, s.channels[c].wire)
  {
    Reachable(init, run);
    OrderFromInv(Exec(init, run).value, c);
  }

  lemma SetsPreparedFrom(wire: seq<Item>)
    requires PreparedFirst(wire)
    ensures SetsPrepared(wire)
  {
    forall j | 0 <= j < |wire| && wire[j].SetItem? && !wire[j].inTx
      ensures exists i :: 0 <= i < j && wire[i].PrepareItem? && wire[i].f == wire[j].f
    {
      assert HasPrepare(wire[..j], wire[j].f);
    }
  }

  lemma DiscardsLastFrom(s: System, ch: Channel)
    requires Sound(s) && WireOk(s, ch)
    ensures DiscardsLast(s, ch.wire)
  {
    var wire := ch.wire;
    DistinctPrefix(WireDiscards(wire), Log(ch));
    forall i, j | 0 <= i < j < |wire| && wire[i].DiscardItem?
      ensures wire[j] != wire[i]
      ensures wire[j].PrepareItem? ==> wire[j].f != wire[i].f
      ensures wire[j].SetItem? && wire[j].f == wire[i].f ==> Overtaken(s, wire[j].f)
    {
      DiscardsDistinct(wire, i, j);
      assert MayFollow(s, wire[j], wire[i].f);
      assert forall f :: 0 <= f < |s.fieldsets| ==> R.OrderInv(s.fieldsets[f]);
    }
  }

  lemma DistinctPrefix(xs: seq<nat>, ys: seq<nat>)
    requires R.Distinct(ys) && xs <= ys
    ensures R.Distinct(xs)
  {
  }

  lemma {:induction false} DiscardsDistinct(wire: seq<Item>, i: nat, j: nat)
    requires i < j < |wire| && wire[i].DiscardItem? && R.Distinct(WireDiscards(wire))
    ensures wire[j] != wire[i]
  {
    var n := |wire| - 1;
    DistinctPrefix(WireDiscards(wire[..n]), WireDiscards(wire));
    if j < n {
      DiscardsDistinct(wire[..n], i, j);
    } else if wire[n].DiscardItem? {
      OnWire(wire[..n], wire[n].f);
      DistinctSnoc(WireDiscards(wire[..n]), wire[n].f);
      assert wire[..n][i] == wire[i];
    }
  }

  lemma DistinctSnoc(xs: seq<nat>, x: nat)
    requires R.Distinct(xs + [x])
    ensures x !in xs
  {
    assert (xs + [x])[|xs|] == x;
    assert forall i :: 0 <= i < |xs| ==> (xs + [x])[i] == xs[i];
  }

  // ----- Transactions -----

  /** Where an item stands on the server: a DISCARD inside a transaction exactly if the end of that transaction got
      lost; a PREPARE inside one exactly if its write began in one, and a SET exactly if the handler saw it in one, save
      where a marker got lost and the handler is mistaken about the transaction. */
  ghost predicate Stands(wire: seq<Item>, j: nat)
    requires j < |wire|
  {
    var before := wire[..j];
    match wire[j]
    case DiscardItem(_) => TxOf(before) <==> EndLost(before)
    case PrepareItem(_, beganOpen) => TxOf(before) == beganOpen <==> !EndLost(before) && !StartLost(before)
    case SetItem(_, _, inTx) => TxOf(before) == inTx <==> !EndLost(before) && !StartLost(before)
    case _ => true
  }

  /** After every run, each item stands where it should exactly unless a marker was cancelled between being observed and
      being sent. */
  lemma TransactionIsolation(init: System, run: seq<Action>, c: nat, j: nat)
    requires Initial(init) && Exec(init, run).Some? && c < |Exec(init, run).value.channels|
    requires j < |Exec(init, run).value.channels[c].wire|
    ensures Stands(Exec(init, run).value.channels[c].wire, j)
  {
    Reachable(init, run);
    var wire := Exec(init, run).value.channels[c].wire;
    assert TxInv(Exec(init, run).value.channels[c]) && Placed(wire, j);
    Misreading(wire[..j]);
  }

  /** No EXEC or DISCARD of a user got lost. */
  ghost predicate EndsKept(wire: seq<Item>) {
    LostItem(ExecTx) !in wire && LostItem(DiscardTx) !in wire
  }

  lemma EndsKeptMeansNotLost(wire: seq<Item>, j: nat)
    requires j <= |wire| && EndsKept(wire)
    ensures !EndLost(wire[..j])
  {
    forall i | 0 <= i < j
      ensures wire[..j][i].LostItem? ==> After(wire[..j][i].marker)
    {
      assert wire[..j][i] == wire[i] && wire[i] in wire;
    }
  }

  /** On a wire on which no EXEC or DISCARD got lost, no cleanup DISCARD stands inside a transaction. */
  lemma DiscardsOutside(init: System, run: seq<Action>, c: nat, j: nat)
    requires Initial(init) && Exec(init, run).Some? && c < |Exec(init, run).value.channels|
    requires j < |Exec(init, run).value.channels[c].wire| && Exec(init, run).value.channels[c].wire[j].DiscardItem?
    requires EndsKept(Exec(init, run).value.channels[c].wire)
    ensures !TxOf(Exec(init, run).value.channels[c].wire[..j])
  {
    TransactionIsolation(init, run, c, j);
    EndsKeptMeansNotLost(Exec(init, run).value.channels[c].wire, j);
  }

  /** A SET that the server reads outside a transaction stands behind a PREPARE of its fieldset, unless the handler took
      it to be inside one because a MULTI got lost. */
  lemma ServerSetsPrepared(init: System, run: seq<Action>, c: nat, j: nat)
    requires Initial(init) && Exec(init, run).Some? && c < |Exec(init, run).value.channels|
    requires var wire := Exec(init, run).value.channels[c].wire;
             j < |wire| && wire[j].SetItem? && !TxOf(wire[..j])
    ensures var wire := Exec(init, run).value.channels[c].wire;
            HasPrepare(wire[..j], wire[j].f) || StartLost(wire[..j])
  {
    TransactionIsolation(init, run, c, j);
    HandlerOrder(init, run, c);
    var wire := Exec(init, run).value.channels[c].wire;
    Misreading(wire[..j]);
    if !wire[j].inTx {
      var i :| 0 <= i < j && wire[i].PrepareItem? && wire[i].f == wire[j].f;
      assert wire[..j][i] == wire[i];
    }
  }

  /** A SET that the server reads outside a transaction stands behind a PREPARE of its fieldset, unless a MULTI got lost
      and the handler is mistaken. */
  ghost predicate ServerSets(wire: seq<Item>) {
    forall j :: 0 <= j < |wire| && wire[j].SetItem? && !TxOf(wire[..j]) ==>
      HasPrepare(wire[..j], wire[j].f) || StartLost(wire[..j])
  }

  /** On every channel, after every run: SETs behind their PREPARE, DISCARDs once and last. */
  lemma WireOrder(init: System, run: seq<Action>, c: nat)
    requires Initial(init) && Exec(init, run).Some? && c < |Exec(init, run).value.channels|
    ensures var s := Exec(init, run).value;
            && SetsPrepared(s.channels[c].wire) && ServerSets(s.channels[c].wire)
            && DiscardsLast(s, s.channels[c].wire)
  {
    HandlerOrder(init, run, c);
    var wire := Exec(init, run).value.channels[c].wire;
    forall j | 0 <= j < |wire| && wire[j].SetItem? && !TxOf(wire[..j])
      ensures HasPrepare(wire[..j], wire[j].f) || StartLost(wire[..j])
    {
      ServerSetsPrepared(init, run, c, j);
    }
  }

  /** A PREPARE goes out inside a transaction exactly if its write began inside one, save where a marker got lost. If
      its write began inside one, an EXEC or DISCARD ahead of the SET in the same batch closed it, as the handler saw
      it. */
  lemma PrepareInsideTransaction(init: System, run: seq<Action>, c: nat)
    requires Initial(init) && Exec(init, run).Some? && Enabled(Exec(init, run).value, Inject(c))
    ensures var ch := Exec(init, run).value.channels[c];
            && (TxOf(ch.wire) <==> if ch.loop.w.beganOpen then !StartLost(ch.wire) else EndLost(ch.wire))
            && (ch.loop.w.beganOpen ==>
                  exists i :: 0 <= i < |ch.loop.w.seen| < |ch.loop.w.batch| && Closes(ch.loop.w, i))
  {
    Reachable(init, run);
    var ch := Exec(init, run).value.channels[c];
    assert TxInv(ch);
    Misreading(ch.wire);
    if ch.loop.w.beganOpen {
      ClosedWithin(ch.loop.w);
    }
  }

  /** Element i was live and ended a transaction. */
  ghost predicate Closes(w: Write, i: nat)
    requires i < |w.seen| <= |w.batch|
  {
    w.seen[i].Live? && w.batch[i].Mark? && !After(w.batch[i].marker)
  }

  lemma {:induction false} ClosedWithin(w: Write)
    requires |w.seen| <= |w.batch| && w.beganOpen && !OpenAfter(w.beganOpen, w.batch, w.seen)
    ensures exists i :: 0 <= i < |w.seen| && Closes(w, i)
    decreases |w.seen|
  {
    var n := |w.seen| - 1;
    if !Closes(w, n) {
      ClosedWithin(w.(seen := w.seen[..n]));
      var i :| 0 <= i < n && Closes(w.(seen := w.seen[..n]), i);
      assert Closes(w, i);
    }
  }

  // ----- Cleanup reaches every channel -----

  /** Once cleanup is over, an active channel that wrote a PREPARE of the fieldset has its DISCARD written, drained or
      queued, exactly once, or not at all if the discard call came before the channel had a command builder. */
  lemma DiscardReachesChannel(init: System, run: seq<Action>, f: nat, c: nat)
    requires Initial(init) && Exec(init, run).Some?
    requires var s := Exec(init, run).value;
             && f < |s.fieldsets| && c < |s.channels|
             && s.fieldsets[f].cleaner.Some? && R.At(s.fieldsets[f], s.fieldsets[f].cleaner.value.0, R.Finished)
             && s.channels[c].active && HasPrepare(s.channels[c].wire, f)
    ensures var ch := Exec(init, run).value.channels[c];
            multiset(Log(ch))[f] == if f in ch.missed then 0 else 1
  {
    Reachable(init, run);
    var s := Exec(init, run).value;
    var ch := s.channels[c];
    assert R.RegistryInv(s.fieldsets[f]);
    assert LinkInv(s.fieldsets[f], f, c, ch);
    assert WireOk(s, ch);
    if f !in ch.missed {
      assert !QueueingOn(s.fieldsets[f], c);
      DistinctOnce(Log(ch), f);
    }
  }

  lemma {:induction false} DistinctOnce(xs: seq<nat>, x: nat)
    requires R.Distinct(xs) && x in xs
    ensures multiset(xs)[x] == 1
  {
    var n := |xs| - 1;
    assert xs == xs[..n] + [xs[n]];
    if x != xs[n] {
      DistinctOnce(xs[..n], x);
    } else {
      assert x !in xs[..n];
    }
  }

  lemma {:induction false} MissedStays(s: System, more: seq<Action>, c: nat)
    requires c < |s.channels| && Exec(s, more).Some?
    ensures c < |Exec(s, more).value.channels| && s.channels[c].missed <= Exec(s, more).value.channels[c].missed
  {
    if more != [] {
      var n := |more| - 1;
      MissedStays(s, more[..n], c);
      MissedStep(Exec(s, more[..n]).value, more[n], c);
    }
  }

  lemma MissedStep(s: System, a: Action, c: nat)
    requires Enabled(s, a) && c < |s.channels|
    ensures c < |Apply(s, a).channels| && s.channels[c].missed <= Apply(s, a).channels[c].missed
  {
  }

  /** A fieldset whose discard call found no command builder on a channel is never discarded there. */
  lemma MissedForever(init: System, run: seq<Action>, more: seq<Action>, f: nat, c: nat)
    requires Initial(init) && Exec(init, run).Some? && Exec(Exec(init, run).value, more).Some?
    requires var s := Exec(init, run).value; f < |s.fieldsets| && c < |s.channels| && f in s.channels[c].missed
    ensures var t := Exec(Exec(init, run).value, more).value;
            c < |t.channels| && DiscardItem(f) !in t.channels[c].wire
  {
    Reachable(init, run);
    var s := Exec(init, run).value;
    RunKeepsInv(s, more);
    RunKeepsShape(s, more);
    MissedStays(s, more, c);
    var t := Exec(s, more).value;
    assert LinkInv(t.fieldsets[f], f, c, t.channels[c]);
    OnWire(t.channels[c].wire, f);
  }

  lemma {:induction false} RunKeepsShape(s: System, run: seq<Action>)
    requires Exec(s, run).Some?
    ensures SameShape(s, Exec(s, run).value)
  {
    if run != [] {
      var n := |run| - 1;
      RunKeepsShape(s, run[..n]);
      StepKeepsShape(Exec(s, run[..n]).value, run[n]);
    }
  }

  /** A discard call finds no command builder only while the handler stands between registering that very fieldset and
      building its first command; and then, unless close overtook a releaser, the SET it prepares for is done. */
  lemma MissedOnlyMidPrepare(init: System, run: seq<Action>, f: nat, k: nat, c: nat)
    requires Initial(init) && Exec(init, run).Some?
    requires Enabled(Exec(init, run).value, DiscardCall(f, R.SkipDiscard(k, c)))
    ensures var s := Exec(init, run).value;
            && Current(s.channels[c], f)
            && (!s.fieldsets[f].raced ==>
                  Next(s.channels[c].loop.w).k < |s.fieldsets[f].calls| &&
                  R.Done(s.fieldsets[f].calls[Next(s.channels[c].loop.w).k]))
  {
    Reachable(init, run);
    var s := Exec(init, run).value;
    MissIsMidPrepare(s, f, k, c);
  }

  lemma MissIsMidPrepare(s: System, f: nat, k: nat, c: nat)
    requires Sound(s) && Shaped(s) && Linked(s) && PrepareOk(s)
    requires f < |s.fieldsets| && c < |s.channels| && R.Enabled(s.fieldsets[f], R.SkipDiscard(k, c))
    requires !s.channels[c].builder
    ensures Current(s.channels[c], f)
    ensures !s.fieldsets[f].raced ==>
              && Next(s.channels[c].loop.w).k < |s.fieldsets[f].calls|
              && R.Done(s.fieldsets[f].calls[Next(s.channels[c].loop.w).k])
  {
    var F, ch := s.fieldsets[f], s.channels[c];
    assert R.RegistryInv(F) && R.OrderInv(F);
    assert c in R.Remaining(F.calls[k]);
    assert LinkInv(F, f, c, ch);
    assert ChannelOk(s, ch) && PrepareInv(s, ch);
    assert Known(s, Next(ch.loop.w)) && R.Handed(F.calls[Next(ch.loop.w).k]);
  }

  /** While a channel is active, queued DISCARDs always have someone to wake the drain. */
  lemma NoLostWakeUp(init: System, run: seq<Action>, c: nat)
    requires Initial(init) && Exec(init, run).Some? && c < |Exec(init, run).value.channels|
    requires var ch := Exec(init, run).value.channels[c]; ch.active && ch.pending != []
    ensures var s := Exec(init, run).value;
            s.channels[c].flag || s.channels[c].loop.Polling? || FlaggingOn(s, c)
  {
    Reachable(init, run);
    assert WakeInv(Exec(init, run).value, c);
  }

  /** The state in which a write is about to check the flag of c outside a transaction, with the flag set or nobody
      between queueing a DISCARD for c and setting it. */
  ghost predicate ChecksFlag(s: System, c: nat) {
    && c < |s.channels| && s.channels[c].loop.CheckingFlag? && !s.channels[c].open
    && (s.channels[c].flag || !FlaggingOn(s, c))
  }

  /** Every DISCARD a channel was handed is written by the next write that checks the flag like that: in every run
      through such a check, whoever else runs, the DISCARD is on the wire when the drain that it starts is over. */
  lemma QueuedIsWritten(init: System, run: seq<Action>, more: seq<Action>, rest: seq<Action>, c: nat, f: nat)
    requires Initial(init) && Exec(init, run).Some? && Exec(Exec(init, run).value, more).Some?
    requires c < |Exec(init, run).value.channels| && f in Log(Exec(init, run).value.channels[c])
    requires ChecksFlag(Exec(Exec(init, run).value, more).value, c)
    requires Exec(Apply(Exec(Exec(init, run).value, more).value, CheckFlag(c)), rest).Some?
    ensures var v := Exec(Apply(Exec(Exec(init, run).value, more).value, CheckFlag(c)), rest).value;
            && c < |v.channels|
            && (DiscardItem(f) in v.channels[c].wire || (Draining(v.channels[c].loop) && f in Log(v.channels[c])))
  {
    Reachable(init, run);
    var s := Exec(init, run).value;
    RunKeepsInv(s, more);
    var u := Exec(s, more).value;
    assert TxInv(u.channels[c]) && WakeInv(u, c);
    LogStays(s, more, c);
    assert f in Log(u.channels[c]);
    CheckDelivers(u, rest, c, f);
  }

  lemma CheckDelivers(u: System, rest: seq<Action>, c: nat, f: nat)
    requires ChecksFlag(u, c) && WakeInv(u, c) && u.channels[c].active && f in Log(u.channels[c])
    requires Exec(Apply(u, CheckFlag(c)), rest).Some?
    ensures var v := Exec(Apply(u, CheckFlag(c)), rest).value;
            && c < |v.channels|
            && (DiscardItem(f) in v.channels[c].wire || (Draining(v.channels[c].loop) && f in Log(v.channels[c])))
  {
    var t := Apply(u, CheckFlag(c));
    LoopKeepsLog(u, CheckFlag(c));
    LogStays(t, rest, c);
    var v := Exec(t, rest).value;
    OnWire(v.channels[c].wire, f);
    if u.channels[c].flag {
      DrainDelivers(t, rest, c);
    } else {
      assert Log(u.channels[c]) == WireDiscards(u.channels[c].wire);
      WireDiscardsMonotone(u.channels[c].wire, v.channels[c].wire);
    }
  }
}
