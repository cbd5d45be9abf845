/**
 Runs that show the conditions of module ImportGuarantees are needed. Each starts from any initial system that has the
 callers and the channel it uses.
 */
module ImportRaces {
  import opened Options
  import R = Reservation
  import opened ImportWire
  import opened ImportOrder
  import opened ImportDrain
  import opened ImportTransactions

  // ----- Runs of one fieldset, lifted to the system -----

  ghost predicate CallerOnly(b: R.Action) {
    !InDiscard(b) && !b.Register?
  }

  lemma {:induction false} Lift(s: System, run: seq<Action>, f: nat, own: seq<R.Action>) returns (longer: seq<Action>)
    requires Exec(s, run).Some? && f < |Exec(s, run).value.fieldsets|
    requires R.Exec(Exec(s, run).value.fieldsets[f], own).Some?
    requires forall i :: 0 <= i < |own| ==> CallerOnly(own[i])
    ensures var t := Exec(s, run).value;
            Exec(s, longer) == Some(t.(fieldsets := t.fieldsets[f := R.Exec(t.fieldsets[f], own).value]))
  {
    var t := Exec(s, run).value;
    if own == [] {
      longer := run;
      assert t.fieldsets[f := t.fieldsets[f]] == t.fieldsets;
    } else {
      var n := |own| - 1;
      longer := Lift(s, run, f, own[..n]);
      longer := Then(s, longer, Caller(f, own[n]));
      var G := R.Exec(t.fieldsets[f], own[..n]).value;
      assert t.fieldsets[f := G][f := R.Apply(G, own[n])] == t.fieldsets[f := R.Apply(G, own[n])];
    }
  }

  /** The states an import goes through on its way to being dispatched. */
  lemma AdmitSteps(F: R.Fieldset, k: nat)
    requires !F.closed && R.At(F, k, R.ImportIdle)
    ensures R.Apply(F, R.StartImport(k)) == Held(F, k, R.Checked, 0)
    ensures R.Enabled(Held(F, k, R.Checked, 0), R.Increment(k))
    ensures R.Apply(Held(F, k, R.Checked, 0), R.Increment(k)) == Held(F, k, R.Incremented, 1)
    ensures R.Enabled(Held(F, k, R.Incremented, 1), R.Recheck(k))
    ensures R.Apply(Held(F, k, R.Incremented, 1), R.Recheck(k)) == Held(F, k, R.Admitted, 1)
    ensures R.Enabled(Held(F, k, R.Admitted, 1), R.Dispatch(k, false))
    ensures R.Apply(Held(F, k, R.Admitted, 1), R.Dispatch(k, false)) == Held(F, k, R.Dispatched, 1)
  {
  }

  function Held(F: R.Fieldset, k: nat, pc: R.Pc, more: nat): R.Fieldset
    requires k < |F.calls|
  {
    F.(inFlight := F.inFlight + more, calls := F.calls[k := pc])
  }

  lemma AdmitRun(F: R.Fieldset, k: nat) returns (own: seq<R.Action>)
    requires !F.closed && R.At(F, k, R.ImportIdle)
    ensures R.Exec(F, own) == Some(F.(inFlight := F.inFlight + 1, calls := F.calls[k := R.Dispatched]))
    ensures forall i :: 0 <= i < |own| ==> CallerOnly(own[i])
  {
    AdmitSteps(F, k);
    own := R.Then(F, [], R.StartImport(k));
    own := R.Then(F, own, R.Increment(k));
    own := R.Then(F, own, R.Recheck(k));
    own := R.Then(F, own, R.Dispatch(k, false));
  }

  lemma LastReleaseRun(F: R.Fieldset, k: nat) returns (own: seq<R.Action>)
    requires !F.closed && F.inFlight == 1 && R.At(F, k, R.Dispatched)
    ensures R.Exec(F, own) == Some(F.(inFlight := 0, calls := F.calls[k := R.ReadClosed(false)]))
    ensures forall i :: 0 <= i < |own| ==> CallerOnly(own[i])
  {
    var done := F.(calls := F.calls[k := R.Completed]);
    CompleteStep(F, k);
    own := R.Then(F, [], R.Complete(k));
    assert done.calls[k := R.ReadClosed(false)] == F.calls[k := R.ReadClosed(false)];
    own := DecrementToZero(F, own, done, k);
  }

  lemma CompleteStep(F: R.Fieldset, k: nat)
    requires R.At(F, k, R.Dispatched)
    ensures R.Apply(F, R.Complete(k)) == F.(calls := F.calls[k := R.Completed])
  {
  }

  lemma DecrementToZero(s: R.Fieldset, own: seq<R.Action>, F: R.Fieldset, k: nat) returns (longer: seq<R.Action>)
    requires R.Exec(s, own) == Some(F) && !F.closed && F.inFlight == 1 && R.At(F, k, R.Completed)
    ensures longer == own + [R.Decrement(k)]
    ensures R.Exec(s, longer) == Some(F.(inFlight := 0, calls := F.calls[k := R.ReadClosed(false)]))
  {
    longer := R.Then(s, own, R.Decrement(k));
  }

  lemma OvertakeSteps(F: R.Fieldset, r: nat, k: nat)
    requires !F.cleanedUp && R.At(F, r, R.ReadClosed(false)) && R.At(F, k, R.CloseIdle)
    ensures R.Apply(F, R.StartClose(k)) == Overtaking(F, r, k, R.ReadClosed(false))
    ensures var G := Overtaking(F, r, k, R.ReadClosed(false));
            && R.Enabled(G, R.ReadAgain(r))
            && R.Apply(G, R.ReadAgain(r)) == Overtaking(F, r, k, R.EnterCleanup(R.ByRelease(false)))
  {
    assert R.ReadClosed(false) in F.calls;
    assert F.calls[k := R.CloseRead][r := R.ReadClosed(false)] == F.calls[k := R.CloseRead];
  }

  ghost function Overtaking(F: R.Fieldset, r: nat, k: nat, pc: R.Pc): R.Fieldset
    requires r < |F.calls| && k < |F.calls|
  {
    F.(closed := true, raced := true, calls := F.calls[k := R.CloseRead][r := pc])
  }

  lemma OvertakenCleansUp(F: R.Fieldset, r: nat, k: nat)
    requires !F.cleanedUp && r < |F.calls| && k < |F.calls|
    ensures var G := Overtaking(F, r, k, R.EnterCleanup(R.ByRelease(false)));
            && R.Enabled(G, R.RunCleanup(r))
            && R.Apply(G, R.RunCleanup(r)) == Overtaking(F, r, k, R.Discarding(F.preparedOn)).(
                 cleanedUp := true, preparedOn := {}, cleaner := Some((r, R.ByRelease(false))))
  {
  }

  /** Close writes `closed` before releaser r reads it, and r enters cleanup. */
  lemma OvertakeRun(F: R.Fieldset, r: nat, k: nat) returns (own: seq<R.Action>)
    requires !F.cleanedUp && R.At(F, r, R.ReadClosed(false)) && R.At(F, k, R.CloseIdle)
    ensures R.Exec(F, own) == Some(F.(
              closed := true, raced := true, cleanedUp := true, preparedOn := {},
              cleaner := Some((r, R.ByRelease(false))),
              calls := F.calls[k := R.CloseRead][r := R.Discarding(F.preparedOn)]))
    ensures forall i :: 0 <= i < |own| ==> CallerOnly(own[i])
  {
    OvertakeSteps(F, r, k);
    OvertakenCleansUp(F, r, k);
    own := Step(F, [], F, R.StartClose(k));
    own := Step(F, own, Overtaking(F, r, k, R.ReadClosed(false)), R.ReadAgain(r));
    own := Step(F, own, Overtaking(F, r, k, R.EnterCleanup(R.ByRelease(false))), R.RunCleanup(r));
  }

  // ----- Moves of one channel -----

  ghost function WithChannel(s: System, c: nat, ch: Channel): System
    requires c < |s.channels|
  {
    s.(channels := s.channels[c := ch])
  }

  /** One action that touches only channel c, from a state that differs from t only there. */
  lemma Move(s: System, run: seq<Action>, t: System, c: nat, ch: Channel, a: Action, next: Channel)
    returns (longer: seq<Action>)
    requires c < |t.channels| && Exec(s, run) == Some(WithChannel(t, c, ch)) && Enabled(WithChannel(t, c, ch), a)
    requires FieldsetEffect(WithChannel(t, c, ch), a) == None
    requires ChannelEffect(WithChannel(t, c, ch), a) == Some((c, next))
    ensures Exec(s, longer) == Some(WithChannel(t, c, next))
  {
    longer := Then(s, run, a);
    assert t.channels[c := ch][c := next] == t.channels[c := next];
  }

  lemma Here(t: System, c: nat)
    requires c < |t.channels|
    ensures WithChannel(t, c, t.channels[c]) == t
  {
    assert t.channels[c := t.channels[c]] == t.channels;
  }

  /** Observe a single command that injects nothing. */
  lemma ObserveOne(s: System, run: seq<Action>, c: nat, command: Command) returns (longer: seq<Action>)
    requires Exec(s, run).Some? && c < |Exec(s, run).value.channels|
    requires var t := Exec(s, run).value;
             var ch := t.channels[c];
             && ch.active && ch.loop.Idle? && Known(t, command) && !IsDone(t, command, false) && !command.Mark?
             && (command.Set? ==> command.f in ch.prepared)
    ensures var t := Exec(s, run).value;
            var ch := t.channels[c];
            Exec(s, longer) == Some(WithChannel(t, c, ch.(
              loop := Observing(Write([command], [Live(ch.open)], ch.open)))))
  {
    var t := Exec(s, run).value;
    var ch := t.channels[c];
    var w0 := Write([command], [], ch.open);
    var w1 := Write([command], [Live(ch.open)], ch.open);
    assert Advance(w0, Live(ch.open)) == w1;
    Here(t, c);
    longer := Move(s, run, t, c, ch, BeginWrite(c, [command]), ch.(loop := Observing(w0)));
    longer := Move(s, longer, t, c, ch.(loop := Observing(w0)), Observe(c, false), ch.(loop := Observing(w1)));
  }

  /** Forward a single command that was seen live and is not done. */
  lemma ForwardOne(s: System, run: seq<Action>, c: nat, w: Write) returns (longer: seq<Action>)
    requires Exec(s, run).Some? && c < |Exec(s, run).value.channels|
    requires var t := Exec(s, run).value;
             && t.channels[c].loop == Observing(w) && |w.batch| == |w.seen| == 1 && w.seen[0].Live?
             && Known(t, w.batch[0]) && !IsDone(t, w.batch[0], false)
    ensures var t := Exec(s, run).value;
            var ch := t.channels[c];
            Exec(s, longer) == Some(WithChannel(t, c, ch.(
              loop := CheckingFlag, wire := ch.wire + [ItemOf(w.batch[0], w.seen[0].inTx)])))
  {
    var t := Exec(s, run).value;
    var ch := t.channels[c];
    var sent := ch.(wire := ch.wire + [ItemOf(w.batch[0], w.seen[0].inTx)]);
    Here(t, c);
    longer := Move(s, run, t, c, ch, EndObserve(c), ch.(loop := Forwarding(w, 0)));
    longer := Move(s, longer, t, c, ch.(loop := Forwarding(w, 0)), Forward(c, false), sent.(loop := Forwarding(w, 1)));
    longer := Move(s, longer, t, c, sent.(loop := Forwarding(w, 1)), EndForward(c), sent.(loop := CheckingFlag));
  }

  /** Write a single command that injects nothing, up to the check of the flag. */
  lemma PlainWrite(s: System, run: seq<Action>, c: nat, command: Command) returns (longer: seq<Action>)
    requires Exec(s, run).Some? && c < |Exec(s, run).value.channels|
    requires var t := Exec(s, run).value;
             var ch := t.channels[c];
             && ch.active && ch.loop.Idle? && Known(t, command) && !IsDone(t, command, false) && !command.Mark?
             && (command.Set? ==> command.f in ch.prepared)
    ensures var t := Exec(s, run).value;
            var ch := t.channels[c];
            Exec(s, longer) == Some(WithChannel(t, c, ch.(
              loop := CheckingFlag, wire := ch.wire + [ItemOf(command, ch.open)])))
  {
    var t := Exec(s, run).value;
    longer := ObserveOne(s, run, c, command);
    var w := Exec(s, longer).value.channels[c].loop.w;
    longer := ForwardOne(s, longer, c, w);
    var last := Exec(s, longer).value.channels[c];
    assert t.channels[c := t.channels[c].(loop := Observing(w))][c := last] == t.channels[c := last];
  }

  /** Write the first SET of a fieldset on a channel: its PREPARE goes ahead of it. */
  lemma FirstWrite(s: System, run: seq<Action>, c: nat, f: nat, k: nat) returns (longer: seq<Action>)
    requires Exec(s, run).Some? && c < |Exec(s, run).value.channels|
    requires var t := Exec(s, run).value;
             var ch := t.channels[c];
             && ch.active && ch.loop.Idle? && !ch.open && f !in ch.prepared && Known(t, Set(f, k))
             && t.fieldsets[f].calls[k].Dispatched? && !t.fieldsets[f].cleanedUp
    ensures var t := Exec(s, run).value;
            var F, ch := t.fieldsets[f], t.channels[c];
            Exec(s, longer) == Some(System(
              t.fieldsets[f := F.(preparedOn := F.preparedOn + {c}, registered := F.registered + {c})],
              t.channels[c := ch.(builder := true, prepared := ch.prepared + {f}, loop := CheckingFlag,
                                  wire := ch.wire + [PrepareItem(f, false)] + [SetItem(f, k, false)])]))
  {
    var t := Exec(s, run).value;
    var ch := t.channels[c];
    longer := RegisterOne(s, run, c, f, k);
    var u := Exec(s, longer).value;
    var w0, w1 := Write([Set(f, k)], [], false), Write([Set(f, k)], [Live(false)], false);
    assert Advance(w0, Live(false)) == w1;
    var injected := ch.(builder := true, prepared := ch.prepared + {f}, wire := ch.wire + [PrepareItem(f, false)]);
    Here(u, c);
    longer := Move(s, longer, u, c, ch.(loop := Registered(w0)), Inject(c), injected.(loop := Observing(w1)));
    longer := ForwardOne(s, longer, c, w1);
    var last := Exec(s, longer).value.channels[c];
    assert u.channels[c := injected.(loop := Observing(w1))][c := last] == t.channels[c := last];
  }

  lemma RegisterOne(s: System, run: seq<Action>, c: nat, f: nat, k: nat) returns (longer: seq<Action>)
    requires Exec(s, run).Some? && c < |Exec(s, run).value.channels|
    requires var t := Exec(s, run).value;
             var ch := t.channels[c];
             && ch.active && ch.loop.Idle? && !ch.open && f !in ch.prepared && Known(t, Set(f, k))
             && t.fieldsets[f].calls[k].Dispatched? && !t.fieldsets[f].cleanedUp
    ensures var t := Exec(s, run).value;
            var F, ch := t.fieldsets[f], t.channels[c];
            Exec(s, longer) == Some(System(
              t.fieldsets[f := F.(preparedOn := F.preparedOn + {c}, registered := F.registered + {c})],
              t.channels[c := ch.(loop := Registered(Write([Set(f, k)], [], false)))]))
  {
    var t := Exec(s, run).value;
    var ch := t.channels[c];
    var w := Write([Set(f, k)], [], false);
    Here(t, c);
    longer := Move(s, run, t, c, ch, BeginWrite(c, [Set(f, k)]), ch.(loop := Observing(w)));
    longer := Move(s, longer, t, c, ch.(loop := Observing(w)), Observe(c, false), ch.(loop := Registering(w)));
    var u := WithChannel(t, c, ch.(loop := Registering(w)));
    JoinOne(u, c, w);
    longer := Then(s, longer, Join(c));
    var last := ch.(loop := Registered(w));
    assert u.channels[c := last] == t.channels[c := last];
  }

  lemma JoinOne(t: System, c: nat, w: Write)
    requires c < |t.channels| && t.channels[c].loop == Registering(w) && HasNext(w) && Next(w).Set? && Known(t, Next(w))
    requires !t.fieldsets[Next(w).f].cleanedUp
    ensures Enabled(t, Join(c))
    ensures var f := Next(w).f;
            var F := t.fieldsets[f];
            Apply(t, Join(c)) == System(
              t.fieldsets[f := F.(preparedOn := F.preparedOn + {c}, registered := F.registered + {c})],
              t.channels[c := t.channels[c].(loop := Registered(w))])
  {
  }

  /** One step of a discard call on channel c. */
  lemma DiscardMove(s: System, run: seq<Action>, t: System, f: nat, b: R.Action, c: nat) returns (longer: seq<Action>)
    requires Exec(s, run) == Some(t) && Enabled(t, DiscardCall(f, b)) && DiscardTarget(t.fieldsets[f], b) == c
    ensures Exec(s, longer) == Some(System(t.fieldsets[f := R.Apply(t.fieldsets[f], b)],
                                           t.channels[c := AfterDiscardCall(t.channels[c], f, b)]))
  {
    longer := Then(s, run, DiscardCall(f, b));
  }

  /** The cleaner on its way through a discard call. */
  ghost function Handing(F: R.Fieldset, k: nat, c: nat, pc: R.Pc): R.Fieldset
    requires k < |F.calls|
  {
    F.(discarded := F.discarded + [c], calls := F.calls[k := pc])
  }

  lemma HandSteps(F: R.Fieldset, k: nat, c: nat)
    requires R.At(F, k, R.Discarding({c}))
    ensures R.Apply(F, R.PickDiscard(k, c)) == Handing(F, k, c, R.Queueing(c, {}))
    ensures R.Apply(Handing(F, k, c, R.Queueing(c, {})), R.QueueDiscard(k)) == Handing(F, k, c, R.Flagging(c, {}))
    ensures R.Apply(Handing(F, k, c, R.Flagging(c, {})), R.FlagDiscard(k)) == Handing(F, k, c, R.Discarding({}))
  {
    assert {c} - {c} == {};
  }

  /** The cleaner, with channel c left as its only target, hands it the DISCARD. */
  lemma HandDiscard(s: System, run: seq<Action>, f: nat, k: nat, c: nat) returns (longer: seq<Action>)
    requires Exec(s, run).Some?
    requires var t := Exec(s, run).value;
             && f < |t.fieldsets| && c < |t.channels| && t.channels[c].builder
             && R.At(t.fieldsets[f], k, R.Discarding({c}))
    ensures var t := Exec(s, run).value;
            Exec(s, longer) == Some(System(
              t.fieldsets[f := Handing(t.fieldsets[f], k, c, R.Discarding({}))],
              t.channels[c := t.channels[c].(pending := t.channels[c].pending + [f], flag := true)]))
  {
    var t := Exec(s, run).value;
    var F, ch := t.fieldsets[f], t.channels[c];
    var queued := ch.(pending := ch.pending + [f]);
    HandSteps(F, k, c);
    longer := DiscardMove(s, run, t, f, R.PickDiscard(k, c), c);
    var u := System(t.fieldsets[f := Handing(F, k, c, R.Queueing(c, {}))], t.channels[c := ch]);
    longer := DiscardMove(s, longer, u, f, R.QueueDiscard(k), c);
    var v := System(t.fieldsets[f := Handing(F, k, c, R.Flagging(c, {}))], t.channels[c := queued]);
    assert u.channels[c := queued] == v.channels;
    assert u.fieldsets[f := Handing(F, k, c, R.Flagging(c, {}))] == v.fieldsets;
    longer := DiscardMove(s, longer, v, f, R.FlagDiscard(k), c);
    var last := Handing(F, k, c, R.Discarding({}));
    assert v.channels[c := queued.(flag := true)] == t.channels[c := queued.(flag := true)];
    assert v.fieldsets[f := last] == t.fieldsets[f := last];
  }

  /** A write ends without a drain. */
  lemma Release(s: System, run: seq<Action>, c: nat) returns (longer: seq<Action>)
    requires Exec(s, run).Some? && c < |Exec(s, run).value.channels|
    requires var ch := Exec(s, run).value.channels[c]; ch.loop.CheckingFlag? && (!ch.flag || ch.open)
    ensures var t := Exec(s, run).value;
            Exec(s, longer) == Some(WithChannel(t, c, t.channels[c].(loop := Idle)))
  {
    longer := Then(s, run, CheckFlag(c));
  }

  function MarkerItem(m: Marker, lost: bool): Item {
    if lost then LostItem(m) else MarkItem(m)
  }

  /** Write a single marker, which may get lost once it was observed, up to the check of the flag. */
  lemma MarkerWrite(s: System, run: seq<Action>, c: nat, m: Marker, lost: bool) returns (longer: seq<Action>)
    requires Exec(s, run).Some? && c < |Exec(s, run).value.channels|
    requires Exec(s, run).value.channels[c].active && Exec(s, run).value.channels[c].loop.Idle?
    ensures var t := Exec(s, run).value;
            var ch := t.channels[c];
            Exec(s, longer) == Some(WithChannel(t, c, ch.(
              open := After(m), loop := CheckingFlag, wire := ch.wire + [MarkerItem(m, lost)])))
  {
    var t := Exec(s, run).value;
    var ch := t.channels[c];
    var w0, w1 := Write([Mark(m)], [], ch.open), Write([Mark(m)], [Live(After(m))], ch.open);
    assert Advance(w0, Live(After(m))) == w1;
    Here(t, c);
    longer := Move(s, run, t, c, ch, BeginWrite(c, [Mark(m)]), ch.(loop := Observing(w0)));
    var seen := ch.(open := After(m));
    longer := Move(s, longer, t, c, ch.(loop := Observing(w0)), Observe(c, false), seen.(loop := Observing(w1)));
    longer := Move(s, longer, t, c, seen.(loop := Observing(w1)), EndObserve(c), seen.(loop := Forwarding(w1, 0)));
    longer := MarkerForward(s, longer, t, c, seen, w1, m, lost);
  }

  lemma MarkerForward(s: System, run: seq<Action>, t: System, c: nat, ch: Channel, w: Write, m: Marker, lost: bool)
    returns (longer: seq<Action>)
    requires c < |t.channels| && Exec(s, run) == Some(WithChannel(t, c, ch.(loop := Forwarding(w, 0))))
    requires w.batch == [Mark(m)] && |w.seen| == 1 && w.seen[0].Live?
    ensures Exec(s, longer) == Some(WithChannel(t, c, ch.(
              loop := CheckingFlag, wire := ch.wire + [MarkerItem(m, lost)])))
  {
    var sent := ch.(wire := ch.wire + [MarkerItem(m, lost)]);
    longer := Move(s, run, t, c, ch.(loop := Forwarding(w, 0)), Forward(c, lost), sent.(loop := Forwarding(w, 1)));
    longer := Move(s, longer, t, c, sent.(loop := Forwarding(w, 1)), EndForward(c), sent.(loop := CheckingFlag));
  }

  // ----- A SET behind the DISCARD of its fieldset -----

  /** Import r has been written and stands between its decrement and its read; import i is dispatched, close k is not
      called yet, and the channel is idle. */
  ghost predicate Window(s: System, f: nat, c: nat, r: nat, i: nat, k: nat) {
    && f < |s.fieldsets| && c < |s.channels|
    && var F, ch := s.fieldsets[f], s.channels[c];
       && !F.cleanedUp && F.preparedOn == {c}
       && R.At(F, r, R.ReadClosed(false)) && R.At(F, i, R.Dispatched) && R.At(F, k, R.CloseIdle)
       && ch.active && ch.loop.Idle? && !ch.open && !ch.flag && ch.builder && f in ch.prepared && ch.pending == []
  }

  /** The first import is admitted and written, with its PREPARE ahead of it. */
  lemma WriteFirst(init: System, f: nat, c: nat, r: nat) returns (run: seq<Action>)
    requires Initial(init) && f < |init.fieldsets| && c < |init.channels| && R.At(init.fieldsets[f], r, R.ImportIdle)
    ensures Exec(init, run).Some?
    ensures var t := Exec(init, run).value;
            && f < |t.fieldsets| && c < |t.channels|
            && t.fieldsets[f] == init.fieldsets[f].(inFlight := 1, preparedOn := {c}, registered := {c},
                                                    calls := init.fieldsets[f].calls[r := R.Dispatched])
            && t.channels[c] == FRESH.(builder := true, prepared := {f},
                                       wire := [PrepareItem(f, false)] + [SetItem(f, r, false)])
  {
    var own := AdmitRun(init.fieldsets[f], r);
    run := Lift(init, [], f, own);
    run := FirstWrite(init, run, c, f, r);
    run := Release(init, run, c);
    var wire := [] + [PrepareItem(f, false)] + [SetItem(f, r, false)];
    assert wire == [PrepareItem(f, false)] + [SetItem(f, r, false)];
    assert {} + {c} == {c} && {} + {f} == {f};
  }

  lemma ReachWindow(init: System, f: nat, c: nat, r: nat, i: nat, k: nat) returns (run: seq<Action>)
    requires Initial(init) && f < |init.fieldsets| && c < |init.channels|
    requires R.At(init.fieldsets[f], r, R.ImportIdle) && R.At(init.fieldsets[f], i, R.ImportIdle) && r != i
    requires R.At(init.fieldsets[f], k, R.CloseIdle)
    ensures Exec(init, run).Some? && Window(Exec(init, run).value, f, c, r, i, k)
  {
    run := WriteFirst(init, f, c, r);
    run := ReleaseAndAdmit(init, run, f, r, i);
  }

  /** The import on its way out takes the count to zero, and another one is admitted. */
  lemma ReleaseAndAdmit(s: System, run: seq<Action>, f: nat, r: nat, i: nat) returns (longer: seq<Action>)
    requires Exec(s, run).Some? && f < |Exec(s, run).value.fieldsets| && r != i
    requires var F := Exec(s, run).value.fieldsets[f];
             !F.closed && F.inFlight == 1 && R.At(F, r, R.Dispatched) && R.At(F, i, R.ImportIdle)
    ensures var t := Exec(s, run).value;
            var F := t.fieldsets[f];
            Exec(s, longer) == Some(t.(fieldsets := t.fieldsets[f := F.(
              calls := F.calls[r := R.ReadClosed(false)][i := R.Dispatched])]))
  {
    var t := Exec(s, run).value;
    var F := t.fieldsets[f];
    var own := LastReleaseRun(F, r);
    longer := Lift(s, run, f, own);
    var G := F.(inFlight := 0, calls := F.calls[r := R.ReadClosed(false)]);
    own := AdmitRun(G, i);
    longer := Lift(s, longer, f, own);
    var H := F.(calls := F.calls[r := R.ReadClosed(false)][i := R.Dispatched]);
    assert t.fieldsets[f := G][f := H] == t.fieldsets[f := H];
  }

  lemma DiscardOvertakes(s: System, run: seq<Action>, f: nat, c: nat, r: nat, i: nat, k: nat)
    returns (longer: seq<Action>)
    requires Exec(s, run).Some? && Window(Exec(s, run).value, f, c, r, i, k)
    ensures Exec(s, longer).Some?
    ensures var t, u := Exec(s, run).value, Exec(s, longer).value;
            && f < |u.fieldsets| && c < |u.channels| && R.At(u.fieldsets[f], i, R.Dispatched)
            && u.channels[c] == t.channels[c].(wire := t.channels[c].wire + [OtherItem] + [DiscardItem(f)])
  {
    var t := Exec(s, run).value;
    var own := OvertakeRun(t.fieldsets[f], r, k);
    longer := Lift(s, run, f, own);
    longer := HandDiscard(s, longer, f, r, c);
    longer := PlainWrite(s, longer, c, Other);
    longer := Flush(s, longer, c);
    assert DiscardItems([f]) == [DiscardItem(f)];
  }

  ghost predicate EndsWith(wire: seq<Item>, a: Item, b: Item) {
    |wire| >= 2 && wire[|wire| - 2] == a && wire[|wire| - 1] == b
  }

  /** The SET that was admitted goes out behind the DISCARD. */
  lemma SetFollows(s: System, run: seq<Action>, f: nat, c: nat, r: nat, i: nat, k: nat) returns (longer: seq<Action>)
    requires Exec(s, run).Some? && Window(Exec(s, run).value, f, c, r, i, k)
    ensures Exec(s, longer).Some? && c < |Exec(s, longer).value.channels|
    ensures EndsWith(Exec(s, longer).value.channels[c].wire, DiscardItem(f), SetItem(f, i, false))
  {
    longer := DiscardOvertakes(s, run, f, c, r, i, k);
    longer := PlainWrite(s, longer, c, Set(f, i));
  }

  /** The condition on SETs in WireOrder is needed: close, called while a releaser stands between its decrement and its
      read, lets the DISCARD go out ahead of a SET that was admitted before close. */
  lemma SetBehindDiscard(init: System, f: nat, c: nat, r: nat, i: nat, k: nat)
    requires Initial(init) && f < |init.fieldsets| && c < |init.channels|
    requires R.At(init.fieldsets[f], r, R.ImportIdle) && R.At(init.fieldsets[f], i, R.ImportIdle) && r != i
    requires R.At(init.fieldsets[f], k, R.CloseIdle)
    ensures exists run :: Exec(init, run).Some? && c < |Exec(init, run).value.channels| &&
              EndsWith(Exec(init, run).value.channels[c].wire, DiscardItem(f), SetItem(f, i, false))
  {
    var run := ReachWindow(init, f, c, r, i, k);
    run := SetFollows(init, run, f, c, r, i, k);
  }

  // ----- A PREPARE that is never discarded -----

  /** The only import outstanding is cancelled, then close finds nothing in flight and enters cleanup. */
  lemma CancelThenClose(F: R.Fieldset, i: nat, k: nat) returns (own: seq<R.Action>)
    requires !F.closed && !F.cleanedUp && !F.raced && F.inFlight == 1
    requires R.At(F, i, R.Dispatched) && R.At(F, k, R.CloseIdle) && R.ReadClosed(false) !in F.calls
    ensures R.Exec(F, own).Some? && forall j :: 0 <= j < |own| ==> CallerOnly(own[j])
    ensures var G := R.Exec(F, own).value; R.At(G, k, R.Discarding(F.preparedOn)) && !G.raced
  {
    own := LastReleaseRun(F, i);
    own := R.Then(F, own, R.ReadAgain(i));
    var calls := F.calls[i := R.Finished];
    assert R.Exec(F, own) == Some(F.(inFlight := 0, calls := calls)) by {
      assert F.calls[i := R.ReadClosed(false)][i := R.Finished] == calls;
    }
    own := CloseAlone(F, own, F.(inFlight := 0, calls := calls), k);
  }

  /** The states of a close that finds nothing in flight, up to the loop of cleanup. */
  function Closing(F: R.Fieldset, k: nat, pc: R.Pc): R.Fieldset
    requires k < |F.calls|
  {
    F.(closed := true, calls := F.calls[k := pc])
  }

  lemma CloseStarts(F: R.Fieldset, k: nat)
    requires !F.raced && R.At(F, k, R.CloseIdle) && R.ReadClosed(false) !in F.calls
    ensures R.Apply(F, R.StartClose(k)) == Closing(F, k, R.CloseRead)
  {
  }

  lemma CloseReadsZero(F: R.Fieldset, k: nat)
    requires F.inFlight == 0 && k < |F.calls|
    ensures var G := Closing(F, k, R.CloseRead);
            R.Enabled(G, R.CloseReads(k)) && R.Apply(G, R.CloseReads(k)) == Closing(F, k, R.EnterCleanup(R.ByClose))
  {
  }

  lemma CloseCleansUp(F: R.Fieldset, k: nat)
    requires !F.cleanedUp && k < |F.calls|
    ensures var G := Closing(F, k, R.EnterCleanup(R.ByClose));
            && R.Enabled(G, R.RunCleanup(k))
            && R.At(R.Apply(G, R.RunCleanup(k)), k, R.Discarding(F.preparedOn))
            && R.Apply(G, R.RunCleanup(k)).raced == F.raced
  {
  }

  /** One more action of a caller. */
  lemma Step(s: R.Fieldset, own: seq<R.Action>, F: R.Fieldset, a: R.Action) returns (longer: seq<R.Action>)
    requires R.Exec(s, own) == Some(F) && R.Enabled(F, a) && CallerOnly(a)
    requires forall j :: 0 <= j < |own| ==> CallerOnly(own[j])
    ensures R.Exec(s, longer) == Some(R.Apply(F, a)) && forall j :: 0 <= j < |longer| ==> CallerOnly(longer[j])
  {
    longer := R.Then(s, own, a);
  }

  lemma CloseAlone(s: R.Fieldset, own: seq<R.Action>, F: R.Fieldset, k: nat) returns (longer: seq<R.Action>)
    requires R.Exec(s, own) == Some(F) && forall j :: 0 <= j < |own| ==> CallerOnly(own[j])
    requires !F.cleanedUp && F.inFlight == 0 && !F.raced && R.At(F, k, R.CloseIdle) && R.ReadClosed(false) !in F.calls
    ensures R.Exec(s, longer).Some? && forall j :: 0 <= j < |longer| ==> CallerOnly(longer[j])
    ensures var G := R.Exec(s, longer).value; R.At(G, k, R.Discarding(F.preparedOn)) && !G.raced
  {
    CloseStarts(F, k);
    longer := Step(s, own, F, R.StartClose(k));
    CloseReadsZero(F, k);
    longer := Step(s, longer, Closing(F, k, R.CloseRead), R.CloseReads(k));
    CloseCleansUp(F, k);
    longer := Step(s, longer, Closing(F, k, R.EnterCleanup(R.ByClose)), R.RunCleanup(k));
  }

  lemma InjectOne(s: System, run: seq<Action>, f: nat, c: nat) returns (longer: seq<Action>)
    requires Exec(s, run).Some? && c < |Exec(s, run).value.channels|
    requires Current(Exec(s, run).value.channels[c], f)
    ensures Exec(s, longer).Some?
    ensures var t, u := Exec(s, run).value, Exec(s, longer).value;
            && u.fieldsets == t.fieldsets && c < |u.channels| && u.channels[c].missed == t.channels[c].missed
            && HasPrepare(u.channels[c].wire, f)
  {
    longer := Then(s, run, Inject(c));
    var wire := Exec(s, longer).value.channels[c].wire;
    assert wire[|wire| - 1].PrepareItem? && wire[|wire| - 1].f == f;
  }

  /** The exception in DiscardReachesChannel is needed even when no releaser was overtaken: a SET cancelled while the
      handler stands between registering the fieldset and building its first command leaves a PREPARE on the wire that
      no DISCARD will ever follow. */
  lemma StrandedPrepare(init: System, f: nat, c: nat, i: nat, k: nat)
    requires Initial(init) && f < |init.fieldsets| && c < |init.channels|
    requires R.At(init.fieldsets[f], i, R.ImportIdle) && R.At(init.fieldsets[f], k, R.CloseIdle)
    ensures exists run :: Exec(init, run).Some? &&
              var s := Exec(init, run).value;
              && f < |s.fieldsets| && c < |s.channels| && !s.fieldsets[f].raced
              && HasPrepare(s.channels[c].wire, f) && f in s.channels[c].missed
  {
    var own := AdmitRun(init.fieldsets[f], i);
    var run := Lift(init, [], f, own);
    run := RegisterOne(init, run, c, f, i);
    var t := Exec(init, run).value;
    assert {} + {c} == {c};
    assert R.ReadClosed(false) !in t.fieldsets[f].calls;
    own := CancelThenClose(t.fieldsets[f], i, k);
    run := Lift(init, run, f, own);
    run := Then(init, run, DiscardCall(f, R.SkipDiscard(k, c)));
    run := InjectOne(init, run, f, c);
  }

  // ----- Where transactions go wrong -----

  /** A MULTI is written and the channel is idle again. */
  lemma OpenTransaction(s: System, run: seq<Action>, c: nat) returns (longer: seq<Action>)
    requires Exec(s, run).Some? && c < |Exec(s, run).value.channels|
    requires Exec(s, run).value.channels[c].active && Exec(s, run).value.channels[c].loop.Idle?
    ensures var t := Exec(s, run).value;
            var ch := t.channels[c];
            Exec(s, longer) == Some(WithChannel(t, c, ch.(open := true, wire := ch.wire + [MarkItem(Multi)])))
  {
    var t := Exec(s, run).value;
    longer := MarkerWrite(s, run, c, Multi, false);
    var u := Exec(s, longer).value;
    longer := Release(s, longer, c);
    var last := Exec(s, longer).value.channels[c];
    assert t.channels[c := u.channels[c]][c := last] == t.channels[c := last];
    assert last == t.channels[c].(open := true, wire := t.channels[c].wire + [MarkItem(Multi)]);
  }

  /** The import is written, a transaction is opened on the channel, and cleanup queues the DISCARD meanwhile. */
  lemma DiscardWaits(init: System, f: nat, c: nat, i: nat, k: nat) returns (run: seq<Action>)
    requires Initial(init) && f < |init.fieldsets| && c < |init.channels|
    requires R.At(init.fieldsets[f], i, R.ImportIdle) && R.At(init.fieldsets[f], k, R.CloseIdle)
    ensures Exec(init, run).Some? && c < |Exec(init, run).value.channels|
    ensures var ch := Exec(init, run).value.channels[c];
            && ch.active && ch.loop.Idle? && ch.flag && ch.pending == [f]
            && ch.wire == [PrepareItem(f, false)] + [SetItem(f, i, false)] + [MarkItem(Multi)]
  {
    run := WriteFirst(init, f, c, i);
    run := OpenTransaction(init, run, c);
    var F := Exec(init, run).value.fieldsets[f];
    assert R.ReadClosed(false) !in F.calls;
    var own := CancelThenClose(F, i, k);
    run := Lift(init, run, f, own);
    run := HandDiscard(init, run, f, k, c);
    assert [] + [f] == [f];
  }

  /** The marker gets lost and the DISCARD that waited goes out. */
  lemma LostThenFlush(s: System, run: seq<Action>, c: nat, f: nat, end: Marker) returns (longer: seq<Action>)
    requires Exec(s, run).Some? && c < |Exec(s, run).value.channels| && !After(end)
    requires var ch := Exec(s, run).value.channels[c]; ch.active && ch.loop.Idle? && ch.flag && ch.pending == [f]
    ensures Exec(s, longer).Some? && c < |Exec(s, longer).value.channels|
    ensures Exec(s, longer).value.channels[c].wire ==
            Exec(s, run).value.channels[c].wire + [LostItem(end)] + [DiscardItem(f)]
  {
    longer := MarkerWrite(s, run, c, end, true);
    longer := Flush(s, longer, c);
    assert DiscardItems([f]) == [DiscardItem(f)];
  }

  /** The condition on DISCARDs in TransactionIsolation is needed: an EXEC or DISCARD that is cancelled between being
      observed and being sent lets the cleanup DISCARD go out inside the transaction. */
  lemma DiscardLandsInside(init: System, f: nat, c: nat, i: nat, k: nat, end: Marker)
    requires Initial(init) && f < |init.fieldsets| && c < |init.channels| && !After(end)
    requires R.At(init.fieldsets[f], i, R.ImportIdle) && R.At(init.fieldsets[f], k, R.CloseIdle)
    ensures exists run :: Exec(init, run).Some? && c < |Exec(init, run).value.channels| &&
              InsideAtEnd(Exec(init, run).value.channels[c].wire, f)
  {
    var run := DiscardWaits(init, f, c, i, k);
    var before := Exec(init, run).value.channels[c].wire;
    LostEndMisleads(before, f, end);
    run := LostThenFlush(init, run, c, f, end);
  }

  /** The last item is a DISCARD of f, and the server reads it inside a transaction. */
  ghost predicate InsideAtEnd(wire: seq<Item>, f: nat) {
    wire != [] && wire[|wire| - 1] == DiscardItem(f) && TxOf(wire[..|wire| - 1])
  }

  lemma LostEndMisleads(wire: seq<Item>, f: nat, end: Marker)
    requires TxOf(wire)
    ensures InsideAtEnd(wire + [LostItem(end)] + [DiscardItem(f)], f)
  {
    var lost := wire + [LostItem(end)];
    assert lost[..|wire|] == wire && (lost + [DiscardItem(f)])[..|lost|] == lost;
  }

  /** The exception in ServerSetsPrepared is needed: the MULTI ahead of a SET in one batch is cancelled once it was
      observed, and the SET goes out with no transaction open on the server and no PREPARE on the wire. */
  lemma SetUnprepared(init: System, f: nat, c: nat, i: nat)
    requires Initial(init) && f < |init.fieldsets| && c < |init.channels| && R.At(init.fieldsets[f], i, R.ImportIdle)
    ensures exists run :: Exec(init, run).Some? && c < |Exec(init, run).value.channels| &&
              Exec(init, run).value.channels[c].wire == [LostItem(Multi), SetItem(f, i, true)]
  {
    var own := AdmitRun(init.fieldsets[f], i);
    var run := Lift(init, [], f, own);
    run := ObserveMultiThenSet(init, run, c, f, i);
    run := LoseMultiSendSet(init, run, c, f, i);
  }

  lemma LoseMultiSendSet(s: System, run: seq<Action>, c: nat, f: nat, k: nat) returns (longer: seq<Action>)
    requires Exec(s, run).Some? && c < |Exec(s, run).value.channels|
    requires var t := Exec(s, run).value;
             && Known(t, Set(f, k)) && t.fieldsets[f].calls[k].Dispatched? && t.channels[c].wire == []
             && t.channels[c].loop == Observing(Write([Mark(Multi), Set(f, k)], [Live(true), Live(true)], false))
    ensures Exec(s, longer).Some? && c < |Exec(s, longer).value.channels|
    ensures Exec(s, longer).value.channels[c].wire == [LostItem(Multi), SetItem(f, k, true)]
  {
    var t := Exec(s, run).value;
    var ch, w := t.channels[c], t.channels[c].loop.w;
    Here(t, c);
    var lost := ch.(wire := ch.wire + [LostItem(Multi)]);
    var both := lost.(wire := lost.wire + [SetItem(f, k, true)]);
    longer := Move(s, run, t, c, ch, EndObserve(c), ch.(loop := Forwarding(w, 0)));
    longer := Move(s, longer, t, c, ch.(loop := Forwarding(w, 0)), Forward(c, true), lost.(loop := Forwarding(w, 1)));
    longer := Move(s, longer, t, c, lost.(loop := Forwarding(w, 1)), Forward(c, false),
                   both.(loop := Forwarding(w, 2)));
    assert both.wire == [LostItem(Multi), SetItem(f, k, true)];
  }

  lemma ObserveMultiThenSet(s: System, run: seq<Action>, c: nat, f: nat, k: nat) returns (longer: seq<Action>)
    requires Exec(s, run).Some? && c < |Exec(s, run).value.channels|
    requires var t := Exec(s, run).value;
             && t.channels[c] == FRESH && Known(t, Set(f, k)) && t.fieldsets[f].calls[k].Dispatched?
    ensures var t := Exec(s, run).value;
            Exec(s, longer) == Some(WithChannel(t, c, FRESH.(
              open := true, loop := Observing(Write([Mark(Multi), Set(f, k)], [Live(true), Live(true)], false)))))
  {
    var t := Exec(s, run).value;
    var batch := [Mark(Multi), Set(f, k)];
    var w0, w1 := Write(batch, [], false), Write(batch, [Live(true)], false);
    var w2 := Write(batch, [Live(true), Live(true)], false);
    assert Advance(w0, Live(true)) == w1 && Advance(w1, Live(true)) == w2;
    Here(t, c);
    longer := Move(s, run, t, c, FRESH, BeginWrite(c, batch), FRESH.(loop := Observing(w0)));
    longer := Move(s, longer, t, c, FRESH.(loop := Observing(w0)), Observe(c, false),
                   FRESH.(open := true, loop := Observing(w1)));
    longer := Move(s, longer, t, c, FRESH.(open := true, loop := Observing(w1)), Observe(c, false),
                   FRESH.(open := true, loop := Observing(w2)));
  }

  /** The handler observes the end of a transaction and finds the SET behind it not prepared. */
  lemma ObserveEndThenSet(s: System, run: seq<Action>, c: nat, f: nat, k: nat, end: Marker)
    returns (longer: seq<Action>)
    requires Exec(s, run).Some? && c < |Exec(s, run).value.channels| && !After(end)
    requires var t := Exec(s, run).value;
             var ch := t.channels[c];
             && Known(t, Set(f, k)) && t.fieldsets[f].calls[k].Dispatched?
             && ch.active && ch.loop.Idle? && ch.open && f !in ch.prepared
    ensures var t := Exec(s, run).value;
            Exec(s, longer) == Some(WithChannel(t, c, t.channels[c].(
              open := false, loop := Registering(Write([Mark(end), Set(f, k)], [Live(false)], true)))))
  {
    var t := Exec(s, run).value;
    var ch := t.channels[c];
    var batch := [Mark(end), Set(f, k)];
    var w0, w1 := Write(batch, [], true), Write(batch, [Live(false)], true);
    assert Advance(w0, Live(false)) == w1;
    Here(t, c);
    longer := Move(s, run, t, c, ch, BeginWrite(c, batch), ch.(loop := Observing(w0)));
    longer := Move(s, longer, t, c, ch.(loop := Observing(w0)), Observe(c, false),
                   ch.(loop := Observing(w1), open := false));
    longer := Move(s, longer, t, c, ch.(loop := Observing(w1), open := false), Observe(c, false),
                   ch.(loop := Registering(w1), open := false));
  }

  /** The case in PrepareInsideTransaction happens with no marker lost: a MULTI is sent, and the next batch is the end
      of that transaction followed by the first SET of a fieldset; the PREPARE goes out inside the transaction. */
  lemma PrepareLandsInside(init: System, f: nat, c: nat, i: nat, end: Marker)
    requires Initial(init) && f < |init.fieldsets| && c < |init.channels| && !After(end)
    requires R.At(init.fieldsets[f], i, R.ImportIdle)
    ensures exists run :: Exec(init, run).Some? && c < |Exec(init, run).value.channels| &&
              Exec(init, run).value.channels[c].wire == [MarkItem(Multi), PrepareItem(f, true)]
  {
    var own := AdmitRun(init.fieldsets[f], i);
    var run := Lift(init, [], f, own);
    run := OpenTransaction(init, run, c);
    run := ObserveEndThenSet(init, run, c, f, i, end);
    JoinOne(Exec(init, run).value, c, Write([Mark(end), Set(f, i)], [Live(false)], true));
    run := Then(init, run, Join(c));
    run := Then(init, run, Inject(c));
    assert Exec(init, run).value.channels[c].wire == [] + [MarkItem(Multi)] + [PrepareItem(f, true)];
  }
}
