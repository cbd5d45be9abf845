/**
 No DISCARD is stranded in a channel's queue: the hand-over between threads that queue one and the event loop that
 drains the queue loses no wake-up, and a drain writes all it found.
 */
module ImportDrain {
  import opened Options
  import R = Reservation
  import opened ImportWire
  import opened ImportOrder

  /** Some thread has queued a DISCARD for channel c and not yet set the flag. */
  ghost predicate FlaggingOn(s: System, c: nat) {
    exists f, k :: 0 <= f < |s.fieldsets| && 0 <= k < |s.fieldsets[f].calls| && FlagsNext(s.fieldsets[f].calls[k], c)
  }

  ghost predicate FlagsNext(p: R.Pc, c: nat) {
    p.Flagging? && p.context == c
  }

  ghost predicate WakeInv(s: System, c: nat)
    requires c < |s.channels|
  {
    s.channels[c].active && s.channels[c].pending != [] ==>
      s.channels[c].flag || s.channels[c].loop.Polling? || FlaggingOn(s, c)
  }

  /** Call k of fieldset f stays where it is unless the action is its own. */
  lemma CallStays(s: System, a: Action, f: nat, k: nat)
    requires Enabled(s, a) && f < |s.fieldsets| && k < |s.fieldsets[f].calls| && s.fieldsets[f].calls[k].Flagging?
    requires !(a.DiscardCall? && a.f == f && a.a == R.FlagDiscard(k))
    ensures |Apply(s, a).fieldsets| == |s.fieldsets|
    ensures k < |Apply(s, a).fieldsets[f].calls| && Apply(s, a).fieldsets[f].calls[k] == s.fieldsets[f].calls[k]
  {
    match FieldsetEffect(s, a)
    case None =>
    case Some((g, b)) =>
      if g == f {
        OwnCallStays(s.fieldsets[f], b, k);
      }
  }

  lemma OwnCallStays(F: R.Fieldset, b: R.Action, k: nat)
    requires R.Enabled(F, b) && k < |F.calls| && F.calls[k].Flagging? && b != R.FlagDiscard(k)
    ensures k < |R.Apply(F, b).calls| && R.Apply(F, b).calls[k] == F.calls[k]
  {
  }

  /** A thread about to set the flag of c stays there until it does. */
  lemma FlaggingStays(s: System, a: Action, c: nat)
    requires Enabled(s, a) && FlaggingOn(s, c)
    requires !(a.DiscardCall? && a.a.FlagDiscard? && DiscardTarget(s.fieldsets[a.f], a.a) == c)
    ensures FlaggingOn(Apply(s, a), c)
  {
    var f, k :| 0 <= f < |s.fieldsets| && 0 <= k < |s.fieldsets[f].calls| && FlagsNext(s.fieldsets[f].calls[k], c);
    CallStays(s, a, f, k);
    assert FlagsNext(Apply(s, a).fieldsets[f].calls[k], c);
  }

  lemma WakeDiscard(s: System, f: nat, b: R.Action)
    requires Enabled(s, DiscardCall(f, b)) && (b.QueueDiscard? || b.FlagDiscard?)
    ensures WakeInv(Apply(s, DiscardCall(f, b)), DiscardTarget(s.fieldsets[f], b))
  {
    var t, c := Apply(s, DiscardCall(f, b)), DiscardTarget(s.fieldsets[f], b);
    if b.QueueDiscard? {
      assert FlagsNext(t.fieldsets[f].calls[b.k], c);
    }
  }

  lemma WakeStep(s: System, a: Action, c: nat)
    requires Enabled(s, a) && c < |s.channels| && WakeInv(s, c)
    ensures c < |Apply(s, a).channels| && WakeInv(Apply(s, a), c)
  {
    if a.DiscardCall? && (a.a.QueueDiscard? || a.a.FlagDiscard?) && DiscardTarget(s.fieldsets[a.f], a.a) == c {
      WakeDiscard(s, a.f, a.a);
    } else if FlaggingOn(s, c) {
      FlaggingStays(s, a, c);
    }
  }

  // ----- A drain, under any interference -----

  ghost predicate Draining(l: Loop) {
    l.ClearingFlag? || l.Polling?
  }

  lemma WireGrows(s: System, a: Action, c: nat)
    requires Enabled(s, a) && c < |s.channels|
    ensures c < |Apply(s, a).channels| && s.channels[c].wire <= Apply(s, a).channels[c].wire
  {
  }

  lemma {:induction false} WireDiscardsMonotone(wire: seq<Item>, longer: seq<Item>)
    requires wire <= longer
    ensures WireDiscards(wire) <= WireDiscards(longer)
  {
    if wire == longer {
    } else {
      var n := |longer| - 1;
      WireDiscardsMonotone(wire, longer[..n]);
    }
  }

  lemma DrainStep(s: System, a: Action, c: nat)
    requires Enabled(s, a) && c < |s.channels| && Draining(s.channels[c].loop)
    ensures var ch, next := s.channels[c], Apply(s, a).channels[c];
            if Draining(next.loop) then Log(ch) <= Log(next) else Log(ch) <= WireDiscards(next.wire)
  {
    var ch, next := s.channels[c], Apply(s, a).channels[c];
    if ChannelEffect(s, a).Some? && ChannelEffect(s, a).value.0 == c {
      if a.DiscardCall? {
        assert next.wire == ch.wire && next.loop == ch.loop;
        assert ch.pending <= next.pending;
      } else {
        LoopKeepsLog(s, a);
      }
    }
  }

  /** Whatever was queued when a drain began is on the wire when it ends, whoever runs in between. */
  lemma {:induction false} DrainDelivers(s: System, run: seq<Action>, c: nat)
    requires c < |s.channels| && Draining(s.channels[c].loop) && Exec(s, run).Some?
    ensures var t := Exec(s, run).value;
            && c < |t.channels|
            && (Log(s.channels[c]) <= WireDiscards(t.channels[c].wire) ||
                (Draining(t.channels[c].loop) && Log(s.channels[c]) <= Log(t.channels[c])))
  {
    if run != [] {
      var n := |run| - 1;
      DrainDelivers(s, run[..n], c);
      var t := Exec(s, run[..n]).value;
      if Draining(t.channels[c].loop) {
        DrainStep(t, run[n], c);
      }
      WireGrows(t, run[n], c);
      WireDiscardsMonotone(t.channels[c].wire, Apply(t, run[n]).channels[c].wire);
    }
  }

  // ----- What is queued stays until it is written -----

  lemma ActiveStep(s: System, a: Action, c: nat)
    requires Enabled(s, a) && c < |s.channels| && Apply(s, a).channels[c].active
    ensures s.channels[c].active && !(a.GoInactive? && a.c == c)
  {
  }

  lemma LogStep(s: System, a: Action, c: nat)
    requires Enabled(s, a) && c < |s.channels| && !(a.GoInactive? && a.c == c)
    ensures Log(s.channels[c]) <= Log(Apply(s, a).channels[c])
  {
    if ChannelEffect(s, a).Some? && ChannelEffect(s, a).value.0 == c {
      if a.DiscardCall? {
        var ch, next := s.channels[c], Apply(s, a).channels[c];
        assert next.wire == ch.wire && next.loop == ch.loop && ch.pending <= next.pending;
      } else {
        LoopKeepsLog(s, a);
      }
    }
  }

  /** A channel that is active at the end was active all along, and has lost none of the DISCARDs it was handed. */
  lemma {:induction false} LogStays(s: System, run: seq<Action>, c: nat)
    requires c < |s.channels| && Exec(s, run).Some?
    ensures var t := Exec(s, run).value;
            && |t.channels| == |s.channels| && s.channels[c].wire <= t.channels[c].wire
            && (t.channels[c].active ==> s.channels[c].active && Log(s.channels[c]) <= Log(t.channels[c]))
  {
    if run != [] {
      var n := |run| - 1;
      LogStays(s, run[..n], c);
      var t := Exec(s, run[..n]).value;
      WireGrows(t, run[n], c);
      if Apply(t, run[n]).channels[c].active {
        ActiveStep(t, run[n], c);
        LogStep(t, run[n], c);
      }
    }
  }

  // ----- A write that ends outside a transaction flushes the queue -----

  lemma Then(s: System, run: seq<Action>, a: Action) returns (longer: seq<Action>)
    requires Exec(s, run).Some? && Enabled(Exec(s, run).value, a)
    ensures longer == run + [a] && Exec(s, longer) == Some(Apply(Exec(s, run).value, a))
  {
    longer := run + [a];
    assert longer[..|run|] == run;
  }

  lemma PollOne(t: System, c: nat)
    requires c < |t.channels| && t.channels[c].loop.Polling?
    ensures Enabled(t, Poll(c)) && Apply(t, Poll(c)) == t.(channels := t.channels[c := Polled(t.channels[c])])
  {
    assert ChannelEffect(t, Poll(c)) == Some((c, Polled(t.channels[c])));
  }

  ghost function Polled(ch: Channel): Channel
    requires ch.loop.Polling?
  {
    if ch.pending == [] then ch.(wire := ch.wire + DiscardItems(ch.loop.drained), loop := Idle)
    else ch.(pending := ch.pending[1..], loop := Polling(ch.loop.drained + [ch.pending[0]]))
  }

  lemma {:induction false} PollAll(s: System, run: seq<Action>, c: nat) returns (longer: seq<Action>)
    requires Exec(s, run).Some?
    requires var t := Exec(s, run).value; c < |t.channels| && t.channels[c].loop.Polling?
    ensures Exec(s, longer).Some?
    ensures var t, u := Exec(s, run).value, Exec(s, longer).value;
            u == t.(channels := t.channels[c := t.channels[c].(
                      loop := Idle, pending := [],
                      wire := t.channels[c].wire + DiscardItems(t.channels[c].loop.drained + t.channels[c].pending))])
    decreases |Exec(s, run).value.channels[c].pending|
  {
    var t := Exec(s, run).value;
    var ch := t.channels[c];
    PollOne(t, c);
    longer := Then(s, run, Poll(c));
    if ch.pending == [] {
      assert ch.loop.drained + ch.pending == ch.loop.drained;
    } else {
      assert ch.loop.drained + ch.pending == (ch.loop.drained + [ch.pending[0]]) + ch.pending[1..];
      longer := PollAll(s, longer, c);
      var last := Exec(s, longer).value.channels[c];
      assert t.channels[c := Polled(ch)][c := last] == t.channels[c := last];
    }
  }

  ghost function Flushed(ch: Channel): Channel {
    ch.(loop := Idle, flag := false, pending := [], wire := ch.wire + DiscardItems(ch.pending))
  }

  lemma Flush(s: System, run: seq<Action>, c: nat) returns (longer: seq<Action>)
    requires Exec(s, run).Some? && c < |Exec(s, run).value.channels|
    requires var ch := Exec(s, run).value.channels[c]; ch.loop.CheckingFlag? && ch.flag && !ch.open
    ensures var t := Exec(s, run).value;
            Exec(s, longer) == Some(t.(channels := t.channels[c := Flushed(t.channels[c])]))
  {
    var t := Exec(s, run).value;
    longer := Then(s, run, CheckFlag(c));
    longer := Then(s, longer, ClearFlag(c));
    longer := PollAll(s, longer, c);
    assert [] + t.channels[c].pending == t.channels[c].pending;
    assert Exec(s, longer).value.channels == t.channels[c := Flushed(t.channels[c])];
  }

  /** With the flag set and no transaction open at its end, a write that is left alone sends every queued DISCARD, in
      the order they were queued, and changes nothing else. */
  lemma WriteFlushes(s: System, c: nat)
    requires c < |s.channels| && s.channels[c].loop.CheckingFlag? && s.channels[c].flag && !s.channels[c].open
    ensures exists run :: Exec(s, run) == Some(s.(channels := s.channels[c := Flushed(s.channels[c])]))
  {
    var run := Flush(s, [], c);
  }
}
