/**
 The order of PREPARE, SET and DISCARD on the wire of every channel, in every interleaving of any number of callers,
 fieldsets and channels.
 */
module ImportOrder {
  import opened Options
  import R = Reservation
  import opened ImportWire

  // ----- A SET outside a transaction follows a PREPARE of its fieldset -----

  ghost predicate HasPrepare(wire: seq<Item>, f: nat) {
    exists i :: 0 <= i < |wire| && wire[i].PrepareItem? && wire[i].f == f
  }

  ghost predicate PreparedFirst(wire: seq<Item>) {
    forall j :: 0 <= j < |wire| && wire[j].SetItem? && !wire[j].inTx ==> HasPrepare(wire[..j], wire[j].f)
  }

  lemma HasPrepareSnoc(wire: seq<Item>, more: seq<Item>, f: nat)
    requires HasPrepare(wire, f)
    ensures HasPrepare(wire + more, f)
  {
    var i :| 0 <= i < |wire| && wire[i].PrepareItem? && wire[i].f == f;
    assert (wire + more)[i] == wire[i];
  }

  lemma PreparedFirstSnoc(wire: seq<Item>, item: Item)
    requires PreparedFirst(wire)
    requires item.SetItem? && !item.inTx ==> HasPrepare(wire, item.f)
    ensures PreparedFirst(wire + [item])
  {
    var longer := wire + [item];
    forall j | 0 <= j < |longer| && longer[j].SetItem? && !longer[j].inTx
      ensures HasPrepare(longer[..j], longer[j].f)
    {
      assert longer[..j] == wire[..j];
      assert j == |wire| ==> wire[..j] == wire;
    }
  }

  lemma PreparedFirstDiscards(wire: seq<Item>, fs: seq<nat>)
    requires PreparedFirst(wire)
    ensures PreparedFirst(wire + DiscardItems(fs))
  {
    var longer := wire + DiscardItems(fs);
    forall j | 0 <= j < |longer| && longer[j].SetItem? && !longer[j].inTx
      ensures HasPrepare(longer[..j], longer[j].f)
    {
      assert longer[..j] == wire[..j];
    }
  }

  /** A SET that was seen live outside a transaction was prepared or rejected. */
  ghost predicate SeenOk(s: System, wire: seq<Item>, w: Write) {
    forall i :: 0 <= i < |w.seen| && i < |w.batch| && w.batch[i].Set? && w.seen[i] == Live(false) &&
                Known(s, w.batch[i]) ==>
      HasPrepare(wire, w.batch[i].f) || R.Done(s.fieldsets[w.batch[i].f].calls[w.batch[i].k])
  }

  ghost predicate NextHanded(s: System, w: Write) {
    HasNext(w) && Known(s, Next(w)) && Next(w).Set? ==> R.Handed(s.fieldsets[Next(w).f].calls[Next(w).k])
  }

  ghost predicate PrepareInv(s: System, ch: Channel) {
    && PreparedFirst(ch.wire)
    && (forall f :: f in ch.prepared ==> HasPrepare(ch.wire, f))
    && match ch.loop
       case Observing(w) => SeenOk(s, ch.wire, w)
       case Registering(w) => SeenOk(s, ch.wire, w) && NextHanded(s, w)
       case Registered(w) => SeenOk(s, ch.wire, w) && NextHanded(s, w)
       case Forwarding(w, _) => SeenOk(s, ch.wire, w)
       case _ => true
  }

  /** Fieldsets only move forward. */
  ghost predicate AllLater(s: System, t: System) {
    && |t.fieldsets| == |s.fieldsets|
    && forall f :: 0 <= f < |s.fieldsets| ==> R.Later(s.fieldsets[f], t.fieldsets[f])
  }

  lemma StepIsLater(s: System, a: Action)
    requires Sound(s) && Enabled(s, a)
    ensures AllLater(s, Apply(s, a))
  {
    forall f | 0 <= f < |s.fieldsets|
      ensures R.Later(s.fieldsets[f], Apply(s, a).fieldsets[f])
    {
      FieldsetStep(s, a, f);
    }
  }

  lemma PrepareFrame(s: System, t: System, ch: Channel)
    requires AllLater(s, t) && PrepareInv(s, ch)
    ensures PrepareInv(t, ch)
  {
  }

  lemma SeenAdvance(s: System, wire: seq<Item>, w: Write, seen: Seen)
    requires HasNext(w) && SeenOk(s, wire, w)
    requires seen == Live(false) && Next(w).Set? && Known(s, Next(w)) ==>
               HasPrepare(wire, Next(w).f) || R.Done(s.fieldsets[Next(w).f].calls[Next(w).k])
    ensures SeenOk(s, wire, Advance(w, seen))
  {
  }

  lemma ObservePrepare(s: System, ch: Channel, done: bool)
    requires ch.loop.Observing? && HasNext(ch.loop.w) && Known(s, Next(ch.loop.w)) && PrepareInv(s, ch)
    ensures PrepareInv(s, AfterObserve(s, ch, done))
  {
    var w := ch.loop.w;
    var open := OpenAfterCommand(ch.open, Next(w));
    SeenAdvance(s, ch.wire, w, Skipped);
    if open || (Next(w).Set? ==> Next(w).f in ch.prepared) {
      SeenAdvance(s, ch.wire, w, Live(open));
    }
  }

  lemma JoinPrepare(s: System, c: nat)
    requires Sound(s) && Enabled(s, Join(c)) && PrepareInv(s, s.channels[c])
    ensures PrepareInv(Apply(s, Join(c)), ChannelEffect(s, Join(c)).value.1)
  {
    var t, ch, w := Apply(s, Join(c)), s.channels[c], s.channels[c].loop.w;
    StepIsLater(s, Join(c));
    PrepareFrame(s, t, ch);
    var f, k := Next(w).f, Next(w).k;
    assert s.fieldsets[f].cleanedUp ==> R.Done(t.fieldsets[f].calls[k]);
  }

  lemma InjectPrepare(s: System, c: nat)
    requires Enabled(s, Inject(c)) && PrepareInv(s, s.channels[c])
    ensures PrepareInv(s, ChannelEffect(s, Inject(c)).value.1)
  {
    var ch, w := s.channels[c], s.channels[c].loop.w;
    var item := PrepareItem(Next(w).f, w.beganOpen);
    PreparedFirstSnoc(ch.wire, item);
    assert (ch.wire + [item])[|ch.wire|] == item;
    forall f | HasPrepare(ch.wire, f)
      ensures HasPrepare(ch.wire + [item], f)
    {
      HasPrepareSnoc(ch.wire, [item], f);
    }
  }

  lemma ForwardPrepare(s: System, ch: Channel, done: bool)
    requires ch.loop.Forwarding? && ch.loop.i < |ch.loop.w.batch| == |ch.loop.w.seen|
    requires Known(s, ch.loop.w.batch[ch.loop.i]) && PrepareInv(s, ch)
    ensures PrepareInv(s, AfterForward(s, ch, done))
  {
    var items := ForwardItems(s, ch.loop.w, ch.loop.i, done);
    if items == [] {
      assert ch.wire + items == ch.wire;
    } else {
      PreparedFirstSnoc(ch.wire, items[0]);
      forall f | HasPrepare(ch.wire, f)
        ensures HasPrepare(ch.wire + items, f)
      {
        HasPrepareSnoc(ch.wire, items, f);
      }
    }
  }

  lemma PollPrepare(s: System, c: nat)
    requires Enabled(s, Poll(c)) && PrepareInv(s, s.channels[c])
    ensures PrepareInv(s, ChannelEffect(s, Poll(c)).value.1)
  {
    var ch := s.channels[c];
    var items := DiscardItems(ch.loop.drained);
    PreparedFirstDiscards(ch.wire, ch.loop.drained);
    forall f | HasPrepare(ch.wire, f)
      ensures HasPrepare(ch.wire + items, f)
    {
      HasPrepareSnoc(ch.wire, items, f);
    }
  }

  lemma PrepareTouched(s: System, a: Action)
    requires Sound(s) && Enabled(s, a) && ChannelEffect(s, a).Some?
    requires PrepareInv(s, s.channels[ChannelEffect(s, a).value.0])
    ensures PrepareInv(Apply(s, a), ChannelEffect(s, a).value.1)
  {
    StepIsLater(s, a);
    var next := ChannelEffect(s, a).value.1;
    if a.Join? {
      JoinPrepare(s, a.c);
    } else {
      if a.Observe? {
        ObservePrepare(s, s.channels[a.c], a.done);
      } else if a.Inject? {
        InjectPrepare(s, a.c);
      } else if a.Forward? {
        ForwardPrepare(s, s.channels[a.c], a.done);
      } else if a.Poll? {
        PollPrepare(s, a.c);
      }
      PrepareFrame(s, Apply(s, a), next);
    }
  }

  lemma PrepareStep(s: System, a: Action, c: nat)
    requires Sound(s) && Enabled(s, a) && c < |s.channels| && PrepareInv(s, s.channels[c])
    ensures PrepareInv(Apply(s, a), Apply(s, a).channels[c])
  {
    if ChannelEffect(s, a).Some? && ChannelEffect(s, a).value.0 == c {
      PrepareTouched(s, a);
    } else {
      StepIsLater(s, a);
      PrepareFrame(s, Apply(s, a), s.channels[c]);
    }
  }

  // ----- Where a fieldset's DISCARD is -----

  /** The fieldsets of the DISCARDs on the wire, in order. */
  ghost function WireDiscards(wire: seq<Item>): seq<nat> {
    if wire == [] then []
    else
      var last := wire[|wire| - 1];
      WireDiscards(wire[..|wire| - 1]) + if last.DiscardItem? then [last.f] else []
  }

  lemma WireDiscardsSnoc(wire: seq<Item>, item: Item)
    ensures WireDiscards(wire + [item]) == WireDiscards(wire) + if item.DiscardItem? then [item.f] else []
  {
    assert (wire + [item])[..|wire|] == wire;
  }

  lemma {:induction false} WireDiscardsBatch(wire: seq<Item>, fs: seq<nat>)
    ensures WireDiscards(wire + DiscardItems(fs)) == WireDiscards(wire) + fs
  {
    if fs == [] {
      assert wire + DiscardItems(fs) == wire;
    } else {
      var n := |fs| - 1;
      WireDiscardsBatch(wire, fs[..n]);
      WireDiscardsSnoc(wire + DiscardItems(fs[..n]), DiscardItem(fs[n]));
      assert wire + DiscardItems(fs) == wire + DiscardItems(fs[..n]) + [DiscardItem(fs[n])];
    }
  }

  lemma {:induction false} OnWire(wire: seq<Item>, f: nat)
    ensures f in WireDiscards(wire) <==> DiscardItem(f) in wire
  {
    if wire != [] {
      OnWire(wire[..|wire| - 1], f);
      assert wire == wire[..|wire| - 1] + [wire[|wire| - 1]];
    }
  }

  /** Every DISCARD this channel was handed and has not lost: written, drained or still queued, in that order. */
  ghost function Log(ch: Channel): seq<nat> {
    WireDiscards(ch.wire) + (if ch.loop.Polling? then ch.loop.drained else []) + ch.pending
  }

  ghost predicate QueueingOn(s: R.Fieldset, c: nat) {
    exists k :: 0 <= k < |s.calls| && s.calls[k].Queueing? && s.calls[k].context == c
  }

  /** The handler has registered fieldset f and not yet written its PREPARE. */
  ghost predicate Current(ch: Channel, f: nat) {
    ch.loop.Registered? && HasNext(ch.loop.w) && Next(ch.loop.w).Set? && Next(ch.loop.w).f == f
  }

  /** How fieldset f and channel c stand to each other. */
  ghost predicate LinkInv(F: R.Fieldset, f: nat, c: nat, ch: Channel) {
    && (HasPrepare(ch.wire, f) || Current(ch, f) ==> c in F.registered)
    && (c in F.registered ==> ch.builder || Current(ch, f))
    && (f in Log(ch) ==> c in F.discarded && !QueueingOn(F, c))
    && (ch.active && c in F.discarded ==> f in Log(ch) || QueueingOn(F, c) || f in ch.missed)
    && (f in ch.missed ==> c in F.discarded && f !in Log(ch) && !QueueingOn(F, c))
    && (Current(ch, f) ==> f !in WireDiscards(ch.wire))
  }

  /** The part of a fieldset's state that concerns channel c is the same. */
  ghost predicate SameFor(F: R.Fieldset, G: R.Fieldset, c: nat) {
    && (c in F.registered <==> c in G.registered)
    && (c in F.discarded <==> c in G.discarded)
    && (QueueingOn(F, c) <==> QueueingOn(G, c))
  }

  lemma SameForCaller(F: R.Fieldset, b: R.Action, c: nat)
    requires R.Enabled(F, b)
    requires b.Register? ==> b.context != c
    requires InDiscard(b) ==> DiscardTarget(F, b) != c
    ensures SameFor(F, R.Apply(F, b), c)
  {
    var G := R.Apply(F, b);
    if QueueingOn(F, c) {
      var k :| 0 <= k < |F.calls| && F.calls[k].Queueing? && F.calls[k].context == c;
      assert G.calls[k] == F.calls[k];
    }
    if QueueingOn(G, c) {
      var k :| 0 <= k < |G.calls| && G.calls[k].Queueing? && G.calls[k].context == c;
      assert G.calls[k] == F.calls[k];
    }
  }

  lemma LinkFrame(F: R.Fieldset, G: R.Fieldset, f: nat, c: nat, ch: Channel)
    requires LinkInv(F, f, c, ch) && SameFor(F, G, c)
    ensures LinkInv(G, f, c, ch)
  {
  }

  lemma LinkDiscard(F: R.Fieldset, f: nat, ch: Channel, b: R.Action)
    requires R.RegistryInv(F) && InDiscard(b) && R.Enabled(F, b) && LinkInv(F, f, DiscardTarget(F, b), ch)
    ensures LinkInv(R.Apply(F, b), f, DiscardTarget(F, b), AfterDiscardCall(ch, f, b))
  {
    var c, G, next := DiscardTarget(F, b), R.Apply(F, b), AfterDiscardCall(ch, f, b);
    if b.QueueDiscard? {
      assert QueueingOn(F, c);
      assert Log(next) == Log(ch) + [f];
      OneQueuer(F, G, b.k, c);
    } else {
      assert Log(next) == Log(ch);
      if b.FlagDiscard? {
        OneQueuer(F, G, b.k, c);
      } else {
        assert c !in F.discarded && c in G.discarded;
        assert b.PickDiscard? ==> G.calls[b.k].Queueing? && G.calls[b.k].context == c;
      }
    }
  }

  /** The cleaner k moves, out of or past its Queueing state, and nobody else is in the loop of cleanup. */
  lemma OneQueuer(F: R.Fieldset, G: R.Fieldset, k: nat, c: nat)
    requires R.RegistryInv(F) && k < |F.calls| && R.Cleaning(F.calls[k])
    requires |G.calls| == |F.calls| && G.calls == F.calls[k := G.calls[k]] && !G.calls[k].Queueing?
    ensures !QueueingOn(G, c)
    ensures F.calls[k].Flagging? ==> !QueueingOn(F, c)
  {
  }

  lemma LinkJoin(s: System, c: nat, f: nat)
    requires Sound(s) && Enabled(s, Join(c)) && f < |s.fieldsets| && LinkInv(s.fieldsets[f], f, c, s.channels[c])
    ensures LinkInv(Apply(s, Join(c)).fieldsets[f], f, c, ChannelEffect(s, Join(c)).value.1)
  {
    var F, G, ch := s.fieldsets[f], Apply(s, Join(c)).fieldsets[f], s.channels[c];
    var next := ChannelEffect(s, Join(c)).value.1;
    assert R.RegistryInv(F);
    match FieldsetEffect(s, Join(c))
    case None =>
    case Some((g, b)) =>
      if f == g {
        if b.Complete? {
          SameForCaller(F, b, c);
        } else {
          assert F.discarded == [];
          assert f !in Log(ch);
        }
      }
  }

  lemma HasPrepareIff(wire: seq<Item>, item: Item, f: nat)
    ensures HasPrepare(wire + [item], f) <==> HasPrepare(wire, f) || (item.PrepareItem? && item.f == f)
  {
    var longer := wire + [item];
    if HasPrepare(wire, f) {
      HasPrepareSnoc(wire, [item], f);
    }
    if item.PrepareItem? && item.f == f {
      assert longer[|wire|] == item;
    }
  }

  lemma PollKeepsLog(s: System, c: nat)
    requires Enabled(s, Poll(c))
    ensures Log(ChannelEffect(s, Poll(c)).value.1) == Log(s.channels[c])
  {
    var ch, next := s.channels[c], ChannelEffect(s, Poll(c)).value.1;
    if ch.pending == [] {
      WireDiscardsBatch(ch.wire, ch.loop.drained);
    } else {
      assert Log(next) == WireDiscards(ch.wire) + (ch.loop.drained + [ch.pending[0]]) + ch.pending[1..];
    }
  }

  lemma WriteKeepsDiscards(s: System, a: Action)
    requires Enabled(s, a) && (a.Inject? || a.Forward?)
    ensures WireDiscards(ChannelEffect(s, a).value.1.wire) == WireDiscards(s.channels[a.c].wire)
  {
    var ch := s.channels[a.c];
    if a.Inject? {
      WireDiscardsSnoc(ch.wire, PrepareItem(Next(ch.loop.w).f, ch.loop.w.beganOpen));
    } else {
      var items := ForwardItems(s, ch.loop.w, ch.loop.i, a.done);
      if items == [] {
        assert ch.wire + items == ch.wire;
      } else {
        WireDiscardsSnoc(ch.wire, items[0]);
      }
    }
  }

  /** A move of the event loop does nothing to the DISCARDs, except that the end of a drain puts them on the wire. */
  lemma LoopKeepsLog(s: System, a: Action)
    requires Enabled(s, a) && ChannelEffect(s, a).Some? && !a.DiscardCall? && !a.GoInactive?
    ensures var (c, next) := ChannelEffect(s, a).value;
            && Log(next) == Log(s.channels[c])
            && (!a.Poll? ==> WireDiscards(next.wire) == WireDiscards(s.channels[c].wire))
  {
    if a.Poll? {
      PollKeepsLog(s, a.c);
    } else {
      var (c, next) := ChannelEffect(s, a).value;
      var ch := s.channels[c];
      if a.Inject? || a.Forward? {
        WriteKeepsDiscards(s, a);
      } else {
        assert next.wire == ch.wire;
      }
      assert next.pending == ch.pending;
      assert next.loop == ch.loop || (!ch.loop.Polling? && (next.loop.Polling? ==> next.loop.drained == []));
    }
  }

  lemma LoopPrepares(s: System, a: Action, f: nat)
    requires Enabled(s, a) && ChannelEffect(s, a).Some?
    ensures var (c, next) := ChannelEffect(s, a).value;
            HasPrepare(next.wire, f) <==> HasPrepare(s.channels[c].wire, f) || (a.Inject? && Current(s.channels[c], f))
  {
    var (c, next) := ChannelEffect(s, a).value;
    var ch := s.channels[c];
    if a.Inject? {
      HasPrepareIff(ch.wire, PrepareItem(Next(ch.loop.w).f, ch.loop.w.beganOpen), f);
    } else if a.Forward? {
      var items := ForwardItems(s, ch.loop.w, ch.loop.i, a.done);
      if items == [] {
        assert ch.wire + items == ch.wire;
      } else {
        HasPrepareIff(ch.wire, items[0], f);
      }
    } else if a.Poll? {
      if HasPrepare(ch.wire, f) {
        HasPrepareSnoc(ch.wire, DiscardItems(ch.loop.drained), f);
      }
    }
  }

  /** The channel may move from ch to next under fieldset f, as far as LinkInv can tell. */
  ghost predicate Compatible(ch: Channel, next: Channel, f: nat) {
    && Log(next) == Log(ch)
    && (HasPrepare(next.wire, f) ==> HasPrepare(ch.wire, f) || Current(ch, f))
    && (Current(next, f) ==> Current(ch, f) && WireDiscards(next.wire) == WireDiscards(ch.wire))
    && (ch.builder || Current(ch, f) ==> next.builder || Current(next, f))
    && next.active == ch.active && next.missed == ch.missed
  }

  lemma LinkCompatible(F: R.Fieldset, f: nat, c: nat, ch: Channel, next: Channel)
    requires LinkInv(F, f, c, ch) && Compatible(ch, next, f)
    ensures LinkInv(F, f, c, next)
  {
  }

  lemma LoopFields(s: System, a: Action)
    requires Enabled(s, a) && ChannelEffect(s, a).Some? && !a.DiscardCall? && !a.GoInactive? && !a.Join?
    ensures var (c, next) := ChannelEffect(s, a).value;
            && (next.loop.Registered? ==> next.loop == s.channels[c].loop)
            && (s.channels[c].builder || s.channels[c].loop.Registered? ==>
                  next.builder || next.loop == s.channels[c].loop)
            && (s.channels[c].builder ==> next.builder)
            && next.active == s.channels[c].active && next.missed == s.channels[c].missed
  {
  }

  lemma LoopCompatible(s: System, a: Action, f: nat)
    requires Enabled(s, a) && ChannelEffect(s, a).Some? && !a.DiscardCall? && !a.GoInactive? && !a.Join?
    ensures var (c, next) := ChannelEffect(s, a).value; Compatible(s.channels[c], next, f)
  {
    LoopKeepsLog(s, a);
    LoopPrepares(s, a, f);
    LoopFields(s, a);
  }

  lemma LinkLoop(s: System, a: Action, f: nat)
    requires Enabled(s, a) && ChannelEffect(s, a).Some? && f < |s.fieldsets|
    requires !a.DiscardCall? && !a.GoInactive? && !a.Join?
    requires var (c, _) := ChannelEffect(s, a).value; LinkInv(s.fieldsets[f], f, c, s.channels[c])
    ensures var (c, next) := ChannelEffect(s, a).value; LinkInv(s.fieldsets[f], f, c, next)
  {
    LoopCompatible(s, a, f);
    var (c, next) := ChannelEffect(s, a).value;
    LinkCompatible(s.fieldsets[f], f, c, s.channels[c], next);
  }

  lemma LinkInactive(s: System, c: nat, f: nat)
    requires Enabled(s, GoInactive(c)) && f < |s.fieldsets| && LinkInv(s.fieldsets[f], f, c, s.channels[c])
    ensures LinkInv(s.fieldsets[f], f, c, ChannelEffect(s, GoInactive(c)).value.1)
  {
    assert Log(ChannelEffect(s, GoInactive(c)).value.1) <= Log(s.channels[c]);
  }

  /** Channel ch is handed a DISCARD of another fieldset. */
  lemma LinkOther(F: R.Fieldset, f: nat, c: nat, ch: Channel, g: nat, b: R.Action)
    requires LinkInv(F, f, c, ch) && InDiscard(b) && f != g
    ensures LinkInv(F, f, c, AfterDiscardCall(ch, g, b))
  {
    assert f in Log(AfterDiscardCall(ch, g, b)) <==> f in Log(ch);
  }

  lemma LinkDiscardCall(s: System, g: nat, b: R.Action, f: nat)
    requires Sound(s) && Enabled(s, DiscardCall(g, b)) && f < |s.fieldsets|
    requires var c := DiscardTarget(s.fieldsets[g], b); LinkInv(s.fieldsets[f], f, c, s.channels[c])
    ensures var c := DiscardTarget(s.fieldsets[g], b);
            LinkInv(Apply(s, DiscardCall(g, b)).fieldsets[f], f, c, AfterDiscardCall(s.channels[c], g, b))
  {
    var c := DiscardTarget(s.fieldsets[g], b);
    if f == g {
      LinkDiscard(s.fieldsets[f], f, s.channels[c], b);
    } else {
      LinkOther(s.fieldsets[f], f, c, s.channels[c], g, b);
    }
  }

  lemma LinkTouched(s: System, a: Action, f: nat)
    requires Sound(s) && Enabled(s, a) && ChannelEffect(s, a).Some? && f < |s.fieldsets|
    requires var (c, _) := ChannelEffect(s, a).value; LinkInv(s.fieldsets[f], f, c, s.channels[c])
    ensures f < |Apply(s, a).fieldsets|
    ensures var (c, next) := ChannelEffect(s, a).value; LinkInv(Apply(s, a).fieldsets[f], f, c, next)
  {
    StepKeepsShape(s, a);
    if a.DiscardCall? {
      LinkDiscardCall(s, a.f, a.a, f);
    } else if a.Join? {
      LinkJoin(s, a.c, f);
    } else if a.GoInactive? {
      LinkInactive(s, a.c, f);
    } else {
      LinkLoop(s, a, f);
    }
  }

  /** A fieldset action that leaves channel c alone is enabled in its own machine and does not concern c. */
  lemma ElsewhereOnly(s: System, a: Action, c: nat)
    requires Enabled(s, a) && FieldsetEffect(s, a).Some?
    requires ChannelEffect(s, a).Some? ==> ChannelEffect(s, a).value.0 != c
    ensures var (f, b) := FieldsetEffect(s, a).value;
            && f < |s.fieldsets| && R.Enabled(s.fieldsets[f], b)
            && (b.Register? ==> b.context != c)
            && (InDiscard(b) ==> DiscardTarget(s.fieldsets[f], b) != c)
  {
  }

  lemma LinkElsewhere(s: System, a: Action, f: nat, c: nat)
    requires Enabled(s, a) && f < |s.fieldsets| && c < |s.channels| && LinkInv(s.fieldsets[f], f, c, s.channels[c])
    requires ChannelEffect(s, a).Some? ==> ChannelEffect(s, a).value.0 != c
    ensures LinkInv(Apply(s, a).fieldsets[f], f, c, s.channels[c])
  {
    if FieldsetEffect(s, a).Some? {
      var (g, b) := FieldsetEffect(s, a).value;
      ElsewhereOnly(s, a, c);
      if g == f {
        SameForCaller(s.fieldsets[f], b, c);
        LinkFrame(s.fieldsets[f], R.Apply(s.fieldsets[f], b), f, c, s.channels[c]);
      }
    }
  }

  lemma LinkStep(s: System, a: Action, f: nat, c: nat)
    requires Sound(s) && Enabled(s, a) && f < |s.fieldsets| && c < |s.channels|
    requires LinkInv(s.fieldsets[f], f, c, s.channels[c])
    ensures f < |Apply(s, a).fieldsets| && c < |Apply(s, a).channels|
    ensures LinkInv(Apply(s, a).fieldsets[f], f, c, Apply(s, a).channels[c])
  {
    StepKeepsShape(s, a);
    ChannelAt(s, a, c);
    if ChannelEffect(s, a).Some? && ChannelEffect(s, a).value.0 == c {
      LinkTouched(s, a, f);
    } else {
      LinkElsewhere(s, a, f, c);
    }
  }

  ghost predicate Linked(s: System) {
    forall f, c :: 0 <= f < |s.fieldsets| && 0 <= c < |s.channels| ==> LinkInv(s.fieldsets[f], f, c, s.channels[c])
  }

  lemma LinkedStep(s: System, a: Action)
    requires Sound(s) && Linked(s) && Enabled(s, a)
    ensures Linked(Apply(s, a))
  {
    var t := Apply(s, a);
    StepKeepsShape(s, a);
    forall f, c | 0 <= f < |t.fieldsets| && 0 <= c < |t.channels|
      ensures LinkInv(t.fieldsets[f], f, c, t.channels[c])
    {
      LinkStep(s, a, f, c);
    }
  }

  // ----- DISCARD once and last -----

  ghost predicate Late(cause: Option<(nat, R.Cause)>) {
    cause.Some? && !R.Orderly(cause.value.1)
  }

  /** A DISCARD is written at most once, nothing of its fieldset is prepared after it, and a SET follows it only if
      cleanup was entered by an overtaken releaser. */
  ghost predicate LogOk(s: System, ch: Channel) {
    && R.Distinct(Log(ch))
    && (forall i :: 0 <= i < |Log(ch)| ==> Log(ch)[i] < |s.fieldsets|)
  }

  ghost predicate DiscardLast(s: System, wire: seq<Item>) {
    forall i, j :: 0 <= i < j < |wire| && wire[i].DiscardItem? ==> MayFollow(s, wire[j], wire[i].f)
  }

  /** The item may stand behind a DISCARD of f. */
  ghost predicate MayFollow(s: System, item: Item, f: nat) {
    && (item.PrepareItem? ==> item.f != f)
    && (item.SetItem? && item.f == f ==> f < |s.fieldsets| && Late(s.fieldsets[f].cleaner))
  }

  ghost predicate WireOk(s: System, ch: Channel) {
    LogOk(s, ch) && DiscardLast(s, ch.wire)
  }

  lemma WireOkFrame(s: System, t: System, ch: Channel)
    requires AllLater(s, t) && WireOk(s, ch)
    ensures WireOk(t, ch)
  {
    forall i, j | 0 <= i < j < |ch.wire| && ch.wire[i].DiscardItem?
      ensures MayFollow(t, ch.wire[j], ch.wire[i].f)
    {
      assert MayFollow(s, ch.wire[j], ch.wire[i].f);
    }
  }

  lemma DiscardLastSnoc(s: System, wire: seq<Item>, item: Item)
    requires DiscardLast(s, wire)
    requires forall f :: DiscardItem(f) in wire ==> MayFollow(s, item, f)
    ensures DiscardLast(s, wire + [item])
  {
  }

  lemma DiscardLastBatch(s: System, wire: seq<Item>, fs: seq<nat>)
    requires DiscardLast(s, wire)
    ensures DiscardLast(s, wire + DiscardItems(fs))
  {
  }

  lemma DistinctMore(xs: seq<nat>, x: nat)
    requires R.Distinct(xs) && x !in xs
    ensures R.Distinct(xs + [x])
  {
  }

  lemma LogOkDiscard(s: System, F: R.Fieldset, f: nat, ch: Channel, b: R.Action)
    requires f < |s.fieldsets| && InDiscard(b) && R.Enabled(F, b)
    requires LinkInv(F, f, DiscardTarget(F, b), ch) && LogOk(s, ch)
    ensures LogOk(s, AfterDiscardCall(ch, f, b))
  {
    var next := AfterDiscardCall(ch, f, b);
    if b.QueueDiscard? {
      assert QueueingOn(F, DiscardTarget(F, b));
      assert Log(next) == Log(ch) + [f];
      DistinctMore(Log(ch), f);
    } else {
      assert Log(next) == Log(ch);
    }
  }

  lemma DiscardLastInject(s: System, c: nat)
    requires Shaped(s) && Linked(s) && Enabled(s, Inject(c)) && DiscardLast(s, s.channels[c].wire)
    ensures DiscardLast(s, ChannelEffect(s, Inject(c)).value.1.wire)
  {
    var ch, w := s.channels[c], s.channels[c].loop.w;
    var f := Next(w).f;
    assert ChannelOk(s, ch) && Known(s, Next(w));
    assert LinkInv(s.fieldsets[f], f, c, ch) && Current(ch, f);
    OnWire(ch.wire, f);
    DiscardLastSnoc(s, ch.wire, PrepareItem(f, w.beganOpen));
  }

  /** A SET still waiting for its reply holds back cleanup, unless a releaser was overtaken. */
  lemma LiveSetMeansLate(F: R.Fieldset, k: nat)
    requires R.Inv(F) && F.discarded != [] && k < |F.calls| && F.calls[k].Dispatched?
    ensures Late(F.cleaner)
  {
    assert R.Outstanding(F.calls[k]);
  }

  lemma DiscardLastForward(s: System, c: nat, done: bool)
    requires Sound(s) && Linked(s) && c < |s.channels| && DiscardLast(s, s.channels[c].wire)
    requires var ch := s.channels[c];
             && ch.loop.Forwarding? && ch.loop.i < |ch.loop.w.batch| == |ch.loop.w.seen|
             && Known(s, ch.loop.w.batch[ch.loop.i])
    ensures DiscardLast(s, AfterForward(s, s.channels[c], done).wire)
  {
    var ch := s.channels[c];
    var items := ForwardItems(s, ch.loop.w, ch.loop.i, done);
    if items == [] {
      assert ch.wire + items == ch.wire;
    } else {
      if items[0].SetItem? {
        LiveSetMayFollow(s, c, items[0]);
      }
      DiscardLastSnoc(s, ch.wire, items[0]);
    }
  }

  lemma LiveSetMayFollow(s: System, c: nat, item: Item)
    requires Sound(s) && Linked(s) && c < |s.channels| && item.SetItem? && Known(s, Set(item.f, item.k))
    requires s.fieldsets[item.f].calls[item.k].Dispatched?
    ensures DiscardItem(item.f) in s.channels[c].wire ==> MayFollow(s, item, item.f)
  {
    OnWire(s.channels[c].wire, item.f);
    if item.f in WireDiscards(s.channels[c].wire) {
      assert LinkInv(s.fieldsets[item.f], item.f, c, s.channels[c]);
      LiveSetMeansLate(s.fieldsets[item.f], item.k);
    }
  }

  lemma LogOkTouched(s: System, a: Action)
    requires Linked(s) && Enabled(s, a) && ChannelEffect(s, a).Some?
    requires WireOk(s, s.channels[ChannelEffect(s, a).value.0])
    ensures LogOk(s, ChannelEffect(s, a).value.1)
  {
    var (c, next) := ChannelEffect(s, a).value;
    if a.DiscardCall? {
      LogOkDiscard(s, s.fieldsets[a.f], a.f, s.channels[c], a.a);
    } else if a.GoInactive? {
      assert Log(next) <= Log(s.channels[c]);
    } else {
      LoopKeepsLog(s, a);
    }
  }

  lemma DiscardLastTouched(s: System, a: Action)
    requires Sound(s) && Shaped(s) && Linked(s) && Enabled(s, a) && ChannelEffect(s, a).Some?
    requires DiscardLast(s, s.channels[ChannelEffect(s, a).value.0].wire)
    ensures DiscardLast(s, ChannelEffect(s, a).value.1.wire)
  {
    if a.Inject? {
      DiscardLastInject(s, a.c);
    } else if a.Forward? {
      DiscardLastForward(s, a.c, a.done);
    } else if a.Poll? {
      DiscardLastBatch(s, s.channels[a.c].wire, s.channels[a.c].loop.drained);
    }
  }

  lemma WireOkStep(s: System, a: Action, c: nat)
    requires Sound(s) && Shaped(s) && Linked(s) && Enabled(s, a) && c < |s.channels| && WireOk(s, s.channels[c])
    ensures WireOk(Apply(s, a), Apply(s, a).channels[c])
  {
    if ChannelEffect(s, a).Some? && ChannelEffect(s, a).value.0 == c {
      LogOkTouched(s, a);
      DiscardLastTouched(s, a);
    }
    StepIsLater(s, a);
    WireOkFrame(s, Apply(s, a), Apply(s, a).channels[c]);
  }
}
