/**
 Where the injected commands stand relative to transactions. `TxOf` reads the transaction state off the wire itself, as
 the server sees it; `SeenTx` is what the handler saw, which also counts the markers that got lost after it observed
 them. The handler's flag agrees with `SeenTx` in every run, and where `SeenTx` and `TxOf` differ is known exactly.
 */
module ImportTransactions {
  import opened Options
  import R = Reservation
  import opened ImportWire

  /** Whether a transaction is open on the server after it has read the wire. */
  ghost function TxOf(wire: seq<Item>): bool {
    if wire == [] then false
    else
      var last := wire[|wire| - 1];
      if last.MarkItem? then After(last.marker) else TxOf(wire[..|wire| - 1])
  }

  /** Whether the handler saw a transaction open by the end of the wire. */
  ghost function SeenTx(wire: seq<Item>): bool {
    if wire == [] then false
    else
      var last := wire[|wire| - 1];
      if last.MarkItem? || last.LostItem? then After(last.marker) else SeenTx(wire[..|wire| - 1])
  }

  // ----- Where the server and the handler disagree -----

  /** No marker was sent from position i on. */
  ghost predicate NoneSent(wire: seq<Item>, i: int) {
    forall j :: i <= j < |wire| && 0 <= j ==> !wire[j].MarkItem?
  }

  ghost predicate NoneLost(wire: seq<Item>, i: int) {
    forall j :: i <= j < |wire| && 0 <= j ==> !wire[j].LostItem?
  }

  /** The last marker sent is a MULTI, and of those lost since, the last is an EXEC or DISCARD. */
  ghost predicate EndLost(wire: seq<Item>) {
    exists i, j :: 0 <= i < j < |wire| &&
      wire[i] == MarkItem(Multi) && NoneSent(wire, i + 1) &&
      wire[j].LostItem? && !After(wire[j].marker) && NoneLost(wire, j + 1)
  }

  /** The server has no transaction open, and of the markers lost since the last one sent, the last is a MULTI. */
  ghost predicate StartLost(wire: seq<Item>) {
    && !TxOf(wire)
    && exists j :: 0 <= j < |wire| && wire[j] == LostItem(Multi) && NoneSent(wire, j) && NoneLost(wire, j + 1)
  }

  /** The last marker sent says what the server thinks. */
  lemma {:induction false} TxIsLastSent(wire: seq<Item>, i: nat)
    requires i < |wire| && wire[i].MarkItem? && NoneSent(wire, i + 1)
    ensures TxOf(wire) == After(wire[i].marker)
  {
    var n := |wire| - 1;
    if i < n {
      assert wire[..n][i] == wire[i] && NoneSent(wire[..n], i + 1);
      TxIsLastSent(wire[..n], i);
    }
  }

  lemma {:induction false} TxHasMulti(wire: seq<Item>)
    requires TxOf(wire)
    ensures exists i :: 0 <= i < |wire| && wire[i] == MarkItem(Multi) && NoneSent(wire, i + 1)
  {
    var n := |wire| - 1;
    if wire[n].MarkItem? {
      assert wire[n] == MarkItem(Multi) && NoneSent(wire, n + 1);
    } else {
      TxHasMulti(wire[..n]);
      var i :| 0 <= i < n && wire[..n][i] == MarkItem(Multi) && NoneSent(wire[..n], i + 1);
      assert wire[i] == MarkItem(Multi) && NoneSent(wire, i + 1);
    }
  }

  /** What the handler saw is decided by the last marker lost since the last one sent, if there is one. */
  lemma {:induction false} SeenIsLastLost(wire: seq<Item>, j: nat)
    requires j < |wire| && wire[j].LostItem? && NoneSent(wire, j) && NoneLost(wire, j + 1)
    ensures SeenTx(wire) == After(wire[j].marker)
  {
    var n := |wire| - 1;
    if j < n {
      assert wire[..n][j] == wire[j] && NoneSent(wire[..n], j) && NoneLost(wire[..n], j + 1);
      SeenIsLastLost(wire[..n], j);
    }
  }

  lemma {:induction false} MisreadHasLost(wire: seq<Item>)
    requires SeenTx(wire) != TxOf(wire)
    ensures exists j :: 0 <= j < |wire| && wire[j].LostItem? && NoneSent(wire, j) && NoneLost(wire, j + 1)
  {
    var n := |wire| - 1;
    if wire[n].LostItem? {
      assert NoneSent(wire, n) && NoneLost(wire, n + 1);
    } else {
      MisreadHasLost(wire[..n]);
      var j :| 0 <= j < n && wire[..n][j].LostItem? && NoneSent(wire[..n], j) && NoneLost(wire[..n], j + 1);
      assert wire[j].LostItem? && NoneSent(wire, j) && NoneLost(wire, j + 1);
    }
  }

  lemma EndIsLost(wire: seq<Item>)
    ensures TxOf(wire) && !SeenTx(wire) <==> EndLost(wire)
  {
    if TxOf(wire) && !SeenTx(wire) {
      TxHasMulti(wire);
      var i :| 0 <= i < |wire| && wire[i] == MarkItem(Multi) && NoneSent(wire, i + 1);
      MisreadHasLost(wire);
      var j :| 0 <= j < |wire| && wire[j].LostItem? && NoneSent(wire, j) && NoneLost(wire, j + 1);
      SeenIsLastLost(wire, j);
      assert i < j;
    }
    if EndLost(wire) {
      var i, j :| 0 <= i < j < |wire| &&
        wire[i] == MarkItem(Multi) && NoneSent(wire, i + 1) &&
        wire[j].LostItem? && !After(wire[j].marker) && NoneLost(wire, j + 1);
      TxIsLastSent(wire, i);
      SeenIsLastLost(wire, j);
    }
  }

  lemma StartIsLost(wire: seq<Item>)
    ensures !TxOf(wire) && SeenTx(wire) <==> StartLost(wire)
  {
    if !TxOf(wire) && SeenTx(wire) {
      MisreadHasLost(wire);
      var j :| 0 <= j < |wire| && wire[j].LostItem? && NoneSent(wire, j) && NoneLost(wire, j + 1);
      SeenIsLastLost(wire, j);
      assert wire[j] == LostItem(Multi);
    }
    if StartLost(wire) {
      var j :| 0 <= j < |wire| && wire[j] == LostItem(Multi) && NoneSent(wire, j) && NoneLost(wire, j + 1);
      SeenIsLastLost(wire, j);
    }
  }

  /** The server is in a transaction that the handler takes for closed exactly if its end got lost, and the other way
      round exactly if a MULTI got lost. */
  lemma Misreading(wire: seq<Item>)
    ensures TxOf(wire) && !SeenTx(wire) <==> EndLost(wire)
    ensures !TxOf(wire) && SeenTx(wire) <==> StartLost(wire)
  {
    EndIsLost(wire);
    StartIsLost(wire);
  }

  // ----- The invariant -----

  /** The handler's flag after it observed the seen part of the batch. */
  ghost function OpenAfter(beganOpen: bool, batch: seq<Command>, seen: seq<Seen>): bool
    requires |seen| <= |batch|
  {
    if seen == [] then beganOpen
    else
      var n := |seen| - 1;
      var before := OpenAfter(beganOpen, batch, seen[..n]);
      if seen[n].Live? then OpenAfterCommand(before, batch[n]) else before
  }

  lemma OpenAfterSnoc(beganOpen: bool, batch: seq<Command>, seen: seq<Seen>, more: Seen)
    requires |seen| < |batch|
    ensures OpenAfter(beganOpen, batch, seen + [more]) ==
            var before := OpenAfter(beganOpen, batch, seen);
            if more.Live? then OpenAfterCommand(before, batch[|seen|]) else before
  {
    assert (seen + [more])[..|seen|] == seen;
  }

  /** As the handler saw it, an item stands where its annotation says: a DISCARD outside every transaction, a PREPARE in
      the transaction its write began in, a SET where it was observed. */
  ghost predicate Placed(wire: seq<Item>, j: nat)
    requires j < |wire|
  {
    match wire[j]
    case DiscardItem(_) => !SeenTx(wire[..j])
    case PrepareItem(_, beganOpen) => SeenTx(wire[..j]) == beganOpen
    case SetItem(_, _, inTx) => SeenTx(wire[..j]) == inTx
    case _ => true
  }

  ghost predicate AllPlaced(wire: seq<Item>) {
    forall j :: 0 <= j < |wire| ==> Placed(wire, j)
  }

  lemma PlacedSnoc(wire: seq<Item>, item: Item)
    requires AllPlaced(wire)
    requires item.DiscardItem? ==> !SeenTx(wire)
    requires item.PrepareItem? ==> SeenTx(wire) == item.beganOpen
    requires item.SetItem? ==> SeenTx(wire) == item.inTx
    ensures AllPlaced(wire + [item])
    ensures SeenTx(wire + [item]) == if item.MarkItem? || item.LostItem? then After(item.marker) else SeenTx(wire)
  {
    var longer := wire + [item];
    assert longer[..|wire|] == wire;
    forall j | 0 <= j < |longer|
      ensures Placed(longer, j)
    {
      if j < |wire| {
        assert longer[..j] == wire[..j] && Placed(wire, j);
      }
    }
  }

  lemma {:induction false} PlacedBatch(wire: seq<Item>, fs: seq<nat>)
    requires AllPlaced(wire) && !SeenTx(wire)
    ensures AllPlaced(wire + DiscardItems(fs)) && !SeenTx(wire + DiscardItems(fs))
  {
    if fs == [] {
      assert wire + DiscardItems(fs) == wire;
    } else {
      var n := |fs| - 1;
      PlacedBatch(wire, fs[..n]);
      PlacedSnoc(wire + DiscardItems(fs[..n]), DiscardItem(fs[n]));
      assert wire + DiscardItems(fs) == wire + DiscardItems(fs[..n]) + [DiscardItem(fs[n])];
    }
  }

  /** Each element was seen in the state its predecessors left. */
  ghost predicate SeenInOrder(w: Write) {
    && |w.seen| <= |w.batch|
    && forall i :: 0 <= i < |w.seen| && w.seen[i].Live? && w.batch[i].Set? ==>
         w.seen[i].inTx == OpenAfter(w.beganOpen, w.batch, w.seen[..i])
  }

  ghost predicate Agrees(ch: Channel) {
    match ch.loop
    case Observing(w) => BeforeForward(ch, w)
    case Registering(w) => BeforeForward(ch, w) && HasNext(w) && Next(w).Set? && !ch.open
    case Registered(w) => BeforeForward(ch, w) && HasNext(w) && Next(w).Set? && !ch.open
    case Forwarding(w, i) =>
      && SeenInOrder(w) && ch.open == OpenAfter(w.beganOpen, w.batch, w.seen)
      && |w.seen| == |w.batch| && i <= |w.seen| && SeenTx(ch.wire) == OpenAfter(w.beganOpen, w.batch, w.seen[..i])
    case ClearingFlag => SeenTx(ch.wire) == ch.open == false
    case Polling(_) => SeenTx(ch.wire) == ch.open == false
    case _ => SeenTx(ch.wire) == ch.open
  }

  ghost predicate BeforeForward(ch: Channel, w: Write) {
    SeenInOrder(w) && ch.open == OpenAfter(w.beganOpen, w.batch, w.seen) && SeenTx(ch.wire) == w.beganOpen
  }

  ghost predicate TxInv(ch: Channel) {
    AllPlaced(ch.wire) && (ch.active ==> Agrees(ch)) && (!ch.active ==> ch.loop.Idle?)
  }

  lemma AdvanceInOrder(w: Write, seen: Seen)
    requires SeenInOrder(w) && HasNext(w)
    requires seen.Live? && Next(w).Set? ==> seen.inTx == OpenAfter(w.beganOpen, w.batch, w.seen)
    ensures SeenInOrder(Advance(w, seen))
    ensures OpenAfter(w.beganOpen, w.batch, Advance(w, seen).seen) ==
            var before := OpenAfter(w.beganOpen, w.batch, w.seen);
            if seen.Live? then OpenAfterCommand(before, Next(w)) else before
  {
    OpenAfterSnoc(w.beganOpen, w.batch, w.seen, seen);
    var v := Advance(w, seen);
    forall i | 0 <= i < |v.seen| && v.seen[i].Live? && v.batch[i].Set?
      ensures v.seen[i].inTx == OpenAfter(v.beganOpen, v.batch, v.seen[..i])
    {
      assert i < |w.seen| ==> v.seen[..i] == w.seen[..i];
      assert i == |w.seen| ==> v.seen[..i] == w.seen;
    }
  }

  lemma ObserveTx(s: System, ch: Channel, done: bool)
    requires ch.loop.Observing? && HasNext(ch.loop.w) && Known(s, Next(ch.loop.w)) && Agrees(ch)
    ensures Agrees(AfterObserve(s, ch, done))
  {
    var w, next := ch.loop.w, AfterObserve(s, ch, done);
    var open := OpenAfterCommand(ch.open, Next(w));
    if IsDone(s, Next(w), done) {
      AdvanceInOrder(w, Skipped);
      assert BeforeForward(next, Advance(w, Skipped));
    } else if next.loop.Registering? {
      assert BeforeForward(next, w);
    } else {
      AdvanceInOrder(w, Live(open));
      assert BeforeForward(next, Advance(w, Live(open)));
    }
  }

  lemma JoinTx(s: System, c: nat)
    requires Enabled(s, Join(c)) && Agrees(s.channels[c])
    ensures Agrees(ChannelEffect(s, Join(c)).value.1)
  {
    AdvanceInOrder(s.channels[c].loop.w, Live(false));
  }

  lemma InjectTx(s: System, c: nat)
    requires Enabled(s, Inject(c)) && Agrees(s.channels[c]) && AllPlaced(s.channels[c].wire)
    ensures var next := ChannelEffect(s, Inject(c)).value.1; Agrees(next) && AllPlaced(next.wire)
  {
    var ch, w := s.channels[c], s.channels[c].loop.w;
    AdvanceInOrder(w, Live(false));
    PlacedSnoc(ch.wire, PrepareItem(Next(w).f, w.beganOpen));
  }

  lemma ForwardTx(s: System, ch: Channel, done: bool)
    requires ch.loop.Forwarding? && ch.loop.i < |ch.loop.w.batch| == |ch.loop.w.seen|
    requires Known(s, ch.loop.w.batch[ch.loop.i])
    requires Agrees(ch) && AllPlaced(ch.wire)
    ensures var next := AfterForward(s, ch, done);
            Agrees(next) && AllPlaced(next.wire)
  {
    var w, i := ch.loop.w, ch.loop.i;
    var items := ForwardItems(s, w, i, done);
    OpenAfterUpTo(w, i);
    if items == [] {
      assert ch.wire + items == ch.wire;
    } else {
      PlacedSnoc(ch.wire, items[0]);
    }
  }

  lemma OpenAfterUpTo(w: Write, i: nat)
    requires i < |w.seen| <= |w.batch|
    ensures OpenAfter(w.beganOpen, w.batch, w.seen[..i + 1]) ==
            var before := OpenAfter(w.beganOpen, w.batch, w.seen[..i]);
            if w.seen[i].Live? then OpenAfterCommand(before, w.batch[i]) else before
  {
    assert w.seen[..i + 1] == w.seen[..i] + [w.seen[i]];
    OpenAfterSnoc(w.beganOpen, w.batch, w.seen[..i], w.seen[i]);
  }

  lemma EndForwardTx(ch: Channel)
    requires ch.loop.Forwarding? && ch.loop.i == |ch.loop.w.batch| && Agrees(ch)
    ensures SeenTx(ch.wire) == ch.open
  {
    assert ch.loop.w.seen[..ch.loop.i] == ch.loop.w.seen;
  }

  lemma ObserveTouched(s: System, a: Action)
    requires Enabled(s, a) && (a.Observe? || a.Join? || a.Inject?) && TxInv(s.channels[a.c])
    ensures TxInv(ChannelEffect(s, a).value.1)
  {
    if a.Observe? {
      ObserveTx(s, s.channels[a.c], a.done);
    } else if a.Join? {
      JoinTx(s, a.c);
    } else {
      InjectTx(s, a.c);
    }
  }

  lemma ForwardTouched(s: System, a: Action)
    requires Enabled(s, a) && (a.EndObserve? || a.Forward? || a.EndForward?) && TxInv(s.channels[a.c])
    ensures TxInv(ChannelEffect(s, a).value.1)
  {
    var ch := s.channels[a.c];
    if a.EndObserve? {
      assert ch.loop.w.seen[..0] == [];
    } else if a.Forward? {
      ForwardTx(s, ch, a.done);
    } else {
      EndForwardTx(ch);
    }
  }

  lemma DrainTouched(s: System, a: Action)
    requires Enabled(s, a) && (a.CheckFlag? || a.ClearFlag? || a.Poll?) && TxInv(s.channels[a.c])
    ensures TxInv(ChannelEffect(s, a).value.1)
  {
    if a.Poll? {
      PlacedBatch(s.channels[a.c].wire, s.channels[a.c].loop.drained);
    }
  }

  lemma BeginTouched(s: System, a: Action)
    requires Enabled(s, a) && (a.BeginWrite? || a.GoInactive?) && TxInv(s.channels[a.c])
    ensures TxInv(ChannelEffect(s, a).value.1)
  {
  }

  /** Nothing that concerns transactions. */
  lemma AsideTouched(s: System, a: Action)
    requires Enabled(s, a) && (a.DiscardCall? || a.PrepareFails?)
    requires TxInv(s.channels[ChannelEffect(s, a).value.0])
    ensures TxInv(ChannelEffect(s, a).value.1)
  {
    var (c, next) := ChannelEffect(s, a).value;
    var ch := s.channels[c];
    assert next.wire == ch.wire && next.open == ch.open && next.loop == ch.loop && next.active == ch.active;
  }

  lemma TxTouched(s: System, a: Action)
    requires Enabled(s, a) && ChannelEffect(s, a).Some? && TxInv(s.channels[ChannelEffect(s, a).value.0])
    ensures TxInv(ChannelEffect(s, a).value.1)
  {
    if a.Observe? || a.Join? || a.Inject? {
      ObserveTouched(s, a);
    } else if a.EndObserve? || a.Forward? || a.EndForward? {
      ForwardTouched(s, a);
    } else if a.CheckFlag? || a.ClearFlag? || a.Poll? {
      DrainTouched(s, a);
    } else if a.BeginWrite? || a.GoInactive? {
      BeginTouched(s, a);
    } else {
      AsideTouched(s, a);
    }
  }

  lemma TxStep(s: System, a: Action, c: nat)
    requires Enabled(s, a) && c < |s.channels| && TxInv(s.channels[c])
    ensures c < |Apply(s, a).channels| && TxInv(Apply(s, a).channels[c])
  {
    if ChannelEffect(s, a).Some? && ChannelEffect(s, a).value.0 == c {
      TxTouched(s, a);
    }
  }
}
