/**
 Fieldsets and channels together. Each channel has an event loop that runs `HashImportOutboundHandler.write` one action
 at a time, while callers retain, release, close and clean up concurrently (module Reservation). `wire` is what the
 channel has sent, in order, with a note where a transaction marker got lost between being observed and being sent.
 Those notes, the annotations of items and `missed` are history that no action reads.

 Whether a SET is done is the state of its call. Whether any other command is done is chosen by the action, since it
 may be cancelled at any time; a command seen done stays done.
 */
module ImportWire {
  import opened Options
  import R = Reservation

  datatype Marker = Multi | ExecTx | DiscardTx

  datatype Command = Mark(marker: Marker) | Set(f: nat, k: nat) | Other

  datatype Item =
    | PrepareItem(f: nat, beganOpen: bool)     // beganOpen: a transaction was open when its write began
    | SetItem(f: nat, k: nat, inTx: bool)      // inTx: the handler saw it inside a transaction
    | DiscardItem(f: nat)
    | MarkItem(marker: Marker)
    | OtherItem
    | LostItem(marker: Marker)                 // not sent: a marker that was observed and then found done

  /** What observeAndPrepare did with an element: skipped it as done, or saw it inside or outside a transaction. */
  datatype Seen = Skipped | Live(inTx: bool)

  /** One call of write: what it forwards, what was done with each element so far, and whether a transaction was open
      when it began. */
  datatype Write = Write(batch: seq<Command>, seen: seq<Seen>, beganOpen: bool)

  datatype Loop =
    | Idle
    | Observing(w: Write)
    | Registering(w: Write)       // the next element is a SET of a fieldset not prepared here
    | Registered(w: Write)        // registerConnection returned true for it
    | Forwarding(w: Write, i: nat)
    | CheckingFlag
    | ClearingFlag
    | Polling(drained: seq<nat>)

  datatype Channel = Channel(
    active: bool,
    prepared: set<nat>,
    pending: seq<nat>,
    flag: bool,
    builder: bool,
    open: bool,
    loop: Loop,
    wire: seq<Item>,
    missed: set<nat>)      // fieldsets whose discard found no command builder

  datatype System = System(fieldsets: seq<R.Fieldset>, channels: seq<Channel>)

  datatype Action =
    | Caller(f: nat, a: R.Action)
    | DiscardCall(f: nat, a: R.Action)
    | BeginWrite(c: nat, batch: seq<Command>)
    | Observe(c: nat, done: bool)
    | Join(c: nat)
    | Inject(c: nat)
    | EndObserve(c: nat)
    | Forward(c: nat, done: bool)
    | EndForward(c: nat)
    | CheckFlag(c: nat)
    | ClearFlag(c: nat)
    | Poll(c: nat)
    | PrepareFails(c: nat, f: nat)
    | GoInactive(c: nat)

  predicate Known(s: System, command: Command) {
    command.Set? ==> command.f < |s.fieldsets| && command.k < |s.fieldsets[command.f].calls|
  }

  predicate IsDone(s: System, command: Command, chosen: bool)
    requires Known(s, command)
  {
    if command.Set? then !s.fieldsets[command.f].calls[command.k].Dispatched? else chosen
  }

  /** TransactionState.observe */
  function After(marker: Marker): bool {
    marker.Multi?
  }

  function OpenAfterCommand(open: bool, command: Command): bool {
    if command.Mark? then After(command.marker) else open
  }

  predicate InDiscard(a: R.Action) {
    a.SkipDiscard? || a.PickDiscard? || a.QueueDiscard? || a.FlagDiscard?
  }

  predicate HasNext(w: Write) {
    |w.seen| < |w.batch|
  }

  function Next(w: Write): Command
    requires HasNext(w)
  {
    w.batch[|w.seen|]
  }

  function Advance(w: Write, seen: Seen): Write {
    w.(seen := w.seen + [seen])
  }

  predicate Enabled(s: System, a: Action) {
    match a
    case Caller(f, b) =>
      f < |s.fieldsets| && !InDiscard(b) && !b.Register? && R.Enabled(s.fieldsets[f], b)
    case DiscardCall(f, b) =>
      && f < |s.fieldsets| && InDiscard(b) && R.Enabled(s.fieldsets[f], b)
      && DiscardTarget(s.fieldsets[f], b) < |s.channels|
      && (b.SkipDiscard? ==> !s.channels[b.context].builder)
      && (b.PickDiscard? ==> s.channels[b.context].builder)
    case BeginWrite(c, batch) =>
      && c < |s.channels| && s.channels[c].active && s.channels[c].loop.Idle?
      && forall i :: 0 <= i < |batch| ==> Known(s, batch[i])
    case Observe(c, done) =>
      && c < |s.channels| && s.channels[c].loop.Observing?
      && HasNext(s.channels[c].loop.w) && Known(s, Next(s.channels[c].loop.w))
    case Join(c) =>
      && c < |s.channels| && s.channels[c].loop.Registering? && HasNext(s.channels[c].loop.w)
      && Next(s.channels[c].loop.w).Set? && Known(s, Next(s.channels[c].loop.w))
    case Inject(c) =>
      && c < |s.channels| && s.channels[c].loop.Registered? && HasNext(s.channels[c].loop.w)
      && Next(s.channels[c].loop.w).Set?
    case EndObserve(c) =>
      c < |s.channels| && s.channels[c].loop.Observing? && !HasNext(s.channels[c].loop.w)
    case Forward(c, done) =>
      && c < |s.channels| && s.channels[c].loop.Forwarding?
      && s.channels[c].loop.i < |s.channels[c].loop.w.batch| == |s.channels[c].loop.w.seen|
      && Known(s, s.channels[c].loop.w.batch[s.channels[c].loop.i])
    case EndForward(c) =>
      c < |s.channels| && s.channels[c].loop.Forwarding? && s.channels[c].loop.i == |s.channels[c].loop.w.batch|
    case CheckFlag(c) => c < |s.channels| && s.channels[c].loop.CheckingFlag?
    case ClearFlag(c) => c < |s.channels| && s.channels[c].loop.ClearingFlag?
    case Poll(c) => c < |s.channels| && s.channels[c].loop.Polling?
    case PrepareFails(c, f) => c < |s.channels| && f in s.channels[c].prepared
    case GoInactive(c) => c < |s.channels| && s.channels[c].loop.Idle?
  }

  /** The context a discard action works on. */
  function DiscardTarget(s: R.Fieldset, a: R.Action): nat
    requires InDiscard(a) && R.Enabled(s, a)
  {
    if a.SkipDiscard? || a.PickDiscard? then a.context else s.calls[a.k].context
  }

  /** The fieldset an action touches and what it does there. */
  function FieldsetEffect(s: System, a: Action): Option<(nat, R.Action)>
    requires Enabled(s, a)
  {
    match a
    case Caller(f, b) => Some((f, b))
    case DiscardCall(f, b) => Some((f, b))
    case Join(c) =>
      var cmd := Next(s.channels[c].loop.w);
      if !s.fieldsets[cmd.f].cleanedUp then Some((cmd.f, R.Register(c)))
      else if s.fieldsets[cmd.f].calls[cmd.k].Dispatched? then Some((cmd.f, R.Complete(cmd.k)))
      else None
    case _ => None
  }

  function AfterObserve(s: System, ch: Channel, done: bool): Channel
    requires ch.loop.Observing? && HasNext(ch.loop.w) && Known(s, Next(ch.loop.w))
  {
    var w, command := ch.loop.w, Next(ch.loop.w);
    if IsDone(s, command, done) then ch.(loop := Observing(Advance(w, Skipped)))
    else
      var open := OpenAfterCommand(ch.open, command);
      if !open && command.Set? && command.f !in ch.prepared
      then ch.(open := open, loop := Registering(w))
      else ch.(open := open, loop := Observing(Advance(w, Live(open))))
  }

  function ItemOf(command: Command, inTx: bool): Item {
    match command
    case Mark(m) => MarkItem(m)
    case Set(f, k) => SetItem(f, k, inTx)
    case Other => OtherItem
  }

  /** What forwarding element i adds to the wire: the command, or a mark if it is a marker that is done by now. */
  function ForwardItems(s: System, w: Write, i: nat, done: bool): seq<Item>
    requires i < |w.batch| == |w.seen| && Known(s, w.batch[i])
  {
    if w.seen[i].Skipped? then []
    else if !IsDone(s, w.batch[i], done) then [ItemOf(w.batch[i], w.seen[i].inTx)]
    else if w.batch[i].Mark? then [LostItem(w.batch[i].marker)] else []
  }

  function AfterForward(s: System, ch: Channel, done: bool): Channel
    requires ch.loop.Forwarding? && ch.loop.i < |ch.loop.w.batch| == |ch.loop.w.seen|
    requires Known(s, ch.loop.w.batch[ch.loop.i])
  {
    ch.(loop := Forwarding(ch.loop.w, ch.loop.i + 1), wire := ch.wire + ForwardItems(s, ch.loop.w, ch.loop.i, done))
  }

  function DiscardItems(fs: seq<nat>): seq<Item> {
    seq(|fs|, i requires 0 <= i < |fs| => DiscardItem(fs[i]))
  }

  function AfterDiscardCall(ch: Channel, f: nat, b: R.Action): Channel
    requires InDiscard(b)
  {
    match b
    case SkipDiscard(_, _) => ch.(missed := ch.missed + {f})
    case PickDiscard(_, _) => ch
    case QueueDiscard(_) => ch.(pending := ch.pending + [f])
    case FlagDiscard(_) => ch.(flag := true)
  }

  /** The channel an action touches and its next state. */
  function ChannelEffect(s: System, a: Action): Option<(nat, Channel)>
    requires Enabled(s, a)
  {
    match a
    case Caller(_, _) => None
    case DiscardCall(f, b) =>
      var c := DiscardTarget(s.fieldsets[f], b);
      Some((c, AfterDiscardCall(s.channels[c], f, b)))
    case BeginWrite(c, batch) =>
      Some((c, s.channels[c].(loop := Observing(Write(batch, [], s.channels[c].open)))))
    case Observe(c, done) => Some((c, AfterObserve(s, s.channels[c], done)))
    case Join(c) =>
      var ch, w := s.channels[c], s.channels[c].loop.w;
      Some((c, ch.(loop := if s.fieldsets[Next(w).f].cleanedUp then Observing(Advance(w, Live(false)))
                             else Registered(w))))
    case Inject(c) =>
      var ch, w := s.channels[c], s.channels[c].loop.w;
      Some((c, ch.(builder := true,
                     prepared := ch.prepared + {Next(w).f},
                     wire := ch.wire + [PrepareItem(Next(w).f, w.beganOpen)],
                     loop := Observing(Advance(w, Live(false))))))
    case EndObserve(c) => Some((c, s.channels[c].(loop := Forwarding(s.channels[c].loop.w, 0))))
    case Forward(c, done) => Some((c, AfterForward(s, s.channels[c], done)))
    case EndForward(c) => Some((c, s.channels[c].(loop := CheckingFlag)))
    case CheckFlag(c) =>
      var ch := s.channels[c];
      Some((c, ch.(loop := if ch.flag && !ch.open then ClearingFlag else Idle)))
    case ClearFlag(c) => Some((c, s.channels[c].(flag := false, loop := Polling([]))))
    case Poll(c) =>
      var ch := s.channels[c];
      Some((c, if ch.pending == []
                 then ch.(wire := ch.wire + DiscardItems(ch.loop.drained), loop := Idle)
                 else ch.(pending := ch.pending[1..], loop := Polling(ch.loop.drained + [ch.pending[0]]))))
    case PrepareFails(c, f) => Some((c, s.channels[c].(prepared := s.channels[c].prepared - {f})))
    case GoInactive(c) =>
      Some((c, s.channels[c].(active := false, open := false, prepared := {}, pending := [], flag := false)))
  }

  function Apply(s: System, a: Action): System
    requires Enabled(s, a)
  {
    System(
      match FieldsetEffect(s, a)
      case None => s.fieldsets
      case Some((f, b)) => s.fieldsets[f := R.Apply(s.fieldsets[f], b)],
      match ChannelEffect(s, a)
      case None => s.channels
      case Some((c, ch)) => s.channels[c := ch])
  }

  function Exec(s: System, run: seq<Action>): Option<System> {
    if run == [] then Some(s)
    else
      var last := run[|run| - 1];
      match Exec(s, run[..|run| - 1])
      case None => None
      case Some(t) => if Enabled(t, last) then Some(Apply(t, last)) else None
  }

  const FRESH := Channel(true, {}, [], false, false, false, Idle, [], {})

  ghost predicate Initial(s: System) {
    && (forall f :: 0 <= f < |s.fieldsets| ==> R.Initial(s.fieldsets[f]))
    && (forall c :: 0 <= c < |s.channels| ==> s.channels[c] == FRESH)
  }

  // ----- Shape of the state -----

  ghost predicate ChannelOk(s: System, ch: Channel) {
    match ch.loop
    case Observing(w) => WriteOk(s, w)
    case Registering(w) => WriteOk(s, w) && HasNext(w) && Next(w).Set? && !ch.open
    case Registered(w) => WriteOk(s, w) && HasNext(w) && Next(w).Set? && !ch.open
    case Forwarding(w, i) => WriteOk(s, w) && !HasNext(w) && i <= |w.batch|
    case _ => true
  }

  ghost predicate WriteOk(s: System, w: Write) {
    |w.seen| <= |w.batch| && forall i :: 0 <= i < |w.batch| ==> Known(s, w.batch[i])
  }

  ghost predicate Sound(s: System) {
    forall f :: 0 <= f < |s.fieldsets| ==> R.Inv(s.fieldsets[f])
  }

  ghost predicate Shaped(s: System) {
    forall c :: 0 <= c < |s.channels| ==> ChannelOk(s, s.channels[c])
  }

  ghost predicate SameShape(s: System, t: System) {
    && |t.fieldsets| == |s.fieldsets| && |t.channels| == |s.channels|
    && forall f :: 0 <= f < |s.fieldsets| ==> |t.fieldsets[f].calls| == |s.fieldsets[f].calls|
  }

  lemma StepKeepsShape(s: System, a: Action)
    requires Enabled(s, a)
    ensures SameShape(s, Apply(s, a))
  {
  }

  /** A channel changes only by an action that touches it. */
  lemma ChannelAt(s: System, a: Action, c: nat)
    requires Enabled(s, a) && c < |s.channels|
    ensures |Apply(s, a).channels| == |s.channels|
    ensures Apply(s, a).channels[c] ==
            if ChannelEffect(s, a).Some? && ChannelEffect(s, a).value.0 == c
            then ChannelEffect(s, a).value.1 else s.channels[c]
  {
  }

  /** Each fieldset either takes one action of its own machine or stays as it is. */
  lemma FieldsetStep(s: System, a: Action, f: nat)
    requires Sound(s) && Enabled(s, a) && f < |s.fieldsets|
    ensures f < |Apply(s, a).fieldsets|
    ensures R.Later(s.fieldsets[f], Apply(s, a).fieldsets[f])
    ensures R.Inv(Apply(s, a).fieldsets[f])
  {
    match FieldsetEffect(s, a)
    case None =>
    case Some((g, b)) =>
      if f == g {
        R.StepIsLater(s.fieldsets[f], b);
        R.StepKeepsInv(s.fieldsets[f], b);
      }
  }

  lemma SoundStep(s: System, a: Action)
    requires Sound(s) && Enabled(s, a)
    ensures Sound(Apply(s, a))
  {
    forall f | 0 <= f < |Apply(s, a).fieldsets|
      ensures R.Inv(Apply(s, a).fieldsets[f])
    {
      FieldsetStep(s, a, f);
    }
  }

  lemma ChannelOkFrame(s: System, t: System, ch: Channel)
    requires SameShape(s, t) && ChannelOk(s, ch)
    ensures ChannelOk(t, ch)
  {
  }

  lemma LoopOk(s: System, a: Action)
    requires Enabled(s, a) && (a.Observe? || a.Join? || a.Inject? || a.EndObserve? || a.Forward?)
    requires ChannelOk(s, s.channels[a.c])
    ensures ChannelOk(s, ChannelEffect(s, a).value.1)
  {
  }

  lemma TouchedOk(s: System, a: Action)
    requires Shaped(s) && Enabled(s, a) && ChannelEffect(s, a).Some?
    ensures ChannelOk(s, ChannelEffect(s, a).value.1)
  {
    assert ChannelOk(s, s.channels[ChannelEffect(s, a).value.0]);
    if a.Observe? || a.Join? || a.Inject? || a.EndObserve? || a.Forward? {
      LoopOk(s, a);
    }
  }

  lemma ShapedStep(s: System, a: Action)
    requires Shaped(s) && Enabled(s, a)
    ensures Shaped(Apply(s, a))
  {
    var t := Apply(s, a);
    StepKeepsShape(s, a);
    forall c | 0 <= c < |t.channels|
      ensures ChannelOk(t, t.channels[c])
    {
      if ChannelEffect(s, a).Some? && ChannelEffect(s, a).value.0 == c {
        TouchedOk(s, a);
      }
      ChannelOkFrame(s, t, t.channels[c]);
    }
  }
}
