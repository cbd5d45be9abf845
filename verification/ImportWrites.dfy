/**
 What one call of the outbound handler's write does, on values: which PREPAREs go out ahead of the batch, which elements
 follow, and where that leaves transaction state, prepared fieldsets and failed SETs. `Observe` goes through the batch
 element by element as the handler does; `Effect` says what comes of it without going through anything.
 */
module ImportWrites {
  import opened ImportWire

  /** What the handler finds when the call begins: the transaction state, the fieldsets prepared here, which elements
      are done, and which fieldsets are cleaned up. */
  datatype Start = Start(open: bool, prepared: set<nat>, done: seq<bool>, cleaned: seq<bool>)

  ghost predicate Fits(b: Start, batch: seq<Command>) {
    && |b.done| == |batch|
    && (forall i :: 0 <= i < |batch| && batch[i].Set? ==> batch[i].f < |b.cleaned|)
    && (forall i, j :: 0 <= i < |batch| && 0 <= j < |batch| && batch[i].Set? && batch[i] == batch[j] ==>
          b.done[i] == b.done[j])
  }

  /** The transaction state after the first i elements, of which the done ones do not count. */
  ghost function OpenUpTo(b: Start, batch: seq<Command>, i: nat): bool
    requires |b.done| == |batch| && i <= |batch|
  {
    if i == 0 then b.open
    else if b.done[i - 1] then OpenUpTo(b, batch, i - 1)
    else OpenAfterCommand(OpenUpTo(b, batch, i - 1), batch[i - 1])
  }

  /** Element i is a live SET, outside a transaction, of a fieldset that is not prepared here. */
  ghost predicate Wants(b: Start, batch: seq<Command>, i: nat)
    requires |b.done| == |batch|
  {
    && i < |batch| && !b.done[i] && batch[i].Set? && !OpenUpTo(b, batch, i) && batch[i].f !in b.prepared
    && batch[i].f < |b.cleaned|
  }

  /** Among the first n elements one wants fieldset f. */
  ghost predicate WantedIn(b: Start, batch: seq<Command>, n: nat, f: nat)
    requires |b.done| == |batch|
  {
    exists i :: 0 <= i < n && Wants(b, batch, i) && batch[i].f == f
  }

  /** Among the first n elements one is the same SET as `command` and fails, because its fieldset is cleaned up. */
  ghost predicate FailsIn(b: Start, batch: seq<Command>, n: nat, command: Command)
    requires |b.done| == |batch|
  {
    exists i :: 0 <= i < n && Wants(b, batch, i) && b.cleaned[batch[i].f] && batch[i] == command
  }

  // ----- Element by element -----

  datatype Look = Look(open: bool, prepared: set<nat>, done: seq<bool>, prepares: seq<nat>, seen: seq<Seen>)

  ghost function MarkDone(done: seq<bool>, batch: seq<Command>, command: Command): seq<bool>
    requires |done| == |batch|
  {
    seq(|done|, i requires 0 <= i < |done| => done[i] || batch[i] == command)
  }

  ghost function ObserveOne(l: Look, batch: seq<Command>, cleaned: seq<bool>, i: nat): Look
    requires i < |batch| == |l.done| && (batch[i].Set? ==> batch[i].f < |cleaned|)
  {
    if l.done[i] then l.(seen := l.seen + [Skipped])
    else
      var open := OpenAfterCommand(l.open, batch[i]);
      var next := l.(open := open, seen := l.seen + [Live(open)]);
      if open || !batch[i].Set? || batch[i].f in l.prepared then next
      else if cleaned[batch[i].f] then next.(done := MarkDone(l.done, batch, batch[i]))
      else next.(prepared := l.prepared + {batch[i].f}, prepares := l.prepares + [batch[i].f])
  }

  ghost function Observe(b: Start, batch: seq<Command>, n: nat): (l: Look)
    requires Fits(b, batch) && n <= |batch|
    ensures |l.done| == |batch|
  {
    if n == 0 then Look(b.open, b.prepared, b.done, [], [])
    else ObserveOne(Observe(b, batch, n - 1), batch, b.cleaned, n - 1)
  }

  lemma ObserveMore(b: Start, batch: seq<Command>, n: nat)
    requires Fits(b, batch) && n < |batch|
    ensures Observe(b, batch, n + 1) == ObserveOne(Observe(b, batch, n), batch, b.cleaned, n)
  {
  }

  // ----- What comes of it -----

  ghost predicate Distinct(fs: seq<nat>) {
    forall i, j :: 0 <= i < j < |fs| ==> fs[i] != fs[j]
  }

  /** The state after n elements, said without going through them. */
  ghost predicate Observed(b: Start, batch: seq<Command>, n: nat, l: Look)
    requires |b.done| == |batch| && n <= |batch|
  {
    && l.open == OpenUpTo(b, batch, n)
    && |l.done| == |batch|
    && (forall j :: 0 <= j < |batch| ==> (l.done[j] <==> b.done[j] || FailsIn(b, batch, n, batch[j])))
    && (forall f: nat :: f in l.prepares <==> f < |b.cleaned| && !b.cleaned[f] && WantedIn(b, batch, n, f))
    && Distinct(l.prepares) && (forall f: nat :: f in l.prepared <==> f in b.prepared || f in l.prepares)
    && |l.seen| == n
    && (forall i :: 0 <= i < n ==> SeenRight(b, batch, l, i))
  }

  /** A marker is skipped exactly if it was done; what is skipped is done; what is live was seen where it stands. */
  ghost predicate SeenRight(b: Start, batch: seq<Command>, l: Look, i: nat)
    requires |b.done| == |batch| == |l.done| && i < |l.seen| && i < |batch|
  {
    && (l.seen[i].Skipped? ==> l.done[i]) && (batch[i].Mark? ==> (l.seen[i].Skipped? <==> b.done[i]))
    && (!l.done[i] ==> l.seen[i] == Live(OpenUpTo(b, batch, i + 1)))
  }

  lemma FailsStep(b: Start, batch: seq<Command>, n: nat, command: Command)
    requires |b.done| == |batch| && n < |batch|
    ensures FailsIn(b, batch, n + 1, command) <==>
            FailsIn(b, batch, n, command) || (Wants(b, batch, n) && b.cleaned[batch[n].f] && batch[n] == command)
  {
    if FailsIn(b, batch, n + 1, command) {
      var i :| 0 <= i < n + 1 && Wants(b, batch, i) && b.cleaned[batch[i].f] && batch[i] == command;
    }
  }

  lemma WantedStep(b: Start, batch: seq<Command>, n: nat, f: nat)
    requires |b.done| == |batch| && n < |batch|
    ensures WantedIn(b, batch, n + 1, f) <==> WantedIn(b, batch, n, f) || (Wants(b, batch, n) && batch[n].f == f)
  {
    if WantedIn(b, batch, n + 1, f) {
      var i :| 0 <= i < n + 1 && Wants(b, batch, i) && batch[i].f == f;
    }
  }

  /** Element n is found done exactly if it was, or the same SET failed before; then it wants nothing new. */
  lemma FoundDone(b: Start, batch: seq<Command>, n: nat, l: Look)
    requires Fits(b, batch) && n < |batch| && Observed(b, batch, n, l) && l.done[n]
    ensures Wants(b, batch, n) ==> b.cleaned[batch[n].f] && FailsIn(b, batch, n, batch[n])
    ensures batch[n].Mark? ==> b.done[n]
    ensures OpenUpTo(b, batch, n + 1) == OpenUpTo(b, batch, n)
  {
    assert l.done[n] <==> b.done[n] || FailsIn(b, batch, n, batch[n]);
  }

  lemma SeenStays(b: Start, batch: seq<Command>, n: nat, l: Look, next: Look, seen: Seen)
    requires |b.done| == |batch| == |l.done| == |next.done| && n < |batch| && |l.seen| == n
    requires next.seen == l.seen + [seen]
    requires forall i :: 0 <= i < n ==> SeenRight(b, batch, l, i)
    requires forall j :: 0 <= j < |batch| && l.done[j] ==> next.done[j]
    requires SeenRight(b, batch, next, n)
    ensures forall i :: 0 <= i < n + 1 ==> SeenRight(b, batch, next, i)
  {
    forall i | 0 <= i < n
      ensures SeenRight(b, batch, next, i)
    {
      assert SeenRight(b, batch, l, i);
    }
  }

  lemma SkipStep(b: Start, batch: seq<Command>, n: nat, l: Look)
    requires Fits(b, batch) && n < |batch| && Observed(b, batch, n, l) && l.done[n]
    ensures Observed(b, batch, n + 1, ObserveOne(l, batch, b.cleaned, n))
  {
    var next := ObserveOne(l, batch, b.cleaned, n);
    FoundDone(b, batch, n, l);
    forall j | 0 <= j < |batch|
      ensures next.done[j] <==> b.done[j] || FailsIn(b, batch, n + 1, batch[j])
    {
      FailsStep(b, batch, n, batch[j]);
    }
    forall f: nat
      ensures f in next.prepares <==> f < |b.cleaned| && !b.cleaned[f] && WantedIn(b, batch, n + 1, f)
    {
      WantedStep(b, batch, n, f);
    }
    SeenStays(b, batch, n, l, next, Skipped);
  }

  /** A live element that needs nothing, or whose fieldset got its PREPARE earlier in the batch. */
  lemma PlainStep(b: Start, batch: seq<Command>, n: nat, l: Look)
    requires Fits(b, batch) && n < |batch| && Observed(b, batch, n, l) && !l.done[n]
    requires OpenAfterCommand(l.open, batch[n]) || !batch[n].Set? || batch[n].f in l.prepared
    ensures Observed(b, batch, n + 1, ObserveOne(l, batch, b.cleaned, n))
  {
    var next := ObserveOne(l, batch, b.cleaned, n);
    assert !b.done[n];
    assert Wants(b, batch, n) ==> !b.cleaned[batch[n].f] && WantedIn(b, batch, n, batch[n].f);
    forall j | 0 <= j < |batch|
      ensures next.done[j] <==> b.done[j] || FailsIn(b, batch, n + 1, batch[j])
    {
      FailsStep(b, batch, n, batch[j]);
    }
    forall f: nat
      ensures f in next.prepares <==> f < |b.cleaned| && !b.cleaned[f] && WantedIn(b, batch, n + 1, f)
    {
      WantedStep(b, batch, n, f);
    }
    SeenStays(b, batch, n, l, next, Live(next.open));
  }

  lemma FailStep(b: Start, batch: seq<Command>, n: nat, l: Look)
    requires Fits(b, batch) && n < |batch| && Observed(b, batch, n, l) && !l.done[n]
    requires !OpenAfterCommand(l.open, batch[n]) && batch[n].Set? && batch[n].f !in l.prepared && b.cleaned[batch[n].f]
    ensures Observed(b, batch, n + 1, ObserveOne(l, batch, b.cleaned, n))
  {
    var next := ObserveOne(l, batch, b.cleaned, n);
    assert Wants(b, batch, n);
    forall j | 0 <= j < |batch|
      ensures next.done[j] <==> b.done[j] || FailsIn(b, batch, n + 1, batch[j])
    {
      FailsStep(b, batch, n, batch[j]);
    }
    forall f: nat
      ensures f in next.prepares <==> f < |b.cleaned| && !b.cleaned[f] && WantedIn(b, batch, n + 1, f)
    {
      WantedStep(b, batch, n, f);
    }
    SeenStays(b, batch, n, l, next, Live(false));
  }

  lemma PrepareStep(b: Start, batch: seq<Command>, n: nat, l: Look)
    requires Fits(b, batch) && n < |batch| && Observed(b, batch, n, l) && !l.done[n]
    requires !OpenAfterCommand(l.open, batch[n]) && batch[n].Set? && batch[n].f !in l.prepared && !b.cleaned[batch[n].f]
    ensures Observed(b, batch, n + 1, ObserveOne(l, batch, b.cleaned, n))
  {
    var next := ObserveOne(l, batch, b.cleaned, n);
    assert Wants(b, batch, n);
    forall j | 0 <= j < |batch|
      ensures next.done[j] <==> b.done[j] || FailsIn(b, batch, n + 1, batch[j])
    {
      FailsStep(b, batch, n, batch[j]);
    }
    forall f: nat
      ensures f in next.prepares <==> f < |b.cleaned| && !b.cleaned[f] && WantedIn(b, batch, n + 1, f)
    {
      WantedStep(b, batch, n, f);
    }
    SeenStays(b, batch, n, l, next, Live(false));
  }

  lemma ObservedStep(b: Start, batch: seq<Command>, n: nat, l: Look)
    requires Fits(b, batch) && n < |batch| && Observed(b, batch, n, l)
    ensures Observed(b, batch, n + 1, ObserveOne(l, batch, b.cleaned, n))
  {
    if l.done[n] {
      SkipStep(b, batch, n, l);
    } else if OpenAfterCommand(l.open, batch[n]) || !batch[n].Set? || batch[n].f in l.prepared {
      PlainStep(b, batch, n, l);
    } else if b.cleaned[batch[n].f] {
      FailStep(b, batch, n, l);
    } else {
      PrepareStep(b, batch, n, l);
    }
  }

  /** Going through the batch comes to what Observed says. */
  lemma {:induction false} ObserveIsObserved(b: Start, batch: seq<Command>, n: nat)
    requires Fits(b, batch) && n <= |batch|
    ensures Observed(b, batch, n, Observe(b, batch, n))
  {
    if n > 0 {
      ObserveIsObserved(b, batch, n - 1);
      ObservedStep(b, batch, n - 1, Observe(b, batch, n - 1));
      ObserveMore(b, batch, n - 1);
    }
  }

  // ----- What is sent -----

  ghost function PrepareItems(fs: seq<nat>, beganOpen: bool): seq<Item> {
    seq(|fs|, i requires 0 <= i < |fs| => PrepareItem(fs[i], beganOpen))
  }

  lemma PrepareItemsSnoc(fs: seq<nat>, f: nat, beganOpen: bool)
    ensures PrepareItems(fs + [f], beganOpen) == PrepareItems(fs, beganOpen) + [PrepareItem(f, beganOpen)]
  {
  }

  /** The first n elements that are not done, in the order of the batch, each seen where it stands. */
  ghost function Forwarded(b: Start, batch: seq<Command>, done: seq<bool>, n: nat): seq<Item>
    requires |b.done| == |batch| == |done| && n <= |batch|
  {
    if n == 0 then []
    else
      Forwarded(b, batch, done, n - 1) +
      if done[n - 1] then [] else [ItemOf(batch[n - 1], OpenUpTo(b, batch, n))]
  }

  /** What forwarding an element adds: nothing if it was skipped; else the command if it is not done, or a note if it is
      a marker that got lost. */
  function ToSend(command: Command, seen: Seen, done: bool): seq<Item> {
    if seen.Skipped? then []
    else if !done then [ItemOf(command, seen.inTx)]
    else if command.Mark? then [LostItem(command.marker)] else []
  }

  /** When nobody interferes no marker gets lost. */
  lemma ForwardsOne(b: Start, batch: seq<Command>, l: Look, i: nat)
    requires i < |batch| && |b.done| == |batch| && Observed(b, batch, |batch|, l)
    ensures ToSend(batch[i], l.seen[i], l.done[i]) ==
            if l.done[i] then [] else [ItemOf(batch[i], OpenUpTo(b, batch, i + 1))]
  {
    assert SeenRight(b, batch, l, i);
  }

  /** Every element that is not done is sent as it was seen, and nothing else is. */
  ghost predicate Sends(b: Start, batch: seq<Command>, seen: seq<Seen>, done: seq<bool>) {
    && |b.done| == |batch| == |seen| == |done|
    && forall i :: 0 <= i < |batch| ==>
         ToSend(batch[i], seen[i], done[i]) == if done[i] then [] else [ItemOf(batch[i], OpenUpTo(b, batch, i + 1))]
  }

  lemma SendsFrom(b: Start, batch: seq<Command>, l: Look)
    requires |b.done| == |batch| && Observed(b, batch, |batch|, l)
    ensures Sends(b, batch, l.seen, l.done)
  {
    forall i | 0 <= i < |batch|
      ensures ToSend(batch[i], l.seen[i], l.done[i]) ==
              if l.done[i] then [] else [ItemOf(batch[i], OpenUpTo(b, batch, i + 1))]
    {
      ForwardsOne(b, batch, l, i);
    }
  }

  lemma ForwardedMore(before: seq<Item>, b: Start, batch: seq<Command>, seen: seq<Seen>, done: seq<bool>, i: nat)
    requires Sends(b, batch, seen, done) && i < |batch|
    ensures before + Forwarded(b, batch, done, i + 1) ==
            (before + Forwarded(b, batch, done, i)) + ToSend(batch[i], seen[i], done[i])
  {
  }

  /** Where a call of write leaves the batch and the transaction state. */
  datatype Outcome = Outcome(open: bool, done: seq<bool>, prepares: seq<nat>)

  /** What a call of write that is left alone sends, and where it leaves things. Ahead go PREPAREs, one for each
      fieldset that is not cleaned up and not prepared here and that some live SET outside a transaction needs; then, in
      order, the elements that are not done; then the DISCARDs. An element is done in the end if it was, or if it is a
      SET of a cleaned-up fieldset that needed a PREPARE. */
  ghost predicate Effect(b: Start, batch: seq<Command>, sent: seq<Item>, discards: seq<nat>, o: Outcome) {
    && |b.done| == |batch| == |o.done|
    && sent == PrepareItems(o.prepares, b.open) + Forwarded(b, batch, o.done, |batch|) + DiscardItems(discards)
    && o.open == OpenUpTo(b, batch, |batch|)
    && Distinct(o.prepares)
    && (forall f: nat :: f in o.prepares <==> f < |b.cleaned| && !b.cleaned[f] && WantedIn(b, batch, |batch|, f))
    && (forall j :: 0 <= j < |batch| ==> (o.done[j] <==> b.done[j] || FailsIn(b, batch, |batch|, batch[j])))
  }

  lemma EffectFrom(b: Start, batch: seq<Command>, l: Look, discards: seq<nat>)
    requires |b.done| == |batch| && Observed(b, batch, |batch|, l)
    ensures Effect(b, batch,
                   PrepareItems(l.prepares, b.open) + Forwarded(b, batch, l.done, |batch|) + DiscardItems(discards),
                   discards, Outcome(l.open, l.done, l.prepares))
  {
  }
}
