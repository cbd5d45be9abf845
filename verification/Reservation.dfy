/**
 The reservation protocol of a `HashImport` fieldset: `retain` and `release` around every import, `close`, and the
 cleanup that the last one out runs. Every read or write of shared state is one action, so the machine has every
 interleaving of any number of callers. A caller is one call of `himportSet` or of `close`; `calls` holds how far each
 has come.

 The last four fields of `Fieldset` are history: they record what happened and no action reads them.
 */
module Reservation {
  import opened Options

  /** A connection's `HashImportContext`. */
  type Context = nat

  /** Who ran cleanup. A releaser records whether `closed` was already set when it took the count to zero. */
  datatype Cause = ByClose | ByRelease(closedAtDecrement: bool)

  datatype Pc =
    | ImportIdle                                // himportSet not called yet
    | Checked                                   // first read of closed saw false
    | Incremented                               // count taken, closed not read again yet
    | HandBack                                  // second read saw closed; about to give the count back
    | Admitted                                  // retain returned true, dispatch still running
    | Dispatched                                // the SET is with the connection and not done
    | Completed                                 // the SET is done, or dispatch threw; about to release
    | ReadClosed(closedAtDecrement: bool)       // took the count to zero; about to read closed
    | CloseIdle                                 // close not called yet
    | CloseRead                                 // wrote closed; about to read the count
    | EnterCleanup(cause: Cause)                // about to enter the synchronized block of cleanup
    | Discarding(targets: set<Context>)         // in the loop of cleanup over what is left of targets
    | Queueing(context: Context, rest: set<Context>)  // in discard: saw a command builder, about to queue the DISCARD
    | Flagging(context: Context, rest: set<Context>)  // in discard: queued it, about to set discardsPending
    | Finished                                  // returned, or retain returned false

  datatype Fieldset = Fieldset(
    closed: bool,
    inFlight: int,
    cleanedUp: bool,
    preparedOn: set<Context>,
    calls: seq<Pc>,
    registered: set<Context>,      // every context registerConnection accepted
    discarded: seq<Context>,       // every context cleanup called discard on, in order
    cleaner: Option<(nat, Cause)>, // the call that ran cleanup, and why
    raced: bool)                   // closed was written while a releaser stood between its decrement and its read

  datatype Action =
    | StartImport(k: nat)
    | Increment(k: nat)
    | Recheck(k: nat)
    | Dispatch(k: nat, throws: bool)
    | Complete(k: nat)
    | Decrement(k: nat)
    | ReadAgain(k: nat)
    | StartClose(k: nat)
    | CloseReads(k: nat)
    | RunCleanup(k: nat)
    | SkipDiscard(k: nat, context: Context)   // discard found no command builder
    | PickDiscard(k: nat, context: Context)   // discard found one
    | QueueDiscard(k: nat)
    | FlagDiscard(k: nat)
    | EndCleanup(k: nat)
    | Register(context: Context)

  predicate At(s: Fieldset, k: nat, p: Pc) {
    k < |s.calls| && s.calls[k] == p
  }

  predicate Enabled(s: Fieldset, a: Action) {
    match a
    case StartImport(k) => At(s, k, ImportIdle)
    case Increment(k) => At(s, k, Checked)
    case Recheck(k) => At(s, k, Incremented)
    case Dispatch(k, _) => At(s, k, Admitted)
    case Complete(k) => At(s, k, Dispatched)
    case Decrement(k) => At(s, k, HandBack) || At(s, k, Completed)
    case ReadAgain(k) => k < |s.calls| && s.calls[k].ReadClosed?
    case StartClose(k) => At(s, k, CloseIdle)
    case CloseReads(k) => At(s, k, CloseRead)
    case RunCleanup(k) => k < |s.calls| && s.calls[k].EnterCleanup?
    case SkipDiscard(k, c) => k < |s.calls| && s.calls[k].Discarding? && c in s.calls[k].targets
    case PickDiscard(k, c) => k < |s.calls| && s.calls[k].Discarding? && c in s.calls[k].targets
    case QueueDiscard(k) => k < |s.calls| && s.calls[k].Queueing?
    case FlagDiscard(k) => k < |s.calls| && s.calls[k].Flagging?
    case EndCleanup(k) => At(s, k, Discarding({}))
    case Register(_) => true
  }

  function Goto(s: Fieldset, k: nat, p: Pc): Fieldset
    requires k < |s.calls|
  {
    s.(calls := s.calls[k := p])
  }

  function Apply(s: Fieldset, a: Action): Fieldset
    requires Enabled(s, a)
  {
    match a
    case StartImport(k) => Goto(s, k, if s.closed then Finished else Checked)
    case Increment(k) => Goto(s, k, Incremented).(inFlight := s.inFlight + 1)
    case Recheck(k) => Goto(s, k, if s.closed then HandBack else Admitted)
    case Dispatch(k, throws) => Goto(s, k, if throws then Completed else Dispatched)
    case Complete(k) => Goto(s, k, Completed)
    case Decrement(k) =>
      var left := s.inFlight - 1;
      var next := if left == 0 then ReadClosed(s.closed) else Finished;
      Goto(s, k, next).(inFlight := left)
    case ReadAgain(k) =>
      Goto(s, k, if s.closed then EnterCleanup(ByRelease(s.calls[k].closedAtDecrement)) else Finished)
    case StartClose(k) =>
      Goto(s, k, CloseRead).(closed := true, raced := s.raced || ReadClosed(false) in s.calls)
    case CloseReads(k) => Goto(s, k, if s.inFlight == 0 then EnterCleanup(ByClose) else Finished)
    case RunCleanup(k) =>
      if s.cleanedUp then Goto(s, k, Finished)
      else Goto(s, k, Discarding(s.preparedOn)).(
           cleanedUp := true, preparedOn := {}, cleaner := Some((k, s.calls[k].cause)))
    case SkipDiscard(k, c) =>
      Goto(s, k, Discarding(s.calls[k].targets - {c})).(discarded := s.discarded + [c])
    case PickDiscard(k, c) =>
      Goto(s, k, Queueing(c, s.calls[k].targets - {c})).(discarded := s.discarded + [c])
    case QueueDiscard(k) => Goto(s, k, Flagging(s.calls[k].context, s.calls[k].rest))
    case FlagDiscard(k) => Goto(s, k, Discarding(s.calls[k].rest))
    case EndCleanup(k) => Goto(s, k, Finished)
    case Register(c) =>
      if s.cleanedUp then s
      else s.(preparedOn := s.preparedOn + {c}, registered := s.registered + {c})
  }

  // ----- Runs -----

  ghost predicate Initial(s: Fieldset) {
    && !s.closed && s.inFlight == 0 && !s.cleanedUp && s.preparedOn == {} && !s.raced
    && s.registered == {} && s.discarded == [] && s.cleaner == None
    && forall k :: 0 <= k < |s.calls| ==> s.calls[k] == ImportIdle || s.calls[k] == CloseIdle
  }

  /** The state after the actions in order, or None if one of them is not enabled when its turn comes. */
  function Exec(s: Fieldset, run: seq<Action>): Option<Fieldset> {
    if run == [] then Some(s)
    else
      var last := run[|run| - 1];
      match Exec(s, run[..|run| - 1])
      case None => None
      case Some(t) => if Enabled(t, last) then Some(Apply(t, last)) else None
  }

  // ----- What the machine keeps -----

  /** The call has taken the count up and not yet down. */
  ghost predicate Holds(p: Pc) {
    p.Incremented? || p.HandBack? || Outstanding(p)
  }

  /** An admitted import that has not been released. */
  ghost predicate Outstanding(p: Pc) {
    p.Admitted? || p.Dispatched? || p.Completed?
  }

  ghost function Holders(calls: seq<Pc>): nat {
    if calls == [] then 0
    else Holders(calls[..|calls| - 1]) + if Holds(calls[|calls| - 1]) then 1 else 0
  }

  /** The call will still find out that it has to clean up. */
  ghost predicate Watching(p: Pc) {
    p.CloseRead? || p.ReadClosed? || p.EnterCleanup?
  }

  ghost predicate Cleaning(p: Pc) {
    p.Discarding? || p.Queueing? || p.Flagging?
  }

  /** The contexts a call in the loop of cleanup has not called discard on yet. */
  ghost function Remaining(p: Pc): set<Context> {
    if p.Discarding? then p.targets else if p.Queueing? || p.Flagging? then p.rest else {}
  }

  ghost predicate NoneOutstanding(s: Fieldset) {
    forall k :: 0 <= k < |s.calls| ==> !Outstanding(s.calls[k])
  }

  ghost predicate Orderly(cause: Cause) {
    cause != ByRelease(false)
  }

  ghost predicate SomeWatcher(s: Fieldset) {
    exists k :: 0 <= k < |s.calls| && Watching(s.calls[k])
  }

  ghost predicate CountInv(s: Fieldset) {
    s.inFlight == Holders(s.calls)
  }

  ghost predicate WatchInv(s: Fieldset) {
    s.closed && !s.cleanedUp && s.inFlight == 0 ==> SomeWatcher(s)
  }

  /** What cleanup may rely on, whether a call is about to enter it for `cause` or has entered it. */
  ghost predicate Justified(s: Fieldset, cause: Cause) {
    && s.closed
    && (Orderly(cause) ==> NoneOutstanding(s))
    && (!Orderly(cause) ==> s.raced)
  }

  ghost predicate CallInv(s: Fieldset, p: Pc) {
    match p
    case CloseRead => s.closed
    case EnterCleanup(cause) => Justified(s, cause)
    case ReadClosed(true) => s.closed && NoneOutstanding(s)
    case ReadClosed(false) => s.closed ==> s.raced
    case _ => true
  }

  /** Cleanup is entered only on a closed fieldset and, unless a releaser's read was overtaken, with no import left. */
  ghost predicate OrderInv(s: Fieldset) {
    && (s.cleanedUp <==> s.cleaner.Some?)
    && (s.cleanedUp ==> Justified(s, s.cleaner.value.1))
    && forall k :: 0 <= k < |s.calls| ==> CallInv(s, s.calls[k])
  }

  ghost predicate Distinct(contexts: seq<Context>) {
    forall i, j :: 0 <= i < j < |contexts| ==> contexts[i] != contexts[j]
  }

  /** Every registered context is waiting in preparedOn, waiting in the cleaner's targets, or has had its discard. */
  ghost predicate RegistryInv(s: Fieldset) {
    && (s.cleanedUp <==> s.cleaner.Some?)
    && Distinct(s.discarded)
    && (!s.cleanedUp ==> s.preparedOn == s.registered && s.discarded == [])
    && (s.cleanedUp ==>
          var cleaner := s.cleaner.value.0;
          && s.preparedOn == {}
          && cleaner < |s.calls|
          && (Cleaning(s.calls[cleaner]) || s.calls[cleaner].Finished?)
          && (forall c :: c in s.registered <==> c in s.discarded || c in Remaining(s.calls[cleaner]))
          && (forall c :: c in Remaining(s.calls[cleaner]) ==> c !in s.discarded))
    && forall k :: 0 <= k < |s.calls| && Cleaning(s.calls[k]) ==>
         && s.cleanedUp && k == s.cleaner.value.0
         && (s.calls[k].Queueing? ==> s.calls[k].context in s.discarded)
  }

  ghost predicate Inv(s: Fieldset) {
    CountInv(s) && WatchInv(s) && OrderInv(s) && RegistryInv(s)
  }

  lemma {:induction false} HoldersUpdate(calls: seq<Pc>, k: nat, p: Pc)
    requires k < |calls|
    ensures Holders(calls[k := p]) ==
            Holders(calls) - (if Holds(calls[k]) then 1 else 0) + (if Holds(p) then 1 else 0)
  {
    var n := |calls| - 1;
    if k == n {
      assert calls[k := p][..n] == calls[..n];
    } else {
      HoldersUpdate(calls[..n], k, p);
      assert calls[k := p][..n] == calls[..n][k := p];
    }
  }

  lemma {:induction false} HoldersZero(calls: seq<Pc>)
    ensures Holders(calls) == 0 <==> forall k :: 0 <= k < |calls| ==> !Holds(calls[k])
  {
    if calls != [] {
      var n := |calls| - 1;
      HoldersZero(calls[..n]);
      assert calls == calls[..n] + [calls[n]];
    }
  }

  lemma CountStep(s: Fieldset, a: Action)
    requires CountInv(s) && Enabled(s, a)
    ensures CountInv(Apply(s, a))
  {
    if !a.Register? {
      HoldersUpdate(s.calls, a.k, Apply(s, a).calls[a.k]);
    }
  }

  lemma WatchStep(s: Fieldset, a: Action)
    requires Inv(s) && Enabled(s, a)
    ensures WatchInv(Apply(s, a))
  {
    var t := Apply(s, a);
    HoldersZero(s.calls);
    if t.closed && !t.cleanedUp && t.inFlight == 0 && !a.Register? {
      if Watching(t.calls[a.k]) {
        assert SomeWatcher(t);
      } else if s.closed && s.inFlight == 0 {
        var k :| 0 <= k < |s.calls| && Watching(s.calls[k]);
        assert k != a.k;
        assert Watching(t.calls[k]);
      }
    }
  }

  /** Once closed with no import outstanding, none is ever admitted again. */
  lemma NoneOutstandingStays(s: Fieldset, a: Action)
    requires Enabled(s, a) && s.closed && NoneOutstanding(s)
    ensures NoneOutstanding(Apply(s, a))
  {
  }

  // The actions by what they touch: those of an import, the two of a release, those of close, those of cleanup.

  ghost predicate ImportAction(a: Action) {
    a.StartImport? || a.Increment? || a.Recheck? || a.Dispatch? || a.Complete?
  }

  ghost predicate ReleaseAction(a: Action) {
    a.Decrement? || a.ReadAgain?
  }

  ghost predicate CloseAction(a: Action) {
    a.StartClose? || a.CloseReads?
  }

  ghost predicate DiscardAction(a: Action) {
    a.SkipDiscard? || a.PickDiscard? || a.QueueDiscard? || a.FlagDiscard? || a.EndCleanup?
  }

  /** Call k moves on outside the synchronized block of cleanup. */
  lemma OrderFrame(s: Fieldset, t: Fieldset, k: nat)
    requires OrderInv(s) && k < |s.calls| == |t.calls| && t.calls == s.calls[k := t.calls[k]]
    requires t.cleanedUp == s.cleanedUp && t.cleaner == s.cleaner
    requires (s.closed ==> t.closed) && (s.raced ==> t.raced)
    requires !s.closed && t.closed && ReadClosed(false) in s.calls ==> t.raced
    requires s.closed && NoneOutstanding(s) ==> NoneOutstanding(t)
    requires CallInv(t, t.calls[k])
    ensures OrderInv(t)
  {
    forall j | 0 <= j < |t.calls|
      ensures CallInv(t, t.calls[j])
    {
      if j != k {
        assert CallInv(s, s.calls[j]) && s.calls[j] in s.calls;
      }
    }
  }

  lemma OrderImport(s: Fieldset, a: Action)
    requires OrderInv(s) && Enabled(s, a) && ImportAction(a)
    requires s.closed && NoneOutstanding(s) ==> NoneOutstanding(Apply(s, a))
    ensures OrderInv(Apply(s, a))
  {
    OrderFrame(s, Apply(s, a), a.k);
  }

  lemma OrderRelease(s: Fieldset, a: Action)
    requires CountInv(s) && OrderInv(s) && Enabled(s, a) && ReleaseAction(a)
    requires s.closed && NoneOutstanding(s) ==> NoneOutstanding(Apply(s, a))
    ensures OrderInv(Apply(s, a))
  {
    var t := Apply(s, a);
    CountStep(s, a);
    HoldersZero(t.calls);
    assert CallInv(s, s.calls[a.k]);
    OrderFrame(s, t, a.k);
  }

  lemma OrderClose(s: Fieldset, a: Action)
    requires CountInv(s) && OrderInv(s) && Enabled(s, a) && CloseAction(a)
    requires s.closed && NoneOutstanding(s) ==> NoneOutstanding(Apply(s, a))
    ensures OrderInv(Apply(s, a))
  {
    var t := Apply(s, a);
    CountStep(s, a);
    HoldersZero(t.calls);
    assert CallInv(s, s.calls[a.k]);
    OrderFrame(s, t, a.k);
  }

  lemma OrderDiscard(s: Fieldset, a: Action)
    requires OrderInv(s) && Enabled(s, a) && DiscardAction(a)
    requires s.closed && NoneOutstanding(s) ==> NoneOutstanding(Apply(s, a))
    ensures OrderInv(Apply(s, a))
  {
    OrderFrame(s, Apply(s, a), a.k);
  }

  lemma OrderCleanup(s: Fieldset, k: nat)
    requires OrderInv(s) && Enabled(s, RunCleanup(k))
    requires s.closed && NoneOutstanding(s) ==> NoneOutstanding(Apply(s, RunCleanup(k)))
    ensures OrderInv(Apply(s, RunCleanup(k)))
  {
    var t := Apply(s, RunCleanup(k));
    assert CallInv(s, s.calls[k]);
    forall j | 0 <= j < |t.calls|
      ensures CallInv(t, t.calls[j])
    {
      assert CallInv(s, s.calls[j]);
    }
  }

  lemma OrderStep(s: Fieldset, a: Action)
    requires CountInv(s) && OrderInv(s) && Enabled(s, a)
    ensures OrderInv(Apply(s, a))
  {
    if s.closed && NoneOutstanding(s) {
      NoneOutstandingStays(s, a);
    }
    if ImportAction(a) {
      OrderImport(s, a);
    } else if ReleaseAction(a) {
      OrderRelease(s, a);
    } else if CloseAction(a) {
      OrderClose(s, a);
    } else if DiscardAction(a) {
      OrderDiscard(s, a);
    } else if a.RunCleanup? {
      OrderCleanup(s, a.k);
    }
  }

  /** A call outside the loop of cleanup moves on and stays outside. */
  lemma RegistryFrame(s: Fieldset, t: Fieldset, k: nat)
    requires RegistryInv(s) && k < |s.calls| == |t.calls| && t.calls == s.calls[k := t.calls[k]]
    requires t.cleanedUp == s.cleanedUp && t.cleaner == s.cleaner
    requires t.registered == s.registered && t.preparedOn == s.preparedOn && t.discarded == s.discarded
    requires !Cleaning(s.calls[k]) && !s.calls[k].Finished? && !Cleaning(t.calls[k])
    ensures RegistryInv(t)
  {
    assert s.cleanedUp ==> s.cleaner.value.0 != k;
    assert forall j :: 0 <= j < |t.calls| && Cleaning(t.calls[j]) ==> t.calls[j] == s.calls[j];
  }

  lemma RegistryQuiet(s: Fieldset, a: Action)
    requires RegistryInv(s) && Enabled(s, a) && (ImportAction(a) || ReleaseAction(a) || CloseAction(a))
    ensures RegistryInv(Apply(s, a))
  {
    RegistryFrame(s, Apply(s, a), a.k);
  }

  lemma RegistryCleanup(s: Fieldset, k: nat)
    requires RegistryInv(s) && Enabled(s, RunCleanup(k))
    ensures RegistryInv(Apply(s, RunCleanup(k)))
  {
    if s.cleanedUp {
      RegistryFrame(s, Apply(s, RunCleanup(k)), k);
    }
  }

  /** The cleaner turns to the next context. */
  lemma RegistryNext(s: Fieldset, a: Action)
    requires RegistryInv(s) && Enabled(s, a) && (a.SkipDiscard? || a.PickDiscard?)
    ensures RegistryInv(Apply(s, a))
  {
    var t := Apply(s, a);
    assert s.cleanedUp && s.cleaner.value.0 == a.k;
    assert a.context !in s.discarded;
    assert Distinct(t.discarded);
    assert a.context in t.discarded;
    assert forall c :: c in s.discarded ==> c in t.discarded;
    assert Remaining(t.calls[a.k]) == Remaining(s.calls[a.k]) - {a.context};
  }

  /** The cleaner goes on with a context, or leaves. */
  lemma RegistryOn(s: Fieldset, a: Action)
    requires RegistryInv(s) && Enabled(s, a) && (a.QueueDiscard? || a.FlagDiscard? || a.EndCleanup?)
    ensures RegistryInv(Apply(s, a))
  {
    var t := Apply(s, a);
    assert s.cleanedUp && s.cleaner.value.0 == a.k;
    assert Remaining(t.calls[a.k]) == Remaining(s.calls[a.k]);
  }

  lemma RegistryStep(s: Fieldset, a: Action)
    requires RegistryInv(s) && Enabled(s, a)
    ensures RegistryInv(Apply(s, a))
  {
    if ImportAction(a) || ReleaseAction(a) || CloseAction(a) {
      RegistryQuiet(s, a);
    } else if a.RunCleanup? {
      RegistryCleanup(s, a.k);
    } else if a.SkipDiscard? || a.PickDiscard? {
      RegistryNext(s, a);
    } else if DiscardAction(a) {
      RegistryOn(s, a);
    }
  }

  lemma StepKeepsInv(s: Fieldset, a: Action)
    requires Inv(s) && Enabled(s, a)
    ensures Inv(Apply(s, a))
  {
    CountStep(s, a);
    WatchStep(s, a);
    OrderStep(s, a);
    RegistryStep(s, a);
  }

  lemma {:induction false} RunKeepsInv(s: Fieldset, run: seq<Action>)
    requires Inv(s) && Exec(s, run).Some?
    ensures Inv(Exec(s, run).value)
  {
    if run != [] {
      var n := |run| - 1;
      RunKeepsInv(s, run[..n]);
      StepKeepsInv(Exec(s, run[..n]).value, run[n]);
    }
  }

  /** The import's command is done: completed, cancelled or failed. */
  ghost predicate Done(p: Pc) {
    p.Completed? || p.ReadClosed? || p.EnterCleanup? || Cleaning(p) || p.Finished?
  }

  /** The import's command has been given to a connection. */
  ghost predicate Handed(p: Pc) {
    p.Dispatched? || Done(p)
  }

  /** What no action ever takes back. */
  ghost predicate Later(s: Fieldset, t: Fieldset) {
    && |t.calls| == |s.calls|
    && (forall k :: 0 <= k < |s.calls| && Done(s.calls[k]) ==> Done(t.calls[k]))
    && (forall k :: 0 <= k < |s.calls| && Handed(s.calls[k]) ==> Handed(t.calls[k]))
    && s.registered <= t.registered
    && s.discarded <= t.discarded
    && (s.cleanedUp ==> t.cleanedUp)
    && (s.cleaner.Some? ==> t.cleaner == s.cleaner)
  }

  lemma StepIsLater(s: Fieldset, a: Action)
    requires OrderInv(s) && Enabled(s, a)
    ensures Later(s, Apply(s, a))
  {
    if !a.Register? {
      var t := Apply(s, a);
      assert t.calls == s.calls[a.k := t.calls[a.k]];
      assert Handed(s.calls[a.k]) ==> Done(t.calls[a.k]);
    }
  }

  lemma InitialInv(s: Fieldset)
    requires Initial(s)
    ensures Inv(s)
  {
    HoldersZero(s.calls);
  }

  // ----- What follows for every run -----

  /** The count is the number of imports admitted or being admitted and not yet released, whatever path each takes. */
  lemma InFlightIsExact(init: Fieldset, run: seq<Action>)
    requires Initial(init) && Exec(init, run).Some?
    ensures var s := Exec(init, run).value;
            && s.inFlight == Holders(s.calls)
            && (s.inFlight == 0 ==> NoneOutstanding(s))
  {
    InitialInv(init);
    RunKeepsInv(init, run);
    HoldersZero(Exec(init, run).value.calls);
  }

  /** Nobody leaves a closed fieldset without cleanup: not even when every caller read the count too early or late. */
  lemma NoLostCleanup(init: Fieldset, run: seq<Action>)
    requires Initial(init) && Exec(init, run).Some?
    requires var s := Exec(init, run).value;
             s.closed && s.inFlight == 0 && !SomeWatcher(s)
    ensures Exec(init, run).value.cleanedUp
  {
    InitialInv(init);
    RunKeepsInv(init, run);
  }

  /** Cleanup has run while an admitted import was still outstanding. */
  ghost predicate Premature(s: Fieldset) {
    s.cleanedUp && !NoneOutstanding(s)
  }

  /** Cleanup waits for every admitted import unless a releaser's decrement came before close's write of `closed` and
      its read after. */
  lemma ReservationGuarantee(init: Fieldset, run: seq<Action>)
    requires Initial(init) && Exec(init, run).Some?
    requires Premature(Exec(init, run).value)
    ensures var s := Exec(init, run).value;
            s.raced && s.cleaner.Some? && s.cleaner.value.1 == ByRelease(false)
  {
    InitialInv(init);
    RunKeepsInv(init, run);
  }

  lemma Then(s: Fieldset, run: seq<Action>, a: Action) returns (longer: seq<Action>)
    requires Exec(s, run).Some? && Enabled(Exec(s, run).value, a)
    ensures longer == run + [a] && Exec(s, longer) == Some(Apply(Exec(s, run).value, a))
  {
    longer := run + [a];
    assert longer[..|run|] == run;
  }

  /** One more import is admitted and close writes `closed`, all before the releaser reads it. */
  lemma Overtake(s: Fieldset, releaser: nat, importer: nat, closer: nat) returns (run: seq<Action>)
    requires !s.closed
    requires At(s, releaser, ReadClosed(false)) && At(s, importer, ImportIdle) && At(s, closer, CloseIdle)
    ensures Exec(s, run).Some?
    ensures var t := Exec(s, run).value;
            && t.closed && t.cleanedUp == s.cleanedUp
            && At(t, releaser, ReadClosed(false)) && At(t, importer, Admitted)
  {
    run := [];
    run := Then(s, run, StartImport(importer));
    run := Then(s, run, Increment(importer));
    run := Then(s, run, Recheck(importer));
    run := Then(s, run, StartClose(closer));
  }

  /** The converse of ReservationGuarantee: whenever a releaser stands between its decrement and its read, a close that
      is called now, after one more import is admitted, makes that releaser clean up under the import. */
  lemma OvertakenReadIsPremature(s: Fieldset, releaser: nat, importer: nat, closer: nat)
    requires OrderInv(s) && !s.closed
    requires At(s, releaser, ReadClosed(false)) && At(s, importer, ImportIdle) && At(s, closer, CloseIdle)
    ensures exists run :: Exec(s, run).Some? && Premature(Exec(s, run).value)
  {
    var run := Overtake(s, releaser, importer, closer);
    run := Then(s, run, ReadAgain(releaser));
    run := Then(s, run, RunCleanup(releaser));
    assert Outstanding(Exec(s, run).value.calls[importer]);
  }

  lemma RefusedStep(s: Fieldset, a: Action, k: nat)
    requires s.closed && (At(s, k, ImportIdle) || At(s, k, Finished)) && Enabled(s, a)
    ensures Apply(s, a).closed && (At(Apply(s, a), k, ImportIdle) || At(Apply(s, a), k, Finished))
  {
  }

  /** From the moment close has written `closed`, a new import is refused without touching the count. */
  lemma {:induction false} RefusedAfterClose(s: Fieldset, run: seq<Action>, k: nat)
    requires s.closed && At(s, k, ImportIdle) && Exec(s, run).Some?
    ensures var t := Exec(s, run).value;
            t.closed && (At(t, k, ImportIdle) || At(t, k, Finished))
  {
    if run != [] {
      var n := |run| - 1;
      RefusedAfterClose(s, run[..n], k);
      RefusedStep(Exec(s, run[..n]).value, run[n], k);
    }
  }

  /** Where a call stands whose dispatch threw, before and after it has given its count back. */
  ghost predicate Thrown(p: Pc, released: bool) {
    if released then Done(p) && !Holds(p) else p.Completed?
  }

  lemma ThrownStep(s: Fieldset, a: Action, k: nat, released: bool)
    requires Enabled(s, a) && k < |s.calls| && Thrown(s.calls[k], released)
    ensures a != Complete(k) && (a == Decrement(k) ==> !released)
    ensures k < |Apply(s, a).calls| && Thrown(Apply(s, a).calls[k], released || a == Decrement(k))
  {
  }

  lemma {:induction false} ThrownRun(s: Fieldset, run: seq<Action>, k: nat)
    requires At(s, k, Completed) && Exec(s, run).Some?
    ensures Complete(k) !in run && multiset(run)[Decrement(k)] <= 1
    ensures k < |Exec(s, run).value.calls| && Thrown(Exec(s, run).value.calls[k], Decrement(k) in run)
  {
    if run != [] {
      var n := |run| - 1;
      ThrownRun(s, run[..n], k);
      ThrownStep(Exec(s, run[..n]).value, run[n], k, Decrement(k) in run[..n]);
      assert run == run[..n] + [run[n]];
    }
  }

  /** An import whose dispatch threw is never completed by a connection: whatever the other calls do, the one step it
      can take is to give its count back, and it takes that step at most once. */
  lemma ThrownDispatchReleases(s: Fieldset, k: nat, run: seq<Action>)
    requires At(s, k, Admitted) && Exec(Apply(s, Dispatch(k, true)), run).Some?
    ensures Complete(k) !in run && multiset(run)[Decrement(k)] <= 1
    ensures var t := Exec(Apply(s, Dispatch(k, true)), run).value;
            && k < |t.calls|
            && (Holds(t.calls[k]) <==> Decrement(k) !in run)
            && (Holds(t.calls[k]) ==>
                  forall a: Action :: !a.Register? && a.k == k ==> (Enabled(t, a) <==> a == Decrement(k)))
  {
    ThrownRun(Apply(s, Dispatch(k, true)), run, k);
  }

  /** Every context ever registered gets exactly one discard call, and none is registered once cleanup has run. */
  lemma RegistrationConserved(init: Fieldset, run: seq<Action>, more: seq<Action>)
    requires Initial(init) && Exec(init, run).Some?
    requires Exec(Exec(init, run).value, more).Some?
    ensures var s := Exec(init, run).value;
            && Distinct(s.discarded)
            && (forall c :: c in s.discarded ==> c in s.registered)
            && (s.cleaner.Some? && At(s, s.cleaner.value.0, Finished) ==>
                  forall c :: c in s.registered ==> c in s.discarded)
            && (s.cleanedUp ==> Exec(s, more).value.registered == s.registered)
  {
    InitialInv(init);
    RunKeepsInv(init, run);
    var s := Exec(init, run).value;
    if s.cleanedUp {
      RegisteredFrozen(s, more);
    }
  }

  lemma FrozenStep(s: Fieldset, a: Action)
    requires s.cleanedUp && Enabled(s, a)
    ensures Apply(s, a).cleanedUp && Apply(s, a).registered == s.registered
  {
  }

  lemma {:induction false} RegisteredFrozen(s: Fieldset, run: seq<Action>)
    requires s.cleanedUp && Exec(s, run).Some?
    ensures Exec(s, run).value.cleanedUp && Exec(s, run).value.registered == s.registered
  {
    if run != [] {
      var n := |run| - 1;
      RegisteredFrozen(s, run[..n]);
      FrozenStep(Exec(s, run[..n]).value, run[n]);
    }
  }
}
