/**
 The results of `resolveCredentialsAsync`. A call reads the reference and hands out a future of its own, which a
 callback on the future it read completes with the same outcome; the callback is an action of its own, and may run at
 any time after that future is done. Everything else the provider does goes on in between.
 */
module CredentialResolve {
  import opened Options
  import opened P = Credentials
  import F = CredentialFutures
  import E = CredentialEffects

  /** f: the future the call read; at: history, the number of renewals that had swapped by then. */
  datatype Result = Result(f: nat, at: nat, outcome: Future)

  datatype State = State(provider: Provider, results: seq<Result>)

  datatype Move = Provide(a: P.Action) | Resolve | Notify(r: nat)

  predicate CanMove(s: State, m: Move) {
    match m
    case Provide(a) => P.Enabled(s.provider, a)
    case Resolve => true
    case Notify(r) =>
      && r < |s.results| && s.results[r].outcome.Pending?
      && s.results[r].f < |s.provider.futures| && !s.provider.futures[s.results[r].f].Pending?
  }

  function Make(s: State, m: Move): State
    requires CanMove(s, m)
  {
    match m
    case Provide(a) => s.(provider := P.Apply(s.provider, a))
    case Resolve => s.(results := s.results + [Result(s.provider.ref, s.provider.swaps, Pending)])
    case Notify(r) =>
      s.(results := s.results[r := s.results[r].(outcome := s.provider.futures[s.results[r].f])])
  }

  function Play(s: State, moves: seq<Move>): Option<State> {
    if moves == [] then Some(s)
    else
      var last := moves[|moves| - 1];
      match Play(s, moves[..|moves| - 1])
      case None => None
      case Some(t) => if CanMove(t, last) then Some(Make(t, last)) else None
  }

  ghost predicate Start(s: State) {
    P.Initial(s.provider) && s.results == []
  }

  // ----- Which outcomes a future can have -----

  /** A renewal completes only the future that was waiting before the first one; a failure never touches the current
      future unless the provider is closed. */
  ghost predicate PcOk(p: Provider, pc: Pc) {
    match pc
    case Swapped(c, f) => f < |p.futures| && f != p.ref && 0 < c <= p.swaps && (IsPending(p, f) ==> c == 1)
    case QueueComplete(c, f) => f < |p.futures| && f != p.ref && 0 < c <= p.swaps && (IsPending(p, f) ==> c == 1)
    case ErrorLooking(f) => f < |p.futures|
    case ErrorReplacing(f) => f < |p.futures| && (f == p.ref ==> !p.futures[f].Succeeded?)
    case QueueFail(f) => f < |p.futures| && f != p.ref
    case ErrorReget => p.isClosed
    case ErrorFailing(_) => p.isClosed
    case CloseGetting => p.isClosed
    case CloseFailing(_) => p.isClosed
    case _ => true
  }

  ghost predicate TaskOk(p: Provider, task: Task) {
    match task
    case CompleteTask(f, c) => f < |p.futures| && f != p.ref && 0 < c <= p.swaps && (IsPending(p, f) ==> c == 1)
    case FailTask(f) => f < |p.futures| && f != p.ref
    case _ => true
  }

  ghost predicate FutureOk(p: Provider, f: Future) {
    f.Succeeded? ==> 0 < f.credentials <= p.swaps
  }

  ghost predicate OutcomeInv(p: Provider) {
    && p.ref < |p.futures| && (!p.isClosed ==> !p.futures[p.ref].Failed?)
    && (p.swaps > 0 ==> p.futures[p.ref] == Succeeded(p.swaps))
    && (forall f :: 0 <= f < |p.futures| ==> FutureOk(p, p.futures[f]))
    && (forall k :: 0 <= k < |p.calls| ==> PcOk(p, p.calls[k]))
    && (forall j :: 0 <= j < |p.queue| ==> TaskOk(p, p.queue[j]))
  }

  /** From p to q nothing happens but this: futures settle or are added, and the reference moves on to a new one. */
  ghost predicate Later(p: Provider, q: Provider) {
    && |p.futures| <= |q.futures| && p.swaps <= q.swaps && (p.isClosed ==> q.isClosed)
    && (forall f :: 0 <= f < |p.futures| && IsPending(q, f) ==> IsPending(p, f))
    && (q.ref == p.ref || q.ref >= |p.futures|)
    && (q.ref == p.ref < |p.futures| && q.futures[q.ref].Succeeded? ==> p.futures[p.ref].Succeeded?)
  }

  lemma LaterPc(p: Provider, q: Provider, pc: Pc)
    requires Later(p, q) && PcOk(p, pc)
    ensures PcOk(q, pc)
  {
  }

  lemma LaterTask(p: Provider, q: Provider, task: Task)
    requires Later(p, q) && TaskOk(p, task)
    ensures TaskOk(q, task)
  {
  }

  /** A call k moves on. */
  lemma OutcomeFrame(p: Provider, q: Provider, k: nat)
    requires OutcomeInv(p) && Later(p, q)
    requires k < |p.calls| == |q.calls| && q.calls == p.calls[k := q.calls[k]] && PcOk(q, q.calls[k])
    requires q.queue == p.queue || exists task :: q.queue == p.queue + [task] && TaskOk(q, task)
    requires q.ref < |q.futures| && (!q.isClosed ==> !q.futures[q.ref].Failed?)
    requires q.swaps > 0 ==> q.futures[q.ref] == Succeeded(q.swaps)
    requires forall f :: 0 <= f < |q.futures| ==> FutureOk(q, q.futures[f])
    ensures OutcomeInv(q)
  {
    forall j | 0 <= j < |q.calls|
      ensures PcOk(q, q.calls[j])
    {
      if j != k {
        LaterPc(p, q, p.calls[j]);
      }
    }
    forall j | 0 <= j < |q.queue|
      ensures TaskOk(q, q.queue[j])
    {
      if j < |p.queue| {
        assert q.queue[j] == p.queue[j];
        LaterTask(p, q, p.queue[j]);
      }
    }
  }

  lemma OutcomeSwap(p: Provider, k: nat)
    requires OutcomeInv(p) && k < |p.calls| && p.calls[k].Swapping?
    ensures OutcomeInv(StepRenew(p, k)) && Later(p, StepRenew(p, k))
  {
    OutcomeFrame(p, StepRenew(p, k), k);
  }

  lemma OutcomeRenew(p: Provider, k: nat)
    requires OutcomeInv(p) && k < |p.calls| && InRenew(p.calls[k])
    ensures OutcomeInv(StepRenew(p, k)) && Later(p, StepRenew(p, k))
  {
    if p.calls[k].Swapping? {
      OutcomeSwap(p, k);
    } else {
      var q := StepRenew(p, k);
      assert PcOk(p, p.calls[k]);
      assert q.futures == p.futures && q.ref == p.ref && q.swaps == p.swaps && q.isClosed == p.isClosed;
      OutcomeFrame(p, q, k);
    }
  }

  lemma OutcomeError(p: Provider, k: nat)
    requires OutcomeInv(p) && k < |p.calls| && InError(p.calls[k])
    ensures OutcomeInv(StepError(p, k)) && Later(p, StepError(p, k))
  {
    assert PcOk(p, p.calls[k]);
    OutcomeFrame(p, StepError(p, k), k);
  }

  lemma OutcomeClose(p: Provider, k: nat)
    requires OutcomeInv(p) && k < |p.calls| && InClose(p.calls[k])
    ensures OutcomeInv(StepClose(p, k)) && Later(p, StepClose(p, k))
  {
    assert PcOk(p, p.calls[k]);
    OutcomeFrame(p, StepClose(p, k), k);
  }

  lemma OutcomeSubscribe(p: Provider, k: nat)
    requires OutcomeInv(p) && k < |p.calls| && InSubscribe(p.calls[k])
    ensures OutcomeInv(StepSubscribe(p, k)) && Later(p, StepSubscribe(p, k))
  {
    OutcomeFrame(p, StepSubscribe(p, k), k);
  }

  /** A step inside a task leaves futures and tasks alone. */
  lemma BusyKeeps(p: Provider)
    requires !p.worker.Idle?
    ensures var q := StepWork(p);
            && q.futures == p.futures && q.ref == p.ref && q.swaps == p.swaps && q.isClosed == p.isClosed
            && q.calls == p.calls && q.queue == p.queue
  {
  }

  /** A task that starts settles at most the future it names. */
  lemma StartSettles(p: Provider, task: Task)
    requires OutcomeInv(p) && TaskOk(p, task)
    ensures var q := StartTask(p, task);
            && q.ref == p.ref && q.swaps == p.swaps && q.isClosed == p.isClosed && q.calls == p.calls
            && q.queue == p.queue && |q.futures| == |p.futures| && q.futures[q.ref] == p.futures[p.ref]
            && forall f :: 0 <= f < |p.futures| ==>
                 FutureOk(q, q.futures[f]) && (IsPending(q, f) ==> IsPending(p, f))
  {
  }

  /** What the executor does to futures is to settle the one its task names. */
  lemma WorkLater(p: Provider)
    requires OutcomeInv(p) && Enabled(p, Work)
    ensures var q := StepWork(p);
            && Later(p, q) && q.ref == p.ref && q.swaps == p.swaps && q.isClosed == p.isClosed && q.calls == p.calls
            && |q.futures| == |p.futures| && q.futures[q.ref] == p.futures[p.ref]
            && (forall f :: 0 <= f < |q.futures| ==> FutureOk(q, q.futures[f]))
            && q.queue == if p.worker.Idle? then p.queue[1..] else p.queue
  {
    if p.worker.Idle? {
      var r := p.(queue := p.queue[1..]);
      assert TaskOk(p, p.queue[0]) && TaskOk(r, p.queue[0]);
      forall j | 0 <= j < |r.queue|
        ensures TaskOk(r, r.queue[j])
      {
        assert TaskOk(p, p.queue[j + 1]);
      }
      assert forall k :: 0 <= k < |p.calls| ==> PcOk(p, p.calls[k]) && PcOk(r, p.calls[k]);
      StartSettles(r, p.queue[0]);
    } else {
      BusyKeeps(p);
    }
  }

  lemma OutcomeWork(p: Provider)
    requires OutcomeInv(p) && Enabled(p, Work)
    ensures OutcomeInv(StepWork(p)) && Later(p, StepWork(p))
  {
    var q := StepWork(p);
    WorkLater(p);
    forall k | 0 <= k < |q.calls|
      ensures PcOk(q, q.calls[k])
    {
      LaterPc(p, q, p.calls[k]);
    }
    forall j | 0 <= j < |q.queue|
      ensures TaskOk(q, q.queue[j])
    {
      LaterTask(p, q, p.queue[if p.worker.Idle? then j + 1 else j]);
    }
  }

  lemma OutcomeStep(p: Provider, a: P.Action)
    requires OutcomeInv(p) && Enabled(p, a)
    ensures OutcomeInv(Apply(p, a)) && Later(p, Apply(p, a))
  {
    if a.Work? {
      OutcomeWork(p);
    } else if a.Leave? {
      OutcomeFrame(p, Apply(p, a), a.k);
    } else if InRenew(p.calls[a.k]) {
      OutcomeRenew(p, a.k);
    } else if InError(p.calls[a.k]) {
      OutcomeError(p, a.k);
    } else if InClose(p.calls[a.k]) {
      OutcomeClose(p, a.k);
    } else {
      OutcomeSubscribe(p, a.k);
    }
  }

  // ----- Results follow the futures they read -----

  /** A future read after a renewal holds the credentials of the latest one; one read before any can only come to hold
      the first. */
  ghost predicate Follows(p: Provider, r: Result) {
    && r.f < |p.futures| && r.at <= p.swaps
    && (r.outcome.Pending? || r.outcome == p.futures[r.f])
    && if r.at > 0 then p.futures[r.f] == Succeeded(r.at)
       else p.futures[r.f].Succeeded? ==> p.futures[r.f].credentials == 1
  }

  ghost predicate Inv(s: State) {
    && F.Inv(s.provider) && OutcomeInv(s.provider)
    && forall r :: 0 <= r < |s.results| ==> Follows(s.provider, s.results[r])
  }

  lemma CallsFail(p: Provider, k: nat, f: nat)
    requires k < |p.calls| && IsPending(p, f)
    ensures InRenew(p.calls[k]) ==> IsPending(StepRenew(p, k), f)
    ensures InError(p.calls[k]) ==> IsPending(StepError(p, k), f) || StepError(p, k).futures[f].Failed?
  {
  }

  lemma CloseFails(p: Provider, k: nat, f: nat)
    requires k < |p.calls| && IsPending(p, f)
    ensures InClose(p.calls[k]) ==> IsPending(StepClose(p, k), f) || StepClose(p, k).futures[f].Failed?
    ensures InSubscribe(p.calls[k]) ==> IsPending(StepSubscribe(p, k), f)
  {
  }

  /** The provider settles a pending future with nothing but a failure or the first credentials. */
  lemma SettlesWithFirst(p: Provider, a: P.Action, f: nat)
    requires OutcomeInv(p) && Enabled(p, a) && IsPending(p, f)
    ensures f < |Apply(p, a).futures|
    ensures Apply(p, a).futures[f].Succeeded? ==> Apply(p, a).futures[f].credentials == 1
  {
    F.StepKeeps(p, a);
    if a.Work? {
      assert p.worker.Idle? ==> TaskOk(p, p.queue[0]);
    } else if a.Step? {
      CallsFail(p, a.k, f);
      CloseFails(p, a.k, f);
    }
  }

  lemma FollowsStep(p: Provider, a: P.Action, r: Result)
    requires OutcomeInv(p) && Enabled(p, a) && Follows(p, r)
    ensures Follows(Apply(p, a), r)
  {
    F.StepKeeps(p, a);
    if IsPending(p, r.f) {
      SettlesWithFirst(p, a, r.f);
    }
  }

  lemma MoveKeepsInv(s: State, m: Move)
    requires Inv(s) && CanMove(s, m)
    ensures Inv(Make(s, m))
  {
    if m.Provide? {
      F.StepKeepsInv(s.provider, m.a);
      OutcomeStep(s.provider, m.a);
      forall r | 0 <= r < |s.results|
        ensures Follows(Make(s, m).provider, s.results[r])
      {
        FollowsStep(s.provider, m.a, s.results[r]);
      }
    }
  }

  lemma {:induction false} PlayKeepsInv(s: State, moves: seq<Move>)
    requires Start(s) && Play(s, moves).Some?
    ensures Inv(Play(s, moves).value)
  {
    if moves == [] {
      F.InitialInv(s.provider);
    } else {
      var n := |moves| - 1;
      PlayKeepsInv(s, moves[..n]);
      MoveKeepsInv(Play(s, moves[..n]).value, moves[n]);
    }
  }

  // ----- What follows for every run -----

  /** Closed, every call returned, the executor done and no callback left to run. */
  ghost predicate AtRest(s: State) {
    && s.provider.isClosed && s.provider.queue == []
    && (forall k :: 0 <= k < |s.provider.calls| ==> F.AtRest(s.provider.calls[k]))
    && (forall r :: 0 <= r < |s.results| ==> !CanMove(s, Notify(r)))
  }

  /** No result is left pending by a closed provider, whenever it was asked for. */
  lemma EveryResultIsDone(init: State, moves: seq<Move>, r: nat)
    requires Start(init) && Play(init, moves).Some? && AtRest(Play(init, moves).value)
    requires r < |Play(init, moves).value.results|
    ensures !Play(init, moves).value.results[r].outcome.Pending?
  {
    PlayKeepsInv(init, moves);
    var s := Play(init, moves).value;
    F.NonePending(s.provider);
    assert Follows(s.provider, s.results[r]) && !CanMove(s, Notify(r));
  }

  /** A result that succeeds brings the credentials that were the latest when it was asked for, or the first ones if
      there were none yet; one asked for when there were credentials never fails. */
  lemma ResultIsLatest(init: State, moves: seq<Move>, r: nat)
    requires Start(init) && Play(init, moves).Some? && r < |Play(init, moves).value.results|
    ensures var result := Play(init, moves).value.results[r];
            && (result.outcome.Succeeded? ==> result.outcome.credentials == if result.at > 0 then result.at else 1)
            && (result.at > 0 ==> !result.outcome.Failed?)
  {
    PlayKeepsInv(init, moves);
    var s := Play(init, moves).value;
    assert Follows(s.provider, s.results[r]);
  }

  /** An error from before a call is not handed to it: while the provider is open, the future a call reads has not
      failed. */
  lemma NoStaleError(init: State, moves: seq<Move>)
    requires Start(init) && Play(init, moves).Some? && !Play(init, moves).value.provider.isClosed
    ensures var p := Play(init, moves).value.provider; p.ref < |p.futures| && !p.futures[p.ref].Failed?
  {
    PlayKeepsInv(init, moves);
  }

  // ----- An error ends the waiting -----

  /** None of the first n futures is both current and pending. */
  ghost predicate Outdated(p: Provider, n: nat) {
    p.ref >= n || !IsPending(p, p.ref)
  }

  /** How far error call k has come that started when there were n futures. */
  ghost predicate Replaces(p: Provider, k: nat, n: nat) {
    && n <= |p.futures| && k < |p.calls|
    && match p.calls[k]
       case ErrorGetting => true
       case ErrorLooking(f) => f < |p.futures| && (f == p.ref || p.ref >= n)
       case ErrorReplacing(f) => f < |p.futures| && (f == p.ref || p.ref >= n)
       case QueueFail(_) => Outdated(p, n)
       case ErrorRecheck => Outdated(p, n)
       case ErrorReget => Outdated(p, n)
       case ErrorFailing(_) => Outdated(p, n)
       case ErrorListing => Outdated(p, n)
       case ErrorFanning(_) => Outdated(p, n)
       case Finished => Outdated(p, n)
       case _ => false
  }

  lemma OutdatedLater(p: Provider, q: Provider, n: nat)
    requires Later(p, q) && Outdated(p, n) && n <= |p.futures|
    ensures Outdated(q, n)
  {
  }

  lemma ReplacesOther(p: Provider, q: Provider, k: nat, n: nat)
    requires OutcomeInv(p) && Later(p, q) && Replaces(p, k, n) && k < |q.calls| && q.calls[k] == p.calls[k]
    ensures Replaces(q, k, n)
  {
    if Outdated(p, n) {
      OutdatedLater(p, q, n);
    }
  }

  lemma ReplacesOwn(p: Provider, k: nat, n: nat)
    requires OutcomeInv(p) && Replaces(p, k, n) && InError(p.calls[k]) && Later(p, StepError(p, k))
    ensures Replaces(StepError(p, k), k, n)
  {
    if Outdated(p, n) {
      OutdatedLater(p, StepError(p, k), n);
    }
  }

  lemma OthersStay(p: Provider, a: P.Action, k: nat)
    requires Enabled(p, a) && k < |p.calls| && (a.Work? || a.k != k)
    ensures k < |Apply(p, a).calls| && Apply(p, a).calls[k] == p.calls[k]
  {
    if a.Step? {
      E.CallsMoveAlone(p, a);
    } else if a.Work? {
      F.WorkSettles(p);
    }
  }

  lemma ReplacesStep(p: Provider, a: P.Action, k: nat, n: nat)
    requires OutcomeInv(p) && Enabled(p, a) && Replaces(p, k, n)
    ensures Replaces(Apply(p, a), k, n)
  {
    OutcomeStep(p, a);
    if a.Work? || a.k != k {
      OthersStay(p, a, k);
      ReplacesOther(p, Apply(p, a), k, n);
    } else {
      ReplacesOwn(p, k, n);
    }
  }

  /** Result r stays bound to the future it was handed out for. */
  ghost predicate SameResult(s: State, t: State, r: nat) {
    r < |s.results| && r < |t.results| && t.results[r].f == s.results[r].f && t.results[r].at == s.results[r].at
  }

  lemma ResultsStay(s: State, m: Move, r: nat)
    requires CanMove(s, m) && r < |s.results|
    ensures SameResult(s, Make(s, m), r)
  {
  }

  lemma ReplacesMove(s: State, m: Move, k: nat, n: nat)
    requires Inv(s) && Replaces(s.provider, k, n) && CanMove(s, m)
    ensures Replaces(Make(s, m).provider, k, n)
  {
    if m.Provide? {
      ReplacesStep(s.provider, m.a, k, n);
    }
  }

  lemma {:induction false} ReplacesRun(s: State, rest: seq<Move>, k: nat, n: nat, r: nat)
    requires Inv(s) && Replaces(s.provider, k, n) && r < |s.results| && Play(s, rest).Some?
    ensures var u := Play(s, rest).value; Inv(u) && Replaces(u.provider, k, n) && SameResult(s, u, r)
  {
    if rest != [] {
      var m := |rest| - 1;
      ReplacesRun(s, rest[..m], k, n, r);
      var u := Play(s, rest[..m]).value;
      MoveKeepsInv(u, rest[m]);
      ReplacesMove(u, rest[m], k, n);
      ResultsStay(u, rest[m], r);
    }
  }

  /** Every task and callback has run, and no call that took a future out of the reference still has to submit its
      completion. */
  ghost predicate Ran(s: State) {
    && s.provider.queue == []
    && (forall k :: 0 <= k < |s.provider.calls| ==>
          var p := s.provider.calls[k]; !p.Swapped? && !p.QueueComplete? && !p.QueueFail?)
    && (forall r :: 0 <= r < |s.results| ==> !CanMove(s, Notify(r)))
  }

  lemma RanIsDone(u: State, k: nat, n: nat, r: nat)
    requires Inv(u) && Replaces(u.provider, k, n) && u.provider.calls[k].Finished? && Ran(u)
    requires r < |u.results| && u.results[r].f < n
    ensures !u.results[r].outcome.Pending?
  {
    var f := u.results[r].f;
    assert !CanMove(u, Notify(r));
    assert Follows(u.provider, u.results[r]);
    assert IsPending(u.provider, f) ==> f == u.provider.ref;
  }

  /** An error call that finds the provider open ends the waiting of everyone who asked before: in every run, once it
      has returned and everything has run, no result asked for before it started is pending; one that was asked for
      before any renewal has failed or carries the first credentials. */
  lemma ErrorEndsWaiting(init: State, moves: seq<Move>, k: nat, rest: seq<Move>, r: nat)
    requires Start(init) && Play(init, moves).Some?
    requires var s := Play(init, moves).value;
             && k < |s.provider.calls| && s.provider.calls[k].ErrorIdle? && !s.provider.isClosed && r < |s.results|
             && CanMove(s, Provide(Step(k))) && Play(Make(s, Provide(Step(k))), rest).Some?
             && var u := Play(Make(s, Provide(Step(k))), rest).value;
                k < |u.provider.calls| && u.provider.calls[k].Finished? && Ran(u)
    ensures var s := Play(init, moves).value;
            var u := Play(Make(s, Provide(Step(k))), rest).value;
            && r < |u.results| && !u.results[r].outcome.Pending?
            && (s.results[r].at == 0 ==> u.results[r].outcome.Failed? || u.results[r].outcome == Succeeded(1))
            && (s.results[r].at > 0 ==> u.results[r].outcome == Succeeded(s.results[r].at))
  {
    PlayKeepsInv(init, moves);
    var s := Play(init, moves).value;
    var t := Make(s, Provide(Step(k)));
    var n := |s.provider.futures|;
    assert Follows(s.provider, s.results[r]);
    MoveKeepsInv(s, Provide(Step(k)));
    assert t.provider == Goto(s.provider, k, ErrorGetting);
    ReplacesRun(t, rest, k, n, r);
    var u := Play(t, rest).value;
    RanIsDone(u, k, n, r);
    assert Follows(u.provider, u.results[r]);
  }

  // ----- One result per call -----

  function Resolves(moves: seq<Move>): nat {
    if moves == [] then 0
    else Resolves(moves[..|moves| - 1]) + if moves[|moves| - 1].Resolve? then 1 else 0
  }

  lemma ResultsCount(s: State, m: Move)
    requires CanMove(s, m)
    ensures |Make(s, m).results| == |s.results| + if m.Resolve? then 1 else 0
  {
  }

  /** Every call hands out a result of its own. */
  lemma {:induction false} EveryCallHasAResult(init: State, moves: seq<Move>)
    requires init.results == [] && Play(init, moves).Some?
    ensures |Play(init, moves).value.results| == Resolves(moves)
  {
    if moves != [] {
      var n := |moves| - 1;
      EveryCallHasAResult(init, moves[..n]);
      ResultsCount(Play(init, moves[..n]).value, moves[n]);
    }
  }

  lemma NotifiedStep(s: State, m: Move, r: nat)
    requires CanMove(s, m) && r < |Make(s, m).results|
    ensures r >= |s.results| ==> m.Resolve? && Make(s, m).results[r].outcome.Pending?
    ensures r < |s.results| && m == Notify(r) ==>
              s.results[r].outcome.Pending? && !Make(s, m).results[r].outcome.Pending?
    ensures r < |s.results| && m != Notify(r) ==> Make(s, m).results[r] == s.results[r]
  {
  }

  lemma ResultsGrow(s: State, m: Move)
    requires CanMove(s, m)
    ensures |s.results| <= |Make(s, m).results| && (m.Notify? ==> m.r < |s.results|)
  {
  }

  /** A result is completed by its callback and by nothing else, and the callback runs at most once. */
  lemma {:induction false} DoneExactlyWhenNotified(init: State, moves: seq<Move>, r: nat)
    requires init.results == [] && Play(init, moves).Some?
    ensures var s := Play(init, moves).value;
            && (Notify(r) in moves <==> r < |s.results| && !s.results[r].outcome.Pending?)
            && multiset(moves)[Notify(r)] <= 1
  {
    if moves != [] {
      var n := |moves| - 1;
      DoneExactlyWhenNotified(init, moves[..n], r);
      var s := Play(init, moves[..n]).value;
      ResultsGrow(s, moves[n]);
      if r < |Make(s, moves[n]).results| {
        NotifiedStep(s, moves[n], r);
      }
      assert moves == moves[..n] + [moves[n]];
    }
  }

  /** A result carries nothing but the outcome of the future that was current when it was asked for. */
  lemma ResultFollows(init: State, moves: seq<Move>, r: nat)
    requires Start(init) && Play(init, moves).Some? && r < |Play(init, moves).value.results|
    ensures var s := Play(init, moves).value;
            && s.results[r].f < |s.provider.futures|
            && (s.results[r].outcome.Pending? || s.results[r].outcome == s.provider.futures[s.results[r].f])
  {
    PlayKeepsInv(init, moves);
    var s := Play(init, moves).value;
    assert Follows(s.provider, s.results[r]);
  }
}
