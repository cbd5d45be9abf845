/**
 The token credentials provider as a machine. Each call of `onTokenRenewed`, `onError`, `close` or
 `subscribeToCredentials` is an entry of `calls` and advances by one read, write or compare-and-set at a time, in any
 interleaving of any number of calls. The executor runs its tasks one at a time in submission order: `queue` holds the
 tasks submitted and `worker` the one being run.

 Credentials are named by the order in which renewals swapped them in: the n-th swap brings in credentials n.
 `swaps`, `renewing`, `overlapped` and `told`, and `delivered` and `hasty` of a subscription, are history that no action
 reads.
 */
module Credentials {
  import opened Options

  datatype Future = Pending | Succeeded(credentials: nat) | Failed

  datatype Subscription = Subscription(
    owner: nat,                    // the subscribe call that created it
    closed: bool,
    lastPlayed: Option<nat>,
    delivered: seq<nat>,           // every credentials handed to onNext, in order
    hasty: bool)                   // the replay found nothing played and two or more dispatches outstanding

  datatype Task =
    | CompleteTask(f: nat, credentials: nat)
    | FailTask(f: nat)
    | DispatchTask(i: nat, credentials: nat)
    | ErrorTask(i: nat, k: nat)              // k: the error call
    | ReplayTask(i: nat)

  datatype Worker =
    | Idle
    | Delivering(i: nat, credentials: nat)   // onCredentials: closed was false
    | ReplayRead(i: nat, f: nat)             // getReplayCandidate: took the future out of the reference
    | ReplayCheck(i: nat, credentials: nat)  // replay: candidate known, closed not read yet
    | Replaying(i: nat, credentials: nat)    // replay: closed was false

  datatype Pc =
    // onTokenRenewed
    | RenewIdle
    | Swapping
    | Swapped(credentials: nat, f: nat)      // f: the future that was in the reference
    | QueueComplete(credentials: nat, f: nat)
    | Listing(credentials: nat)
    | Fanning(credentials: nat, rest: seq<nat>)
    // onError
    | ErrorIdle
    | ErrorGetting
    | ErrorLooking(f: nat)
    | ErrorReplacing(f: nat)
    | QueueFail(f: nat)
    | ErrorRecheck
    | ErrorReget
    | ErrorFailing(f: nat)
    | ErrorListing
    | ErrorFanning(rest: seq<nat>)
    // close
    | CloseIdle
    | CloseGetting
    | CloseFailing(f: nat)
    | CloseListing
    | Marking(rest: seq<nat>)
    | CloseDone
    // subscribeToCredentials, and close of the subscription it returned
    | SubscribeIdle
    | Adding
    | Rechecking(i: nat)
    | Abandoning(i: nat)
    | Removing(i: nat)
    | QueueReplay(i: nat)
    | Subscribed(i: nat)
    | Finished

  datatype Provider = Provider(
    isClosed: bool,
    futures: seq<Future>,          // every future ever published through the reference
    ref: nat,
    list: seq<nat>,
    subs: seq<Subscription>,
    queue: seq<Task>,
    worker: Worker,
    calls: seq<Pc>,
    swaps: nat,                    // renewals that swapped the reference
    renewing: Option<nat>,         // the renewal that swapped last, until it has submitted its dispatches
    overlapped: bool,              // a renewal swapped while another still owed dispatches
    told: seq<(nat, nat)>)         // the subscriptions whose onError ran, each with the error call, in order

  datatype Action =
    | Step(k: nat)                 // the next action of call k
    | Leave(k: nat)                // the subscriber of call k closes its subscription
    | Work                         // the next action of the executor

  predicate InRenew(p: Pc) {
    p.RenewIdle? || p.Swapping? || p.Swapped? || p.QueueComplete? || p.Listing? || p.Fanning?
  }

  predicate InError(p: Pc) {
    || p.ErrorIdle? || p.ErrorGetting? || p.ErrorLooking? || p.ErrorReplacing? || p.QueueFail? || p.ErrorRecheck?
    || p.ErrorReget? || p.ErrorFailing? || p.ErrorListing? || p.ErrorFanning?
  }

  predicate InClose(p: Pc) {
    p.CloseIdle? || p.CloseGetting? || p.CloseFailing? || p.CloseListing? || p.Marking?
  }

  predicate InSubscribe(p: Pc) {
    p.SubscribeIdle? || p.Adding? || p.Rechecking? || p.Abandoning? || p.Removing? || p.QueueReplay?
  }

  function Goto(s: Provider, k: nat, p: Pc): Provider
    requires k < |s.calls|
  {
    s.(calls := s.calls[k := p])
  }

  predicate IsPending(s: Provider, f: nat) {
    f < |s.futures| && s.futures[f].Pending?
  }

  /** complete and completeExceptionally do nothing to a future that is done. */
  function Settle(s: Provider, f: nat, outcome: Future): Provider {
    if IsPending(s, f) then s.(futures := s.futures[f := outcome]) else s
  }

  function Submit(s: Provider, task: Task): Provider {
    s.(queue := s.queue + [task])
  }

  function Without(list: seq<nat>, i: nat): seq<nat> {
    if list == [] then []
    else Without(list[..|list| - 1], i) + if list[|list| - 1] == i then [] else [list[|list| - 1]]
  }

  function MarkClosed(s: Provider, i: nat): Provider {
    if i < |s.subs| then s.(subs := s.subs[i := s.subs[i].(closed := true)]) else s
  }

  function StepRenew(s: Provider, k: nat): Provider
    requires k < |s.calls| && InRenew(s.calls[k])
  {
    match s.calls[k]
    case RenewIdle => Goto(s, k, if s.isClosed then Finished else Swapping)
    case Swapping =>
      var credentials := s.swaps + 1;
      Goto(s, k, Swapped(credentials, s.ref)).(
        futures := s.futures + [Succeeded(credentials)], ref := |s.futures|,
        swaps := credentials, renewing := Some(k), overlapped := s.overlapped || s.renewing.Some?)
    case Swapped(credentials, f) =>
      Goto(s, k, if IsPending(s, f) then QueueComplete(credentials, f) else Listing(credentials))
    case QueueComplete(credentials, f) => Submit(Goto(s, k, Listing(credentials)), CompleteTask(f, credentials))
    case Listing(credentials) => Goto(s, k, Fanning(credentials, s.list))
    case Fanning(credentials, rest) =>
      if rest == [] then Goto(s, k, Finished).(renewing := if s.renewing == Some(k) then None else s.renewing)
      else Submit(Goto(s, k, Fanning(credentials, rest[1..])), DispatchTask(rest[0], credentials))
  }

  function StepError(s: Provider, k: nat): Provider
    requires k < |s.calls| && InError(s.calls[k])
  {
    match s.calls[k]
    case ErrorIdle => Goto(s, k, if s.isClosed then Finished else ErrorGetting)
    case ErrorGetting => Goto(s, k, ErrorLooking(s.ref))
    case ErrorLooking(f) => Goto(s, k, if IsPending(s, f) then ErrorReplacing(f) else ErrorListing)
    case ErrorReplacing(f) =>
      if s.ref == f then Goto(s, k, QueueFail(f)).(futures := s.futures + [Pending], ref := |s.futures|)
      else Goto(s, k, ErrorRecheck)
    case QueueFail(f) => Submit(Goto(s, k, ErrorRecheck), FailTask(f))
    case ErrorRecheck => Goto(s, k, if s.isClosed then ErrorReget else ErrorListing)
    case ErrorReget => Goto(s, k, ErrorFailing(s.ref))
    case ErrorFailing(f) => Settle(Goto(s, k, ErrorListing), f, Failed)
    case ErrorListing => Goto(s, k, ErrorFanning(s.list))
    case ErrorFanning(rest) =>
      if rest == [] then Goto(s, k, Finished) else Submit(Goto(s, k, ErrorFanning(rest[1..])), ErrorTask(rest[0], k))
  }

  function StepClose(s: Provider, k: nat): Provider
    requires k < |s.calls| && InClose(s.calls[k])
  {
    match s.calls[k]
    case CloseIdle => Goto(s, k, CloseGetting).(isClosed := true)
    case CloseGetting => Goto(s, k, CloseFailing(s.ref))
    case CloseFailing(f) => Settle(Goto(s, k, CloseListing), f, Failed)
    case CloseListing => Goto(s, k, Marking(s.list))
    case Marking(rest) =>
      if rest == [] then Goto(s, k, CloseDone).(list := []) else MarkClosed(Goto(s, k, Marking(rest[1..])), rest[0])
  }

  function StepSubscribe(s: Provider, k: nat): Provider
    requires k < |s.calls| && InSubscribe(s.calls[k])
  {
    match s.calls[k]
    case SubscribeIdle => Goto(s, k, if s.isClosed then Finished else Adding)
    case Adding =>
      var i := |s.subs|;
      Goto(s, k, Rechecking(i)).(subs := s.subs + [Subscription(k, false, None, [], false)], list := s.list + [i])
    case Rechecking(i) => Goto(s, k, if s.isClosed then Abandoning(i) else QueueReplay(i))
    case Abandoning(i) => MarkClosed(Goto(s, k, Removing(i)), i)
    case Removing(i) => Goto(s, k, Finished).(list := Without(s.list, i))
    case QueueReplay(i) => Submit(Goto(s, k, Subscribed(i)), ReplayTask(i))
  }

  // ----- The executor -----

  /** onNext */
  function Deliver(sub: Subscription, credentials: nat): Subscription {
    sub.(lastPlayed := Some(credentials), delivered := sub.delivered + [credentials])
  }

  function OwedBy(task: Task, i: nat): seq<nat> {
    if task.DispatchTask? && task.i == i then [task.credentials] else []
  }

  /** Dispatches to subscription i among the tasks. */
  function QueueOwed(queue: seq<Task>, i: nat): seq<nat> {
    if queue == [] then [] else QueueOwed(queue[..|queue| - 1], i) + OwedBy(queue[|queue| - 1], i)
  }

  /** The dispatch to subscription i that a renewal in progress has yet to submit. */
  function CallOwed(s: Provider, i: nat): seq<nat> {
    if s.renewing.None? || s.renewing.value >= |s.calls| then []
    else
      match s.calls[s.renewing.value]
      case Swapped(c, _) => if i in s.list then [c] else []
      case QueueComplete(c, _) => if i in s.list then [c] else []
      case Listing(c) => if i in s.list then [c] else []
      case Fanning(c, rest) => if i in rest then [c] else []
      case _ => []
  }

  /** The dispatch to subscription i that the executor is busy with. */
  function WorkerOwed(w: Worker, i: nat): seq<nat> {
    if w.Delivering? && w.i == i then [w.credentials] else []
  }

  /** The credentials still to be dispatched to subscription i by renewals that have swapped, in order. */
  function Owed(s: Provider, i: nat): seq<nat> {
    WorkerOwed(s.worker, i) + QueueOwed(s.queue, i) + CallOwed(s, i)
  }

  function StartReplay(s: Provider, i: nat): Provider
    requires i < |s.subs|
  {
    var hasty := s.subs[i].lastPlayed.None? && |Owed(s, i)| >= 2;
    s.(worker := ReplayRead(i, s.ref), subs := s.subs[i := s.subs[i].(hasty := s.subs[i].hasty || hasty)])
  }

  function StartTask(s: Provider, task: Task): Provider {
    match task
    case CompleteTask(f, credentials) => Settle(s, f, Succeeded(credentials))
    case FailTask(f) => Settle(s, f, Failed)
    case DispatchTask(i, credentials) =>
      if i < |s.subs| && !s.subs[i].closed then s.(worker := Delivering(i, credentials)) else s
    case ErrorTask(i, k) => if i < |s.subs| && !s.subs[i].closed then s.(told := s.told + [(i, k)]) else s
    case ReplayTask(i) => if i < |s.subs| then StartReplay(s, i) else s
  }

  function StepWork(s: Provider): Provider
    requires !s.worker.Idle? || s.queue != []
  {
    match s.worker
    case Idle => StartTask(s.(queue := s.queue[1..]), s.queue[0])
    case Delivering(i, c) =>
      var next := s.(worker := Idle);
      if i >= |s.subs| || s.subs[i].lastPlayed == Some(c) then next
      else next.(subs := s.subs[i := Deliver(s.subs[i], c)])
    case ReplayRead(i, f) =>
      var found := f < |s.futures| && s.futures[f].Succeeded?;
      s.(worker := if found then ReplayCheck(i, s.futures[f].credentials) else Idle)
    case ReplayCheck(i, c) => s.(worker := if i < |s.subs| && !s.subs[i].closed then Replaying(i, c) else Idle)
    case Replaying(i, c) =>
      var next := s.(worker := Idle);
      if i >= |s.subs| || s.subs[i].lastPlayed.Some? then next
      else next.(subs := s.subs[i := Deliver(s.subs[i], c)])
  }

  // ----- Runs -----

  predicate Running(p: Pc) {
    InRenew(p) || InError(p) || InClose(p) || InSubscribe(p)
  }

  predicate Enabled(s: Provider, a: Action) {
    match a
    case Step(k) => k < |s.calls| && Running(s.calls[k])
    case Leave(k) => k < |s.calls| && s.calls[k].Subscribed?
    case Work => !s.worker.Idle? || s.queue != []
  }

  function Apply(s: Provider, a: Action): Provider
    requires Enabled(s, a)
  {
    match a
    case Step(k) =>
      if InRenew(s.calls[k]) then StepRenew(s, k)
      else if InError(s.calls[k]) then StepError(s, k)
      else if InClose(s.calls[k]) then StepClose(s, k)
      else StepSubscribe(s, k)
    case Leave(k) => MarkClosed(Goto(s, k, Removing(s.calls[k].i)), s.calls[k].i)
    case Work => StepWork(s)
  }

  function Exec(s: Provider, run: seq<Action>): Option<Provider> {
    if run == [] then Some(s)
    else
      var last := run[|run| - 1];
      match Exec(s, run[..|run| - 1])
      case None => None
      case Some(t) => if Enabled(t, last) then Some(Apply(t, last)) else None
  }

  ghost predicate Initial(s: Provider) {
    && !s.isClosed && s.futures == [Pending] && s.ref == 0 && s.list == [] && s.subs == [] && s.queue == []
    && s.worker == Idle && s.swaps == 0 && s.renewing == None && !s.overlapped && s.told == []
    && forall k :: 0 <= k < |s.calls| ==> NotCalled(s.calls[k])
  }

  ghost predicate NotCalled(p: Pc) {
    p.RenewIdle? || p.ErrorIdle? || p.CloseIdle? || p.SubscribeIdle?
  }

  lemma Then(s: Provider, run: seq<Action>, a: Action) returns (longer: seq<Action>)
    requires Exec(s, run).Some? && Enabled(Exec(s, run).value, a)
    ensures longer == run + [a] && Exec(s, longer) == Some(Apply(Exec(s, run).value, a))
  {
    longer := run + [a];
    assert longer[..|run|] == run;
  }
}
