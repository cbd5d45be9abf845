/**
 Deliveries to subscribers, when the executor runs one task at a time in submission order and renewals do not overlap:
 every step of the provider is a move of every subscription's view, so what the moves keep holds in every run.
 */
module CredentialDelivery {
  import opened Options
  import opened Credentials
  import F = CredentialFutures
  import U = CredentialSubscribers
  import V = CredentialViews

  /** The subscribe call has not submitted the replay of subscription i. */
  ghost predicate Awaits(p: Pc, i: nat) {
    p == Rechecking(i) || p == Abandoning(i) || p == QueueReplay(i)
  }

  ghost predicate OwnerAwaits(s: Provider, i: nat)
    requires i < |s.subs|
  {
    s.subs[i].owner < |s.calls| && Awaits(s.calls[s.subs[i].owner], i)
  }

  ghost predicate WorkerReplays(w: Worker, i: nat) {
    (w.ReplayRead? || w.ReplayCheck? || w.Replaying?) && w.i == i
  }

  ghost function ReplayOf(s: Provider, i: nat): V.Replay
    requires i < |s.subs|
  {
    if WorkerReplays(s.worker, i) then
      match s.worker
      case ReplayRead(_, f) =>
        if f < |s.futures| && s.futures[f].Succeeded? then V.Candidate(s.futures[f].credentials) else V.NoCandidate
      case ReplayCheck(_, c) => V.Candidate(c)
      case Replaying(_, c) => V.Playing(c)
    else if ReplayTask(i) in s.queue || OwnerAwaits(s, i) then V.Waiting
    else V.Over
  }

  ghost function ViewOf(s: Provider, i: nat): V.View
    requires i < |s.subs|
  {
    V.View(Owed(s, i), i in s.list, s.swaps, s.subs[i], ReplayOf(s, i))
  }

  // ----- Renewals one after another -----

  ghost predicate MidRenew(p: Pc) {
    p.Swapped? || p.QueueComplete? || p.Listing? || p.Fanning?
  }

  ghost predicate Listed(s: Provider, rest: seq<nat>) {
    U.Distinct(rest) && forall j :: 0 <= j < |rest| ==> rest[j] < |s.subs|
  }

  ghost predicate RenewalOk(s: Provider, k: nat)
    requires k < |s.calls|
  {
    && (MidRenew(s.calls[k]) <==> s.renewing == Some(k))
    && (MidRenew(s.calls[k]) ==> s.calls[k].credentials == s.swaps)
    && (s.calls[k].Fanning? ==> Listed(s, s.calls[k].rest))
  }

  ghost predicate RenewalInv(s: Provider) {
    && (s.renewing.Some? ==> s.renewing.value < |s.calls|)
    && forall k :: 0 <= k < |s.calls| ==> RenewalOk(s, k)
  }

  lemma RenewalFrame(s: Provider, t: Provider, k: nat)
    requires RenewalInv(s) && k < |s.calls| == |t.calls| && t.calls == s.calls[k := t.calls[k]]
    requires t.renewing == s.renewing && t.swaps == s.swaps && |s.subs| <= |t.subs| && RenewalOk(t, k)
    ensures RenewalInv(t)
  {
    forall j | 0 <= j < |t.calls|
      ensures RenewalOk(t, j)
    {
      assert RenewalOk(s, j);
    }
  }

  lemma RenewalRenew(s: Provider, k: nat)
    requires RenewalInv(s) && U.OwnerInv(s) && k < |s.calls| && InRenew(s.calls[k]) && !StepRenew(s, k).overlapped
    ensures RenewalInv(StepRenew(s, k))
  {
    var t := StepRenew(s, k);
    assert RenewalOk(s, k);
    assert forall j :: 0 <= j < |s.list| ==> s.list[j] in s.list;
    assert Listed(s, s.list);
    if s.calls[k].Swapping? || s.calls[k] == Fanning(s.swaps, []) {
      forall j | 0 <= j < |t.calls|
        ensures RenewalOk(t, j)
      {
        assert RenewalOk(s, j);
      }
    } else {
      RenewalFrame(s, t, k);
    }
  }

  lemma RenewalStep(s: Provider, a: Action)
    requires RenewalInv(s) && U.OwnerInv(s) && Enabled(s, a) && !Apply(s, a).overlapped
    ensures RenewalInv(Apply(s, a))
  {
    if a.Work? {
      U.WorkKeepsSubs(s);
      RenewalWork(s);
    } else {
      assert RenewalOk(s, a.k);
      if a.Step? && InRenew(s.calls[a.k]) {
        RenewalRenew(s, a.k);
      } else {
        RenewalOther(s, a);
      }
    }
  }

  lemma RenewalOther(s: Provider, a: Action)
    requires RenewalInv(s) && Enabled(s, a) && !a.Work? && !InRenew(s.calls[a.k])
    ensures RenewalInv(Apply(s, a))
  {
    assert RenewalOk(s, a.k);
    if a.Step? {
      if InError(s.calls[a.k]) {
        QuietError(s, a.k);
      } else if InClose(s.calls[a.k]) {
        QuietClose(s, a.k);
      } else {
        QuietSubscribe(s, a.k);
      }
    }
    RenewalFrame(s, Apply(s, a), a.k);
  }

  /** What calls other than renewals leave alone. */
  ghost predicate Quiet(s: Provider, t: Provider, k: nat) {
    && k < |s.calls| == |t.calls| && t.calls == s.calls[k := t.calls[k]] && !MidRenew(t.calls[k])
    && t.renewing == s.renewing && t.swaps == s.swaps && t.overlapped == s.overlapped && t.worker == s.worker
    && |s.subs| <= |t.subs|
  }

  lemma QuietError(s: Provider, k: nat)
    requires k < |s.calls| && InError(s.calls[k])
    ensures Quiet(s, StepError(s, k), k)
  {
  }

  lemma QuietClose(s: Provider, k: nat)
    requires k < |s.calls| && InClose(s.calls[k])
    ensures Quiet(s, StepClose(s, k), k)
  {
  }

  lemma QuietSubscribe(s: Provider, k: nat)
    requires k < |s.calls| && InSubscribe(s.calls[k])
    ensures Quiet(s, StepSubscribe(s, k), k)
  {
  }

  lemma RenewalWork(s: Provider)
    requires RenewalInv(s) && Enabled(s, Work)
    ensures RenewalInv(StepWork(s))
  {
    var t := StepWork(s);
    F.WorkSettles(s);
    assert t.renewing == s.renewing;
    forall j | 0 <= j < |t.calls|
      ensures RenewalOk(t, j)
    {
      assert RenewalOk(s, j);
    }
  }

  // ----- Replays, one per subscription -----

  ghost predicate TaskOk(s: Provider, task: Task) {
    && (task.DispatchTask? ==> task.i < |s.subs|)
    && (task.ReplayTask? ==> task.i < |s.subs| && !OwnerAwaits(s, task.i))
  }

  ghost predicate WorkerOk(s: Provider, w: Worker) {
    && (!w.Idle? ==> w.i < |s.subs|)
    && (w.ReplayRead? ==> w.f < |s.futures|)
    && (forall i :: 0 <= i < |s.subs| && WorkerReplays(w, i) ==> !OwnerAwaits(s, i) && ReplayTask(i) !in s.queue)
  }

  ghost predicate ReplayInv(s: Provider) {
    && (forall j :: 0 <= j < |s.queue| ==> TaskOk(s, s.queue[j]))
    && (forall j, l :: 0 <= j < l < |s.queue| && s.queue[j].ReplayTask? ==> s.queue[j] != s.queue[l])
    && WorkerOk(s, s.worker)
  }

  /** A step that submits at most a task that is not a replay, and brings no subscribe call back before its replay. */
  lemma ReplayFrame(s: Provider, t: Provider)
    requires ReplayInv(s) && t.worker == s.worker && |s.futures| <= |t.futures| && |s.subs| <= |t.subs|
    requires forall i :: 0 <= i < |s.subs| && OwnerAwaits(t, i) ==> OwnerAwaits(s, i)
    requires t.queue == s.queue || exists task :: t.queue == s.queue + [task] && TaskOk(t, task) && !task.ReplayTask?
    ensures ReplayInv(t)
  {
    forall j | 0 <= j < |t.queue|
      ensures TaskOk(t, t.queue[j])
    {
      assert j < |s.queue| ==> TaskOk(s, s.queue[j]);
    }
  }

  /** Only subscribe calls await. */
  lemma AwaitsFrame(s: Provider, t: Provider, k: nat)
    requires k < |s.calls| == |t.calls| && t.calls == s.calls[k := t.calls[k]] && |s.subs| <= |t.subs|
    requires forall i :: 0 <= i < |s.subs| ==> t.subs[i].owner == s.subs[i].owner
    requires forall i: nat :: Awaits(t.calls[k], i) && i < |s.subs| ==> Awaits(s.calls[k], i)
    ensures forall i :: 0 <= i < |s.subs| && OwnerAwaits(t, i) ==> OwnerAwaits(s, i)
  {
  }

  lemma ReplayRenew(s: Provider, k: nat)
    requires ReplayInv(s) && RenewalInv(s) && k < |s.calls| && InRenew(s.calls[k])
    ensures ReplayInv(StepRenew(s, k))
  {
    assert RenewalOk(s, k);
    AwaitsFrame(s, StepRenew(s, k), k);
    ReplayFrame(s, StepRenew(s, k));
  }

  lemma ReplayError(s: Provider, k: nat)
    requires ReplayInv(s) && k < |s.calls| && InError(s.calls[k])
    ensures ReplayInv(StepError(s, k))
  {
    AwaitsFrame(s, StepError(s, k), k);
    ReplayFrame(s, StepError(s, k));
  }

  lemma ReplayClose(s: Provider, k: nat)
    requires ReplayInv(s) && k < |s.calls| && InClose(s.calls[k])
    ensures ReplayInv(StepClose(s, k))
  {
    AwaitsFrame(s, StepClose(s, k), k);
    ReplayFrame(s, StepClose(s, k));
  }

  lemma ReplayLeave(s: Provider, k: nat)
    requires ReplayInv(s) && Enabled(s, Leave(k))
    ensures ReplayInv(Apply(s, Leave(k)))
  {
    AwaitsFrame(s, Apply(s, Leave(k)), k);
    ReplayFrame(s, Apply(s, Leave(k)));
  }

  lemma ReplaySubscribe(s: Provider, k: nat)
    requires ReplayInv(s) && U.OwnerInv(s) && k < |s.calls| && InSubscribe(s.calls[k])
    ensures ReplayInv(StepSubscribe(s, k))
  {
    var t := StepSubscribe(s, k);
    assert U.CallOk(s, k);
    AwaitsFrame(s, t, k);
    if s.calls[k].QueueReplay? {
      SubmitsReplay(s, k);
    } else {
      ReplayFrame(s, t);
    }
  }

  lemma SubmitsReplay(s: Provider, k: nat)
    requires ReplayInv(s) && U.OwnerInv(s) && k < |s.calls| && s.calls[k].QueueReplay?
    ensures ReplayInv(StepSubscribe(s, k))
  {
    var t, i := StepSubscribe(s, k), s.calls[k].i;
    assert U.CallOk(s, k);
    assert OwnerAwaits(s, i);
    AwaitsFrame(s, t, k);
    forall j | 0 <= j < |t.queue|
      ensures TaskOk(t, t.queue[j])
    {
      assert j < |s.queue| ==> TaskOk(s, s.queue[j]);
    }
    assert forall j :: 0 <= j < |s.queue| ==> TaskOk(s, s.queue[j]) && s.queue[j] != ReplayTask(i);
  }

  lemma StartedWorker(s: Provider)
    requires ReplayInv(s) && s.ref < |s.futures| && s.worker.Idle? && s.queue != []
    ensures WorkerOk(StepWork(s), StepWork(s).worker)
  {
    var t := StepWork(s);
    F.WorkSettles(s);
    U.WorkKeepsSubs(s);
    assert TaskOk(s, s.queue[0]);
    assert s.queue[0].ReplayTask? ==> s.queue[0] !in t.queue;
  }

  lemma BusyWorker(s: Provider)
    requires ReplayInv(s) && !s.worker.Idle?
    ensures WorkerOk(StepWork(s), StepWork(s).worker)
  {
    var t := StepWork(s);
    F.WorkSettles(s);
    U.WorkKeepsSubs(s);
    forall i | 0 <= i < |t.subs| && WorkerReplays(t.worker, i)
      ensures !OwnerAwaits(t, i) && ReplayTask(i) !in t.queue
    {
      assert WorkerReplays(s.worker, i);
      assert !OwnerAwaits(s, i) && ReplayTask(i) !in s.queue;
      assert t.subs[i].owner == s.subs[i].owner;
    }
  }

  lemma ReplayWork(s: Provider)
    requires ReplayInv(s) && s.ref < |s.futures| && Enabled(s, Work)
    ensures ReplayInv(StepWork(s))
  {
    var t := StepWork(s);
    F.WorkSettles(s);
    U.WorkKeepsSubs(s);
    forall j | 0 <= j < |t.queue|
      ensures TaskOk(t, t.queue[j])
    {
      assert TaskOk(s, s.queue[if s.worker.Idle? then j + 1 else j]);
    }
    if s.worker.Idle? {
      StartedWorker(s);
    } else {
      BusyWorker(s);
    }
  }

  // ----- Every step is a move of every view -----

  lemma QueueOwedSnoc(queue: seq<Task>, task: Task, i: nat)
    ensures QueueOwed(queue + [task], i) == QueueOwed(queue, i) + OwedBy(task, i)
    ensures ReplayTask(i) in queue + [task] <==> ReplayTask(i) in queue || task == ReplayTask(i)
  {
    assert (queue + [task])[..|queue|] == queue;
  }

  /** A task that dispatches nothing to subscription i. */
  lemma QueueOwedSkip(queue: seq<Task>, task: Task, i: nat)
    requires OwedBy(task, i) == []
    ensures QueueOwed(queue + [task], i) == QueueOwed(queue, i)
    ensures ReplayTask(i) in queue + [task] <==> ReplayTask(i) in queue || task == ReplayTask(i)
  {
    QueueOwedSnoc(queue, task, i);
    assert QueueOwed(queue, i) + [] == QueueOwed(queue, i);
  }

  lemma Associative(a: seq<nat>, b: seq<nat>, c: seq<nat>)
    ensures (a + b) + c == a + (b + c)
  {
  }

  lemma {:induction false} QueueOwedHead(task: Task, queue: seq<Task>, i: nat)
    ensures QueueOwed([task] + queue, i) == OwedBy(task, i) + QueueOwed(queue, i)
  {
    if queue == [] {
      assert [task] + queue == [] + [task];
      QueueOwedSnoc([], task, i);
    } else {
      var n := |queue| - 1;
      QueueOwedHead(task, queue[..n], i);
      assert [task] + queue == ([task] + queue[..n]) + [queue[n]];
      QueueOwedSnoc([task] + queue[..n], queue[n], i);
      Associative(OwedBy(task, i), QueueOwed(queue[..n], i), OwedBy(queue[n], i));
    }
  }

  /** The future the worker holds looks the same to a replay. */
  ghost predicate SameCandidate(s: Provider, t: Provider) {
    s.worker.ReplayRead? && s.worker.f < |s.futures| ==>
      s.worker.f < |t.futures| && (t.futures[s.worker.f] == s.futures[s.worker.f] ||
                                   (s.futures[s.worker.f].Pending? && t.futures[s.worker.f].Failed?))
  }

  ghost predicate HoldsFuture(s: Provider) {
    s.worker.ReplayRead? ==> s.worker.f < |s.futures|
  }

  lemma SameReplay(s: Provider, t: Provider, i: nat)
    requires i < |s.subs| && i < |t.subs| && t.worker == s.worker && SameCandidate(s, t)
    requires HoldsFuture(s)
    requires ReplayTask(i) in t.queue || OwnerAwaits(t, i) <==> ReplayTask(i) in s.queue || OwnerAwaits(s, i)
    ensures ReplayOf(t, i) == ReplayOf(s, i)
  {
  }

  lemma SameView(s: Provider, t: Provider, i: nat)
    requires HoldsFuture(s) && i < |s.subs| && i < |t.subs| && t.subs[i] == s.subs[i] && t.worker == s.worker
    requires (i in t.list <==> i in s.list) && t.swaps == s.swaps && SameCandidate(s, t)
    requires QueueOwed(t.queue, i) + CallOwed(t, i) == QueueOwed(s.queue, i) + CallOwed(s, i)
    requires ReplayTask(i) in t.queue || OwnerAwaits(t, i) <==> ReplayTask(i) in s.queue || OwnerAwaits(s, i)
    ensures ViewOf(t, i) == ViewOf(s, i)
  {
    SameReplay(s, t, i);
    SameOwed(s, t, i);
  }

  lemma SameOwed(s: Provider, t: Provider, i: nat)
    requires t.worker == s.worker
    requires QueueOwed(t.queue, i) + CallOwed(t, i) == QueueOwed(s.queue, i) + CallOwed(s, i)
    ensures Owed(t, i) == Owed(s, i)
  {
    var now := WorkerOwed(s.worker, i);
    Associative(now, QueueOwed(s.queue, i), CallOwed(s, i));
    Associative(now, QueueOwed(t.queue, i), CallOwed(t, i));
  }

  ghost predicate ViewInv(s: Provider, i: nat)
    requires i < |s.subs|
  {
    V.Inv(ViewOf(s, i))
  }

  /** The step is move m of the view of subscription i. */
  ghost predicate Moves(s: Provider, t: Provider, i: nat, m: V.Move) {
    && i < |s.subs| == |t.subs| && V.Can(ViewOf(s, i), m)
    && ViewOf(t, i) == V.After(ViewOf(s, i), m)
  }

  lemma MovesKeepInv(s: Provider, t: Provider, i: nat, m: V.Move)
    requires Moves(s, t, i, m) && ViewInv(s, i)
    ensures ViewInv(t, i)
  {
    V.MoveKeepsInv(ViewOf(s, i), m);
  }

  lemma SwapMoves(s: Provider, k: nat, i: nat)
    requires RenewalInv(s) && ReplayInv(s) && k < |s.calls| && s.calls[k].Swapping? && s.renewing.None?
    requires i < |s.subs|
    ensures Moves(s, StepRenew(s, k), i, V.Renewed)
  {
  }

  lemma ViewSwap(s: Provider, k: nat, i: nat)
    requires RenewalInv(s) && ReplayInv(s) && k < |s.calls| && s.calls[k].Swapping? && s.renewing.None?
    requires i < |s.subs| && ViewInv(s, i)
    ensures ViewInv(StepRenew(s, k), i)
  {
    SwapMoves(s, k, i);
    MovesKeepInv(s, StepRenew(s, k), i, V.Renewed);
  }

  lemma CallOwedFanning(s: Provider, k: nat, i: nat)
    requires RenewalInv(s) && k < |s.calls| && s.calls[k].Fanning?
    ensures CallOwed(s, i) == if i in s.calls[k].rest then [s.swaps] else []
  {
    assert RenewalOk(s, k);
  }

  /** The fan-out turns the dispatch it owes into a task. */
  lemma FanOutCallOwes(s: Provider, k: nat, i: nat)
    requires RenewalInv(s) && k < |s.calls| && s.calls[k].Fanning? && s.calls[k].rest != []
    ensures CallOwed(s, i) == OwedBy(DispatchTask(s.calls[k].rest[0], s.swaps), i) + CallOwed(StepRenew(s, k), i)
  {
    var t, rest := StepRenew(s, k), s.calls[k].rest;
    assert RenewalOk(s, k);
    CallOwedFanning(s, k, i);
    assert CallOwed(t, i) == if i in rest[1..] then [s.swaps] else [];
    assert rest == [rest[0]] + rest[1..];
    assert rest[0] !in rest[1..];
  }

  lemma FanOut(s: Provider, k: nat, i: nat)
    requires RenewalInv(s) && k < |s.calls| && s.calls[k].Fanning? && s.calls[k].rest != []
    ensures var t := StepRenew(s, k);
            && QueueOwed(t.queue, i) + CallOwed(t, i) == QueueOwed(s.queue, i) + CallOwed(s, i)
            && (ReplayTask(i) in t.queue <==> ReplayTask(i) in s.queue)
  {
    var t, task := StepRenew(s, k), DispatchTask(s.calls[k].rest[0], s.swaps);
    assert RenewalOk(s, k);
    assert t.queue == s.queue + [task];
    QueueOwedSnoc(s.queue, task, i);
    FanOutCallOwes(s, k, i);
    Associative(QueueOwed(s.queue, i), OwedBy(task, i), CallOwed(t, i));
  }

  lemma FanEnd(s: Provider, k: nat, i: nat)
    requires RenewalInv(s) && k < |s.calls| && s.calls[k].Fanning? && s.calls[k].rest == []
    ensures var t := StepRenew(s, k); t.queue == s.queue && CallOwed(t, i) == CallOwed(s, i)
  {
    assert RenewalOk(s, k);
    CallOwedFanning(s, k, i);
  }

  lemma RenewOwes(s: Provider, k: nat, i: nat)
    requires RenewalInv(s) && k < |s.calls| && InRenew(s.calls[k]) && !s.calls[k].Swapping?
    ensures var t := StepRenew(s, k);
            && QueueOwed(t.queue, i) + CallOwed(t, i) == QueueOwed(s.queue, i) + CallOwed(s, i)
            && (ReplayTask(i) in t.queue <==> ReplayTask(i) in s.queue)
  {
    if s.calls[k].Fanning? {
      if s.calls[k].rest == [] {
        FanEnd(s, k, i);
      } else {
        FanOut(s, k, i);
      }
    } else {
      EarlyRenewOwes(s, k, i);
    }
  }

  lemma CompletionCallOwes(s: Provider, k: nat, i: nat)
    requires RenewalInv(s) && k < |s.calls| && s.calls[k].QueueComplete?
    ensures CallOwed(StepRenew(s, k), i) == CallOwed(s, i)
  {
    assert RenewalOk(s, k);
  }

  lemma CompletionOwes(s: Provider, k: nat, i: nat)
    requires RenewalInv(s) && k < |s.calls| && s.calls[k].QueueComplete?
    ensures var t := StepRenew(s, k);
            && QueueOwed(t.queue, i) == QueueOwed(s.queue, i) && CallOwed(t, i) == CallOwed(s, i)
            && (ReplayTask(i) in t.queue <==> ReplayTask(i) in s.queue)
  {
    CompletionCallOwes(s, k, i);
    var task := CompleteTask(s.calls[k].f, s.calls[k].credentials);
    assert StepRenew(s, k).queue == s.queue + [task];
    QueueOwedSkip(s.queue, task, i);
  }

  lemma EarlyRenewOwes(s: Provider, k: nat, i: nat)
    requires RenewalInv(s) && k < |s.calls| && InRenew(s.calls[k]) && !s.calls[k].Swapping? && !s.calls[k].Fanning?
    ensures var t := StepRenew(s, k);
            && QueueOwed(t.queue, i) == QueueOwed(s.queue, i) && CallOwed(t, i) == CallOwed(s, i)
            && (ReplayTask(i) in t.queue <==> ReplayTask(i) in s.queue)
  {
    if s.calls[k].QueueComplete? {
      CompletionOwes(s, k, i);
    } else {
      assert RenewalOk(s, k);
      assert StepRenew(s, k).queue == s.queue;
    }
  }

  lemma RenewLeaves(s: Provider, k: nat, i: nat)
    requires k < |s.calls| && InRenew(s.calls[k]) && !s.calls[k].Swapping?
    ensures var t := StepRenew(s, k);
            && t.subs == s.subs && t.list == s.list && t.worker == s.worker
            && t.swaps == s.swaps && t.futures == s.futures
            && |t.calls| == |s.calls| && t.calls == s.calls[k := t.calls[k]] 
            && !Awaits(s.calls[k], i) && !Awaits(t.calls[k], i)
  {
  }

  lemma RenewView(s: Provider, k: nat, i: nat)
    requires RenewalInv(s) && HoldsFuture(s) && k < |s.calls| && InRenew(s.calls[k]) && !s.calls[k].Swapping?
    requires i < |s.subs|
    ensures StepRenew(s, k).subs == s.subs && ViewOf(StepRenew(s, k), i) == ViewOf(s, i)
  {
    var t := StepRenew(s, k);
    RenewLeaves(s, k, i);
    RenewOwes(s, k, i);
    AwaitsSame(s, t, k, i);
    SameView(s, t, i);
  }

  /** A call that handles no subscription changes nothing about who awaits a replay. */
  lemma AwaitsSame(s: Provider, t: Provider, k: nat, i: nat)
    requires k < |s.calls| == |t.calls| && t.calls == s.calls[k := t.calls[k]] && t.subs == s.subs && i < |s.subs|
    requires !Awaits(s.calls[k], i) && !Awaits(t.calls[k], i)
    ensures OwnerAwaits(t, i) <==> OwnerAwaits(s, i)
  {
  }

  lemma RenewMoves(s: Provider, k: nat, i: nat)
    requires RenewalInv(s) && ReplayInv(s) && k < |s.calls| && InRenew(s.calls[k]) && !s.calls[k].Swapping?
    requires i < |s.subs|
    ensures Moves(s, StepRenew(s, k), i, V.Stay)
  {
    RenewView(s, k, i);
  }

  lemma ViewRenew(s: Provider, k: nat, i: nat)
    requires RenewalInv(s) && ReplayInv(s) && k < |s.calls| && InRenew(s.calls[k]) && !s.calls[k].Swapping?
    requires i < |s.subs| && ViewInv(s, i)
    ensures |StepRenew(s, k).subs| == |s.subs| && ViewInv(StepRenew(s, k), i)
  {
    RenewMoves(s, k, i);
    MovesKeepInv(s, StepRenew(s, k), i, V.Stay);
  }

  /** Calls other than renewals do not change what the renewal in progress owes, except through the list. */
  lemma CallOwedFrame(s: Provider, t: Provider, k: nat, i: nat)
    requires RenewalInv(s) && Quiet(s, t, k) && !MidRenew(s.calls[k]) && (i in t.list <==> i in s.list)
    ensures CallOwed(t, i) == CallOwed(s, i)
  {
    assert RenewalOk(s, k);
  }

  lemma ErrorSubmits(s: Provider, k: nat)
    requires k < |s.calls| && InError(s.calls[k])
    ensures var t := StepError(s, k);
            || t.queue == s.queue
            || exists task :: t.queue == s.queue + [task] && (task.FailTask? || task.ErrorTask?)
  {
  }

  lemma ErrorOwes(s: Provider, k: nat, i: nat)
    requires k < |s.calls| && InError(s.calls[k])
    ensures var t := StepError(s, k);
            QueueOwed(t.queue, i) == QueueOwed(s.queue, i) && (ReplayTask(i) in t.queue <==> ReplayTask(i) in s.queue)
  {
    ErrorSubmits(s, k);
    var t := StepError(s, k);
    if t.queue != s.queue {
      var task :| t.queue == s.queue + [task] && (task.FailTask? || task.ErrorTask?);
      QueueOwedSkip(s.queue, task, i);
    }
  }

  lemma ErrorLeaves(s: Provider, k: nat, i: nat)
    requires k < |s.calls| && InError(s.calls[k])
    ensures var t := StepError(s, k);
            && t.subs == s.subs && t.list == s.list && SameCandidate(s, t)
            && !Awaits(s.calls[k], i) && !Awaits(t.calls[k], i)
  {
  }

  lemma ErrorView(s: Provider, k: nat, i: nat)
    requires RenewalInv(s) && HoldsFuture(s) && k < |s.calls| && InError(s.calls[k]) && i < |s.subs|
    ensures StepError(s, k).subs == s.subs && ViewOf(StepError(s, k), i) == ViewOf(s, i)
  {
    var t := StepError(s, k);
    QuietError(s, k);
    ErrorLeaves(s, k, i);
    CallOwedFrame(s, t, k, i);
    ErrorOwes(s, k, i);
    AwaitsSame(s, t, k, i);
    SameView(s, t, i);
  }

  lemma ViewError(s: Provider, k: nat, i: nat)
    requires RenewalInv(s) && ReplayInv(s) && k < |s.calls| && InError(s.calls[k])
    requires i < |s.subs| && ViewInv(s, i)
    ensures StepError(s, k).subs == s.subs && ViewInv(StepError(s, k), i)
  {
    ErrorView(s, k, i);
  }

  // ----- Close and subscribe -----

  /** Subscription i leaves the list. */
  lemma ViewUnlisted(s: Provider, t: Provider, k: nat, i: nat)
    requires RenewalInv(s) && ReplayInv(s) && Quiet(s, t, k) && !MidRenew(s.calls[k])
    requires i < |s.subs| && t.subs == s.subs && t.futures == s.futures && t.queue == s.queue
    requires i in s.list && i !in t.list && (OwnerAwaits(t, i) <==> OwnerAwaits(s, i))
    requires s.subs[i].closed || OwnerAwaits(s, i)
    requires ViewInv(s, i)
    ensures ViewInv(t, i)
  {
    assert RenewalOk(s, k);
    var left := |Owed(t, i)|;
    assert CallOwed(t, i) == CallOwed(s, i) || CallOwed(t, i) == [];
    assert Owed(t, i) == Owed(s, i)[..left];
    assert ViewOf(t, i) == V.After(ViewOf(s, i), V.Unlisted(left));
    V.MoveKeepsInv(ViewOf(s, i), V.Unlisted(left));
  }

  /** Nothing but the `closed` flag of subscription i, and perhaps its owner's place, differs. */
  ghost predicate MarksOnly(s: Provider, t: Provider, k: nat, i: nat) {
    && Quiet(s, t, k) && !MidRenew(s.calls[k])
    && i < |s.subs| == |t.subs| && t.subs[i] == s.subs[i].(closed := true)
    && t.futures == s.futures && t.queue == s.queue && t.list == s.list
  }

  lemma ClosedMoves(s: Provider, t: Provider, k: nat, i: nat)
    requires RenewalInv(s) && ReplayInv(s) && MarksOnly(s, t, k, i) && (OwnerAwaits(t, i) <==> OwnerAwaits(s, i))
    ensures Moves(s, t, i, V.Closed)
  {
    CallOwedFrame(s, t, k, i);
    assert Owed(t, i) == Owed(s, i) && ReplayOf(t, i) == ReplayOf(s, i);
  }

  /** Subscription i is marked closed. */
  lemma ViewClosed(s: Provider, t: Provider, k: nat, i: nat)
    requires RenewalInv(s) && ReplayInv(s) && MarksOnly(s, t, k, i) && (OwnerAwaits(t, i) <==> OwnerAwaits(s, i))
    requires ViewInv(s, i)
    ensures ViewInv(t, i)
  {
    ClosedMoves(s, t, k, i);
    MovesKeepInv(s, t, i, V.Closed);
  }

  /** Subscription i is marked closed by a subscribe call that gives up its replay. */
  lemma ViewGivenUp(s: Provider, t: Provider, k: nat, i: nat)
    requires RenewalInv(s) && ReplayInv(s) && MarksOnly(s, t, k, i) && OwnerAwaits(s, i) && !OwnerAwaits(t, i)
    requires ViewInv(s, i)
    ensures ViewInv(t, i)
  {
    CallOwedFrame(s, t, k, i);
    assert forall j :: 0 <= j < |s.queue| ==> TaskOk(s, s.queue[j]);
    assert ReplayTask(i) !in s.queue;
    var v := V.After(ViewOf(s, i), V.Closed);
    V.MoveKeepsInv(ViewOf(s, i), V.Closed);
    V.MoveKeepsInv(v, V.ReplayGivenUp);
    assert ViewOf(t, i) == V.After(v, V.ReplayGivenUp);
  }

  lemma ViewCloseEnd(s: Provider, k: nat, i: nat)
    requires U.Inv(s) && RenewalInv(s) && ReplayInv(s) && k < |s.calls| && s.calls[k] == Marking([])
    requires i < |s.subs| && ViewInv(s, i)
    ensures ViewInv(StepClose(s, k), i)
  {
    var t := StepClose(s, k);
    QuietClose(s, k);
    if i in s.list {
      assert U.Past(s.calls[k]) && U.RestOf(s.calls[k]) == [];
      assert !U.Held(s, i);
      ViewUnlisted(s, t, k, i);
    } else {
      CallOwedFrame(s, t, k, i);
      SameView(s, t, i);
    }
  }

  lemma ViewMark(s: Provider, k: nat, i: nat)
    requires RenewalInv(s) && ReplayInv(s) && k < |s.calls| && s.calls[k].Marking? && s.calls[k].rest != []
    requires i < |s.subs| && ViewInv(s, i)
    ensures ViewInv(StepClose(s, k), i)
  {
    var t := StepClose(s, k);
    QuietClose(s, k);
    if s.calls[k].rest[0] == i {
      ViewClosed(s, t, k, i);
    } else {
      CallOwedFrame(s, t, k, i);
      SameView(s, t, i);
    }
  }

  /** What close does before it comes to the subscriptions. */
  lemma CloseView(s: Provider, k: nat, i: nat)
    requires RenewalInv(s) && HoldsFuture(s) && k < |s.calls| && InClose(s.calls[k]) && !s.calls[k].Marking?
    requires i < |s.subs|
    ensures StepClose(s, k).subs == s.subs && ViewOf(StepClose(s, k), i) == ViewOf(s, i)
  {
    var t := StepClose(s, k);
    QuietClose(s, k);
    CallOwedFrame(s, t, k, i);
    assert t.queue == s.queue && t.subs == s.subs;
    AwaitsSame(s, t, k, i);
    SameView(s, t, i);
  }

  lemma ViewClose(s: Provider, k: nat, i: nat)
    requires U.Inv(s) && RenewalInv(s) && ReplayInv(s) && k < |s.calls| && InClose(s.calls[k])
    requires i < |s.subs| && ViewInv(s, i)
    ensures |StepClose(s, k).subs| == |s.subs| && ViewInv(StepClose(s, k), i)
  {
    if s.calls[k] == Marking([]) {
      ViewCloseEnd(s, k, i);
    } else if s.calls[k].Marking? {
      ViewMark(s, k, i);
    } else {
      CloseView(s, k, i);
    }
  }

  lemma ViewLeave(s: Provider, k: nat, i: nat)
    requires RenewalInv(s) && ReplayInv(s) && Enabled(s, Leave(k)) && i < |s.subs| && ViewInv(s, i)
    ensures |Apply(s, Leave(k)).subs| == |s.subs| && ViewInv(Apply(s, Leave(k)), i)
  {
    var t := Apply(s, Leave(k));
    if s.calls[k].i == i {
      ViewClosed(s, t, k, i);
    } else {
      CallOwedFrame(s, t, k, i);
      SameView(s, t, i);
    }
  }

  lemma ViewRemove(s: Provider, k: nat, i: nat)
    requires U.OwnerInv(s) && RenewalInv(s) && ReplayInv(s) && k < |s.calls| && s.calls[k].Removing?
    requires i < |s.subs| && ViewInv(s, i)
    ensures ViewInv(StepSubscribe(s, k), i)
  {
    var t := StepSubscribe(s, k);
    QuietSubscribe(s, k);
    U.WithoutSpec(s.list, s.calls[k].i);
    assert U.CallOk(s, k);
    if s.calls[k].i == i && i in s.list {
      ViewUnlisted(s, t, k, i);
    } else {
      CallOwedFrame(s, t, k, i);
      SameView(s, t, i);
    }
  }

  lemma ViewAbandon(s: Provider, k: nat, i: nat)
    requires U.OwnerInv(s) && RenewalInv(s) && ReplayInv(s) && k < |s.calls| && s.calls[k].Abandoning?
    requires i < |s.subs| && ViewInv(s, i)
    ensures |StepSubscribe(s, k).subs| == |s.subs| && ViewInv(StepSubscribe(s, k), i)
  {
    var t := StepSubscribe(s, k);
    QuietSubscribe(s, k);
    assert U.CallOk(s, k);
    if s.calls[k].i == i {
      ViewGivenUp(s, t, k, i);
    } else {
      CallOwedFrame(s, t, k, i);
      SameView(s, t, i);
    }
  }

  /** The replay that was awaited is now a task. */
  lemma ReplaySubmitted(s: Provider, k: nat, i: nat)
    requires U.OwnerInv(s) && k < |s.calls| && s.calls[k].QueueReplay? && i < |s.subs|
    ensures var t := StepSubscribe(s, k);
            && t.subs == s.subs && t.queue == s.queue + [ReplayTask(s.calls[k].i)]
            && (ReplayTask(i) in t.queue || OwnerAwaits(t, i) <==> ReplayTask(i) in s.queue || OwnerAwaits(s, i))
  {
    assert U.CallOk(s, k);
  }

  lemma QueueReplayView(s: Provider, k: nat, i: nat)
    requires U.OwnerInv(s) && RenewalInv(s) && HoldsFuture(s) && k < |s.calls| && s.calls[k].QueueReplay?
    requires i < |s.subs|
    ensures StepSubscribe(s, k).subs == s.subs && ViewOf(StepSubscribe(s, k), i) == ViewOf(s, i)
  {
    var t := StepSubscribe(s, k);
    QuietSubscribe(s, k);
    ReplaySubmitted(s, k, i);
    CallOwedFrame(s, t, k, i);
    QueueOwedSnoc(s.queue, ReplayTask(s.calls[k].i), i);
    SameView(s, t, i);
  }

  lemma ViewQueueReplay(s: Provider, k: nat, i: nat)
    requires U.OwnerInv(s) && RenewalInv(s) && ReplayInv(s) && k < |s.calls| && s.calls[k].QueueReplay?
    requires i < |s.subs| && ViewInv(s, i)
    ensures ViewInv(StepSubscribe(s, k), i)
  {
    QueueReplayView(s, k, i);
  }

  lemma ViewAdvance(s: Provider, k: nat, i: nat)
    requires U.OwnerInv(s) && RenewalInv(s) && ReplayInv(s) && k < |s.calls| && i < |s.subs| && ViewInv(s, i)
    requires s.calls[k].SubscribeIdle? || s.calls[k].Adding? || s.calls[k].Rechecking?
    ensures i < |StepSubscribe(s, k).subs| && ViewInv(StepSubscribe(s, k), i)
  {
    var t := StepSubscribe(s, k);
    QuietSubscribe(s, k);
    assert U.CallOk(s, k) && U.SubOk(s, i);
    CallOwedFrame(s, t, k, i);
    SameView(s, t, i);
  }

  lemma ViewSubscribe(s: Provider, k: nat, i: nat)
    requires U.OwnerInv(s) && RenewalInv(s) && ReplayInv(s) && k < |s.calls| && InSubscribe(s.calls[k])
    requires i < |s.subs| && ViewInv(s, i)
    ensures i < |StepSubscribe(s, k).subs| && ViewInv(StepSubscribe(s, k), i)
  {
    if s.calls[k].Removing? {
      ViewRemove(s, k, i);
    } else if s.calls[k].Abandoning? {
      ViewAbandon(s, k, i);
    } else if s.calls[k].QueueReplay? {
      ViewQueueReplay(s, k, i);
    } else {
      ViewAdvance(s, k, i);
    }
  }

  lemma {:induction false} NothingQueued(queue: seq<Task>, i: nat)
    requires forall j :: 0 <= j < |queue| && queue[j].DispatchTask? ==> queue[j].i != i
    ensures QueueOwed(queue, i) == []
  {
    if queue != [] {
      NothingQueued(queue[..|queue| - 1], i);
    }
  }

  lemma NewNotQueued(s: Provider)
    requires ReplayInv(s)
    ensures QueueOwed(s.queue, |s.subs|) == [] && WorkerOwed(s.worker, |s.subs|) == []
    ensures !WorkerReplays(s.worker, |s.subs|)
  {
    assert forall j :: 0 <= j < |s.queue| ==> TaskOk(s, s.queue[j]);
    NothingQueued(s.queue, |s.subs|);
  }

  lemma NewCallOwed(s: Provider, k: nat)
    requires RenewalInv(s) && k < |s.calls| && s.calls[k].Adding?
    ensures var t, i := StepSubscribe(s, k), |s.subs|;
            CallOwed(t, i) == [] || (CallOwed(t, i) == [s.swaps] && s.renewing.Some?)
  {
    QuietSubscribe(s, k);
    assert RenewalOk(s, k);
    if s.renewing.Some? {
      assert RenewalOk(s, s.renewing.value);
    }
  }

  /** Nothing is queued or under way for a subscription that does not exist yet. */
  lemma NewOwed(s: Provider, k: nat)
    requires RenewalInv(s) && ReplayInv(s) && k < |s.calls| && s.calls[k].Adding?
    ensures var t, i := StepSubscribe(s, k), |s.subs|;
            (Owed(t, i) == [] || (Owed(t, i) == [s.swaps] && s.renewing.Some?)) && !WorkerReplays(t.worker, i)
  {
    NewNotQueued(s);
    NewCallOwed(s, k);
    assert StepSubscribe(s, k).queue == s.queue && StepSubscribe(s, k).worker == s.worker;
  }

  lemma NewIsFresh(s: Provider, k: nat)
    requires RenewalInv(s) && ReplayInv(s) && k < |s.calls| && s.calls[k].Adding?
    requires s.renewing.Some? ==> s.swaps > 0
    ensures V.Fresh(ViewOf(StepSubscribe(s, k), |s.subs|))
  {
    NewOwed(s, k);
  }

  lemma ViewNew(s: Provider, k: nat)
    requires RenewalInv(s) && ReplayInv(s) && k < |s.calls| && s.calls[k].Adding?
    requires s.renewing.Some? ==> s.swaps > 0
    ensures ViewInv(StepSubscribe(s, k), |s.subs|)
  {
    NewIsFresh(s, k);
    V.FreshInv(ViewOf(StepSubscribe(s, k), |s.subs|));
  }

  // ----- The executor -----

  /** The executor does nothing that concerns subscription i. */
  lemma ViewUntouched(s: Provider, t: Provider, i: nat)
    requires i < |s.subs| == |t.subs| && t.subs[i] == s.subs[i] && t.list == s.list && t.swaps == s.swaps
    requires t.calls == s.calls && t.renewing == s.renewing
    requires !WorkerReplays(s.worker, i) && !WorkerReplays(t.worker, i)
    requires WorkerOwed(t.worker, i) + QueueOwed(t.queue, i) == WorkerOwed(s.worker, i) + QueueOwed(s.queue, i)
    requires ReplayTask(i) in t.queue <==> ReplayTask(i) in s.queue
    ensures ViewOf(t, i) == ViewOf(s, i)
  {
    CallOwedSame(s, t, i);
  }

  lemma PopHead(s: Provider, i: nat)
    requires s.queue != []
    ensures QueueOwed(s.queue, i) == OwedBy(s.queue[0], i) + QueueOwed(s.queue[1..], i)
    ensures OwedBy(s.queue[0], i) == [] ==> QueueOwed(s.queue[1..], i) == QueueOwed(s.queue, i)
    ensures s.queue[0] != ReplayTask(i) ==> (ReplayTask(i) in s.queue[1..] <==> ReplayTask(i) in s.queue)
  {
    QueueOwedHead(s.queue[0], s.queue[1..], i);
    assert s.queue == [s.queue[0]] + s.queue[1..];
    assert [] + QueueOwed(s.queue[1..], i) == QueueOwed(s.queue[1..], i);
  }

  lemma IdleOwed(s: Provider, i: nat)
    requires !s.worker.Delivering?
    ensures Owed(s, i) == QueueOwed(s.queue, i) + CallOwed(s, i)
  {
    assert [] + QueueOwed(s.queue, i) == QueueOwed(s.queue, i);
  }

  lemma DropOwes(s: Provider, i: nat)
    requires s.worker.Idle? && s.queue != [] && s.queue[0].DispatchTask? && s.queue[0].i == i
    requires i < |s.subs| && s.subs[i].closed
    ensures Owed(s, i) == [s.queue[0].credentials] + Owed(StepWork(s), i)
  {
    var t := StepWork(s);
    PopHead(s, i);
    CallOwedSame(s, t, i);
    IdleOwed(s, i);
    IdleOwed(t, i);
    Associative([s.queue[0].credentials], QueueOwed(t.queue, i), CallOwed(t, i));
  }

  lemma DropMoves(s: Provider, i: nat)
    requires s.worker.Idle? && s.queue != [] && s.queue[0].DispatchTask? && s.queue[0].i == i
    requires i < |s.subs| && s.subs[i].closed
    ensures Moves(s, StepWork(s), i, V.Dropped)
  {
    PopHead(s, i);
    DropOwes(s, i);
    assert ReplayOf(StepWork(s), i) == ReplayOf(s, i);
  }

  lemma TakeMoves(s: Provider, i: nat)
    requires s.worker.Idle? && s.queue != [] && s.queue[0].DispatchTask? && i < |s.subs|
    requires !(s.queue[0].i == i && s.subs[i].closed)
    ensures Moves(s, StepWork(s), i, V.Stay)
  {
    PopHead(s, i);
    ViewUntouched(s, StepWork(s), i);
  }

  lemma ViewDispatch(s: Provider, i: nat)
    requires s.worker.Idle? && s.queue != [] && s.queue[0].DispatchTask? && i < |s.subs| && ViewInv(s, i)
    ensures |StepWork(s).subs| == |s.subs| && ViewInv(StepWork(s), i)
  {
    if s.queue[0].i == i && s.subs[i].closed {
      DropMoves(s, i);
      MovesKeepInv(s, StepWork(s), i, V.Dropped);
    } else {
      TakeMoves(s, i);
      MovesKeepInv(s, StepWork(s), i, V.Stay);
    }
  }

  /** What a renewal in progress owes depends on nothing else. */
  lemma CallOwedSame(s: Provider, t: Provider, i: nat)
    requires t.calls == s.calls && t.list == s.list && t.renewing == s.renewing
    ensures CallOwed(t, i) == CallOwed(s, i)
  {
  }

  lemma StartOwes(s: Provider, i: nat)
    requires s.worker.Idle? && s.queue != [] && s.queue[0] == ReplayTask(i) && i < |s.subs|
    ensures Owed(s.(queue := s.queue[1..]), i) == Owed(s, i) && Owed(StepWork(s), i) == Owed(s, i)
  {
    var r, t := s.(queue := s.queue[1..]), StepWork(s);
    PopHead(s, i);
    assert t.calls == s.calls && t.list == s.list && t.renewing == s.renewing && t.queue == s.queue[1..];
    assert t.worker.ReplayRead?;
    CallOwedSame(s, r, i);
    CallOwedSame(s, t, i);
  }

  /** A replay starts that was waiting, for a subscription that is listed or closed. */
  lemma StartCan(s: Provider, i: nat)
    requires U.OpenInv(s) && ReplayInv(s) && i < |s.subs|
    requires s.worker.Idle? && s.queue != [] && s.queue[0] == ReplayTask(i)
    ensures V.Can(ViewOf(s, i), V.ReplayStarts)
  {
    assert TaskOk(s, s.queue[0]) && ReplayTask(i) in s.queue;
    assert s.subs[i].closed || U.Held(s, i);
  }

  lemma StartMoves(s: Provider, i: nat)
    requires U.OpenInv(s) && F.SuccessInv(s) && ReplayInv(s) && i < |s.subs|
    requires s.worker.Idle? && s.queue != [] && s.queue[0] == ReplayTask(i)
    ensures Moves(s, StepWork(s), i, V.ReplayStarts)
  {
    StartCan(s, i);
    StartOwes(s, i);
    StartReplays(s, i);
  }

  lemma StartReplays(s: Provider, i: nat)
    requires F.SuccessInv(s) && i < |s.subs| && s.worker.Idle? && s.queue != [] && s.queue[0] == ReplayTask(i)
    ensures ReplayOf(StepWork(s), i) == if s.swaps > 0 then V.Candidate(s.swaps) else V.NoCandidate
  {
  }

  lemma ViewStartReplay(s: Provider, i: nat)
    requires U.OpenInv(s) && F.SuccessInv(s) && ReplayInv(s) && i < |s.subs| && ViewInv(s, i)
    requires s.worker.Idle? && s.queue != [] && s.queue[0] == ReplayTask(i)
    ensures |StepWork(s).subs| == |s.subs| && ViewInv(StepWork(s), i)
  {
    StartMoves(s, i);
    MovesKeepInv(s, StepWork(s), i, V.ReplayStarts);
  }

  lemma SettleKeeps(s: Provider)
    requires s.worker.Idle? && s.queue != []
    requires s.queue[0].CompleteTask? || s.queue[0].FailTask? || s.queue[0].ErrorTask?
    ensures var t := StepWork(s); t == s.(queue := s.queue[1..], futures := t.futures, told := t.told)
  {
  }

  /** The task settles a future or reports an error. */
  lemma SettleView(s: Provider, i: nat)
    requires s.worker.Idle? && s.queue != [] && i < |s.subs|
    requires s.queue[0].CompleteTask? || s.queue[0].FailTask? || s.queue[0].ErrorTask?
    ensures StepWork(s).subs == s.subs && ViewOf(StepWork(s), i) == ViewOf(s, i)
  {
    SettleKeeps(s);
    PopHead(s, i);
    ViewUntouched(s, StepWork(s), i);
  }

  lemma ReplayKeeps(s: Provider, i: nat)
    requires s.worker.Idle? && s.queue != [] && s.queue[0].ReplayTask? && s.queue[0].i < |s.subs|
    requires i < |s.subs| && s.queue[0].i != i
    ensures var t := StepWork(s);
            && |t.subs| == |s.subs| && t.subs[i] == s.subs[i] && t.list == s.list && t.swaps == s.swaps
            && t.calls == s.calls && t.renewing == s.renewing && t.queue == s.queue[1..]
            && t.worker.ReplayRead? && t.worker.i == s.queue[0].i
  {
  }

  /** The task replays to another subscription. */
  lemma OtherReplayView(s: Provider, i: nat)
    requires ReplayInv(s) && s.worker.Idle? && s.queue != [] && i < |s.subs|
    requires s.queue[0].ReplayTask? && s.queue[0] != ReplayTask(i)
    ensures |StepWork(s).subs| == |s.subs| && ViewOf(StepWork(s), i) == ViewOf(s, i)
  {
    assert TaskOk(s, s.queue[0]);
    ReplayKeeps(s, i);
    PopHead(s, i);
    ViewUntouched(s, StepWork(s), i);
  }

  lemma SettleMoves(s: Provider, i: nat)
    requires ReplayInv(s) && s.worker.Idle? && s.queue != [] && i < |s.subs|
    requires !s.queue[0].DispatchTask? && s.queue[0] != ReplayTask(i)
    ensures Moves(s, StepWork(s), i, V.Stay)
  {
    if s.queue[0].ReplayTask? {
      OtherReplayView(s, i);
    } else {
      SettleView(s, i);
    }
  }

  lemma ViewStart(s: Provider, i: nat)
    requires U.OpenInv(s) && F.SuccessInv(s) && ReplayInv(s) && i < |s.subs| && ViewInv(s, i)
    requires s.worker.Idle? && s.queue != []
    ensures |StepWork(s).subs| == |s.subs| && ViewInv(StepWork(s), i)
  {
    if s.queue[0].DispatchTask? {
      ViewDispatch(s, i);
    } else if s.queue[0] == ReplayTask(i) {
      ViewStartReplay(s, i);
    } else {
      SettleMoves(s, i);
      MovesKeepInv(s, StepWork(s), i, V.Stay);
    }
  }

  /** What a step of the executor inside a task leaves alone. */
  lemma BusyKeeps(s: Provider)
    requires !s.worker.Idle?
    ensures var t := StepWork(s);
            && t.calls == s.calls && t.list == s.list && t.renewing == s.renewing && t.queue == s.queue
            && t.swaps == s.swaps && t.futures == s.futures && |t.subs| == |s.subs| && !t.worker.Delivering?
            && forall i :: 0 <= i < |s.subs| ==> t.subs[i].owner == s.subs[i].owner
  {
  }

  lemma BusyOwes(s: Provider, t: Provider, i: nat)
    requires t.calls == s.calls && t.list == s.list && t.renewing == s.renewing && t.queue == s.queue
    requires !t.worker.Delivering?
    ensures Owed(s, i) == WorkerOwed(s.worker, i) + Owed(t, i)
  {
    assert CallOwed(t, i) == CallOwed(s, i);
  }

  lemma DeliverMoves(s: Provider, i: nat)
    requires s.worker.Delivering? && s.worker.i == i < |s.subs|
    ensures Moves(s, StepWork(s), i, V.Dispatched)
  {
    var t := StepWork(s);
    BusyKeeps(s);
    BusyOwes(s, t, i);
    assert Owed(s, i) == [s.worker.credentials] + Owed(t, i);
    assert t.worker.Idle? && ReplayOf(t, i) == ReplayOf(s, i);
  }

  lemma ViewDeliver(s: Provider, i: nat)
    requires s.worker.Delivering? && i < |s.subs| && ViewInv(s, i)
    ensures |StepWork(s).subs| == |s.subs| && ViewInv(StepWork(s), i)
  {
    if s.worker.i == i {
      DeliverMoves(s, i);
      MovesKeepInv(s, StepWork(s), i, V.Dispatched);
    } else {
      ViewUntouched(s, StepWork(s), i);
    }
  }

  ghost function ReplayMove(s: Provider, i: nat): V.Move
    requires WorkerReplays(s.worker, i) && i < |s.subs|
  {
    match s.worker
    case ReplayRead(_, f) => if f < |s.futures| && s.futures[f].Succeeded? then V.Stay else V.ReplayEnds
    case ReplayCheck(_, _) => if s.subs[i].closed then V.ReplayEnds else V.ReplayChecked
    case Replaying(_, _) => V.ReplayPlays
  }

  lemma ReplayMoves(s: Provider, i: nat)
    requires WorkerOk(s, s.worker) && i < |s.subs| && WorkerReplays(s.worker, i)
    ensures Moves(s, StepWork(s), i, ReplayMove(s, i))
  {
    var t := StepWork(s);
    BusyKeeps(s);
    BusyOwes(s, t, i);
    assert !OwnerAwaits(t, i) && ReplayTask(i) !in t.queue;
  }

  lemma ElsewhereMoves(s: Provider, i: nat)
    requires i < |s.subs| && !WorkerReplays(s.worker, i) && !s.worker.Idle? && !s.worker.Delivering?
    ensures Moves(s, StepWork(s), i, V.Stay)
  {
    ViewUntouched(s, StepWork(s), i);
  }

  lemma ViewReplay(s: Provider, i: nat)
    requires ReplayInv(s) && !s.worker.Idle? && !s.worker.Delivering? && i < |s.subs| && ViewInv(s, i)
    ensures |StepWork(s).subs| == |s.subs| && ViewInv(StepWork(s), i)
  {
    if WorkerReplays(s.worker, i) {
      ReplayMoves(s, i);
      MovesKeepInv(s, StepWork(s), i, ReplayMove(s, i));
    } else {
      ElsewhereMoves(s, i);
      MovesKeepInv(s, StepWork(s), i, V.Stay);
    }
  }

  lemma ViewWork(s: Provider, i: nat)
    requires U.OpenInv(s) && F.SuccessInv(s) && ReplayInv(s) && Enabled(s, Work) && i < |s.subs| && ViewInv(s, i)
    ensures |StepWork(s).subs| == |s.subs| && ViewInv(StepWork(s), i)
  {
    if s.worker.Idle? {
      ViewStart(s, i);
    } else if s.worker.Delivering? {
      ViewDeliver(s, i);
    } else {
      ViewReplay(s, i);
    }
  }

  // ----- What every run keeps -----

  ghost predicate ViewsInv(s: Provider) {
    forall i :: 0 <= i < |s.subs| ==> ViewInv(s, i)
  }

  ghost predicate Inv(s: Provider) {
    && F.SuccessInv(s) && U.Inv(s)
    && (!s.overlapped ==> RenewalInv(s) && ReplayInv(s) && ViewsInv(s) && (s.renewing.Some? ==> s.swaps > 0))
  }

  lemma InitialInv(s: Provider)
    requires Initial(s)
    ensures Inv(s)
  {
  }

  lemma ViewStep(s: Provider, a: Action, i: nat)
    requires Inv(s) && Enabled(s, a) && !Apply(s, a).overlapped && !s.overlapped
    requires i < |s.subs|
    ensures i < |Apply(s, a).subs| && ViewInv(Apply(s, a), i)
  {
    assert ViewInv(s, i);
    if a.Work? {
      ViewWork(s, i);
    } else if a.Leave? {
      ViewLeave(s, a.k, i);
    } else if InRenew(s.calls[a.k]) {
      if s.calls[a.k].Swapping? {
        ViewSwap(s, a.k, i);
      } else {
        ViewRenew(s, a.k, i);
      }
    } else if InError(s.calls[a.k]) {
      ViewError(s, a.k, i);
    } else if InClose(s.calls[a.k]) {
      ViewClose(s, a.k, i);
    } else {
      ViewSubscribe(s, a.k, i);
    }
  }

  lemma ReplayStep(s: Provider, a: Action)
    requires Inv(s) && Enabled(s, a) && !s.overlapped
    ensures ReplayInv(Apply(s, a))
  {
    if a.Work? {
      ReplayWork(s);
    } else if a.Leave? {
      ReplayLeave(s, a.k);
    } else if InRenew(s.calls[a.k]) {
      ReplayRenew(s, a.k);
    } else if InError(s.calls[a.k]) {
      ReplayError(s, a.k);
    } else if InClose(s.calls[a.k]) {
      ReplayClose(s, a.k);
    } else {
      ReplaySubscribe(s, a.k);
    }
  }

  lemma AddingSubscribes(s: Provider, k: nat)
    requires k < |s.calls| && s.calls[k].Adding?
    ensures Enabled(s, Step(k)) && Apply(s, Step(k)) == StepSubscribe(s, k)
  {
  }

  /** The subscription that a step adds starts with the invariant. */
  lemma ViewAdded(s: Provider, k: nat)
    requires U.OwnerInv(s) && RenewalInv(s) && ReplayInv(s) && F.SuccessInv(s) && (s.renewing.Some? ==> s.swaps > 0)
    requires k < |s.calls| && s.calls[k].Adding? && Enabled(s, Step(k))
    ensures |Apply(s, Step(k)).subs| == |s.subs| + 1 && ViewInv(Apply(s, Step(k)), |s.subs|)
  {
    AddingSubscribes(s, k);
    ViewNew(s, k);
  }

  lemma ViewAtEnd(s: Provider, a: Action)
    requires U.OwnerInv(s) && RenewalInv(s) && ReplayInv(s) && F.SuccessInv(s) && (s.renewing.Some? ==> s.swaps > 0)
    requires Enabled(s, a) && |Apply(s, a).subs| > |s.subs|
    ensures |Apply(s, a).subs| == |s.subs| + 1 && ViewInv(Apply(s, a), |s.subs|)
  {
    OnlyAddingCreates(s, a);
    var k := a.k;
    assert a == Step(k);
    ViewAdded(s, k);
  }

  lemma ViewAfter(s: Provider, a: Action, i: nat)
    requires Inv(s) && Enabled(s, a) && !s.overlapped && !Apply(s, a).overlapped && i < |Apply(s, a).subs|
    ensures ViewInv(Apply(s, a), i)
  {
    if i < |s.subs| {
      ViewStep(s, a, i);
    } else {
      ViewAtEnd(s, a);
    }
  }

  lemma ViewsStep(s: Provider, a: Action)
    requires Inv(s) && Enabled(s, a) && !s.overlapped && !Apply(s, a).overlapped
    ensures ViewsInv(Apply(s, a))
  {
    forall i | 0 <= i < |Apply(s, a).subs|
      ensures ViewInv(Apply(s, a), i)
    {
      ViewAfter(s, a, i);
    }
  }

  lemma StepKeepsInv(s: Provider, a: Action)
    requires Inv(s) && Enabled(s, a)
    ensures Inv(Apply(s, a))
  {
    F.SuccessStep(s, a);
    U.StepKeepsInv(s, a);
    OverlapStays(s, a);
    if !Apply(s, a).overlapped {
      RenewalStep(s, a);
      ReplayStep(s, a);
      ViewsStep(s, a);
    }
  }

  /** Renewals are only ever added, and so is the record that two overlapped. */
  lemma OverlapStays(s: Provider, a: Action)
    requires Enabled(s, a)
    ensures var t := Apply(s, a);
            && (s.overlapped ==> t.overlapped) && s.swaps <= t.swaps
            && (t.renewing.Some? ==> t.renewing == s.renewing || t.swaps > 0)
  {
    if a.Work? {
      F.WorkSettles(s);
    } else if a.Step? && !InRenew(s.calls[a.k]) {
      if InError(s.calls[a.k]) {
        QuietError(s, a.k);
      } else if InClose(s.calls[a.k]) {
        QuietClose(s, a.k);
      } else {
        QuietSubscribe(s, a.k);
      }
    }
  }

  lemma CallsKeepSubs(s: Provider, k: nat)
    requires k < |s.calls|
    ensures InRenew(s.calls[k]) ==> StepRenew(s, k).subs == s.subs
    ensures InError(s.calls[k]) ==> StepError(s, k).subs == s.subs
  {
  }

  lemma CloseKeepsSubs(s: Provider, k: nat)
    requires k < |s.calls|
    ensures InClose(s.calls[k]) ==> |StepClose(s, k).subs| == |s.subs|
    ensures InSubscribe(s.calls[k]) ==>
              |StepSubscribe(s, k).subs| == |s.subs| + if s.calls[k].Adding? then 1 else 0
  {
  }

  lemma OnlyAddingCreates(s: Provider, a: Action)
    requires Enabled(s, a) && |Apply(s, a).subs| > |s.subs|
    ensures a.Step? && s.calls[a.k].Adding? && |Apply(s, a).subs| == |s.subs| + 1
  {
    if a.Work? {
      F.WorkSettles(s);
    } else if a.Step? {
      CallsKeepSubs(s, a.k);
      CloseKeepsSubs(s, a.k);
    }
  }

  lemma {:induction false} RunKeepsInv(s: Provider, run: seq<Action>)
    requires Inv(s) && Exec(s, run).Some?
    ensures Inv(Exec(s, run).value)
  {
    if run != [] {
      var n := |run| - 1;
      RunKeepsInv(s, run[..n]);
      StepKeepsInv(Exec(s, run[..n]).value, run[n]);
    }
  }

  // ----- What follows for every run -----

  /** With renewals one at a time, a subscriber whose replay never found two or more dispatches outstanding sees
      credentials in the order they were renewed, each once. */
  lemma DeliveryOrder(init: Provider, run: seq<Action>, i: nat)
    requires Initial(init) && Exec(init, run).Some? && !Exec(init, run).value.overlapped
    requires i < |Exec(init, run).value.subs| && !Exec(init, run).value.subs[i].hasty
    ensures V.Increasing(Exec(init, run).value.subs[i].delivered)
  {
    InitialInv(init);
    RunKeepsInv(init, run);
    assert ViewInv(Exec(init, run).value, i);
  }

  /** Every call has returned or not started, and the executor has nothing left to do. */
  ghost predicate Quiescent(s: Provider) {
    && s.queue == [] && s.worker.Idle?
    && forall k :: 0 <= k < |s.calls| ==> F.AtRest(s.calls[k])
  }

  /** At rest, an open subscription was last delivered the latest credentials, if there are any; no delivery repeats the
      one before; and the deliveries are in renewal order exactly if the replay was not hasty. */
  lemma DeliveryConvergence(init: Provider, run: seq<Action>, i: nat)
    requires Initial(init) && Exec(init, run).Some? && !Exec(init, run).value.overlapped
    requires var s := Exec(init, run).value; Quiescent(s) && i < |s.subs| && !s.subs[i].closed
    ensures var s := Exec(init, run).value;
            var delivered := s.subs[i].delivered;
            && (s.swaps > 0 ==> delivered != [] && delivered[|delivered| - 1] == s.swaps)
            && V.NoRepeat(delivered)
            && (V.Increasing(delivered) <==> !s.subs[i].hasty)
  {
    InitialInv(init);
    RunKeepsInv(init, run);
    assert ViewInv(Exec(init, run).value, i);
    AtRestCaughtUp(Exec(init, run).value, i);
  }

  /** At rest nothing is owed to an open subscription, its replay is over, and it is on the list. */
  lemma AtRestNothingOwed(s: Provider, i: nat)
    requires U.Inv(s) && RenewalInv(s) && Quiescent(s) && i < |s.subs| && !s.subs[i].closed
    ensures var v := ViewOf(s, i); v.owed == [] && v.replay.Over? && v.listed
  {
    assert U.SubOk(s, i);
    if s.renewing.Some? {
      assert RenewalOk(s, s.renewing.value);
    }
  }

  lemma AtRestCaughtUp(s: Provider, i: nat)
    requires U.Inv(s) && RenewalInv(s) && Quiescent(s) && i < |s.subs| && !s.subs[i].closed && ViewInv(s, i)
    ensures var delivered := s.subs[i].delivered;
            && (s.swaps > 0 ==> delivered != [] && delivered[|delivered| - 1] == s.swaps)
            && V.NoRepeat(delivered)
            && (V.Increasing(delivered) <==> !s.subs[i].hasty)
  {
    AtRestNothingOwed(s, i);
    var v := ViewOf(s, i);
    V.RestIsCaughtUp(v);
  }
}
