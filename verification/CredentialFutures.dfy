/**
 The futures a credentials provider hands out: none is left pending once the provider is closed and idle, and a
 successful renewal is never undone.
 */
module CredentialFutures {
  import opened Options
  import opened Credentials

  // ----- Every pending future is current or owed -----

  /** The call has taken future f out of the reference and will submit its completion. */
  ghost predicate Owes(p: Pc, f: nat) {
    (p.Swapped? || p.QueueComplete? || p.QueueFail?) && p.f == f
  }

  ghost predicate Settles(task: Task, f: nat) {
    (task.CompleteTask? || task.FailTask?) && task.f == f
  }

  ghost predicate OwedByCall(s: Provider, f: nat) {
    exists k :: 0 <= k < |s.calls| && Owes(s.calls[k], f)
  }

  ghost predicate OwedByTask(s: Provider, f: nat) {
    exists j :: 0 <= j < |s.queue| && Settles(s.queue[j], f)
  }

  ghost predicate DebtInv(s: Provider) {
    && s.ref < |s.futures|
    && forall f :: 0 <= f < |s.futures| && s.futures[f].Pending? ==> f == s.ref || OwedByCall(s, f) || OwedByTask(s, f)
  }

  lemma OwedByCallStays(s: Provider, t: Provider, k: nat, f: nat)
    requires OwedByCall(s, f) && k < |s.calls| == |t.calls|
    requires t.calls == s.calls[k := t.calls[k]] && (Owes(s.calls[k], f) ==> Owes(t.calls[k], f))
    ensures OwedByCall(t, f)
  {
    var j :| 0 <= j < |s.calls| && Owes(s.calls[j], f);
    assert Owes(t.calls[j], f);
  }

  lemma OwedByTaskStays(s: Provider, t: Provider, f: nat)
    requires OwedByTask(s, f) && s.queue <= t.queue
    ensures OwedByTask(t, f)
  {
    var j :| 0 <= j < |s.queue| && Settles(s.queue[j], f);
    assert Settles(t.queue[j], f);
  }

  /** A call moves on: futures settle or are added, and whatever the call owed it still owes or has submitted. */
  lemma DebtFrame(s: Provider, t: Provider, k: nat)
    requires DebtInv(s) && k < |s.calls| == |t.calls| && t.calls == s.calls[k := t.calls[k]]
    requires s.queue <= t.queue && t.ref < |t.futures| && |s.futures| <= |t.futures|
    requires forall f :: 0 <= f < |s.futures| && t.futures[f].Pending? ==> s.futures[f].Pending?
    requires forall f :: |s.futures| <= f < |t.futures| && t.futures[f].Pending? ==> f == t.ref
    requires t.ref != s.ref ==> Owes(t.calls[k], s.ref)
    requires forall f :: IsPending(t, f) && Owes(s.calls[k], f) ==> Owes(t.calls[k], f) || OwedByTask(t, f)
    ensures DebtInv(t)
  {
    forall f | 0 <= f < |t.futures| && t.futures[f].Pending?
      ensures f == t.ref || OwedByCall(t, f) || OwedByTask(t, f)
    {
      if f < |s.futures| && f != t.ref {
        if f == s.ref {
          assert Owes(t.calls[k], f);
        } else if OwedByTask(s, f) {
          OwedByTaskStays(s, t, f);
        } else if !OwedByTask(t, f) {
          OwedByCallStays(s, t, k, f);
        }
      }
    }
  }

  lemma DebtRenew(s: Provider, k: nat)
    requires DebtInv(s) && k < |s.calls| && InRenew(s.calls[k])
    ensures DebtInv(StepRenew(s, k))
  {
    var t := StepRenew(s, k);
    if s.calls[k].QueueComplete? {
      assert Settles(t.queue[|s.queue|], s.calls[k].f);
    }
    DebtFrame(s, t, k);
  }

  lemma DebtError(s: Provider, k: nat)
    requires DebtInv(s) && k < |s.calls| && InError(s.calls[k])
    ensures DebtInv(StepError(s, k))
  {
    var t := StepError(s, k);
    if s.calls[k].QueueFail? {
      assert Settles(t.queue[|s.queue|], s.calls[k].f);
    }
    DebtFrame(s, t, k);
  }

  lemma DebtWork(s: Provider)
    requires DebtInv(s) && Enabled(s, Work)
    ensures DebtInv(StepWork(s))
  {
    var t := StepWork(s);
    forall f | 0 <= f < |t.futures| && t.futures[f].Pending?
      ensures f == t.ref || OwedByCall(t, f) || OwedByTask(t, f)
    {
      if OwedByCall(s, f) {
        var k :| 0 <= k < |s.calls| && Owes(s.calls[k], f);
        assert Owes(t.calls[k], f);
      } else if OwedByTask(s, f) {
        var j :| 0 <= j < |s.queue| && Settles(s.queue[j], f);
        assert s.worker.Idle? && j > 0 ==> Settles(t.queue[j - 1], f);
        assert !s.worker.Idle? ==> Settles(t.queue[j], f);
      }
    }
  }

  lemma DebtClose(s: Provider, k: nat)
    requires DebtInv(s) && k < |s.calls| && InClose(s.calls[k])
    ensures DebtInv(StepClose(s, k))
  {
    DebtFrame(s, StepClose(s, k), k);
  }

  lemma DebtSubscribe(s: Provider, k: nat)
    requires DebtInv(s) && k < |s.calls| && InSubscribe(s.calls[k])
    ensures DebtInv(StepSubscribe(s, k))
  {
    DebtFrame(s, StepSubscribe(s, k), k);
  }

  lemma DebtLeave(s: Provider, k: nat)
    requires DebtInv(s) && Enabled(s, Leave(k))
    ensures DebtInv(Apply(s, Leave(k)))
  {
    DebtFrame(s, Apply(s, Leave(k)), k);
  }

  lemma DebtStep(s: Provider, a: Action)
    requires DebtInv(s) && Enabled(s, a)
    ensures DebtInv(Apply(s, a))
  {
    if a.Work? {
      DebtWork(s);
    } else if a.Leave? {
      DebtLeave(s, a.k);
    } else if InRenew(s.calls[a.k]) {
      DebtRenew(s, a.k);
    } else if InError(s.calls[a.k]) {
      DebtError(s, a.k);
    } else if InClose(s.calls[a.k]) {
      DebtClose(s, a.k);
    } else {
      DebtSubscribe(s, a.k);
    }
  }

  // ----- After close, a pending current future has someone to fail it -----

  /** The call will fail the current future: a closer that has not got past it, or an error thread between its
      compare-and-set and its re-check. */
  ghost predicate Rescues(p: Pc, ref: nat) {
    || p.CloseGetting? || p.QueueFail? || p.ErrorRecheck? || p.ErrorReget?
    || ((p.CloseFailing? || p.ErrorFailing?) && p.f == ref)
  }

  ghost predicate RescueInv(s: Provider) {
    s.isClosed && IsPending(s, s.ref) ==> exists k :: 0 <= k < |s.calls| && Rescues(s.calls[k], s.ref)
  }

  lemma RescueFrame(s: Provider, t: Provider, k: nat)
    requires RescueInv(s) && k < |s.calls| == |t.calls| && t.calls == s.calls[k := t.calls[k]]
    requires t.isClosed && IsPending(t, t.ref) ==>
               || Rescues(t.calls[k], t.ref)
               || (s.isClosed && t.ref == s.ref && IsPending(s, s.ref) && !Rescues(s.calls[k], s.ref))
    ensures RescueInv(t)
  {
    if t.isClosed && IsPending(t, t.ref) && !Rescues(t.calls[k], t.ref) {
      var j :| 0 <= j < |s.calls| && Rescues(s.calls[j], s.ref);
      assert Rescues(t.calls[j], t.ref);
    }
  }

  lemma RescueRenewSubscribe(s: Provider, k: nat)
    requires RescueInv(s) && s.ref < |s.futures| && k < |s.calls|
    ensures InRenew(s.calls[k]) ==> RescueInv(StepRenew(s, k))
    ensures InSubscribe(s.calls[k]) ==> RescueInv(StepSubscribe(s, k))
  {
    if InRenew(s.calls[k]) {
      RescueFrame(s, StepRenew(s, k), k);
    } else if InSubscribe(s.calls[k]) {
      RescueFrame(s, StepSubscribe(s, k), k);
    }
  }

  lemma RescueErrorClose(s: Provider, k: nat)
    requires RescueInv(s) && s.ref < |s.futures| && k < |s.calls|
    ensures InError(s.calls[k]) ==> RescueInv(StepError(s, k))
    ensures InClose(s.calls[k]) ==> RescueInv(StepClose(s, k))
  {
    if InError(s.calls[k]) {
      RescueFrame(s, StepError(s, k), k);
    } else if InClose(s.calls[k]) {
      RescueFrame(s, StepClose(s, k), k);
    }
  }

  /** Starting a task settles at most the future it names. */
  lemma TaskSettles(s: Provider, task: Task)
    ensures var t := StartTask(s, task);
            && t.queue == s.queue && t.ref == s.ref && t.isClosed == s.isClosed && t.calls == s.calls
            && t.swaps == s.swaps && t.list == s.list && |t.subs| == |s.subs| && |t.futures| == |s.futures|
            && forall f :: 0 <= f < |s.futures| && t.futures[f] != s.futures[f] ==>
                 && s.futures[f].Pending? && Settles(task, f)
                 && t.futures[f] == if task.FailTask? then Failed else Succeeded(task.credentials)
  {
  }

  /** The executor settles futures and does not touch the reference. */
  lemma WorkSettles(s: Provider)
    requires Enabled(s, Work)
    ensures var t := StepWork(s);
            && t.ref == s.ref && t.isClosed == s.isClosed && t.calls == s.calls && t.swaps == s.swaps
            && t.list == s.list && |t.futures| == |s.futures| && |t.subs| == |s.subs|
            && t.queue == (if s.worker.Idle? then s.queue[1..] else s.queue)
            && forall f :: 0 <= f < |s.futures| && t.futures[f] != s.futures[f] ==>
                 && s.worker.Idle? && s.futures[f].Pending? && Settles(s.queue[0], f)
                 && t.futures[f] == if s.queue[0].FailTask? then Failed else Succeeded(s.queue[0].credentials)
  {
    if s.worker.Idle? {
      TaskSettles(s.(queue := s.queue[1..]), s.queue[0]);
    }
  }

  lemma RescueStep(s: Provider, a: Action)
    requires RescueInv(s) && s.ref < |s.futures| && Enabled(s, a)
    ensures RescueInv(Apply(s, a))
  {
    if a.Work? {
      WorkSettles(s);
    } else if a.Leave? {
      RescueFrame(s, Apply(s, a), a.k);
    } else {
      RescueRenewSubscribe(s, a.k);
      RescueErrorClose(s, a.k);
    }
  }

  // ----- Success is permanent -----

  ghost predicate SuccessInv(s: Provider) {
    && s.ref < |s.futures|
    && (s.swaps > 0 ==> s.futures[s.ref] == Succeeded(s.swaps))
    && (s.swaps == 0 ==> !s.futures[s.ref].Succeeded?)
    && (forall k :: 0 <= k < |s.calls| ==> PcOk(s, s.calls[k]))
    && (forall j :: 0 <= j < |s.queue| ==> TaskOk(s, s.queue[j]))
  }

  ghost predicate PcOk(s: Provider, p: Pc) {
    && (p.ErrorLooking? || p.ErrorReplacing? ==> p.f < |s.futures|)
    && (p.ErrorReplacing? && s.swaps > 0 ==> p.f != s.ref)
    && (p.Swapped? || p.QueueComplete? ==> p.f != s.ref && p.f < |s.futures|)
  }

  ghost predicate TaskOk(s: Provider, task: Task) {
    task.CompleteTask? ==> task.f != s.ref && task.f < |s.futures|
  }

  /** A call moves on without a successful renewal. */
  lemma SuccessFrame(s: Provider, t: Provider, k: nat)
    requires SuccessInv(s) && k < |s.calls| == |t.calls| && t.calls == s.calls[k := t.calls[k]]
    requires t.swaps == s.swaps && |s.futures| <= |t.futures| && t.ref < |t.futures|
    requires if s.swaps > 0 then t.ref == s.ref && t.futures[s.ref] == s.futures[s.ref]
             else !t.futures[t.ref].Succeeded? && (t.ref == s.ref || t.ref >= |s.futures|)
    requires PcOk(t, t.calls[k])
    requires t.queue == s.queue || exists task :: t.queue == s.queue + [task] && TaskOk(t, task)
    ensures SuccessInv(t)
  {
    forall j | 0 <= j < |t.calls|
      ensures PcOk(t, t.calls[j])
    {
      assert PcOk(s, s.calls[j]);
    }
    forall j | 0 <= j < |t.queue|
      ensures TaskOk(t, t.queue[j])
    {
      assert j < |s.queue| ==> TaskOk(s, s.queue[j]);
    }
  }

  lemma SuccessRenew(s: Provider, k: nat)
    requires SuccessInv(s) && k < |s.calls| && InRenew(s.calls[k])
    ensures SuccessInv(StepRenew(s, k))
  {
    var t := StepRenew(s, k);
    assert PcOk(s, s.calls[k]);
    if s.calls[k].Swapping? {
      forall j | 0 <= j < |t.calls|
        ensures PcOk(t, t.calls[j])
      {
        assert PcOk(s, s.calls[j]);
      }
      assert forall j :: 0 <= j < |s.queue| ==> TaskOk(s, s.queue[j]);
    } else {
      SuccessFrame(s, t, k);
    }
  }

  lemma SuccessError(s: Provider, k: nat)
    requires SuccessInv(s) && k < |s.calls| && InError(s.calls[k])
    ensures SuccessInv(StepError(s, k))
  {
    assert PcOk(s, s.calls[k]);
    SuccessFrame(s, StepError(s, k), k);
  }

  lemma SuccessClose(s: Provider, k: nat)
    requires SuccessInv(s) && k < |s.calls| && InClose(s.calls[k])
    ensures SuccessInv(StepClose(s, k))
  {
    SuccessFrame(s, StepClose(s, k), k);
  }

  lemma SuccessSubscribe(s: Provider, k: nat)
    requires SuccessInv(s) && k < |s.calls| && InSubscribe(s.calls[k])
    ensures SuccessInv(StepSubscribe(s, k))
  {
    SuccessFrame(s, StepSubscribe(s, k), k);
  }

  lemma SuccessWork(s: Provider)
    requires SuccessInv(s) && Enabled(s, Work)
    ensures SuccessInv(StepWork(s))
  {
    var t := StepWork(s);
    WorkSettles(s);
    assert s.worker.Idle? ==> TaskOk(s, s.queue[0]);
    assert t.futures[t.ref] == s.futures[s.ref] || t.futures[t.ref].Failed?;
    forall j | 0 <= j < |t.queue|
      ensures TaskOk(t, t.queue[j])
    {
      assert TaskOk(s, s.queue[if s.worker.Idle? then j + 1 else j]);
    }
    forall j | 0 <= j < |t.calls|
      ensures PcOk(t, t.calls[j])
    {
      assert PcOk(s, s.calls[j]);
    }
  }

  lemma SuccessStep(s: Provider, a: Action)
    requires SuccessInv(s) && Enabled(s, a)
    ensures SuccessInv(Apply(s, a))
  {
    if a.Work? {
      SuccessWork(s);
    } else if a.Leave? {
      SuccessFrame(s, Apply(s, a), a.k);
    } else if InRenew(s.calls[a.k]) {
      SuccessRenew(s, a.k);
    } else if InError(s.calls[a.k]) {
      SuccessError(s, a.k);
    } else if InClose(s.calls[a.k]) {
      SuccessClose(s, a.k);
    } else {
      SuccessSubscribe(s, a.k);
    }
  }

  // ----- What follows for every run -----

  ghost predicate Inv(s: Provider) {
    DebtInv(s) && RescueInv(s) && SuccessInv(s)
  }

  lemma InitialInv(s: Provider)
    requires Initial(s)
    ensures Inv(s)
  {
  }

  lemma StepKeepsInv(s: Provider, a: Action)
    requires Inv(s) && Enabled(s, a)
    ensures Inv(Apply(s, a))
  {
    DebtStep(s, a);
    RescueStep(s, a);
    SuccessStep(s, a);
  }

  lemma {:induction false} RunKeepsInv(s: Provider, run: seq<Action>)
    requires Inv(s) && Exec(s, run).Some?
    ensures Inv(Exec(s, run).value)
  {
    if run != [] {
      var n := |run| - 1;
      RunKeepsInv(s, run[..n]);
      StepKeepsInv(Exec(s, run[..n]).value, run[n]);
    }
  }

  /** The call has returned, or has not started. */
  ghost predicate AtRest(p: Pc) {
    NotCalled(p) || !Running(p)
  }

  /** Once the provider is closed, every call has returned and the executor has run its tasks, no future that was ever
      in the reference is pending. */
  lemma NoHangingResolve(init: Provider, run: seq<Action>)
    requires Initial(init) && Exec(init, run).Some?
    requires var s := Exec(init, run).value;
             && s.isClosed && s.queue == []
             && forall k :: 0 <= k < |s.calls| ==> AtRest(s.calls[k])
    ensures var s := Exec(init, run).value;
            forall f :: 0 <= f < |s.futures| ==> !s.futures[f].Pending?
  {
    InitialInv(init);
    RunKeepsInv(init, run);
    NonePending(Exec(init, run).value);
  }

  lemma NonePending(s: Provider)
    requires Inv(s) && s.isClosed && s.queue == [] && forall k :: 0 <= k < |s.calls| ==> AtRest(s.calls[k])
    ensures forall f :: 0 <= f < |s.futures| ==> !s.futures[f].Pending?
  {
  }

  /** Futures keep their outcome and swaps are only added. */
  ghost predicate Keeps(s: Provider, t: Provider) {
    && |s.futures| <= |t.futures| && s.swaps <= t.swaps
    && forall f :: 0 <= f < |s.futures| && !s.futures[f].Pending? ==> t.futures[f] == s.futures[f]
  }

  lemma CallKeeps(s: Provider, k: nat)
    requires k < |s.calls|
    ensures InRenew(s.calls[k]) ==> Keeps(s, StepRenew(s, k))
    ensures InError(s.calls[k]) ==> Keeps(s, StepError(s, k))
    ensures InClose(s.calls[k]) ==> Keeps(s, StepClose(s, k))
    ensures InSubscribe(s.calls[k]) ==> Keeps(s, StepSubscribe(s, k))
  {
  }

  lemma StepKeeps(s: Provider, a: Action)
    requires Enabled(s, a)
    ensures Keeps(s, Apply(s, a))
  {
    if a.Work? {
      WorkSettles(s);
    } else if a.Step? {
      CallKeeps(s, a.k);
    }
  }

  lemma {:induction false} SettledForever(s: Provider, run: seq<Action>)
    requires Exec(s, run).Some?
    ensures Keeps(s, Exec(s, run).value)
  {
    if run != [] {
      var n := |run| - 1;
      SettledForever(s, run[..n]);
      StepKeeps(Exec(s, run[..n]).value, run[n]);
    }
  }

  /** From the first renewal on, the reference holds the credentials of the latest swap, whatever errors and closes
      interleave; and a future, once done, keeps its outcome. */
  lemma SuccessIsPermanent(init: Provider, run: seq<Action>, more: seq<Action>)
    requires Initial(init) && Exec(init, run).Some? && Exec(Exec(init, run).value, more).Some?
    requires Exec(init, run).value.swaps > 0
    ensures var s := Exec(init, run).value;
            var t := Exec(s, more).value;
            && t.ref < |t.futures| && t.futures[t.ref] == Succeeded(t.swaps)
            && Keeps(s, t)
  {
    InitialInv(init);
    RunKeepsInv(init, run);
    var s := Exec(init, run).value;
    RunKeepsInv(s, more);
    SettledForever(s, more);
  }
}
