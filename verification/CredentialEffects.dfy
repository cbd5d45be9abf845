/**
 What single calls of the provider bring about, whatever runs beside them: a subscription its subscriber closed stays
 silent, an error reaches every subscription it lists, and a closed provider takes nothing up any more.
 */
module CredentialEffects {
  import opened Options
  import opened Credentials
  import U = CredentialSubscribers

  // ----- A subscriber closes its subscription -----

  /** The executor is past its check of `closed` for subscription i. */
  ghost predicate IsHalfWay(w: Worker, i: nat) {
    (w.Delivering? || w.Replaying?) && w.i == i
  }

  /** The errors subscription i was told of. */
  ghost function ToldOf(told: seq<(nat, nat)>, i: nat): seq<nat> {
    if told == [] then []
    else ToldOf(told[..|told| - 1], i) + if told[|told| - 1].0 == i then [told[|told| - 1].1] else []
  }

  /** Since call k closed subscription i, with `before` delivered and a delivery of `due` perhaps under way then. */
  ghost predicate Left(u: Provider, k: nat, i: nat, before: seq<nat>, due: Option<nat>) {
    && i < |u.subs| && u.subs[i].closed && k < |u.calls|
    && (u.calls[k] == Removing(i) || (u.calls[k].Finished? && i !in u.list))
    && if IsHalfWay(u.worker, i) then u.subs[i].delivered == before && due == Some(u.worker.credentials)
       else u.subs[i].delivered == before || (due.Some? && u.subs[i].delivered == before + [due.value])
  }

  /** Call j moves on without touching what concerns a closed subscription i. */
  ghost predicate Spares(u: Provider, v: Provider, j: nat, i: nat) {
    && j < |u.calls| == |v.calls| && v.calls == u.calls[j := v.calls[j]] && v.worker == u.worker && v.told == u.told
    && i < |u.subs| <= |v.subs|
    && v.subs[i].delivered == u.subs[i].delivered && (u.subs[i].closed ==> v.subs[i].closed)
    && (i in v.list ==> i in u.list) && u.queue <= v.queue
  }

  lemma RenewSpares(u: Provider, j: nat, i: nat)
    requires j < |u.calls| && InRenew(u.calls[j]) && i < |u.subs|
    ensures Spares(u, StepRenew(u, j), j, i)
  {
  }

  lemma ErrorSpares(u: Provider, j: nat, i: nat)
    requires j < |u.calls| && InError(u.calls[j]) && i < |u.subs|
    ensures Spares(u, StepError(u, j), j, i)
  {
  }

  lemma CloseSpares(u: Provider, j: nat, i: nat)
    requires j < |u.calls| && InClose(u.calls[j]) && i < |u.subs|
    ensures Spares(u, StepClose(u, j), j, i)
  {
  }

  lemma SubscribeSpares(u: Provider, j: nat, i: nat)
    requires j < |u.calls| && InSubscribe(u.calls[j]) && i < |u.subs|
    ensures Spares(u, StepSubscribe(u, j), j, i)
  {
    if u.calls[j].Removing? {
      U.WithoutSpec(u.list, u.calls[j].i);
    }
  }

  lemma CallSpares(u: Provider, a: Action, i: nat)
    requires Enabled(u, a) && !a.Work? && i < |u.subs|
    ensures Spares(u, Apply(u, a), a.k, i)
  {
    if a.Leave? {
    } else if InRenew(u.calls[a.k]) {
      RenewSpares(u, a.k, i);
    } else if InError(u.calls[a.k]) {
      ErrorSpares(u, a.k, i);
    } else if InClose(u.calls[a.k]) {
      CloseSpares(u, a.k, i);
    } else {
      SubscribeSpares(u, a.k, i);
    }
  }

  lemma SparedLeft(u: Provider, v: Provider, j: nat, k: nat, i: nat, before: seq<nat>, due: Option<nat>)
    requires Left(u, k, i, before, due) && Spares(u, v, j, i)
    requires j == k ==> u.calls[k] == Removing(i) && v.calls[k].Finished? && i !in v.list
    ensures Left(v, k, i, before, due)
  {
  }

  lemma LeftCall(u: Provider, a: Action, k: nat, i: nat, before: seq<nat>, due: Option<nat>)
    requires Enabled(u, a) && !a.Work? && Left(u, k, i, before, due)
    ensures Left(Apply(u, a), k, i, before, due)
  {
    CallSpares(u, a, i);
    if a.k == k {
      assert a == Step(k) && u.calls[k] == Removing(i);
      U.WithoutSpec(u.list, i);
      assert Apply(u, a) == StepSubscribe(u, k);
    }
    SparedLeft(u, Apply(u, a), a.k, k, i, before, due);
  }

  /** The executor delivers to i at most what it was about to deliver. */
  lemma LeftBusy(u: Provider, k: nat, i: nat, before: seq<nat>, due: Option<nat>)
    requires !u.worker.Idle? && Left(u, k, i, before, due)
    ensures Left(StepWork(u), k, i, before, due)
  {
  }

  lemma LeftStart(u: Provider, k: nat, i: nat, before: seq<nat>, due: Option<nat>)
    requires u.worker.Idle? && u.queue != [] && Left(u, k, i, before, due)
    ensures Left(StepWork(u), k, i, before, due)
  {
  }

  lemma LeftStep(u: Provider, a: Action, k: nat, i: nat, before: seq<nat>, due: Option<nat>)
    requires Enabled(u, a) && Left(u, k, i, before, due)
    ensures Left(Apply(u, a), k, i, before, due)
  {
    if !a.Work? {
      LeftCall(u, a, k, i, before, due);
    } else if u.worker.Idle? {
      LeftStart(u, k, i, before, due);
    } else {
      LeftBusy(u, k, i, before, due);
    }
  }

  lemma {:induction false} LeftRun(s: Provider, more: seq<Action>, k: nat, i: nat, before: seq<nat>, due: Option<nat>)
    requires Left(s, k, i, before, due) && Exec(s, more).Some?
    ensures Left(Exec(s, more).value, k, i, before, due)
  {
    if more != [] {
      var n := |more| - 1;
      LeftRun(s, more[..n], k, i, before, due);
      LeftStep(Exec(s, more[..n]).value, more[n], k, i, before, due);
    }
  }

  lemma LeavesNow(s: Provider, k: nat)
    requires U.OwnerInv(s) && Enabled(s, Leave(k))
    ensures var i := s.calls[k].i;
            && i < |s.subs|
            && Left(Apply(s, Leave(k)), k, i, s.subs[i].delivered,
                    if IsHalfWay(s.worker, i) then Some(s.worker.credentials) else None)
  {
    assert U.CallOk(s, k);
  }

  /** Once a subscriber has closed its subscription, it is closed in every continuation, and nothing is delivered to it
      any more but the credentials whose delivery was past its check of `closed`. When the call has returned, it is not
      on the list. */
  lemma LeaveIsFinal(init: Provider, run: seq<Action>, k: nat, more: seq<Action>)
    requires Initial(init) && Exec(init, run).Some? && Enabled(Exec(init, run).value, Leave(k))
    requires Exec(Apply(Exec(init, run).value, Leave(k)), more).Some?
    ensures var s := Exec(init, run).value;
            var i := s.calls[k].i;
            var u := Exec(Apply(s, Leave(k)), more).value;
            && i < |s.subs| && i < |u.subs| && u.subs[i].closed
            && (|| u.subs[i].delivered == s.subs[i].delivered
                || (IsHalfWay(s.worker, i) && u.subs[i].delivered == s.subs[i].delivered + [s.worker.credentials]))
            && k < |u.calls| && (u.calls[k].Finished? ==> i !in u.list)
  {
    U.RunKeepsInv(init, run);
    var s := Exec(init, run).value;
    LeavesNow(s, k);
    var i := s.calls[k].i;
    LeftRun(Apply(s, Leave(k)), more, k, i, s.subs[i].delivered,
            if IsHalfWay(s.worker, i) then Some(s.worker.credentials) else None);
  }

  // ----- Errors -----

  lemma ToldSnoc(told: seq<(nat, nat)>, one: (nat, nat), i: nat)
    ensures ToldOf(told + [one], i) == ToldOf(told, i) + if one.0 == i then [one.1] else []
  {
    assert (told + [one])[..|told|] == told;
  }

  /** The executor tells only open subscriptions of errors, and closes or drops none. */
  lemma WorkTells(u: Provider, i: nat)
    requires Enabled(u, Work) && i < |u.subs|
    ensures var v := StepWork(u);
            && |v.subs| == |u.subs| && v.subs[i].closed == u.subs[i].closed
            && (|| v.told == u.told
                || exists j: nat, k: nat :: v.told == u.told + [(j, k)] && j < |u.subs| && !u.subs[j].closed)
  {
    if u.worker.Idle? {
      var task := u.queue[0];
      if task.ErrorTask? && task.i < |u.subs| && !u.subs[task.i].closed {
        assert StepWork(u).told == u.told + [(task.i, task.k)];
      }
    }
  }

  lemma ToldStep(u: Provider, a: Action, i: nat)
    requires Enabled(u, a) && i < |u.subs| && u.subs[i].closed
    ensures var v := Apply(u, a); i < |v.subs| && v.subs[i].closed && ToldOf(v.told, i) == ToldOf(u.told, i)
  {
    if !a.Work? {
      CallSpares(u, a, i);
    } else {
      WorkTells(u, i);
      var v := StepWork(u);
      if v.told != u.told {
        var j: nat, k: nat :| v.told == u.told + [(j, k)] && j < |u.subs| && !u.subs[j].closed;
        ToldSnoc(u.told, (j, k), i);
        assert ToldOf(u.told, i) + [] == ToldOf(u.told, i);
      }
    }
  }

  /** A closed subscription is told of no error, in any continuation. */
  lemma {:induction false} NoErrorWhenClosed(s: Provider, more: seq<Action>, i: nat)
    requires i < |s.subs| && s.subs[i].closed && Exec(s, more).Some?
    ensures var u := Exec(s, more).value; i < |u.subs| && u.subs[i].closed && ToldOf(u.told, i) == ToldOf(s.told, i)
  {
    if more != [] {
      var n := |more| - 1;
      NoErrorWhenClosed(s, more[..n], i);
      ToldStep(Exec(s, more[..n]).value, more[n], i);
    }
  }

  /** Error call k still has to tell subscription i, or has, or i is closed. */
  ghost predicate Telling(u: Provider, k: nat, i: nat) {
    && k < |u.calls| && (u.calls[k].ErrorFanning? || u.calls[k].Finished?) && i < |u.subs|
    && (|| u.subs[i].closed
        || (i, k) in u.told
        || ErrorTask(i, k) in u.queue
        || (u.calls[k].ErrorFanning? && i in u.calls[k].rest))
  }

  lemma TellingOther(u: Provider, v: Provider, j: nat, k: nat, i: nat)
    requires Telling(u, k, i) && Spares(u, v, j, i) && j != k
    ensures Telling(v, k, i)
  {
  }

  lemma TellingOwn(u: Provider, k: nat, i: nat)
    requires Telling(u, k, i) && u.calls[k].ErrorFanning?
    ensures Telling(StepError(u, k), k, i)
  {
    var v, rest := StepError(u, k), u.calls[k].rest;
    if rest != [] {
      assert rest == [rest[0]] + rest[1..];
      assert v.queue[|u.queue|] == ErrorTask(rest[0], k);
    }
  }

  lemma TellingBusy(u: Provider, k: nat, i: nat)
    requires Telling(u, k, i) && !u.worker.Idle?
    ensures Telling(StepWork(u), k, i)
  {
  }

  /** The task on top is not the one that tells i of the error. */
  lemma TellingPop(u: Provider, k: nat, i: nat)
    requires Telling(u, k, i) && u.worker.Idle? && u.queue != [] && u.queue[0] != ErrorTask(i, k)
    ensures Telling(StepWork(u), k, i)
  {
    WorkKeepsAll(u, i);
    assert u.queue == [u.queue[0]] + u.queue[1..];
  }

  lemma WorkKeepsAll(u: Provider, i: nat)
    requires u.worker.Idle? && u.queue != [] && i < |u.subs|
    ensures var v := StepWork(u);
            && |v.subs| == |u.subs| && v.subs[i].closed == u.subs[i].closed && v.calls == u.calls
            && u.told <= v.told && v.queue == u.queue[1..]
  {
  }

  lemma TellingNow(u: Provider, k: nat, i: nat)
    requires Telling(u, k, i) && u.worker.Idle? && u.queue != [] && u.queue[0] == ErrorTask(i, k)
    ensures Telling(StepWork(u), k, i)
  {
    if !u.subs[i].closed {
      assert StepWork(u).told[|u.told|] == (i, k);
    }
  }

  lemma TellingWork(u: Provider, k: nat, i: nat)
    requires Telling(u, k, i) && Enabled(u, Work)
    ensures Telling(StepWork(u), k, i)
  {
    if !u.worker.Idle? {
      TellingBusy(u, k, i);
    } else if u.queue[0] == ErrorTask(i, k) {
      TellingNow(u, k, i);
    } else {
      TellingPop(u, k, i);
    }
  }

  lemma TellingStep(u: Provider, a: Action, k: nat, i: nat)
    requires Telling(u, k, i) && Enabled(u, a)
    ensures Telling(Apply(u, a), k, i)
  {
    if a.Work? {
      TellingWork(u, k, i);
    } else if a.k == k {
      TellingOwn(u, k, i);
    } else {
      CallSpares(u, a, i);
      TellingOther(u, Apply(u, a), a.k, k, i);
    }
  }

  lemma {:induction false} TellingRun(s: Provider, more: seq<Action>, k: nat, i: nat)
    requires Telling(s, k, i) && Exec(s, more).Some?
    ensures Telling(Exec(s, more).value, k, i)
  {
    if more != [] {
      var n := |more| - 1;
      TellingRun(s, more[..n], k, i);
      TellingStep(Exec(s, more[..n]).value, more[n], k, i);
    }
  }

  /** An error reaches every subscription on the list as the error call reads it: once the call has returned and its
      tasks have run, the subscription was told of it or is closed. */
  lemma ErrorReaches(init: Provider, run: seq<Action>, k: nat, i: nat, more: seq<Action>)
    requires Initial(init) && Exec(init, run).Some?
    requires var s := Exec(init, run).value; k < |s.calls| && s.calls[k].ErrorListing? && i in s.list
    requires Exec(Apply(Exec(init, run).value, Step(k)), more).Some?
    requires var u := Exec(Apply(Exec(init, run).value, Step(k)), more).value;
             k < |u.calls| && u.calls[k].Finished? && ErrorTask(i, k) !in u.queue
    ensures var u := Exec(Apply(Exec(init, run).value, Step(k)), more).value;
            i < |u.subs| && (u.subs[i].closed || (i, k) in u.told)
  {
    U.RunKeepsInv(init, run);
    var s := Exec(init, run).value;
    assert Apply(s, Step(k)) == StepError(s, k);
    TellingRun(Apply(s, Step(k)), more, k, i);
  }

  // ----- A closed provider -----

  /** Closed, and no call is between its check of `isClosed` and what it does next. */
  ghost predicate Shut(s: Provider) {
    s.isClosed && forall k :: 0 <= k < |s.calls| ==> !TakingUp(s.calls[k])
  }

  ghost predicate TakingUp(p: Pc) {
    p.Swapping? || p.ErrorGetting? || p.ErrorLooking? || p.ErrorReplacing? || p.Adding?
  }

  ghost predicate SamePublic(s: Provider, t: Provider) {
    t.ref == s.ref && |t.futures| == |s.futures| && t.swaps == s.swaps && |t.subs| == |s.subs|
  }

  lemma ShutCall(s: Provider, k: nat)
    requires Shut(s) && k < |s.calls|
    ensures InRenew(s.calls[k]) ==>
              SamePublic(s, StepRenew(s, k)) && StepRenew(s, k).isClosed && !TakingUp(StepRenew(s, k).calls[k])
    ensures InError(s.calls[k]) ==>
              SamePublic(s, StepError(s, k)) && StepError(s, k).isClosed && !TakingUp(StepError(s, k).calls[k])
  {
  }

  lemma ShutOther(s: Provider, k: nat)
    requires Shut(s) && k < |s.calls|
    ensures InClose(s.calls[k]) ==>
              SamePublic(s, StepClose(s, k)) && StepClose(s, k).isClosed && !TakingUp(StepClose(s, k).calls[k])
    ensures InSubscribe(s.calls[k]) ==>
              && SamePublic(s, StepSubscribe(s, k)) && StepSubscribe(s, k).isClosed
              && !TakingUp(StepSubscribe(s, k).calls[k])
  {
  }

  lemma ShutStep(s: Provider, a: Action)
    requires Shut(s) && Enabled(s, a)
    ensures Shut(Apply(s, a)) && SamePublic(s, Apply(s, a))
  {
    if a.Step? {
      ShutCall(s, a.k);
      ShutOther(s, a.k);
      CallsMoveAlone(s, a);
    }
  }

  lemma MovesAlone(s: Provider, k: nat)
    requires k < |s.calls|
    ensures InRenew(s.calls[k]) ==> StepRenew(s, k).calls == s.calls[k := StepRenew(s, k).calls[k]]
    ensures InError(s.calls[k]) ==> StepError(s, k).calls == s.calls[k := StepError(s, k).calls[k]]
  {
  }

  lemma MovesAloneToo(s: Provider, k: nat)
    requires k < |s.calls|
    ensures InClose(s.calls[k]) ==> StepClose(s, k).calls == s.calls[k := StepClose(s, k).calls[k]]
    ensures InSubscribe(s.calls[k]) ==> StepSubscribe(s, k).calls == s.calls[k := StepSubscribe(s, k).calls[k]]
  {
  }

  lemma CallsMoveAlone(s: Provider, a: Action)
    requires Enabled(s, a) && a.Step?
    ensures |Apply(s, a).calls| == |s.calls| && Apply(s, a).calls == s.calls[a.k := Apply(s, a).calls[a.k]]
  {
    MovesAlone(s, a.k);
    MovesAloneToo(s, a.k);
  }

  /** Whatever is called on a closed provider after that changes neither the reference nor the credentials, and adds no
      subscription. */
  lemma {:induction false} ClosedIsFinal(s: Provider, more: seq<Action>)
    requires Shut(s) && Exec(s, more).Some?
    ensures Shut(Exec(s, more).value) && SamePublic(s, Exec(s, more).value)
  {
    if more != [] {
      var n := |more| - 1;
      ClosedIsFinal(s, more[..n]);
      ShutStep(Exec(s, more[..n]).value, more[n]);
    }
  }
}
