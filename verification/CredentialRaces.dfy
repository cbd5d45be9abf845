/**
 A run that shows why DeliveryOrder needs its condition: with one renewal thread and an executor that runs its tasks one
 at a time in submission order, a subscriber is delivered credentials 2, then 1, then 2 again.
 */
module CredentialRaces {
  import opened Options
  import opened Credentials

  /** One more action, from a state to its successor. */
  lemma Next(s: Provider, run: seq<Action>, t: Provider, a: Action, u: Provider) returns (longer: seq<Action>)
    requires Exec(s, run) == Some(t) && Enabled(t, a) && Apply(t, a) == u
    ensures Exec(s, longer) == Some(u)
  {
    longer := Then(s, run, a);
  }

  lemma GotoTwice(s: Provider, k: nat, p: Pc, q: Pc)
    requires k < |s.calls|
    ensures Goto(Goto(s, k, p), k, q) == Goto(s, k, q)
  {
    assert s.calls[k := p][k := q] == s.calls[k := q];
  }

  lemma AddAlone(init: Provider, k: nat) returns (run: seq<Action>)
    requires Initial(init) && k < |init.calls| && init.calls[k].SubscribeIdle?
    ensures Exec(init, run) == Some(Goto(init, k, Rechecking(0)).(
              subs := [Subscription(k, false, None, [], false)], list := [0]))
  {
    var t := Goto(init, k, Adding);
    GotoTwice(init, k, Adding, Rechecking(0));
    assert StepSubscribe(init, k) == t;
    run := Next(init, [], init, Step(k), t);
    var u := Goto(init, k, Rechecking(0)).(subs := [Subscription(k, false, None, [], false)], list := [0]);
    assert StepSubscribe(t, k) == u;
    run := Next(init, run, t, Step(k), u);
  }

  lemma SubscribeAlone(init: Provider, k: nat) returns (run: seq<Action>)
    requires Initial(init) && k < |init.calls| && init.calls[k].SubscribeIdle?
    ensures Exec(init, run) == Some(Goto(init, k, Subscribed(0)).(
              subs := [Subscription(k, false, None, [], false)], list := [0], queue := [ReplayTask(0)]))
  {
    run := AddAlone(init, k);
    var base := init.(subs := [Subscription(k, false, None, [], false)], list := [0]);
    GotoTwice(base, k, Rechecking(0), QueueReplay(0));
    GotoTwice(base, k, QueueReplay(0), Subscribed(0));
    assert StepSubscribe(Goto(base, k, Rechecking(0)), k) == Goto(base, k, QueueReplay(0));
    run := Next(init, run, Goto(base, k, Rechecking(0)), Step(k), Goto(base, k, QueueReplay(0)));
    var u := Goto(base, k, Subscribed(0)).(queue := [ReplayTask(0)]);
    assert StepSubscribe(Goto(base, k, QueueReplay(0)), k) == u;
    run := Next(init, run, Goto(base, k, QueueReplay(0)), Step(k), u);
  }

  /** The state right after renewal k swapped in its credentials. */
  ghost function AfterSwap(t: Provider, k: nat): Provider
    requires k < |t.calls|
  {
    t.(swaps := t.swaps + 1, renewing := Some(k), ref := |t.futures|, futures := t.futures + [Succeeded(t.swaps + 1)])
  }

  lemma SwapSteps(t: Provider, k: nat)
    requires k < |t.calls| && t.calls[k].RenewIdle? && !t.isClosed && t.renewing.None?
    ensures StepRenew(t, k) == Goto(t, k, Swapping)
    ensures StepRenew(Goto(t, k, Swapping), k) == Goto(AfterSwap(t, k), k, Swapped(t.swaps + 1, t.ref))
  {
    GotoTwice(AfterSwap(t, k), k, Swapping, Swapped(t.swaps + 1, t.ref));
  }

  lemma SwapAlone(s: Provider, run: seq<Action>, t: Provider, k: nat) returns (longer: seq<Action>)
    requires Exec(s, run) == Some(t) && k < |t.calls| && t.calls[k].RenewIdle? && !t.isClosed && t.renewing.None?
    ensures Exec(s, longer) == Some(Goto(AfterSwap(t, k), k, Swapped(t.swaps + 1, t.ref)))
  {
    SwapSteps(t, k);
    longer := Next(s, run, t, Step(k), Goto(t, k, Swapping));
    longer := Next(s, longer, Goto(t, k, Swapping), Step(k), Goto(AfterSwap(t, k), k, Swapped(t.swaps + 1, t.ref)));
  }

  /** The renewal submits the completion of the future it replaced, if that is waited for. */
  lemma SettleAlone(s: Provider, run: seq<Action>, t: Provider, k: nat, c: nat, f: nat) returns (longer: seq<Action>)
    requires k < |t.calls| && Exec(s, run) == Some(Goto(t, k, Swapped(c, f)))
    ensures Exec(s, longer) == Some(Goto(t, k, Listing(c)).(
              queue := if IsPending(t, f) then t.queue + [CompleteTask(f, c)] else t.queue))
  {
    GotoTwice(t, k, Swapped(c, f), QueueComplete(c, f));
    GotoTwice(t, k, Swapped(c, f), Listing(c));
    GotoTwice(t, k, QueueComplete(c, f), Listing(c));
    var t0, t1 := Goto(t, k, Swapped(c, f)), Goto(t, k, QueueComplete(c, f));
    if IsPending(t, f) {
      assert StepRenew(t0, k) == t1;
      longer := Next(s, run, t0, Step(k), t1);
      assert StepRenew(t1, k) == Submit(Goto(t, k, Listing(c)), CompleteTask(f, c));
      longer := Next(s, longer, t1, Step(k), Submit(Goto(t, k, Listing(c)), CompleteTask(f, c)));
    } else {
      assert StepRenew(t0, k) == Goto(t, k, Listing(c));
      longer := Next(s, run, t0, Step(k), Goto(t, k, Listing(c)));
    }
  }

  lemma FanAlone(s: Provider, run: seq<Action>, t: Provider, k: nat, c: nat) returns (longer: seq<Action>)
    requires k < |t.calls| && Exec(s, run) == Some(Goto(t, k, Listing(c))) && t.renewing == Some(k) && t.list == [0]
    ensures Exec(s, longer) == Some(Goto(t, k, Finished).(queue := t.queue + [DispatchTask(0, c)], renewing := None))
  {
    GotoTwice(t, k, Listing(c), Fanning(c, [0]));
    GotoTwice(t, k, Fanning(c, [0]), Fanning(c, []));
    var queued := t.(queue := t.queue + [DispatchTask(0, c)]);
    GotoTwice(queued, k, Fanning(c, []), Finished);
    assert StepRenew(Goto(t, k, Listing(c)), k) == Goto(t, k, Fanning(c, [0]));
    longer := Next(s, run, Goto(t, k, Listing(c)), Step(k), Goto(t, k, Fanning(c, [0])));
    longer := FanOne(s, longer, t, k, c);
    var u := Goto(queued, k, Finished).(renewing := None);
    assert StepRenew(Goto(queued, k, Fanning(c, [])), k) == u;
    longer := Next(s, longer, Goto(queued, k, Fanning(c, [])), Step(k), u);
  }

  lemma FanOne(s: Provider, run: seq<Action>, t: Provider, k: nat, c: nat) returns (longer: seq<Action>)
    requires k < |t.calls| && Exec(s, run) == Some(Goto(t, k, Fanning(c, [0])))
    ensures Exec(s, longer) == Some(Goto(t.(queue := t.queue + [DispatchTask(0, c)]), k, Fanning(c, [])))
  {
    GotoTwice(t, k, Fanning(c, [0]), Fanning(c, []));
    assert [0][1..] == [];
    var u := Goto(t.(queue := t.queue + [DispatchTask(0, c)]), k, Fanning(c, []));
    assert StepRenew(Goto(t, k, Fanning(c, [0])), k) == u;
    longer := Next(s, run, Goto(t, k, Fanning(c, [0])), Step(k), u);
  }

  lemma RenewAlone(s: Provider, run: seq<Action>, t: Provider, k: nat) returns (longer: seq<Action>)
    requires Exec(s, run) == Some(t) && k < |t.calls| && t.calls[k].RenewIdle? && !t.isClosed && t.renewing.None?
    requires t.list == [0] && t.ref < |t.futures|
    ensures var c := t.swaps + 1;
            Exec(s, longer) == Some(Goto(AfterSwap(t, k), k, Finished).(
              queue := (if IsPending(t, t.ref) then t.queue + [CompleteTask(t.ref, c)] else t.queue)
                       + [DispatchTask(0, c)],
              renewing := None))
  {
    var c, u := t.swaps + 1, AfterSwap(t, k);
    longer := SwapAlone(s, run, t, k);
    longer := SettleAlone(s, longer, u, k, c, t.ref);
    assert IsPending(u, t.ref) == IsPending(t, t.ref);
    var v := u.(queue := if IsPending(t, t.ref) then t.queue + [CompleteTask(t.ref, c)] else t.queue);
    assert Exec(s, longer) == Some(Goto(v, k, Listing(c)));
    longer := FanAlone(s, longer, v, k, c);
  }

  /** The subscription, with both renewals' dispatches queued behind its replay. */
  ghost predicate Lined(s: Provider) {
    && s.queue == [ReplayTask(0), CompleteTask(0, 1), DispatchTask(0, 1), DispatchTask(0, 2)]
    && s.worker.Idle? && !s.overlapped && s.ref < |s.futures| && s.futures[s.ref] == Succeeded(2)
    && |s.subs| == 1 && !s.subs[0].closed && s.subs[0].lastPlayed.None? && s.subs[0].delivered == []
  }

  lemma LineUp(init: Provider, k: nat, r1: nat, r2: nat) returns (run: seq<Action>)
    requires Initial(init) && k < |init.calls| && r1 < |init.calls| && r2 < |init.calls| && r1 != r2
    requires init.calls[k].SubscribeIdle? && init.calls[r1].RenewIdle? && init.calls[r2].RenewIdle?
    ensures Exec(init, run).Some? && Lined(Exec(init, run).value)
  {
    run := SubscribeAlone(init, k);
    run := RenewAlone(init, run, Exec(init, run).value, r1);
    run := RenewAlone(init, run, Exec(init, run).value, r2);
  }

  lemma ReplayReads(s: Provider, run: seq<Action>) returns (longer: seq<Action>)
    requires Exec(s, run).Some? && Lined(Exec(s, run).value)
    ensures Exec(s, longer).Some?
    ensures var t, u := Exec(s, run).value, Exec(s, longer).value;
            && u.queue == t.queue[1..] && u.worker == ReplayCheck(0, 2) && !u.overlapped && |u.subs| == 1
            && u.subs[0] == t.subs[0].(hasty := u.subs[0].hasty)
  {
    longer := Then(s, run, Work);
    longer := Then(s, longer, Work);
  }

  lemma ReplayPlays(s: Provider, run: seq<Action>) returns (longer: seq<Action>)
    requires Exec(s, run).Some?
    requires var t := Exec(s, run).value;
             t.worker == ReplayCheck(0, 2) && |t.subs| == 1 && !t.subs[0].closed && t.subs[0].lastPlayed.None?
    ensures Exec(s, longer).Some?
    ensures var t := Exec(s, run).value; Exec(s, longer).value == t.(worker := Idle, subs := [Deliver(t.subs[0], 2)])
  {
    longer := Then(s, run, Work);
    longer := Then(s, longer, Work);
    assert Exec(s, longer).value.subs == [Deliver(Exec(s, run).value.subs[0], 2)];
  }

  lemma ReplayFirst(s: Provider, run: seq<Action>) returns (longer: seq<Action>)
    requires Exec(s, run).Some? && Lined(Exec(s, run).value)
    ensures Exec(s, longer).Some?
    ensures var t := Exec(s, longer).value;
            && t.queue == [DispatchTask(0, 1), DispatchTask(0, 2)] && t.worker.Idle? && !t.overlapped
            && |t.subs| == 1 && !t.subs[0].closed && t.subs[0].lastPlayed == Some(2) && t.subs[0].delivered == [2]
  {
    longer := ReplayReads(s, run);
    longer := ReplayPlays(s, longer);
    longer := Then(s, longer, Work);
  }

  lemma DeliverNext(s: Provider, run: seq<Action>, c: nat) returns (longer: seq<Action>)
    requires Exec(s, run).Some?
    requires var t := Exec(s, run).value;
             && t.queue != [] && t.queue[0] == DispatchTask(0, c) && t.worker.Idle?
             && |t.subs| == 1 && !t.subs[0].closed && t.subs[0].lastPlayed != Some(c)
    ensures var t := Exec(s, run).value;
            Exec(s, longer) == Some(t.(queue := t.queue[1..], subs := [Deliver(t.subs[0], c)]))
  {
    longer := Then(s, run, Work);
    longer := Then(s, longer, Work);
    assert Exec(s, longer).value.subs == [Deliver(Exec(s, run).value.subs[0], c)];
  }

  /** The condition in DeliveryOrder is needed: with renewals one at a time a subscriber can see 2, 1, 2. */
  lemma OutOfOrder(init: Provider, k: nat, r1: nat, r2: nat)
    requires Initial(init) && k < |init.calls| && r1 < |init.calls| && r2 < |init.calls| && r1 != r2
    requires init.calls[k].SubscribeIdle? && init.calls[r1].RenewIdle? && init.calls[r2].RenewIdle?
    ensures exists run :: Exec(init, run).Some? &&
              var s := Exec(init, run).value; !s.overlapped && |s.subs| == 1 && s.subs[0].delivered == [2, 1, 2]
  {
    var run := LineUp(init, k, r1, r2);
    run := ReplayFirst(init, run);
    run := DeliverNext(init, run, 1);
    run := DeliverNext(init, run, 2);
    assert Exec(init, run).value.subs[0].delivered == [2, 1, 2];
  }
}
