/**
 The subscribers of a credentials provider: none survives close, not even one that was added between close's snapshot
 of the list and its clearing of it.
 */
module CredentialSubscribers {
  import opened Options
  import opened Credentials

  ghost predicate Distinct(list: seq<nat>) {
    forall i, j :: 0 <= i < j < |list| ==> list[i] != list[j]
  }

  lemma {:induction false} WithoutSpec(list: seq<nat>, i: nat)
    ensures forall x :: x in Without(list, i) <==> x in list && x != i
    ensures Distinct(list) ==> Distinct(Without(list, i))
  {
    if list != [] {
      var n := |list| - 1;
      WithoutSpec(list[..n], i);
      assert list == list[..n] + [list[n]];
      assert Distinct(list) ==> Distinct(list[..n]) && list[n] !in list[..n];
    }
  }

  // ----- Who a subscription belongs to -----

  /** The call has created subscription i and is not done with it. */
  ghost predicate Handles(p: Pc, i: nat) {
    (p.Rechecking? || p.Abandoning? || p.Removing? || p.QueueReplay? || p.Subscribed?) && p.i == i
  }

  ghost predicate HandlesAny(p: Pc) {
    p.Rechecking? || p.Abandoning? || p.Removing? || p.QueueReplay? || p.Subscribed?
  }

  ghost predicate SubOk(s: Provider, i: nat)
    requires i < |s.subs|
  {
    s.subs[i].owner < |s.calls| && (Handles(s.calls[s.subs[i].owner], i) || s.calls[s.subs[i].owner].Finished?)
  }

  ghost predicate CallOk(s: Provider, k: nat)
    requires k < |s.calls|
  {
    HandlesAny(s.calls[k]) ==>
      && s.calls[k].i < |s.subs| && s.subs[s.calls[k].i].owner == k
      && (s.calls[k].Removing? ==> s.subs[s.calls[k].i].closed)
  }

  ghost predicate OwnerInv(s: Provider) {
    && Distinct(s.list)
    && (forall i :: i in s.list ==> i < |s.subs|)
    && (forall i :: 0 <= i < |s.subs| ==> SubOk(s, i))
    && (forall k :: 0 <= k < |s.calls| ==> CallOk(s, k))
  }

  /** The call is past close's snapshot of the list. */
  ghost predicate Past(p: Pc) {
    p.Marking? || p.CloseDone?
  }

  ghost function RestOf(p: Pc): seq<nat> {
    if p.Marking? then p.rest else []
  }

  ghost predicate Closing(p: Pc) {
    p.CloseGetting? || p.CloseFailing? || p.CloseListing? || Past(p)
  }

  ghost predicate ClosersInv(s: Provider) {
    forall k :: 0 <= k < |s.calls| && Closing(s.calls[k]) ==> s.isClosed
  }

  /** Subscription i is in the list, and every closer that has taken its snapshot has still to mark it. */
  ghost predicate Held(s: Provider, i: nat) {
    i in s.list && forall k :: 0 <= k < |s.calls| && Past(s.calls[k]) ==> i in RestOf(s.calls[k])
  }

  /** Subscription i was found in a closed provider, or will be, by the subscriber's own second check. */
  ghost predicate SelfClosing(s: Provider, i: nat)
    requires i < |s.subs|
  {
    && s.isClosed && s.subs[i].owner < |s.calls|
    && (s.calls[s.subs[i].owner] == Rechecking(i) || s.calls[s.subs[i].owner] == Abandoning(i))
  }

  ghost predicate OpenInv(s: Provider) {
    forall i :: 0 <= i < |s.subs| && !s.subs[i].closed ==> Held(s, i) || SelfClosing(s, i)
  }

  ghost predicate AnyCloseDone(s: Provider) {
    exists k :: 0 <= k < |s.calls| && s.calls[k].CloseDone?
  }

  ghost predicate Leaving(p: Pc, i: nat) {
    p == Rechecking(i) || p == Abandoning(i) || p == Removing(i)
  }

  ghost predicate EmptyInv(s: Provider) {
    AnyCloseDone(s) ==> forall i :: i in s.list ==>
      i < |s.subs| && s.subs[i].owner < |s.calls| && Leaving(s.calls[s.subs[i].owner], i)
  }

  ghost predicate Inv(s: Provider) {
    OwnerInv(s) && ClosersInv(s) && OpenInv(s) && EmptyInv(s)
  }

  // ----- Steps that do not concern subscriptions -----

  /** Subscriptions keep their owner and, if closed, stay so; list and flag are the same. */
  ghost predicate SameSubs(s: Provider, t: Provider) {
    && t.list == s.list && t.isClosed == s.isClosed && |t.subs| == |s.subs|
    && forall i :: 0 <= i < |s.subs| ==> t.subs[i].owner == s.subs[i].owner && t.subs[i].closed == s.subs[i].closed
  }

  ghost predicate Unrelated(p: Pc) {
    !HandlesAny(p) && !Closing(p)
  }

  /** A call moves on with the subscription it handles, if any. */
  lemma OwnerFrame(s: Provider, t: Provider, k: nat)
    requires OwnerInv(s) && k < |s.calls| == |t.calls| && t.calls == s.calls[k := t.calls[k]]
    requires Distinct(t.list) && (forall i :: i in t.list ==> i < |t.subs|) && |t.subs| == |s.subs|
    requires forall i :: 0 <= i < |s.subs| ==>
               t.subs[i].owner == s.subs[i].owner && (s.subs[i].closed ==> t.subs[i].closed)
    requires HandlesAny(t.calls[k]) ==> HandlesAny(s.calls[k]) && t.calls[k].i == s.calls[k].i
    requires HandlesAny(s.calls[k]) && !HandlesAny(t.calls[k]) ==> t.calls[k].Finished?
    requires t.calls[k].Removing? && t.calls[k].i < |t.subs| ==> t.subs[t.calls[k].i].closed
    requires !s.calls[k].Finished?
    ensures OwnerInv(t)
  {
    forall i | 0 <= i < |t.subs|
      ensures SubOk(t, i)
    {
      assert SubOk(s, i);
    }
    forall j | 0 <= j < |t.calls|
      ensures CallOk(t, j)
    {
      assert CallOk(s, j);
    }
  }

  lemma InvFrame(s: Provider, t: Provider, k: nat)
    requires Inv(s) && SameSubs(s, t) && k < |s.calls| == |t.calls| && t.calls == s.calls[k := t.calls[k]]
    requires Unrelated(s.calls[k]) && Unrelated(t.calls[k]) && !s.calls[k].Finished?
    ensures Inv(t)
  {
    OwnerFrame(s, t, k);
    HeldFrame(s, t, k);
    assert AnyCloseDone(t) ==> AnyCloseDone(s);
  }

  lemma HeldFrame(s: Provider, t: Provider, k: nat)
    requires t.list == s.list && k < |s.calls| == |t.calls| && t.calls == s.calls[k := t.calls[k]]
    requires Past(t.calls[k]) ==> Past(s.calls[k]) && RestOf(t.calls[k]) == RestOf(s.calls[k])
    ensures forall i :: Held(s, i) ==> Held(t, i)
  {
  }

  lemma RenewStep(s: Provider, k: nat)
    requires Inv(s) && k < |s.calls| && InRenew(s.calls[k])
    ensures Inv(StepRenew(s, k))
  {
    InvFrame(s, StepRenew(s, k), k);
  }

  lemma ErrorStep(s: Provider, k: nat)
    requires Inv(s) && k < |s.calls| && InError(s.calls[k])
    ensures Inv(StepError(s, k))
  {
    InvFrame(s, StepError(s, k), k);
  }

  // ----- Close -----

  lemma CloseStepOwner(s: Provider, k: nat)
    requires Inv(s) && k < |s.calls| && InClose(s.calls[k])
    ensures OwnerInv(StepClose(s, k)) && ClosersInv(StepClose(s, k))
  {
    OwnerFrame(s, StepClose(s, k), k);
  }

  lemma CloseStepOpen(s: Provider, k: nat)
    requires Inv(s) && k < |s.calls| && InClose(s.calls[k])
    ensures OpenInv(StepClose(s, k))
  {
    var t := StepClose(s, k);
    forall i | 0 <= i < |t.subs| && !t.subs[i].closed
      ensures Held(t, i) || SelfClosing(t, i)
    {
      assert !s.subs[i].closed;
      if Held(s, i) && !SelfClosing(t, i) {
        assert s.calls[k].Marking? ==> i in s.calls[k].rest;
        assert forall j :: 0 <= j < |s.calls| && Past(s.calls[j]) ==> i in RestOf(s.calls[j]);
        assert Held(t, i);
      }
    }
  }

  lemma CloseStepEmpty(s: Provider, k: nat)
    requires Inv(s) && k < |s.calls| && InClose(s.calls[k])
    ensures EmptyInv(StepClose(s, k))
  {
    EmptyFrame(s, StepClose(s, k), k);
  }

  lemma EmptyFrame(s: Provider, t: Provider, k: nat)
    requires EmptyInv(s) && k < |s.calls| == |t.calls| && t.calls == s.calls[k := t.calls[k]]
    requires t.list == [] || (t.list == s.list && !t.calls[k].CloseDone?)
    requires !HandlesAny(s.calls[k]) && |t.subs| == |s.subs|
    requires forall i :: 0 <= i < |s.subs| ==> t.subs[i].owner == s.subs[i].owner
    ensures EmptyInv(t)
  {
    if AnyCloseDone(t) && t.list != [] {
      var j :| 0 <= j < |t.calls| && t.calls[j].CloseDone?;
      assert s.calls[j].CloseDone?;
      assert AnyCloseDone(s);
    }
  }

  // ----- Subscribe and unsubscribe -----

  lemma AddingOwner(s: Provider, k: nat)
    requires OwnerInv(s) && k < |s.calls| && s.calls[k].Adding?
    ensures OwnerInv(StepSubscribe(s, k))
  {
    var t := StepSubscribe(s, k);
    assert |s.subs| !in s.list;
    forall i | 0 <= i < |t.subs|
      ensures SubOk(t, i)
    {
      assert i < |s.subs| ==> SubOk(s, i);
    }
    forall j | 0 <= j < |t.calls|
      ensures CallOk(t, j)
    {
      assert CallOk(s, j);
    }
  }

  lemma SubscribeStepOwner(s: Provider, k: nat)
    requires Inv(s) && k < |s.calls| && InSubscribe(s.calls[k])
    ensures OwnerInv(StepSubscribe(s, k)) && ClosersInv(StepSubscribe(s, k))
  {
    assert CallOk(s, k);
    if s.calls[k].Adding? {
      AddingOwner(s, k);
    } else {
      if s.calls[k].Removing? {
        WithoutSpec(s.list, s.calls[k].i);
      }
      OwnerFrame(s, StepSubscribe(s, k), k);
    }
  }

  lemma SubscribeStepOpen(s: Provider, k: nat)
    requires Inv(s) && k < |s.calls| && InSubscribe(s.calls[k])
    ensures OpenInv(StepSubscribe(s, k))
  {
    var t := StepSubscribe(s, k);
    assert CallOk(s, k);
    if s.calls[k].Removing? {
      WithoutSpec(s.list, s.calls[k].i);
    }
    forall i | 0 <= i < |t.subs| && !t.subs[i].closed
      ensures Held(t, i) || SelfClosing(t, i)
    {
      if i == |s.subs| {
        assert t.isClosed || Held(t, i);
      } else if Held(s, i) {
        assert i in t.list;
        assert Held(t, i);
      } else {
        assert SelfClosing(s, i);
      }
    }
  }

  /** Call k, which is not a close, moves on, and the list loses or gains at most its own subscription. */
  lemma OwnStepEmpty(s: Provider, t: Provider, k: nat, i: nat)
    requires Inv(s) && k < |s.calls| == |t.calls| && t.calls == s.calls[k := t.calls[k]] && !t.calls[k].CloseDone?
    requires |s.subs| <= |t.subs| && forall j :: 0 <= j < |s.subs| ==> t.subs[j].owner == s.subs[j].owner
    requires forall j :: j in t.list && j != i ==> j in s.list
    requires forall j :: j in s.list && 0 <= j < |s.subs| && s.subs[j].owner == k ==> j == i
    requires AnyCloseDone(s) && i in t.list ==> i < |t.subs| && t.subs[i].owner == k && Leaving(t.calls[k], i)
    ensures EmptyInv(t)
  {
    if AnyCloseDone(t) {
      var j :| 0 <= j < |t.calls| && t.calls[j].CloseDone?;
      assert s.calls[j].CloseDone?;
    }
  }

  /** A running call owns no subscription but the one it handles. */
  lemma NotOwner(s: Provider, k: nat, i: nat)
    requires OwnerInv(s) && k < |s.calls| && !s.calls[k].Finished? && (HandlesAny(s.calls[k]) ==> s.calls[k].i == i)
    ensures forall j :: j in s.list && 0 <= j < |s.subs| && s.subs[j].owner == k ==> j == i
  {
    forall j | 0 <= j < |s.subs| && s.subs[j].owner == k
      ensures j == i
    {
      assert SubOk(s, j);
    }
  }

  lemma AddingEmpty(s: Provider, k: nat)
    requires Inv(s) && k < |s.calls| && s.calls[k].Adding?
    ensures EmptyInv(StepSubscribe(s, k))
  {
    NotOwner(s, k, |s.subs|);
    OwnStepEmpty(s, StepSubscribe(s, k), k, |s.subs|);
  }

  lemma HandlingEmpty(s: Provider, k: nat)
    requires Inv(s) && k < |s.calls| && InSubscribe(s.calls[k]) && HandlesAny(s.calls[k])
    ensures EmptyInv(StepSubscribe(s, k))
  {
    var i := s.calls[k].i;
    assert CallOk(s, k);
    NotOwner(s, k, i);
    if s.calls[k].Removing? {
      WithoutSpec(s.list, i);
    }
    if AnyCloseDone(s) {
      var j :| 0 <= j < |s.calls| && s.calls[j].CloseDone?;
      assert s.isClosed;
    }
    OwnStepEmpty(s, StepSubscribe(s, k), k, i);
  }

  lemma SubscribeStepEmpty(s: Provider, k: nat)
    requires Inv(s) && k < |s.calls| && InSubscribe(s.calls[k])
    ensures EmptyInv(StepSubscribe(s, k))
  {
    if s.calls[k].Adding? {
      AddingEmpty(s, k);
    } else if s.calls[k].SubscribeIdle? {
      EmptyFrame(s, StepSubscribe(s, k), k);
    } else {
      HandlingEmpty(s, k);
    }
  }

  lemma LeaveStep(s: Provider, k: nat)
    requires Inv(s) && Enabled(s, Leave(k))
    ensures Inv(Apply(s, Leave(k)))
  {
    var t := Apply(s, Leave(k));
    assert CallOk(s, k);
    OwnerFrame(s, t, k);
    HeldFrame(s, t, k);
    assert AnyCloseDone(t) ==> AnyCloseDone(s);
  }

  lemma WorkKeepsSubs(s: Provider)
    requires Enabled(s, Work)
    ensures SameSubs(s, StepWork(s)) && StepWork(s).calls == s.calls
  {
  }

  lemma WorkStep(s: Provider)
    requires Inv(s) && Enabled(s, Work)
    ensures Inv(StepWork(s))
  {
    var t := StepWork(s);
    WorkKeepsSubs(s);
    assert forall i :: Held(s, i) ==> Held(t, i);
    forall i | 0 <= i < |t.subs|
      ensures SubOk(t, i)
    {
      assert SubOk(s, i);
    }
    forall j | 0 <= j < |t.calls|
      ensures CallOk(t, j)
    {
      assert CallOk(s, j);
    }
  }

  lemma StepKeepsInv(s: Provider, a: Action)
    requires Inv(s) && Enabled(s, a)
    ensures Inv(Apply(s, a))
  {
    if a.Work? {
      WorkStep(s);
    } else if a.Leave? {
      LeaveStep(s, a.k);
    } else if InRenew(s.calls[a.k]) {
      RenewStep(s, a.k);
    } else if InError(s.calls[a.k]) {
      ErrorStep(s, a.k);
    } else if InClose(s.calls[a.k]) {
      CloseStepOwner(s, a.k);
      CloseStepOpen(s, a.k);
      CloseStepEmpty(s, a.k);
    } else {
      SubscribeStepOwner(s, a.k);
      SubscribeStepOpen(s, a.k);
      SubscribeStepEmpty(s, a.k);
    }
  }

  lemma {:induction false} RunKeepsInv(s: Provider, run: seq<Action>)
    requires Inv(s) && Exec(s, run).Some?
    ensures Inv(Exec(s, run).value)
  {
    if run != [] {
      var n := |run| - 1;
      RunKeepsInv(s, run[..n]);
      StepKeepsInv(Exec(s, run[..n]).value, run[n]);
    }
  }

  // ----- What follows for every run -----

  /** The call has added a subscription and may still have to close or remove it. */
  ghost predicate MidWay(p: Pc) {
    p.Rechecking? || p.Abandoning? || p.Removing?
  }

  /** Once a close has returned and no subscribe call is between adding its subscription and leaving, the list is empty
      and every subscription ever created is closed. */
  lemma NoSubscriberSurvivesClose(init: Provider, run: seq<Action>)
    requires Initial(init) && Exec(init, run).Some? && AnyCloseDone(Exec(init, run).value)
    requires var s := Exec(init, run).value;
             forall k :: 0 <= k < |s.calls| ==> !MidWay(s.calls[k])
    ensures var s := Exec(init, run).value;
            && s.list == []
            && forall i :: 0 <= i < |s.subs| ==> s.subs[i].closed
  {
    RunKeepsInv(init, run);
    AllClosed(Exec(init, run).value);
  }

  lemma FirstIsMember(list: seq<nat>)
    ensures list == [] || list[0] in list
  {
  }

  lemma AllClosed(s: Provider)
    requires OpenInv(s) && EmptyInv(s) && AnyCloseDone(s)
    requires forall k :: 0 <= k < |s.calls| ==> !MidWay(s.calls[k])
    ensures s.list == [] && forall i :: 0 <= i < |s.subs| ==> s.subs[i].closed
  {
    var k :| 0 <= k < |s.calls| && s.calls[k].CloseDone?;
    assert Past(s.calls[k]) && RestOf(s.calls[k]) == [];
    FirstIsMember(s.list);
  }

  /** Nobody can be delivered to any more: the provider is closed, so is every subscription, and nothing is half-way. */
  ghost predicate Silent(s: Provider) {
    && s.isClosed
    && (forall i :: 0 <= i < |s.subs| ==> s.subs[i].closed)
    && (forall k :: 0 <= k < |s.calls| ==> !s.calls[k].Adding?)
    && !s.worker.Delivering? && !s.worker.Replaying?
  }

  ghost predicate SameDeliveries(s: Provider, t: Provider) {
    |t.subs| == |s.subs| && forall i :: 0 <= i < |s.subs| ==> t.subs[i].delivered == s.subs[i].delivered
  }

  lemma SilentCall(s: Provider, k: nat)
    requires Silent(s) && k < |s.calls|
    ensures InRenew(s.calls[k]) ==> Silent(StepRenew(s, k)) && SameDeliveries(s, StepRenew(s, k))
    ensures InError(s.calls[k]) ==> Silent(StepError(s, k)) && SameDeliveries(s, StepError(s, k))
  {
  }

  lemma SilentClose(s: Provider, k: nat)
    requires Silent(s) && k < |s.calls| && InClose(s.calls[k])
    ensures Silent(StepClose(s, k)) && SameDeliveries(s, StepClose(s, k))
  {
  }

  lemma SilentSubscribe(s: Provider, k: nat)
    requires Silent(s) && k < |s.calls| && InSubscribe(s.calls[k])
    ensures Silent(StepSubscribe(s, k)) && SameDeliveries(s, StepSubscribe(s, k))
  {
  }

  lemma SilentStep(s: Provider, k: nat)
    requires Silent(s) && k < |s.calls| && Running(s.calls[k])
    ensures Silent(Apply(s, Step(k))) && SameDeliveries(s, Apply(s, Step(k)))
  {
    if InClose(s.calls[k]) {
      SilentClose(s, k);
    } else if InSubscribe(s.calls[k]) {
      SilentSubscribe(s, k);
    } else {
      SilentCall(s, k);
    }
  }

  lemma SilentWork(s: Provider)
    requires Silent(s) && Enabled(s, Work)
    ensures Silent(StepWork(s)) && SameDeliveries(s, StepWork(s))
  {
    WorkKeepsSubs(s);
  }

  /** No delivery task that starts after that delivers anything, in any continuation. */
  lemma {:induction false} SilentAfterClose(s: Provider, more: seq<Action>)
    requires Silent(s) && Exec(s, more).Some?
    ensures Silent(Exec(s, more).value) && SameDeliveries(s, Exec(s, more).value)
  {
    if more != [] {
      var n := |more| - 1;
      SilentAfterClose(s, more[..n]);
      var t := Exec(s, more[..n]).value;
      if more[n].Work? {
        SilentWork(t);
      } else if more[n].Step? {
        SilentStep(t, more[n].k);
      }
    }
  }
}
