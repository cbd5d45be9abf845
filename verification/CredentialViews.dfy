/**
 One subscription as it sees its provider: what is still to be dispatched to it, whether it is listed, how many renewals
 there were, and how far its replay has come. Module CredentialDelivery shows that the provider moves every view only
 by the moves listed here.
 */
module CredentialViews {
  import opened Options
  import opened Credentials

  datatype Replay =
    | Waiting                      // not started
    | NoCandidate
    | Candidate(credentials: nat)  // the reference was read, `closed` was not
    | Playing(credentials: nat)    // `closed` was false
    | Over

  datatype View = View(owed: seq<nat>, listed: bool, swaps: nat, sub: Subscription, replay: Replay)

  datatype Move =
    | Stay
    | Renewed
    | Dropped               // a dispatch to a closed subscription
    | Dispatched
    | Closed
    | Unlisted(left: nat)   // removed from the list; left: how many of the dispatches owed remain
    | ReplayStarts
    | ReplayChecked
    | ReplayPlays
    | ReplayEnds            // without playing
    | ReplayGivenUp         // the subscribe call found the provider closed and never submits the replay

  predicate Can(v: View, m: Move) {
    match m
    case Stay => true
    case Renewed => true
    case Dropped => v.owed != [] && v.sub.closed
    case Dispatched => v.owed != [] && (v.replay.Waiting? || v.replay.Over?)
    case Closed => true
    case Unlisted(left) => left <= |v.owed| && (v.sub.closed || v.replay.Waiting?)
    case ReplayStarts => v.replay.Waiting? && (v.listed || v.sub.closed)
    case ReplayChecked => v.replay.Candidate? && !v.sub.closed
    case ReplayPlays => v.replay.Playing?
    case ReplayEnds => v.replay.NoCandidate? || (v.replay.Candidate? && v.sub.closed)
    case ReplayGivenUp => v.sub.closed && v.replay.Waiting?
  }

  function After(v: View, m: Move): View
    requires Can(v, m)
  {
    match m
    case Stay => v
    case Renewed => v.(swaps := v.swaps + 1, owed := if v.listed then v.owed + [v.swaps + 1] else v.owed)
    case Dropped => v.(owed := v.owed[1..])
    case Dispatched =>
      v.(owed := v.owed[1..],
         sub := if v.sub.lastPlayed == Some(v.owed[0]) then v.sub else Deliver(v.sub, v.owed[0]))
    case Closed => v.(sub := v.sub.(closed := true))
    case Unlisted(left) => v.(listed := false, owed := v.owed[..left])
    case ReplayStarts =>
      v.(replay := if v.swaps > 0 then Candidate(v.swaps) else NoCandidate,
         sub := v.sub.(hasty := v.sub.hasty || (v.sub.lastPlayed.None? && |v.owed| >= 2)))
    case ReplayChecked => v.(replay := Playing(v.replay.credentials))
    case ReplayPlays =>
      v.(replay := Over,
         sub := if v.sub.lastPlayed.None? then Deliver(v.sub, v.replay.credentials) else v.sub)
    case ReplayEnds => v.(replay := Over)
    case ReplayGivenUp => v.(replay := Over)
  }

  // ----- What every move keeps -----

  ghost predicate Increasing(xs: seq<nat>) {
    forall i, j :: 0 <= i < j < |xs| ==> xs[i] < xs[j]
  }

  ghost predicate NoRepeat(xs: seq<nat>) {
    forall i :: 0 < i < |xs| ==> xs[i - 1] != xs[i]
  }

  ghost predicate Descends(xs: seq<nat>) {
    exists i :: 0 < i < |xs| && xs[i] < xs[i - 1]
  }

  /** The dispatches owed are those of the latest renewals, without a gap. */
  ghost predicate Latest(owed: seq<nat>, swaps: nat) {
    |owed| <= swaps && forall j :: 0 <= j < |owed| ==> owed[j] == swaps - |owed| + 1 + j
  }

  /** No dispatch owed would take the subscription back behind c. */
  ghost predicate NotAhead(c: nat, owed: seq<nat>) {
    forall j :: 0 <= j < |owed| ==> c <= owed[j]
  }

  ghost predicate HasCandidate(v: View) {
    v.replay.Candidate? || v.replay.Playing?
  }

  ghost predicate OwedInv(v: View) {
    && Increasing(v.owed)
    && (forall j :: 0 <= j < |v.owed| ==> 1 <= v.owed[j] <= v.swaps)
    && (v.listed ==> Latest(v.owed, v.swaps))
    && (!v.sub.closed && !v.replay.Waiting? ==> v.listed)
  }

  ghost predicate PlayedInv(v: View) {
    && (v.sub.lastPlayed.None? <==> v.sub.delivered == [])
    && (v.sub.lastPlayed.Some? ==>
          v.sub.lastPlayed.value == v.sub.delivered[|v.sub.delivered| - 1] && v.sub.lastPlayed.value <= v.swaps)
    && NoRepeat(v.sub.delivered)
  }

  ghost predicate OrderInv(v: View) {
    && (!v.sub.hasty ==> Increasing(v.sub.delivered))
    && (!v.sub.hasty && v.sub.lastPlayed.Some? ==> NotAhead(v.sub.lastPlayed.value, v.owed))
    && ((v.replay.Candidate? && !v.sub.closed) || v.replay.Playing? ==> v.sub.lastPlayed.None? ==>
          v.replay.credentials <= v.swaps && (!v.sub.hasty ==> NotAhead(v.replay.credentials, v.owed)))
  }

  /** Nothing owed means that the latest credentials were played. */
  ghost predicate CaughtUpInv(v: View) {
    !v.sub.closed ==>
      && (v.listed && v.owed == [] && v.sub.lastPlayed.Some? ==> v.sub.lastPlayed.value == v.swaps)
      && (v.owed == [] && HasCandidate(v) ==> v.replay.credentials == v.swaps)
      && (v.sub.lastPlayed.None? && (v.replay.Over? || v.replay.NoCandidate?) ==> |v.owed| == v.swaps)
  }

  /** A hasty replay has gone back behind what it played, or is bound to. */
  ghost predicate HastyInv(v: View) {
    && (v.replay.Waiting? ==> !v.sub.hasty)
    && (v.sub.hasty && !v.sub.closed ==>
          || Descends(v.sub.delivered)
          || (|v.sub.delivered| == 1 && v.owed != [] && v.owed[0] < v.sub.delivered[0])
          || (v.sub.delivered == [] && HasCandidate(v) && v.owed != [] && v.owed[0] < v.replay.credentials))
  }

  ghost predicate Inv(v: View) {
    OwedInv(v) && PlayedInv(v) && OrderInv(v) && CaughtUpInv(v) && HastyInv(v)
  }

  ghost predicate Fresh(v: View) {
    && v.listed && v.replay.Waiting? && (v.owed == [] || (v.owed == [v.swaps] && v.swaps > 0))
    && v.sub == Subscription(v.sub.owner, false, None, [], false)
  }

  lemma FreshInv(v: View)
    requires Fresh(v)
    ensures Inv(v)
  {
  }

  lemma DeliverKeepsShape(sub: Subscription, c: nat)
    ensures Descends(sub.delivered) ==> Descends(Deliver(sub, c).delivered)
    ensures |sub.delivered| == 1 && c < sub.delivered[0] ==> Descends(Deliver(sub, c).delivered)
  {
    var xs, ys := sub.delivered, Deliver(sub, c).delivered;
    if Descends(xs) {
      var i :| 0 < i < |xs| && xs[i] < xs[i - 1];
      assert ys[i] < ys[i - 1];
    }
    if |xs| == 1 && c < xs[0] {
      assert ys[1] < ys[0];
    }
  }

  lemma DispatchedOwed(v: View)
    requires OwedInv(v) && PlayedInv(v) && Can(v, Dispatched)
    ensures OwedInv(After(v, Dispatched)) && PlayedInv(After(v, Dispatched))
  {
  }

  lemma IncreasingSnoc(xs: seq<nat>, x: nat)
    requires Increasing(xs) && (xs != [] ==> xs[|xs| - 1] < x)
    ensures Increasing(xs + [x])
  {
  }

  lemma DispatchedOrder(v: View)
    requires OwedInv(v) && PlayedInv(v) && OrderInv(v) && Can(v, Dispatched)
    ensures OrderInv(After(v, Dispatched))
  {
    if !v.sub.hasty && v.sub.lastPlayed != Some(v.owed[0]) {
      IncreasingSnoc(v.sub.delivered, v.owed[0]);
    }
  }

  lemma DispatchedCaughtUp(v: View)
    requires Inv(v) && Can(v, Dispatched)
    ensures CaughtUpInv(After(v, Dispatched)) && HastyInv(After(v, Dispatched))
  {
    DeliverKeepsShape(v.sub, v.owed[0]);
    if v.sub.lastPlayed == Some(v.owed[0]) && v.sub.hasty && !v.sub.closed && !Descends(v.sub.delivered) {
      assert false;
    }
  }

  lemma RenewedOwed(v: View)
    requires OwedInv(v)
    ensures OwedInv(After(v, Renewed))
  {
  }

  lemma RenewedInv(v: View)
    requires Inv(v)
    ensures Inv(After(v, Renewed))
  {
    RenewedOwed(v);
    var w := After(v, Renewed);
    assert v.owed != [] ==> w.owed[0] == v.owed[0];
    assert OrderInv(w) && CaughtUpInv(w);
  }

  lemma ListMovesInv(v: View, m: Move)
    requires Inv(v) && Can(v, m) && (m.Dropped? || m.Unlisted? || m.Closed?)
    ensures Inv(After(v, m))
  {
  }

  lemma ReplayStartsInv(v: View)
    requires Inv(v) && Can(v, ReplayStarts)
    ensures Inv(After(v, ReplayStarts))
  {
  }

  lemma ReplayEndsInv(v: View, m: Move)
    requires Inv(v) && Can(v, m) && (m.ReplayChecked? || m.ReplayPlays? || m.ReplayEnds? || m.ReplayGivenUp?)
    ensures Inv(After(v, m))
  {
  }

  lemma MoveKeepsInv(v: View, m: Move)
    requires Inv(v) && Can(v, m)
    ensures Inv(After(v, m))
  {
    match m
    case Stay =>
    case Renewed => RenewedInv(v);
    case Dropped => ListMovesInv(v, m);
    case Dispatched => DispatchedOwed(v); DispatchedOrder(v); DispatchedCaughtUp(v);
    case Closed => ListMovesInv(v, m);
    case Unlisted(_) => ListMovesInv(v, m);
    case ReplayStarts => ReplayStartsInv(v);
    case ReplayChecked => ReplayEndsInv(v, m);
    case ReplayPlays => ReplayEndsInv(v, m);
    case ReplayEnds => ReplayEndsInv(v, m);
    case ReplayGivenUp => ReplayEndsInv(v, m);
  }

  /** With nothing owed and the replay over, an open and listed subscription has the latest credentials. */
  lemma RestIsCaughtUp(v: View)
    requires Inv(v) && v.owed == [] && v.replay.Over? && v.listed && !v.sub.closed
    ensures var delivered := v.sub.delivered;
            && (v.swaps > 0 ==> delivered != [] && delivered[|delivered| - 1] == v.swaps)
            && NoRepeat(delivered)
            && (Increasing(delivered) <==> !v.sub.hasty)
  {
    if v.sub.hasty {
      var j :| 0 < j < |v.sub.delivered| && v.sub.delivered[j] < v.sub.delivered[j - 1];
      assert !Increasing(v.sub.delivered);
    }
  }
}
