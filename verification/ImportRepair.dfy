/**
 A PREPARE that fails is made up for: the handler forgets the fieldset, so the next SET of it that is observed live
 outside a transaction gets a PREPARE of its own.
 */
module ImportRepair {
  import opened Options
  import R = Reservation
  import opened ImportWire
  import D = ImportDrain
  import G = ImportGuarantees

  /** A PREPARE of f was written from position n on. */
  ghost predicate PreparedFrom(wire: seq<Item>, n: nat, f: nat) {
    exists i :: n <= i < |wire| && wire[i].PrepareItem? && wire[i].f == f
  }

  lemma PreparedFromMore(wire: seq<Item>, longer: seq<Item>, n: nat, f: nat)
    requires wire <= longer && PreparedFrom(wire, n, f)
    ensures PreparedFrom(longer, n, f)
  {
    var i :| n <= i < |wire| && wire[i].PrepareItem? && wire[i].f == f;
    assert longer[i] == wire[i];
  }

  /** The handler takes f for prepared only on the strength of a PREPARE written from position n on. */
  ghost predicate Renewed(ch: Channel, n: nat, f: nat) {
    n <= |ch.wire| && (f in ch.prepared ==> PreparedFrom(ch.wire, n, f))
  }

  lemma PreparedGains(s: System, a: Action, c: nat, f: nat)
    requires Enabled(s, a) && c < |s.channels| && f !in s.channels[c].prepared
    ensures |Apply(s, a).channels| == |s.channels|
    ensures f in Apply(s, a).channels[c].prepared ==> a == Inject(c) && Next(s.channels[c].loop.w).f == f
  {
    ChannelAt(s, a, c);
  }

  lemma RenewedStep(s: System, a: Action, c: nat, n: nat, f: nat)
    requires Enabled(s, a) && c < |s.channels| && Renewed(s.channels[c], n, f)
    ensures c < |Apply(s, a).channels| && Renewed(Apply(s, a).channels[c], n, f)
  {
    D.WireGrows(s, a, c);
    var ch, next := s.channels[c], Apply(s, a).channels[c];
    if f in ch.prepared {
      PreparedFromMore(ch.wire, next.wire, n, f);
    } else if f in next.prepared {
      PreparedGains(s, a, c, f);
      assert next.wire[|ch.wire|] == PrepareItem(f, ch.loop.w.beganOpen);
    }
  }

  lemma {:induction false} RenewedRun(s: System, more: seq<Action>, c: nat, n: nat, f: nat)
    requires c < |s.channels| && Renewed(s.channels[c], n, f) && Exec(s, more).Some?
    ensures c < |Exec(s, more).value.channels| && Renewed(Exec(s, more).value.channels[c], n, f)
  {
    if more != [] {
      var m := |more| - 1;
      RenewedRun(s, more[..m], c, n, f);
      RenewedStep(Exec(s, more[..m]).value, more[m], c, n, f);
    }
  }

  /** The SET of call k is taken care of: a PREPARE is written, or the import is done, or the handler is at it. */
  ghost predicate Cared(s: System, c: nat, w: Write, n: nat, f: nat, k: nat) {
    && c < |s.channels| && f < |s.fieldsets| && k < |s.fieldsets[f].calls|
    && HasNext(w) && Next(w) == Set(f, k)
    && (|| PreparedFrom(s.channels[c].wire, n, f)
        || R.Done(s.fieldsets[f].calls[k])
        || AtIt(s, c, w, n, f, k))
  }

  /** The handler stands at the registration of f for the SET of call k. */
  ghost predicate AtIt(s: System, c: nat, w: Write, n: nat, f: nat, k: nat)
    requires c < |s.channels| && f < |s.fieldsets| && k < |s.fieldsets[f].calls|
  {
    && (s.channels[c].loop == Registering(w) || s.channels[c].loop == Registered(w))
    && R.Handed(s.fieldsets[f].calls[k]) && n <= |s.channels[c].wire|
  }

  /** Only Join and Inject move the handler on from there. */
  lemma LoopWaits(s: System, a: Action, c: nat, w: Write)
    requires Enabled(s, a) && c < |s.channels| && a != Join(c) && a != Inject(c)
    requires s.channels[c].loop == Registering(w) || s.channels[c].loop == Registered(w)
    ensures c < |Apply(s, a).channels| && Apply(s, a).channels[c].loop == s.channels[c].loop
  {
    ChannelAt(s, a, c);
  }

  lemma JoinCares(s: System, c: nat, w: Write, n: nat, f: nat, k: nat)
    requires Enabled(s, Join(c)) && Cared(s, c, w, n, f, k) && AtIt(s, c, w, n, f, k)
    ensures Cared(Apply(s, Join(c)), c, w, n, f, k)
  {
  }

  lemma InjectCares(s: System, c: nat, w: Write, n: nat, f: nat, k: nat)
    requires Enabled(s, Inject(c)) && Cared(s, c, w, n, f, k) && AtIt(s, c, w, n, f, k)
    ensures Cared(Apply(s, Inject(c)), c, w, n, f, k)
  {
    var ch, next := s.channels[c], Apply(s, Inject(c)).channels[c];
    assert next.wire[|ch.wire|] == PrepareItem(f, w.beganOpen);
  }

  lemma CaredStep(s: System, a: Action, c: nat, w: Write, n: nat, f: nat, k: nat)
    requires Sound(s) && Enabled(s, a) && Cared(s, c, w, n, f, k)
    ensures Cared(Apply(s, a), c, w, n, f, k)
  {
    StepKeepsShape(s, a);
    D.WireGrows(s, a, c);
    FieldsetStep(s, a, f);
    if PreparedFrom(s.channels[c].wire, n, f) {
      PreparedFromMore(s.channels[c].wire, Apply(s, a).channels[c].wire, n, f);
    } else if !R.Done(s.fieldsets[f].calls[k]) {
      if a == Join(c) {
        JoinCares(s, c, w, n, f, k);
      } else if a == Inject(c) {
        InjectCares(s, c, w, n, f, k);
      } else {
        LoopWaits(s, a, c, w);
      }
    }
  }

  lemma {:induction false} CaredRun(s: System, rest: seq<Action>, c: nat, w: Write, n: nat, f: nat, k: nat)
    requires G.Inv(s) && Exec(s, rest).Some? && Cared(s, c, w, n, f, k)
    ensures Cared(Exec(s, rest).value, c, w, n, f, k)
  {
    if rest != [] {
      var m := |rest| - 1;
      CaredRun(s, rest[..m], c, w, n, f, k);
      G.RunKeepsInv(s, rest[..m]);
      CaredStep(Exec(s, rest[..m]).value, rest[m], c, w, n, f, k);
    }
  }

  /** The next element is a live SET of call k of fieldset f, outside a transaction. */
  ghost predicate SeesSet(s: System, c: nat, f: nat, k: nat) {
    && Enabled(s, Observe(c, false)) && Next(s.channels[c].loop.w) == Set(f, k)
    && s.fieldsets[f].calls[k].Dispatched? && !s.channels[c].open
  }

  lemma ObserveCares(s: System, c: nat, n: nat, f: nat, k: nat)
    requires SeesSet(s, c, f, k) && Renewed(s.channels[c], n, f)
    ensures Cared(Apply(s, Observe(c, false)), c, s.channels[c].loop.w, n, f, k)
  {
  }

  /** After a PREPARE of f has failed on channel c, every SET of f that is observed live outside a transaction has a
      PREPARE of f on the wire that was written after the failure, or its import is done, as soon as the handler is past
      registering for it: in every run, whatever runs in between. */
  lemma PreparedAgain(init: System, run: seq<Action>, c: nat, f: nat, more: seq<Action>, k: nat, rest: seq<Action>)
    requires Initial(init) && Exec(init, run).Some? && Enabled(Exec(init, run).value, PrepareFails(c, f))
    requires Exec(Apply(Exec(init, run).value, PrepareFails(c, f)), more).Some?
    requires var u := Exec(Apply(Exec(init, run).value, PrepareFails(c, f)), more).value;
             SeesSet(u, c, f, k) && Exec(Apply(u, Observe(c, false)), rest).Some?
    ensures var s := Exec(init, run).value;
            var u := Exec(Apply(s, PrepareFails(c, f)), more).value;
            var v := Exec(Apply(u, Observe(c, false)), rest).value;
            && c < |v.channels| && f < |v.fieldsets| && k < |v.fieldsets[f].calls|
            && (|| PreparedFrom(v.channels[c].wire, |s.channels[c].wire|, f)
                || R.Done(v.fieldsets[f].calls[k])
                || v.channels[c].loop == Registering(u.channels[c].loop.w)
                || v.channels[c].loop == Registered(u.channels[c].loop.w))
  {
    G.Reachable(init, run);
    var s := Exec(init, run).value;
    var t := Apply(s, PrepareFails(c, f));
    G.StepKeepsInv(s, PrepareFails(c, f));
    var n := |s.channels[c].wire|;
    RenewedRun(t, more, c, n, f);
    G.RunKeepsInv(t, more);
    var u := Exec(t, more).value;
    ObserveCares(u, c, n, f, k);
    G.StepKeepsInv(u, Observe(c, false));
    CaredRun(Apply(u, Observe(c, false)), rest, c, u.channels[c].loop.w, n, f, k);
  }
}
