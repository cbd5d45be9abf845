/**
 The objects of the import protocol with their methods as written, each call running to its end before the next one
 starts. What concurrent calls can do to one another is in Reservation and ImportWire.
 */
module ImportObjects {
  import opened Options

  class HashImportContext {
    var prepared: set<nat>
    var pendingDiscards: seq<nat>
    var discardsPending: bool
    var commandBuilder: bool

    constructor ()
      ensures prepared == {} && pendingDiscards == [] && !discardsPending && !commandBuilder
    {
      prepared, pendingDiscards, discardsPending, commandBuilder := {}, [], false, false;
    }

    method DrainDiscards() returns (batch: seq<nat>)
      modifies this
      ensures batch == old(pendingDiscards) && pendingDiscards == [] && !discardsPending
      ensures prepared == old(prepared) && commandBuilder == old(commandBuilder)
    {
      discardsPending := false;
      batch := [];
      while pendingDiscards != []
        invariant batch + pendingDiscards == old(pendingDiscards)
        invariant !discardsPending && prepared == old(prepared) && commandBuilder == old(commandBuilder)
        decreases |pendingDiscards|
      {
        batch := batch + [pendingDiscards[0]];
        pendingDiscards := pendingDiscards[1..];
      }
    }

    twostate predicate GotDiscard(fieldset: nat)
      reads this
    {
      && prepared == old(prepared) && commandBuilder == old(commandBuilder)
      && pendingDiscards == (if old(commandBuilder) then old(pendingDiscards) + [fieldset] else old(pendingDiscards))
      && discardsPending == (old(commandBuilder) || old(discardsPending))
    }

    method Discard(fieldset: nat)
      modifies this
      ensures GotDiscard(fieldset)
    {
      if !commandBuilder {
        return;
      }
      pendingDiscards := pendingDiscards + [fieldset];
      discardsPending := true;
    }

    method Clear()
      modifies this
      ensures prepared == {} && pendingDiscards == [] && !discardsPending && commandBuilder == old(commandBuilder)
    {
      prepared := {};
      pendingDiscards := [];
      discardsPending := false;
    }
  }

  class HashImport {
    const id: nat
    var closed: bool
    var inFlight: int
    var cleanedUp: bool
    var preparedOn: set<HashImportContext>

    ghost predicate Valid()
      reads this
    {
      cleanedUp ==> closed && preparedOn == {}
    }

    /** What holds as long as no two calls overlap: cleanup has run exactly if the fieldset is closed and no import is
        outstanding. */
    ghost predicate Undisturbed()
      reads this
    {
      Valid() && inFlight >= 0 && (cleanedUp <==> closed && inFlight == 0)
    }

    constructor (id: nat)
      ensures this.id == id && !closed && inFlight == 0 && preparedOn == {} && Undisturbed()
    {
      this.id := id;
      closed, inFlight, cleanedUp, preparedOn := false, 0, false, {};
    }

    /** `overtaken` is whether another thread's close writes `closed` between the two reads; with the count taken by
        then, that close leaves cleanup to this call, which hands the count back. */
    method Retain(overtaken: bool) returns (admitted: bool)
      requires Valid()
      modifies this, preparedOn
      ensures Valid() && (closed <==> old(closed) || overtaken)
      ensures admitted <==> !old(closed) && !overtaken
      ensures inFlight == old(inFlight) + if admitted then 1 else 0
      ensures cleanedUp <==> old(cleanedUp) || (!old(closed) && overtaken && inFlight == 0)
      ensures preparedOn == if cleanedUp then {} else old(preparedOn)
      ensures forall c :: c in old(preparedOn) ==> if cleanedUp then c.GotDiscard(id) else unchanged(c)
      ensures old(Undisturbed()) ==> Undisturbed()
    {
      if closed {
        return false;
      }
      inFlight := inFlight + 1;
      if overtaken {
        closed := true;
      }
      if closed {
        Release();
        return false;
      }
      return true;
    }

    method Release()
      requires Valid()
      modifies this, preparedOn
      ensures Valid() && inFlight == old(inFlight) - 1 && closed == old(closed)
      ensures cleanedUp <==> old(cleanedUp) || (closed && inFlight == 0)
      ensures preparedOn == if cleanedUp then {} else old(preparedOn)
      ensures forall c :: c in old(preparedOn) ==> if cleanedUp then c.GotDiscard(id) else unchanged(c)
      ensures old(Undisturbed() && inFlight > 0) ==> Undisturbed()
    {
      inFlight := inFlight - 1;
      if inFlight == 0 && closed {
        Cleanup();
      }
    }

    method RegisterConnection(context: HashImportContext) returns (accepted: bool)
      modifies this`preparedOn
      ensures accepted <==> !cleanedUp
      ensures preparedOn == old(preparedOn) + if accepted then {context} else {}
    {
      if cleanedUp {
        return false;
      }
      preparedOn := preparedOn + {context};
      return true;
    }

    method Close()
      requires Valid()
      modifies this, preparedOn
      ensures Valid() && closed && inFlight == old(inFlight)
      ensures cleanedUp <==> old(cleanedUp) || inFlight == 0
      ensures preparedOn == if cleanedUp then {} else old(preparedOn)
      ensures forall c :: c in old(preparedOn) ==> if cleanedUp then c.GotDiscard(id) else unchanged(c)
      ensures old(Undisturbed()) ==> Undisturbed()
    {
      closed := true;
      if inFlight == 0 {
        Cleanup();
      }
    }

    method Cleanup()
      requires Valid() && closed
      modifies this, preparedOn
      ensures Valid() && closed && cleanedUp && inFlight == old(inFlight)
      ensures forall c :: c in old(preparedOn) ==> c.GotDiscard(id)
    {
      if cleanedUp {
        return;
      }
      cleanedUp := true;
      var targets := preparedOn;
      preparedOn := {};
      var todo := targets;
      while todo != {}
        invariant todo <= targets && cleanedUp && closed && preparedOn == {} && inFlight == old(inFlight)
        invariant forall c :: c in targets ==> if c in todo then unchanged(c) else c.GotDiscard(id)
        decreases |todo|
      {
        var context :| context in todo;
        context.Discard(id);
        todo := todo - {context};
      }
    }
  }

  // ----- himportSet -----

  datatype Outcome = Refused | Threw | Dispatched

  /** The asynchronous himportSet; `throws` is whether dispatch does, `overtaken` as in Retain. The reservation of a
      dispatched command is given back when it completes. */
  method HimportSet(fieldset: HashImport, throws: bool, overtaken: bool) returns (r: Outcome)
    requires fieldset.Undisturbed()
    modifies fieldset, fieldset.preparedOn
    ensures fieldset.Undisturbed() && (fieldset.closed <==> old(fieldset.closed) || overtaken)
    ensures r == if fieldset.closed then Refused else if throws then Threw else Dispatched
    ensures fieldset.inFlight == old(fieldset.inFlight) + if r == Dispatched then 1 else 0
    ensures forall c :: c in old(fieldset.preparedOn) ==>
                          if fieldset.cleanedUp then c.GotDiscard(fieldset.id) else unchanged(c)
  {
    var admitted := fieldset.Retain(overtaken);
    if !admitted {
      return Refused;
    }
    if throws {
      fieldset.Release();
      return Threw;
    }
    return Dispatched;
  }

  // ----- The field names -----

  datatype FieldCheck = Accepted | NoCodec | NullFields | NoFields | NullField(at: nat) | Duplicate(at: nat)

  ghost predicate Fresh<K>(fields: seq<Option<K>>, i: nat)
    requires i < |fields|
  {
    fields[i].Some? && fields[i] !in fields[..i]
  }

  /** The checks of `of`, in order; a null codec, array or name is None. The first name that is null or repeats an
      earlier one is reported. */
  method CheckFields<C, K(==)>(codec: Option<C>, names: Option<seq<Option<K>>>) returns (r: FieldCheck)
    ensures r == NoCodec <==> codec.None?
    ensures r == NullFields <==> codec.Some? && names.None?
    ensures r == NoFields <==> codec.Some? && names == Some([])
    ensures r == Accepted <==>
            && codec.Some? && names.Some? && names.value != []
            && forall i :: 0 <= i < |names.value| ==> Fresh(names.value, i)
    ensures r.NullField? || r.Duplicate? ==>
              && codec.Some? && names.Some? && r.at < |names.value|
              && forall i :: 0 <= i < r.at ==> Fresh(names.value, i)
    ensures r.NullField? ==> names.value[r.at].None?
    ensures r.Duplicate? ==> names.value[r.at].Some? && names.value[r.at] in names.value[..r.at]
  {
    if codec.None? {
      return NoCodec;
    }
    if names.None? {
      return NullFields;
    }
    var fields := names.value;
    if |fields| == 0 {
      return NoFields;
    }
    var seen: set<K> := {};
    for i := 0 to |fields|
      invariant forall j :: 0 <= j < i ==> Fresh(fields, j)
      invariant forall k :: k in seen <==> Some(k) in fields[..i]
    {
      if fields[i].None? {
        assert !Fresh(fields, i);
        return NullField(i);
      }
      if fields[i].value in seen {
        assert !Fresh(fields, i);
        return Duplicate(i);
      }
      seen := seen + {fields[i].value};
      assert fields[..i + 1] == fields[..i] + [fields[i]];
    }
    return Accepted;
  }
}
