/**
 The arguments of the BITFIELD command: sub-commands, the tokens they are sent as, and a decoder of such tokens that
 serves as their specification.
 */
module BitField {
  import opened Options
  import D = Decimal

  const TWO_TO_THE_32 := 0x1_0000_0000

  /** Java's int and long. */
  type Int32 = x: int | -0x8000_0000 <= x < 0x8000_0000
  type Int64 = x: int | -0x8000_0000_0000_0000 <= x < 0x8000_0000_0000_0000

  predicate ValidWidth(signed: bool, bits: int) {
    0 < bits < if signed then 65 else 64
  }

  datatype FieldType = FieldType(signed: bool, bits: int)

  type BitFieldType = t: FieldType | ValidWidth(t.signed, t.bits) witness FieldType(true, 1)

  /** The type's constructor; None is the IllegalArgumentException for a width out of range. */
  function NewType(signed: bool, bits: Int32): Option<BitFieldType> {
    if ValidWidth(signed, bits) then Some(FieldType(signed, bits)) else None
  }

  datatype Offset = Offset(multiplyByTypeWidth: bool, offset: Int32)

  datatype OverflowType = Wrap | Sat | Fail

  datatype SubCommand =
    | Get(fieldType: BitFieldType, offset: Offset)
    | Set(fieldType: BitFieldType, offset: Offset, value: Int64)
    | IncrBy(fieldType: BitFieldType, offset: Offset, value: Int64)
    | Overflow(overflowType: OverflowType)

  // ----- Tokens -----

  function Unsigned(x: Int32): (r: nat)
    ensures r < TWO_TO_THE_32 && (r - x) % TWO_TO_THE_32 == 0
  {
    if x < 0 then x + TWO_TO_THE_32 else x
  }

  function TypeToken(t: BitFieldType): string {
    (if t.signed then "i" else "u") + D.Print(t.bits)
  }

  function OffsetToken(o: Offset): string {
    (if o.multiplyByTypeWidth then "#" else "") + D.Print(Unsigned(o.offset))
  }

  function OverflowToken(o: OverflowType): string {
    match o
    case Wrap => "WRAP"
    case Sat => "SAT"
    case Fail => "FAIL"
  }

  datatype Keyword = GET | SET | INCRBY | OVERFLOW

  function KeywordToken(k: Keyword): string {
    match k
    case GET => "GET"
    case SET => "SET"
    case INCRBY => "INCRBY"
    case OVERFLOW => "OVERFLOW"
  }

  function SubTokens(c: SubCommand): seq<string> {
    match c
    case Get(t, o) => [KeywordToken(GET), TypeToken(t), OffsetToken(o)]
    case Set(t, o, v) => [KeywordToken(SET), TypeToken(t), OffsetToken(o), D.PrintInt(v)]
    case IncrBy(t, o, v) => [KeywordToken(INCRBY), TypeToken(t), OffsetToken(o), D.PrintInt(v)]
    case Overflow(o) => [KeywordToken(OVERFLOW), OverflowToken(o)]
  }

  function Tokens(cs: seq<SubCommand>): seq<string> {
    if cs == [] then [] else SubTokens(cs[0]) + Tokens(cs[1..])
  }

  lemma Associative(a: seq<string>, b: seq<string>, c: seq<string>)
    ensures a + (b + c) == (a + b) + c
  {
  }

  lemma {:induction false} TokensSnoc(cs: seq<SubCommand>, c: SubCommand)
    ensures Tokens(cs + [c]) == Tokens(cs) + SubTokens(c)
  {
    if cs == [] {
      assert cs + [c] == [c] && [c][1..] == [];
    } else {
      TokensSnoc(cs[1..], c);
      assert (cs + [c])[1..] == cs[1..] + [c] && (cs + [c])[0] == cs[0];
      Associative(SubTokens(cs[0]), Tokens(cs[1..]), SubTokens(c));
    }
  }

  // ----- The decoder -----

  function ParseType(s: string): Option<BitFieldType> {
    if s == [] || s[0] !in "iu" then None
    else
      match D.Parse(s[1..])
      case None => None
      case Some(n) => if ValidWidth(s[0] == 'i', n) then Some(FieldType(s[0] == 'i', n)) else None
  }

  function ParseOffset(s: string): Option<Offset> {
    var hash := s != [] && s[0] == '#';
    match D.Parse(if hash then s[1..] else s)
    case None => None
    case Some(n) =>
      if n >= TWO_TO_THE_32 then None
      else Some(Offset(hash, if n < 0x8000_0000 then n else n - TWO_TO_THE_32))
  }

  predicate InRange64(v: int) {
    -0x8000_0000_0000_0000 <= v < 0x8000_0000_0000_0000
  }

  function ParseValue(s: string): Option<Int64> {
    match D.ParseInt(s)
    case None => None
    case Some(v) => if InRange64(v) then Some(v) else None
  }

  function ParseOverflow(s: string): Option<OverflowType> {
    if s == "WRAP" then Some(Wrap) else if s == "SAT" then Some(Sat) else if s == "FAIL" then Some(Fail) else None
  }

  function ParseKeyword(s: string): Option<Keyword> {
    if s == "GET" then Some(GET)
    else if s == "SET" then Some(SET)
    else if s == "INCRBY" then Some(INCRBY)
    else if s == "OVERFLOW" then Some(OVERFLOW) else None
  }

  function Arity(k: Keyword): nat {
    match k
    case GET => 3
    case SET => 4
    case INCRBY => 4
    case OVERFLOW => 2
  }

  /** The sub-command k with the arguments ts[1..]. */
  function DecodeSub(k: Keyword, ts: seq<string>): Option<SubCommand>
    requires |ts| == Arity(k)
  {
    if k == OVERFLOW then
      match ParseOverflow(ts[1])
      case None => None
      case Some(o) => Some(Overflow(o))
    else if ParseType(ts[1]).None? || ParseOffset(ts[2]).None? then None
    else
      var t, o := ParseType(ts[1]).value, ParseOffset(ts[2]).value;
      if k == GET then Some(Get(t, o))
      else
        match ParseValue(ts[3])
        case None => None
        case Some(v) => Some(if k == SET then Set(t, o, v) else IncrBy(t, o, v))
  }

  function Decode(ts: seq<string>): Option<seq<SubCommand>> {
    if ts == [] then Some([])
    else
      match ParseKeyword(ts[0])
      case None => None
      case Some(k) =>
        if Arity(k) > |ts| then None
        else
          match DecodeSub(k, ts[..Arity(k)])
          case None => None
          case Some(c) =>
            match Decode(ts[Arity(k)..])
            case None => None
            case Some(rest) => Some([c] + rest)
  }

  // ----- Decoding undoes printing, and nothing else decodes -----

  lemma TypeInverse(s: string, t: BitFieldType)
    ensures ParseType(s) == Some(t) <==> s == TypeToken(t)
  {
    if s != [] {
      assert s == [s[0]] + s[1..];
      D.ParseIsInverse(s[1..], t.bits);
    }
    D.ParseIsInverse(D.Print(t.bits), t.bits);
    assert TypeToken(t)[1..] == D.Print(t.bits);
  }

  /** A width is accepted by the type's constructor exactly if its text is a field type, and then it is that type. */
  lemma WidthAccepted(signed: bool, bits: Int32)
    ensures ParseType((if signed then "i" else "u") + D.PrintInt(bits)) == NewType(signed, bits)
    ensures NewType(signed, bits) ==
            if 1 <= bits <= (if signed then 64 else 63) then Some(FieldType(signed, bits)) else None
  {
    var s := (if signed then "i" else "u") + D.PrintInt(bits);
    assert s[1..] == D.PrintInt(bits);
    if bits >= 0 {
      D.ParseIsInverse(s[1..], bits);
    } else {
      assert s[1..][0] == '-';
    }
  }

  lemma HashedInverse(s: string, o: Offset)
    requires s != [] && s[0] == '#'
    ensures ParseOffset(s) == Some(o) <==> s == OffsetToken(o)
  {
    var n := Unsigned(o.offset);
    assert s == "#" + s[1..];
    D.ParseIsInverse(s[1..], n);
    D.PrintStartsWithDigit(n);
  }

  lemma UnhashedInverse(s: string, o: Offset)
    requires s == [] || s[0] != '#'
    ensures ParseOffset(s) == Some(o) <==> s == OffsetToken(o)
  {
    var n := Unsigned(o.offset);
    D.ParseIsInverse(s, n);
    assert "" + D.Print(n) == D.Print(n);
  }

  lemma OffsetInverse(s: string, o: Offset)
    ensures ParseOffset(s) == Some(o) <==> s == OffsetToken(o)
  {
    if s != [] && s[0] == '#' {
      HashedInverse(s, o);
    } else {
      UnhashedInverse(s, o);
    }
  }

  lemma ValueInverse(s: string, v: Int64)
    ensures ParseValue(s) == Some(v) <==> s == D.PrintInt(v)
  {
    D.ParseIntIsInverse(s, v);
  }

  lemma KeywordInverse(s: string, k: Keyword)
    ensures ParseKeyword(s) == Some(k) <==> s == KeywordToken(k)
  {
  }

  function KeywordOf(c: SubCommand): Keyword {
    match c
    case Get(_, _) => GET
    case Set(_, _, _) => SET
    case IncrBy(_, _, _) => INCRBY
    case Overflow(_) => OVERFLOW
  }

  lemma SubInverse(k: Keyword, ts: seq<string>, c: SubCommand)
    requires |ts| == Arity(k) && ts[0] == KeywordToken(k)
    ensures DecodeSub(k, ts) == Some(c) <==> KeywordOf(c) == k && ts == SubTokens(c)
  {
    if KeywordOf(c) == k {
      if k == OVERFLOW {
        assert ts == [ts[0], ts[1]];
      } else {
        TypeInverse(ts[1], c.fieldType);
        OffsetInverse(ts[2], c.offset);
        if k == GET {
          assert ts == [ts[0], ts[1], ts[2]];
        } else {
          ValueInverse(ts[3], c.value);
          assert ts == [ts[0], ts[1], ts[2], ts[3]];
        }
      }
    }
  }

  /** One sub-command in front of further tokens. */
  lemma DecodeFirst(c: SubCommand, rest: seq<string>)
    requires Decode(rest).Some?
    ensures Decode(SubTokens(c) + rest) == Some([c] + Decode(rest).value)
  {
    var k, ts := KeywordOf(c), SubTokens(c);
    KeywordInverse(ts[0], k);
    SubInverse(k, ts, c);
    assert (ts + rest)[0] == ts[0] && (ts + rest)[..Arity(k)] == ts && (ts + rest)[Arity(k)..] == rest;
  }

  /** The texts a sub-command starts and, for OVERFLOW, ends with. */
  lemma WireNames(c: SubCommand)
    ensures SubTokens(c)[0] == match c case Get(_, _) => "GET" case Set(_, _, _) => "SET"
                                       case IncrBy(_, _, _) => "INCRBY" case Overflow(_) => "OVERFLOW"
    ensures !c.Overflow? ==>
              && |SubTokens(c)| == (if c.Get? then 3 else 4)
              && SubTokens(c)[1][0] == (if c.fieldType.signed then 'i' else 'u')
              && (SubTokens(c)[2][0] == '#' <==> c.offset.multiplyByTypeWidth)
    ensures c.Overflow? ==>
              SubTokens(c)[1..] == match c.overflowType case Wrap => ["WRAP"] case Sat => ["SAT"] case Fail => ["FAIL"]
  {
    if !c.Overflow? {
      D.PrintStartsWithDigit(Unsigned(c.offset.offset));
    }
  }

  /** Every list of sub-commands is recovered from its tokens. */
  lemma {:induction false} RoundTrip(cs: seq<SubCommand>)
    ensures Decode(Tokens(cs)) == Some(cs)
  {
    if cs != [] {
      RoundTrip(cs[1..]);
      DecodeFirst(cs[0], Tokens(cs[1..]));
      assert cs == [cs[0]] + cs[1..];
    }
  }

  /** What decodes starts with the tokens of its first sub-command. */
  lemma DecodedFirst(ts: seq<string>)
    requires ts != [] && Decode(ts).Some?
    ensures exists c, n ::
              && 0 < n <= |ts| && ts[..n] == SubTokens(c)
              && Decode(ts[n..]).Some? && Decode(ts) == Some([c] + Decode(ts[n..]).value)
  {
    var k := ParseKeyword(ts[0]).value;
    var c := DecodeSub(k, ts[..Arity(k)]).value;
    KeywordInverse(ts[0], k);
    SubInverse(k, ts[..Arity(k)], c);
    assert ts[..Arity(k)] == SubTokens(c);
  }

  /** The only text that decodes to a list is the text the list is sent as. */
  lemma {:induction false} DecodesOnlyTokens(ts: seq<string>)
    requires Decode(ts).Some?
    ensures ts == Tokens(Decode(ts).value)
    decreases |ts|
  {
    if ts != [] {
      DecodedFirst(ts);
      var c, n :| 0 < n <= |ts| && ts[..n] == SubTokens(c)
                  && Decode(ts[n..]).Some? && Decode(ts) == Some([c] + Decode(ts[n..]).value);
      DecodesOnlyTokens(ts[n..]);
      assert ([c] + Decode(ts[n..]).value)[1..] == Decode(ts[n..]).value;
      assert ts == ts[..n] + ts[n..];
    }
  }

  // ----- Calls without a type -----

  /** A builder call, with the field type left out in the shorthand forms. */
  datatype Call =
    | Typed(command: SubCommand)
    | GetPrevious(offset: Int32)
    | SetPrevious(offset: Int32, value: Int64)
    | IncrByPrevious(offset: Int32, value: Int64)

  /** The sub-command a call stands for once its missing type is known to be t. */
  function WithType(call: Call, t: BitFieldType): SubCommand {
    match call
    case Typed(c) => c
    case GetPrevious(o) => Get(t, Offset(false, o))
    case SetPrevious(o, v) => Set(t, Offset(false, o), v)
    case IncrByPrevious(o, v) => IncrBy(t, Offset(false, o), v)
  }

  /** The type found by searching from the last sub-command back. */
  function Previous(cs: seq<SubCommand>): Option<BitFieldType> {
    if cs == [] then None
    else if cs[|cs| - 1].Overflow? then Previous(cs[..|cs| - 1]) else Some(cs[|cs| - 1].fieldType)
  }

  /** The list after one call; None is the IllegalStateException. */
  function Issue(cs: seq<SubCommand>, call: Call): Option<seq<SubCommand>> {
    if call.Typed? then Some(cs + [call.command])
    else if Previous(cs).None? then None else Some(cs + [WithType(call, Previous(cs).value)])
  }

  /** The list after a chain of calls, which the first failing call ends. */
  function IssueAll(calls: seq<Call>): Option<seq<SubCommand>> {
    if calls == [] then Some([])
    else
      match IssueAll(calls[..|calls| - 1])
      case None => None
      case Some(cs) => Issue(cs, calls[|calls| - 1])
  }

  /** j is the nearest sub-command before i that is not OVERFLOW. */
  ghost predicate Nearest(cs: seq<SubCommand>, i: int, j: int) {
    && 0 <= j < i <= |cs| && !cs[j].Overflow?
    && forall k :: j < k < i ==> cs[k].Overflow?
  }

  predicate Typeless(call: Call) {
    !call.Typed?
  }

  predicate IsOverflow(call: Call) {
    call.Typed? && call.command.Overflow?
  }

  /** A chain is lost as soon as a type-less call has only OVERFLOW before it. */
  ghost predicate Orphaned(calls: seq<Call>) {
    exists i :: 0 <= i < |calls| && Typeless(calls[i]) && forall j :: 0 <= j < i ==> IsOverflow(calls[j])
  }

  /** Sub-command i is what the call asks for, with the type of the nearest earlier one other than OVERFLOW where the
      call leaves it out. */
  ghost predicate Elaborates(call: Call, cs: seq<SubCommand>, i: nat)
    requires i < |cs|
  {
    match call
    case Typed(c) => cs[i] == c
    case GetPrevious(o) => exists j :: Nearest(cs, i, j) && cs[i] == Get(cs[j].fieldType, Offset(false, o))
    case SetPrevious(o, v) => exists j :: Nearest(cs, i, j) && cs[i] == Set(cs[j].fieldType, Offset(false, o), v)
    case IncrByPrevious(o, v) =>
      exists j :: Nearest(cs, i, j) && cs[i] == IncrBy(cs[j].fieldType, Offset(false, o), v)
  }

  lemma {:induction false} PreviousIsNearest(cs: seq<SubCommand>)
    ensures Previous(cs).None? <==> forall i :: 0 <= i < |cs| ==> cs[i].Overflow?
    ensures Previous(cs).Some? ==> exists j :: Nearest(cs, |cs|, j) && cs[j].fieldType == Previous(cs).value
  {
    if cs != [] {
      var n := |cs| - 1;
      if cs[n].Overflow? {
        PreviousIsNearest(cs[..n]);
        if Previous(cs).Some? {
          var j :| Nearest(cs[..n], n, j) && cs[..n][j].fieldType == Previous(cs).value;
          assert Nearest(cs, |cs|, j);
        }
      } else {
        assert Nearest(cs, |cs|, n);
      }
    }
  }

  /** What was chosen for a call stays when the list grows. */
  lemma ElaboratesFrame(call: Call, cs: seq<SubCommand>, c: SubCommand, i: nat)
    requires i < |cs| && Elaborates(call, cs, i)
    ensures Elaborates(call, cs + [c], i)
  {
    assert forall j :: Nearest(cs, i, j) ==> Nearest(cs + [c], i, j) && (cs + [c])[j] == cs[j];
  }

  lemma LastElaborates(call: Call, cs: seq<SubCommand>)
    requires Issue(cs, call).Some?
    ensures |Issue(cs, call).value| == |cs| + 1 && Elaborates(call, Issue(cs, call).value, |cs|)
  {
    var ds := Issue(cs, call).value;
    if !call.Typed? {
      PreviousIsNearest(cs);
      var j :| Nearest(cs, |cs|, j) && cs[j].fieldType == Previous(cs).value;
      assert Nearest(ds, |cs|, j) && ds[j] == cs[j];
    }
  }

  lemma {:induction false} EachElaborates(calls: seq<Call>)
    requires IssueAll(calls).Some?
    ensures |IssueAll(calls).value| == |calls|
    ensures forall i :: 0 <= i < |calls| ==> Elaborates(calls[i], IssueAll(calls).value, i)
  {
    if calls != [] {
      var n := |calls| - 1;
      EachElaborates(calls[..n]);
      var before, cs := IssueAll(calls[..n]).value, IssueAll(calls).value;
      LastElaborates(calls[n], before);
      forall i | 0 <= i < n
        ensures Elaborates(calls[i], cs, i)
      {
        assert calls[..n][i] == calls[i];
        assert cs == before + [cs[n]];
        ElaboratesFrame(calls[i], before, cs[n], i);
      }
    }
  }

  lemma OverflowExactly(call: Call, cs: seq<SubCommand>, i: nat)
    requires i < |cs| && Elaborates(call, cs, i)
    ensures cs[i].Overflow? <==> IsOverflow(call)
  {
  }

  lemma OrphanedSnoc(calls: seq<Call>, call: Call)
    ensures Orphaned(calls + [call]) <==>
              Orphaned(calls) || (Typeless(call) && forall j :: 0 <= j < |calls| ==> IsOverflow(calls[j]))
  {
    var longer := calls + [call];
    assert forall j :: 0 <= j < |calls| ==> longer[j] == calls[j];
    if Orphaned(longer) {
      var i :| 0 <= i < |longer| && Typeless(longer[i]) && forall j :: 0 <= j < i ==> IsOverflow(longer[j]);
      assert i < |calls| ==> Typeless(calls[i]);
    }
    if Orphaned(calls) {
      var i :| 0 <= i < |calls| && Typeless(calls[i]) && forall j :: 0 <= j < i ==> IsOverflow(calls[j]);
      assert Typeless(longer[i]);
    } else if Typeless(call) && forall j :: 0 <= j < |calls| ==> IsOverflow(calls[j]) {
      assert Typeless(longer[|calls|]);
    }
  }

  /** A chain of calls fails exactly when some type-less call has nothing but OVERFLOW before it. */
  lemma {:induction false} FailsExactly(calls: seq<Call>)
    ensures IssueAll(calls).None? <==> Orphaned(calls)
  {
    if calls != [] {
      var n := |calls| - 1;
      FailsExactly(calls[..n]);
      assert calls == calls[..n] + [calls[n]];
      OrphanedSnoc(calls[..n], calls[n]);
      if IssueAll(calls[..n]).Some? {
        var cs := IssueAll(calls[..n]).value;
        EachElaborates(calls[..n]);
        PreviousIsNearest(cs);
        forall j | 0 <= j < n
          ensures cs[j].Overflow? <==> IsOverflow(calls[..n][j])
        {
          OverflowExactly(calls[..n][j], cs, j);
        }
      }
    }
  }

  function AsTyped(cs: seq<SubCommand>): seq<Call> {
    seq(|cs|, i requires 0 <= i < |cs| => Typed(cs[i]))
  }

  lemma {:induction false} TypedCalls(cs: seq<SubCommand>)
    ensures IssueAll(AsTyped(cs)) == Some(cs)
  {
    if cs != [] {
      var n := |cs| - 1;
      TypedCalls(cs[..n]);
      assert AsTyped(cs)[..n] == AsTyped(cs[..n]);
      assert cs == cs[..n] + [cs[n]];
    }
  }

  /** A chain with shorthand calls sends what the fully typed chain sends in which every missing type is that of the
      nearest earlier sub-command other than OVERFLOW; there is such a chain unless the calls are orphaned. */
  lemma Elaboration(calls: seq<Call>)
    ensures IssueAll(calls).None? <==> Orphaned(calls)
    ensures !Orphaned(calls) ==>
              exists cs ::
                && |cs| == |calls| && (forall i :: 0 <= i < |calls| ==> Elaborates(calls[i], cs, i))
                && IssueAll(AsTyped(cs)) == IssueAll(calls) == Some(cs)
                && Decode(Tokens(cs)) == Some(cs)
  {
    FailsExactly(calls);
    if IssueAll(calls).Some? {
      var cs := IssueAll(calls).value;
      EachElaborates(calls);
      TypedCalls(cs);
      RoundTrip(cs);
    }
  }

  // ----- The builder -----

  class BitFieldArgs {
    var commands: seq<SubCommand>

    constructor ()
      ensures commands == []
    {
      commands := [];
    }

    method AddSubCommand(c: SubCommand)
      modifies this
      ensures commands == old(commands) + [c]
    {
      commands := commands + [c];
    }

    /** The search of the reversed list; None is the IllegalStateException. */
    method PreviousFieldType() returns (t: Option<BitFieldType>)
      ensures t == Previous(commands)
      ensures t.None? <==> forall i :: 0 <= i < |commands| ==> commands[i].Overflow?
      ensures t.Some? ==> exists j :: Nearest(commands, |commands|, j) && commands[j].fieldType == t.value
    {
      PreviousIsNearest(commands);
      var i := |commands|;
      assert commands[..i] == commands;
      while i > 0
        invariant 0 <= i <= |commands|
        invariant Previous(commands[..i]) == Previous(commands)
      {
        i := i - 1;
        assert commands[..i + 1][..i] == commands[..i];
        match commands[i]
        case Get(fieldType, _) => return Some(fieldType);
        case Set(fieldType, _, _) => return Some(fieldType);
        case IncrBy(fieldType, _, _) => return Some(fieldType);
        case Overflow(_) =>
      }
      return None;
    }

    /** get, set, incrBy and overflow with every argument given. */
    method Add(c: SubCommand)
      modifies this
      ensures commands == old(commands) + [c]
    {
      AddSubCommand(c);
    }

    // The forms without a type: the offset defaults to 0, and on failure nothing is added.

    method AddGet(offset: Int32 := 0) returns (ok: bool)
      modifies this
      ensures ok <==> exists i :: 0 <= i < |old(commands)| && !old(commands)[i].Overflow?
      ensures ok ==> exists j :: Nearest(old(commands), |old(commands)|, j) &&
                       commands == old(commands) + [Get(old(commands)[j].fieldType, Offset(false, offset))]
      ensures !ok ==> commands == old(commands)
    {
      PreviousIsNearest(commands);
      var t := PreviousFieldType();
      ok := t.Some?;
      if ok {
        AddSubCommand(Get(t.value, Offset(false, offset)));
      }
    }

    method AddSet(value: Int64, offset: Int32 := 0) returns (ok: bool)
      modifies this
      ensures ok <==> exists i :: 0 <= i < |old(commands)| && !old(commands)[i].Overflow?
      ensures ok ==> exists j :: Nearest(old(commands), |old(commands)|, j) &&
                       commands == old(commands) + [Set(old(commands)[j].fieldType, Offset(false, offset), value)]
      ensures !ok ==> commands == old(commands)
    {
      PreviousIsNearest(commands);
      var t := PreviousFieldType();
      ok := t.Some?;
      if ok {
        AddSubCommand(Set(t.value, Offset(false, offset), value));
      }
    }

    method AddIncrBy(value: Int64, offset: Int32 := 0) returns (ok: bool)
      modifies this
      ensures ok <==> exists i :: 0 <= i < |old(commands)| && !old(commands)[i].Overflow?
      ensures ok ==> exists j :: Nearest(old(commands), |old(commands)|, j) &&
                       commands == old(commands) + [IncrBy(old(commands)[j].fieldType, Offset(false, offset), value)]
      ensures !ok ==> commands == old(commands)
    {
      PreviousIsNearest(commands);
      var t := PreviousFieldType();
      ok := t.Some?;
      if ok {
        AddSubCommand(IncrBy(t.value, Offset(false, offset), value));
      }
    }

    /** Appends the tokens of all sub-commands to args. */
    method Build(args: seq<string>) returns (r: seq<string>)
      ensures r == args + Tokens(commands)
      ensures Decode(r[|args|..]) == Some(commands)
    {
      r := args;
      assert commands[..0] == [] && r == args + Tokens(commands[..0]);
      for i := 0 to |commands|
        invariant r == args + Tokens(commands[..i])
      {
        TokensSnoc(commands[..i], commands[i]);
        assert commands[..i + 1] == commands[..i] + [commands[i]];
        Associative(args, Tokens(commands[..i]), SubTokens(commands[i]));
        r := r + SubTokens(commands[i]);
      }
      assert commands[..|commands|] == commands;
      RoundTrip(commands);
      assert r[|args|..] == Tokens(commands);
    }
  }
}
