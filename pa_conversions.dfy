/** `pa_conversions.c`: conversions between Erlang terms and PortAudio values. */
module PaConversions {
  import opened CInts
  import opened ErlTerms
  import opened PaConstants
  import opened PaTables

  // ---------------------------------------------------------------------
  // Errors

  /** `_pa_error_to_char`: walks `pa_errors` up to the sentinel. */
  method PaErrorToChar(err: int) returns (s: string)
    ensures s == ErrorName(err)
    ensures forall i :: 0 <= i < |PA_ERRORS| - 1 && PA_ERRORS[i].key == err ==> s == PA_ERRORS[i].str.value
    ensures s == "unknown_error" <==> forall i :: 0 <= i < |PA_ERRORS| - 1 ==> PA_ERRORS[i].key != err
  {
    ErrorTableFacts();
    ErrorNameUnknown(err);
    forall i | 0 <= i < |PA_ERRORS| - 1 ensures ErrorName(PA_ERRORS[i].key) == PA_ERRORS[i].str.value {
      ErrorNameOfTableCode(i);
    }
    var t := PA_ERRORS;
    var cur := 0;
    while t[cur].str.Some?
      invariant 0 <= cur < |t|
      invariant forall j :: 0 <= j < cur ==> t[j].key != err
      decreases |t| - cur
    {
      if t[cur].key == err {
        return t[cur].str.value;
      }
      cur := cur + 1;
    }
    return "unknown_error";
  }

  /** `pa_error_to_error_tuple`: `{error, Name}`. */
  function PaErrorToErrorTuple(err: int): (t: Term)
    ensures t.Tuple? && |t.elems| == 2
    ensures t.elems[0] == Atom("error") && t.elems[1] == Atom(ErrorName(err))
  {
    ErrorTuple(ErrorName(err))
  }

  /** `pa_is_error`. */
  predicate PaIsError(status: int): (r: bool)
    ensures r <==> status < paNoError
  {
    status < 0
  }

  /** The `handle_pa_error` macro: `Some(t)` when the caller returns the error
      tuple `t`, `None` when it falls through. */
  function HandlePaError(status: int): (r: Option<Term>)
    ensures r.Some? <==> status < 0
    ensures r.Some? ==> r.value == Tuple([Atom("error"), Atom(ErrorName(status))])
  {
    if PaIsError(status) then Some(PaErrorToErrorTuple(status)) else None
  }

  /** Every PortAudio error code of the table makes the macro return its own
      named error tuple, and `paNoError` falls through. */
  lemma HandlePaErrorOnTableCodes(i: nat)
    requires i < |PA_ERRORS| - 1
    ensures HandlePaError(PA_ERRORS[i].key) == Some(ErrorTuple(PA_ERRORS[i].str.value))
    ensures HandlePaError(paNoError) == None
  {
    ErrorNameOfTableCode(i);
  }

  // ---------------------------------------------------------------------
  // Devices

  /** `pa_device_to_term`: nil for `paNoDevice`, the index as an unsigned int otherwise. */
  function PaDeviceToTerm(device: int): (r: Term)
    requires IsInt(device)
    ensures r == NIL <==> device == paNoDevice
    ensures device != paNoDevice ==> r == Int(IntToUInt(device)) && IsUInt(r.value)
    ensures device >= 0 ==> r == Int(device)
  {
    if device == paNoDevice then NIL else Int(IntToUInt(device))
  }

  // ---------------------------------------------------------------------
  // Sample formats and stream parameters

  /** `pa_sample_format_from_atom`: `prior` is the value the out-parameter
      held before the call. */
  method SampleFormatFromAtom(atom: Term, prior: int) returns (found: bool, format: int)
    ensures found <==> atom in SAMPLE_FORMAT_ATOMS
    ensures found ==> SampleFormatOf(atom) == Some(format)
    ensures !found ==> format == prior && SampleFormatOf(atom) == None
  {
    SampleFormatNames(atom);
    SampleFormatTableFacts();
    var t := PA_SAMPLE_FORMATS;
    var cur := 0;
    while t[cur].str.Some?
      invariant 0 <= cur < |t|
      invariant forall j :: 0 <= j < cur ==> !NamesAtom(t, j, atom)
      decreases |t| - cur
    {
      if atom == Atom(t[cur].str.value) {
        return true, t[cur].key;
      }
      cur := cur + 1;
    }
    return false, prior;
  }

  /** The condition under which `pa_stream_params_from_tuple` accepts a tuple. */
  predicate AcceptedParamsTuple(elems: seq<Term>) {
    |elems| == 4 &&
    GetUInt(elems[0]).Some? && GetUInt(elems[1]).Some? &&
    elems[2].Atom? && GetDouble(elems[3]).Some? &&
    SampleFormatOf(elems[2]).Some?
  }

  /** `pa_stream_params_from_tuple`: `params` is what `*stream_params` holds
      on return (`None` is NULL). */
  method StreamParamsFromTuple(term: Term) returns (ok: bool, params: Option<StreamParameters>)
    ensures !term.Tuple? ==> ok == ErliIsNil(term) && params == None
    ensures term.Tuple? ==> ok == AcceptedParamsTuple(term.elems)
    ensures !ok ==> params == None
    ensures ok && term.Tuple? ==>
      params == Some(StreamParameters(
        UIntToInt(term.elems[0].value), UIntToInt(term.elems[1].value),
        SampleFormatOf(term.elems[2]).value, term.elems[3].number, Null))
  {
    params := None;
    if !term.Tuple? {
      return ErliIsNil(term), None;
    }
    var tuple := term.elems;
    if |tuple| != 4 || GetUInt(tuple[0]).None? || GetUInt(tuple[1]).None?
       || !tuple[2].Atom? || GetDouble(tuple[3]).None? {
      return false, None;
    }
    var device := UIntToInt(tuple[0].value);
    var channelCount := UIntToInt(tuple[1].value);
    var found, format := SampleFormatFromAtom(tuple[2], 0);
    if !found {
      return false, None;
    }
    return true, Some(StreamParameters(device, channelCount, format, tuple[3].number, Null));
  }

  // ---------------------------------------------------------------------
  // Stream flags

  /** The state of a table walk: returned a value, or still inside the loop at row `cur`. */
  datatype Walk<T> = Returned(value: T) | Looping(cur: nat)

  /** `_atom_to_stream_flags` as written: `fuel` iterations of a loop whose
      body never advances `cur`. */
  function AtomToStreamFlagsAsWritten(term: Term, cur: nat, fuel: nat): (w: Walk<StreamFlags>)
    requires cur < |PA_STREAM_FLAGS|
    ensures w.Looping? ==> w.cur == cur
    ensures w.Returned? ==>
      (PA_STREAM_FLAGS[cur].str.None? && w.value == paNoFlag) ||
      (PA_STREAM_FLAGS[cur].str.Some? && term == Atom(PA_STREAM_FLAGS[cur].str.value) &&
       w.value == PA_STREAM_FLAGS[cur].key)
    decreases fuel
  {
    if fuel == 0 then Looping(cur)
    else if PA_STREAM_FLAGS[cur].str.None? then Returned(paNoFlag)
    else if term == Atom(PA_STREAM_FLAGS[cur].str.value) then Returned(PA_STREAM_FLAGS[cur].key)
    else AtomToStreamFlagsAsWritten(term, cur, fuel - 1)
  }

  /** As written, the walk answers `noclip` in one iteration... */
  lemma AtomToStreamFlagsAsWrittenNoclip(fuel: nat)
    requires fuel > 0
    ensures AtomToStreamFlagsAsWritten(Atom("noclip"), 0, fuel) == Returned(paClipOff)
  {
  }

  /** ...and for every other term it is still looping at row 0 after any
      number of iterations: the loop never terminates. */
  lemma {:induction false} AtomToStreamFlagsAsWrittenDiverges(term: Term, fuel: nat)
    requires term != Atom("noclip")
    ensures AtomToStreamFlagsAsWritten(term, 0, fuel) == Looping(0)
    decreases fuel
  {
    if fuel > 0 {
      AtomToStreamFlagsAsWrittenDiverges(term, fuel - 1);
    }
  }

  /** `_atom_to_stream_flags` with `cur++` in the loop body: the flag the
      atom names, or `paNoFlag`. */
  method AtomToStreamFlags(term: Term) returns (flags: StreamFlags)
    ensures flags == StreamFlagOf(term).GetOr(paNoFlag)
    ensures flags == FlagBit(term)
  {
    StreamFlagNames(term);
    StreamFlagTableFacts();
    var t := PA_STREAM_FLAGS;
    var cur := 0;
    while t[cur].str.Some?
      invariant 0 <= cur < |t|
      invariant forall j :: 0 <= j < cur ==> !NamesAtom(t, j, term)
      decreases |t| - cur
    {
      if term == Atom(t[cur].str.value) {
        return t[cur].key;
      }
      cur := cur + 1;
    }
    return paNoFlag;
  }

  /** The flag bit a term contributes, stated without the table. */
  function FlagBit(term: Term): StreamFlags {
    if term == Atom("noclip") then paClipOff
    else if term == Atom("nodither") then paDitherOff
    else if term == Atom("nodropinput") then paNeverDropInput
    else paNoFlag
  }

  /** What `pa_stream_flags_from_list` accumulates over list elements, left to right. */
  function FlagsOf(items: seq<Term>): StreamFlags
    decreases |items|
  {
    if items == [] then paNoFlag
    else FlagsOf(items[..|items| - 1]) | StreamFlagOf(items[|items| - 1]).GetOr(paNoFlag)
  }

  function BitIf(b: bool, flag: StreamFlags): StreamFlags {
    if b then flag else paNoFlag
  }

  /** The accumulated flags depend only on which flag atoms occur in the list. */
  lemma {:induction false} FlagsOfMembers(items: seq<Term>)
    ensures FlagsOf(items) ==
      BitIf(Atom("noclip") in items, paClipOff) |
      BitIf(Atom("nodither") in items, paDitherOff) |
      BitIf(Atom("nodropinput") in items, paNeverDropInput)
    decreases |items|
  {
    if items != [] {
      var init, last := items[..|items| - 1], items[|items| - 1];
      assert items == init + [last];
      FlagsOfMembers(init);
      StreamFlagNames(last);
      forall x ensures x in items <==> x in init || x == last {
      }
    }
  }

  /** Hence the order and the repetition of list elements do not matter. */
  lemma FlagsOfSameMembers(xs: seq<Term>, ys: seq<Term>)
    requires forall t :: t in xs <==> t in ys
    ensures FlagsOf(xs) == FlagsOf(ys)
  {
    FlagsOfMembers(xs);
    FlagsOfMembers(ys);
  }

  /** One more element ORs in its flag... */
  lemma FlagsOfPrefix(items: seq<Term>, i: nat)
    requires i < |items|
    ensures FlagsOf(items[..i + 1]) == FlagsOf(items[..i]) | StreamFlagOf(items[i]).GetOr(paNoFlag)
  {
    assert items[..i + 1][..i] == items[..i];
  }

  /** ...so skipping an element that names no flag, as the C code does, changes nothing. */
  lemma OrNoFlag(flags: StreamFlags, flag: StreamFlags)
    ensures (if flag != paNoFlag then flags | flag else flags) == flags | flag
  {
  }

  /** `pa_stream_flags_from_list` (calling the corrected `AtomToStreamFlags`):
      `prior` is the value the out-parameter held before the call. */
  method StreamFlagsFromList(list: Term, prior: StreamFlags) returns (ok: bool, flags: StreamFlags)
    ensures ok <==> list.List?
    ensures !ok ==> flags == prior
    ensures ok ==> flags == FlagsOf(list.items)
    ensures list == List([]) ==> flags == paNoFlag
  {
    if !list.List? {
      return false, prior;
    }
    flags := paNoFlag;
    var items := list.items;
    if |items| == 0 {
      return true, flags;
    }
    var i := 0;
    while i < |items|
      invariant 0 <= i <= |items|
      invariant flags == FlagsOf(items[..i])
    {
      var flag := AtomToStreamFlags(items[i]);
      FlagsOfPrefix(items, i);
      OrNoFlag(flags, flag);
      if flag != paNoFlag {
        flags := flags | flag;
      }
      i := i + 1;
    }
    assert items[..i] == items;
    return true, flags;
  }

  // ---------------------------------------------------------------------
  // Host API types

  /** `pa_host_api_type_id_from_atom`: `prior` is the value the out-parameter
      held before the call. */
  method HostApiTypeIdFromAtom(atom: Term, prior: int) returns (found: bool, typeId: int)
    ensures found <==> atom in DRIVER_ATOMS
    ensures found ==> DriverTypeOf(atom) == Some(typeId)
    ensures !found ==> typeId == prior && DriverTypeOf(atom) == None
  {
    DriverNames(atom);
    DriverTableFacts();
    var t := PA_DRIVERS;
    var cur := 0;
    while t[cur].str.Some?
      invariant 0 <= cur < |t|
      invariant forall j :: 0 <= j < cur ==> !NamesAtom(t, j, atom)
      decreases |t| - cur
    {
      if Atom(t[cur].str.value) == atom {
        return true, t[cur].key;
      }
      cur := cur + 1;
    }
    return false, prior;
  }
}
