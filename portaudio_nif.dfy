/** `portaudio_nif.c`: the older, self-contained NIF module. Its tables
    `pa_errors`, `pa_drivers` and `pa_sample_formats` have the same rows as
    those of `pa_conversions.c` (the `PaTables` constants), and its
    `pa_error_to_char` and `HANDLE_PA_ERROR` are the same code as
    `_pa_error_to_char` and `handle_pa_error` (`PaConversions.PaErrorToChar`
    and `PaConversions.HandlePaError`). What differs is modelled here. */
module PortaudioNif {
  import opened CInts
  import opened ErlTerms
  import opened PaConstants
  import opened PaTables
  import opened PaConversions

  // ---------------------------------------------------------------------
  // Sample formats

  /** The value `atom_to_sample_format` answers for an atom naming no format:
      `-1` converted to its return type `PaSampleFormat`, an `unsigned long`. */
  const NO_SAMPLE_FORMAT: int := IntToULong(-1)

  /** `atom_to_sample_format`: the format the atom names, and otherwise
      `NO_SAMPLE_FORMAT`, which no format in the table equals. */
  method AtomToSampleFormat(term: Term) returns (format: int)
    ensures IsULong(format)
    ensures format == SampleFormatOf(term).GetOr(NO_SAMPLE_FORMAT)
    ensures format == NO_SAMPLE_FORMAT <==> term !in SAMPLE_FORMAT_ATOMS
    ensures NO_SAMPLE_FORMAT == ULONG_MAX
  {
    SampleFormatNames(term);
    var found, f := SampleFormatFromAtom(term, 0);
    if found {
      return f;
    }
    return NO_SAMPLE_FORMAT;
  }

  // ---------------------------------------------------------------------
  // Nil values

  /** `is_term_nil`: the atoms `undefined`, `null` and `nil`. */
  predicate IsTermNil(t: Term): (r: bool)
    ensures r <==> t in {Atom("undefined"), Atom("null"), Atom("nil")}
    ensures ErliIsNil(t) ==> r
  {
    t == Atom("undefined") || t == Atom("null") || t == Atom("nil")
  }

  /** The nil test of `erl_interop.c` accepts fewer terms than `is_term_nil`:
      every term it accepts is nil here too, but `undefined` and `null` are
      nil only here. */
  lemma NilTests(t: Term)
    ensures ErliIsNil(t) ==> IsTermNil(t)
    ensures IsTermNil(Atom("undefined")) && !ErliIsNil(Atom("undefined"))
    ensures IsTermNil(Atom("null")) && !ErliIsNil(Atom("null"))
  {
  }

  // ---------------------------------------------------------------------
  // Stream parameters

  /** The checks `convert_tuple_to_stream_params` makes of a tuple before it
      converts the format atom: four elements, a C `int` device in
      `[0, deviceCount)`, a non-negative C `int` channel count, an atom and a
      float. `deviceCount` is what `Pa_GetDeviceCount` answers. */
  predicate ParamsTupleChecks(elems: seq<Term>, deviceCount: int) {
    |elems| == 4 &&
    GetInt(elems[0]).Some? && GetInt(elems[1]).Some? &&
    elems[2].Atom? && GetDouble(elems[3]).Some? &&
    0 <= elems[0].value < deviceCount && elems[1].value >= 0
  }

  /** `convert_tuple_to_stream_params` as written. `prior` is what
      `*stream_params` held before the call and `params` what it holds after.
      The format test `params->sampleFormat < 0` is made on an unsigned
      value, so it never rejects: a tuple that passes the other checks is
      accepted even when its atom names no sample format. */
  method ConvertTupleToStreamParamsAsWritten(term: Term, deviceCount: int, prior: Option<StreamParameters>)
    returns (ok: bool, params: Option<StreamParameters>)
    ensures !term.Tuple? ==> ok == IsTermNil(term) && params == prior
    ensures term.Tuple? ==> ok == ParamsTupleChecks(term.elems, deviceCount)
    ensures !ok ==> params == prior
    ensures ok && term.Tuple? ==>
      params == Some(StreamParameters(
        term.elems[0].value, term.elems[1].value,
        SampleFormatOf(term.elems[2]).GetOr(NO_SAMPLE_FORMAT), term.elems[3].number, Null))
  {
    if !term.Tuple? {
      return IsTermNil(term), prior;
    }
    var tuple := term.elems;
    if |tuple| != 4 || GetInt(tuple[0]).None? || GetInt(tuple[1]).None? || !tuple[2].Atom?
       || GetDouble(tuple[3]).None? || tuple[0].value < 0 || tuple[0].value >= deviceCount
       || tuple[1].value < 0 {
      return false, prior;
    }
    var format := AtomToSampleFormat(tuple[2]);
    var rejected := format < 0;
    ok := !rejected;
    params := if ok then Some(StreamParameters(tuple[0].value, tuple[1].value, format, tuple[3].number, Null))
              else prior;
  }

  /** A tuple naming no sample format: `{0, 1, bogus, 0.0}`. */
  const BOGUS_PARAMS: Term := Tuple([Int(0), Int(1), Atom("bogus"), Float(Double(0))])

  /** With one device, `BOGUS_PARAMS` passes every check made before the
      format is converted, and its atom names no format. */
  lemma BogusParamsPassChecks()
    ensures ParamsTupleChecks(BOGUS_PARAMS.elems, 1)
    ensures SampleFormatOf(BOGUS_PARAMS.elems[2]) == None
  {
    SampleFormatNames(BOGUS_PARAMS.elems[2]);
  }

  /** As written, `BOGUS_PARAMS` is accepted, with format `ULONG_MAX`. */
  method BogusParamsAcceptedAsWritten() returns (ok: bool, params: Option<StreamParameters>)
    ensures ok && params.Some? && params.value.sampleFormat == ULONG_MAX
  {
    BogusParamsPassChecks();
    ok, params := ConvertTupleToStreamParamsAsWritten(BOGUS_PARAMS, 1, None);
  }

  /** `convert_tuple_to_stream_params` with the format compared against the
      value `atom_to_sample_format` answers for an unknown atom: a tuple is
      accepted iff it passes the checks and its atom names a sample format
      (`SampleFormatNames`: one of `SAMPLE_FORMAT_ATOMS`). */
  method ConvertTupleToStreamParams(term: Term, deviceCount: int, prior: Option<StreamParameters>)
    returns (ok: bool, params: Option<StreamParameters>)
    ensures !term.Tuple? ==> ok == IsTermNil(term) && params == prior
    ensures term.Tuple? ==>
      ok == (ParamsTupleChecks(term.elems, deviceCount) && SampleFormatOf(term.elems[2]).Some?)
    ensures !ok ==> params == prior
    ensures ok && term.Tuple? ==>
      params == Some(StreamParameters(
        term.elems[0].value, term.elems[1].value,
        SampleFormatOf(term.elems[2]).value, term.elems[3].number, Null))
  {
    if !term.Tuple? {
      return IsTermNil(term), prior;
    }
    var tuple := term.elems;
    if |tuple| != 4 || GetInt(tuple[0]).None? || GetInt(tuple[1]).None? || !tuple[2].Atom?
       || GetDouble(tuple[3]).None? || tuple[0].value < 0 || tuple[0].value >= deviceCount
       || tuple[1].value < 0 {
      return false, prior;
    }
    SampleFormatNames(tuple[2]);
    var format := AtomToSampleFormat(tuple[2]);
    if format == NO_SAMPLE_FORMAT {
      return false, prior;
    }
    return true, Some(StreamParameters(tuple[0].value, tuple[1].value, format, tuple[3].number, Null));
  }

  // ---------------------------------------------------------------------
  // Host APIs

  /** The type `portaudio_host_api_index_from_type_nif` resolves its argument
      to: through `pa_drivers` for an atom, as-is for a C `int`, and `-1`
      (the value for "unresolved") otherwise. */
  function HostApiTypeOfArg(t: Term): (r: int)
    ensures t.Atom? && r != -1 ==> t in DRIVER_ATOMS
    ensures !t.Atom? && r != -1 ==> t.Int? && r == t.value
  {
    DriverNames(t);
    if t.Atom? then DriverTypeOf(t).GetOr(-1) else GetInt(t).GetOr(-1)
  }

  /** The driver atoms resolve to their type ids, which are never `-1`; any
      other atom, and a term that is neither an atom nor a C `int`, is
      unresolved; an integer is taken as it is. */
  lemma HostApiTypeOfArgCases(t: Term)
    ensures t.Atom? ==> (HostApiTypeOfArg(t) == -1 <==> t !in DRIVER_ATOMS)
    ensures t.Atom? && t in DRIVER_ATOMS ==> Some(HostApiTypeOfArg(t)) == DriverTypeOf(t)
    ensures !t.Atom? && GetInt(t).Some? ==> HostApiTypeOfArg(t) == t.value
    ensures !t.Atom? && GetInt(t).None? ==> HostApiTypeOfArg(t) == -1
  {
    DriverNames(t);
    DriverTableFacts();
    assert forall j :: 0 <= j < |PA_DRIVERS| ==> PA_DRIVERS[j].key >= 0;
  }

  /** `portaudio_host_api_index_from_type_nif`. `typeToIndex` stands for
      `Pa_HostApiTypeIdToHostApiIndex`: its negative answers are PortAudio
      errors, reported as error tuples. */
  method HostApiIndexFromType(argv: seq<Term>, typeToIndex: int -> int) returns (r: NifResult)
    ensures |argv| != 1 ==> r == Badarg
    ensures |argv| == 1 ==> (r == Badarg <==> HostApiTypeOfArg(argv[0]) == -1)
    ensures |argv| == 1 && HostApiTypeOfArg(argv[0]) != -1 ==>
      var index := typeToIndex(HostApiTypeOfArg(argv[0]));
      (index < 0 ==> r == Return(ErrorTuple(ErrorName(index)))) &&
      (index >= 0 ==> r == Return(Int(index)))
  {
    if |argv| != 1 {
      return Badarg;
    }
    var typeId := -1;
    if argv[0].Atom? {
      DriverNames(argv[0]);
      var found, t := HostApiTypeIdFromAtom(argv[0], -1);
      typeId := t;
    } else if GetInt(argv[0]).Some? {
      typeId := argv[0].value;
    }
    if typeId == -1 {
      return Badarg;
    }
    var index := typeToIndex(typeId);
    var error := HandlePaError(index);
    if error.Some? {
      return Return(error.value);
    }
    return Return(Int(index));
  }

  /** The argument check of `portaudio_host_api_info_nif`: the index it
      accepts, if any. `hostApiCount` is what `Pa_GetHostApiCount` answers. */
  function HostApiInfoIndex(argv: seq<Term>, hostApiCount: int): (r: Option<int>)
    ensures r.Some? ==> |argv| == 1 && r == GetInt(argv[0]) && 0 <= r.value < hostApiCount
    ensures |argv| == 1 && GetInt(argv[0]).Some? && 0 <= argv[0].value < hostApiCount ==> r.Some?
  {
    if |argv| != 1 || GetInt(argv[0]).None? || argv[0].value < 0 || argv[0].value >= hostApiCount
    then None
    else Some(argv[0].value)
  }

  /** When `Pa_GetHostApiCount` reports an error (a negative count) or no
      host API, every index is refused. */
  lemma HostApiInfoNoHostApis(argv: seq<Term>, hostApiCount: int)
    requires hostApiCount <= 0
    ensures HostApiInfoIndex(argv, hostApiCount) == None
  {
  }
}
