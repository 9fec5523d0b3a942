/** The sentinel-terminated conversion tables shared by `pa_conversions.c` and
    the older `portaudio_nif.c` (both files hold identical copies), and the
    first-match searches that their `while (cur->str != NULL)` walkers perform. */
module PaTables {
  import opened ErlTerms
  import opened PaConstants

  /** One row of a table; the sentinel row is the one whose string is NULL (`None`). */
  datatype Entry<K> = Entry(key: K, str: Option<string>)

  /** Every row but the last carries a string; the last is the sentinel. */
  predicate SentinelTerminated<K>(t: seq<Entry<K>>) {
    |t| > 0 && t[|t| - 1].str.None? &&
    forall i :: 0 <= i < |t| - 1 ==> t[i].str.Some?
  }

  /** Whether row `i` of `t` names the atom `term`. */
  predicate NamesAtom<K>(t: seq<Entry<K>>, i: int, term: Term)
    requires 0 <= i < |t|
  {
    t[i].str.Some? && term == Atom(t[i].str.value)
  }

  /** Where a walker comparing codes stops: the first row at or after `from`
      that holds `k`, or the sentinel if there is none. */
  function KeyIndex<K(==)>(t: seq<Entry<K>>, k: K, from: nat): (i: nat)
    requires SentinelTerminated(t) && from < |t|
    ensures from <= i < |t|
    ensures t[i].str.None? || t[i].key == k
    ensures forall j :: from <= j < i ==> t[j].str.Some? && t[j].key != k
    decreases |t| - from
  {
    if t[from].str.None? || t[from].key == k then from else KeyIndex(t, k, from + 1)
  }

  /** Where a walker comparing atoms stops: the first row at or after `from`
      whose string, made an atom, equals `term`, or the sentinel. */
  function AtomIndex<K>(t: seq<Entry<K>>, term: Term, from: nat): (i: nat)
    requires SentinelTerminated(t) && from < |t|
    ensures from <= i < |t|
    ensures t[i].str.None? || NamesAtom(t, i, term)
    ensures forall j :: from <= j < i ==> t[j].str.Some? && !NamesAtom(t, j, term)
    decreases |t| - from
  {
    if t[from].str.None? || term == Atom(t[from].str.value) then from
    else AtomIndex(t, term, from + 1)
  }

  /** With distinct codes, the walk for the code of row `i` stops at row `i`. */
  lemma KeyIndexOfRow<K>(t: seq<Entry<K>>, i: nat)
    requires SentinelTerminated(t) && i < |t| - 1
    requires forall j :: 0 <= j < i ==> t[j].key != t[i].key
    ensures KeyIndex(t, t[i].key, 0) == i
  {
  }

  /** The walk for the atom of row `i` stops at row `i` when no earlier row names it. */
  lemma AtomIndexOfRow<K>(t: seq<Entry<K>>, i: nat)
    requires SentinelTerminated(t) && i < |t| - 1
    requires forall j :: 0 <= j < i ==> t[j].str != t[i].str
    ensures AtomIndex(t, Atom(t[i].str.value), 0) == i
  {
  }

  // ---------------------------------------------------------------------
  // The four tables.

  /** `pa_errors`: PortAudio error codes to atom names. */
  const PA_ERRORS: seq<Entry<int>> := [
    Entry(paNotInitialized,                        Some("not_initialized")),
    Entry(paUnanticipatedHostError,                Some("unanticipated_host_error")),
    Entry(paInvalidChannelCount,                   Some("invalid_channel_count")),
    Entry(paInvalidSampleRate,                     Some("invalid_sample_rate")),
    Entry(paInvalidDevice,                         Some("invalid_device")),
    Entry(paInvalidFlag,                           Some("invalid_flag")),
    Entry(paSampleFormatNotSupported,              Some("sample_format_unsupported")),
    Entry(paBadIODeviceCombination,                Some("bad_device_combo")),
    Entry(paInsufficientMemory,                    Some("insufficient_memory")),
    Entry(paBufferTooBig,                          Some("buffer_too_big")),
    Entry(paBufferTooSmall,                        Some("buffer_too_small")),
    Entry(paNullCallback,                          Some("no_callback")),
    Entry(paBadStreamPtr,                          Some("bad_callback")),
    Entry(paTimedOut,                              Some("timeout")),
    Entry(paInternalError,                         Some("internal_error")),
    Entry(paDeviceUnavailable,                     Some("device_unavailable")),
    Entry(paIncompatibleHostApiSpecificStreamInfo, Some("incompatible_host_stream_info")),
    Entry(paStreamIsStopped,                       Some("stream_stopped")),
    Entry(paStreamIsNotStopped,                    Some("stream_not_stopped")),
    Entry(paInputOverflowed,                       Some("input_overflowed")),
    Entry(paOutputUnderflowed,                     Some("output_underflowed")),
    Entry(paHostApiNotFound,                       Some("no_host_api")),
    Entry(paInvalidHostApi,                        Some("invalid_host_api")),
    Entry(paCanNotReadFromACallbackStream,         Some("no_read_callback")),
    Entry(paCanNotWriteToACallbackStream,          Some("no_write_callback")),
    Entry(paCanNotReadFromAnOutputOnlyStream,      Some("output_only_stream")),
    Entry(paCanNotWriteToAnInputOnlyStream,        Some("input_only_stream")),
    Entry(paIncompatibleStreamHostApi,             Some("incompatible_host_api")),
    Entry(paBadBufferPtr,                          Some("bad_buffer")),
    Entry(0, None)
  ]

  /** `pa_drivers`: host API type ids to atom names. */
  const PA_DRIVERS: seq<Entry<int>> := [
    Entry(paInDevelopment,   Some("in_development")),
    Entry(paDirectSound,     Some("direct_sound")),
    Entry(paMME,             Some("mme")),
    Entry(paASIO,            Some("asio")),
    Entry(paSoundManager,    Some("sound_manager")),
    Entry(paCoreAudio,       Some("core_audio")),
    Entry(paOSS,             Some("oss")),
    Entry(paALSA,            Some("alsa")),
    Entry(paAL,              Some("al")),
    Entry(paBeOS,            Some("beos")),
    Entry(paWDMKS,           Some("wdmks")),
    Entry(paJACK,            Some("jack")),
    Entry(paWASAPI,          Some("wasapi")),
    Entry(paAudioScienceHPI, Some("audio_science_hpi")),
    Entry(0, None)
  ]

  /** `pa_sample_formats`: sample formats to atom names. */
  const PA_SAMPLE_FORMATS: seq<Entry<int>> := [
    Entry(paFloat32, Some("float32")),
    Entry(paInt32,   Some("int32")),
    Entry(paInt24,   Some("int24")),
    Entry(paInt16,   Some("int16")),
    Entry(paInt8,    Some("int8")),
    Entry(paUInt8,   Some("uint8")),
    Entry(0, None)
  ]

  /** `pa_stream_flags`: stream flags to atom names. */
  const PA_STREAM_FLAGS: seq<Entry<StreamFlags>> := [
    Entry(paClipOff,        Some("noclip")),
    Entry(paDitherOff,      Some("nodither")),
    Entry(paNeverDropInput, Some("nodropinput")),
    Entry(paNoFlag, None)
  ]

  // ---------------------------------------------------------------------
  // What the walkers compute.

  /** `_pa_error_to_char` / `pa_error_to_char`: the name of the code, or `unknown_error`. */
  function ErrorName(err: int): string {
    ErrorTableFacts();
    var i := KeyIndex(PA_ERRORS, err, 0);
    if PA_ERRORS[i].str.Some? then PA_ERRORS[i].str.value else "unknown_error"
  }

  /** The sample format a format atom names, if any. */
  function SampleFormatOf(term: Term): Option<int> {
    SampleFormatTableFacts();
    var i := AtomIndex(PA_SAMPLE_FORMATS, term, 0);
    if PA_SAMPLE_FORMATS[i].str.Some? then Some(PA_SAMPLE_FORMATS[i].key) else None
  }

  /** The host API type id a driver atom names, if any. */
  function DriverTypeOf(term: Term): Option<int> {
    DriverTableFacts();
    var i := AtomIndex(PA_DRIVERS, term, 0);
    if PA_DRIVERS[i].str.Some? then Some(PA_DRIVERS[i].key) else None
  }

  /** The stream flag a flag atom names, if any. */
  function StreamFlagOf(term: Term): Option<StreamFlags> {
    StreamFlagTableFacts();
    var i := AtomIndex(PA_STREAM_FLAGS, term, 0);
    if PA_STREAM_FLAGS[i].str.Some? then Some(PA_STREAM_FLAGS[i].key) else None
  }

  // ---------------------------------------------------------------------
  // Facts about the tables.

  /** `pa_errors` is sentinel-terminated and its codes are the consecutive,
      negative PortAudio error codes, hence distinct. */
  lemma ErrorTableFacts()
    ensures SentinelTerminated(PA_ERRORS) && |PA_ERRORS| == 30
    ensures forall i :: 0 <= i < |PA_ERRORS| - 1 ==> PA_ERRORS[i].key == paNotInitialized + i
  {
  }

  lemma SampleFormatTableFacts()
    ensures SentinelTerminated(PA_SAMPLE_FORMATS) && |PA_SAMPLE_FORMATS| == 7
  {
  }

  lemma DriverTableFacts()
    ensures SentinelTerminated(PA_DRIVERS) && |PA_DRIVERS| == 15
  {
  }

  lemma StreamFlagTableFacts()
    ensures SentinelTerminated(PA_STREAM_FLAGS) && |PA_STREAM_FLAGS| == 4
  {
  }

  /** Every code in `pa_errors` is reported with its own name. */
  lemma ErrorNameOfTableCode(i: nat)
    requires i < |PA_ERRORS| - 1
    ensures PA_ERRORS[i].key < 0
    ensures ErrorName(PA_ERRORS[i].key) == PA_ERRORS[i].str.value
  {
    ErrorTableFacts();
    KeyIndexOfRow(PA_ERRORS, i);
  }

  /** `unknown_error` is the answer exactly for the codes not in the table. */
  lemma ErrorNameUnknown(err: int)
    ensures ErrorName(err) == "unknown_error" <==>
            forall i :: 0 <= i < |PA_ERRORS| - 1 ==> PA_ERRORS[i].key != err
  {
    ErrorTableFacts();
    var i := KeyIndex(PA_ERRORS, err, 0);
    if PA_ERRORS[i].str.Some? {
      assert PA_ERRORS[i].str.value != "unknown_error";
    }
  }

  const SAMPLE_FORMAT_ATOMS: set<Term> :=
    {Atom("float32"), Atom("int32"), Atom("int24"), Atom("int16"), Atom("int8"), Atom("uint8")}

  /** The six format atoms map to their formats; no other term maps to any. */
  lemma SampleFormatNames(term: Term)
    ensures SampleFormatOf(term).Some? <==> term in SAMPLE_FORMAT_ATOMS
    ensures SampleFormatOf(Atom("float32")) == Some(paFloat32)
    ensures SampleFormatOf(Atom("int32")) == Some(paInt32)
    ensures SampleFormatOf(Atom("int24")) == Some(paInt24)
    ensures SampleFormatOf(Atom("int16")) == Some(paInt16)
    ensures SampleFormatOf(Atom("int8")) == Some(paInt8)
    ensures SampleFormatOf(Atom("uint8")) == Some(paUInt8)
  {
    var t := PA_SAMPLE_FORMATS;
    SampleFormatTableFacts();
    AtomIndexOfRow(t, 1);
    AtomIndexOfRow(t, 2);
    AtomIndexOfRow(t, 3);
    AtomIndexOfRow(t, 4);
    AtomIndexOfRow(t, 5);
    var m := AtomIndex(t, term, 0);
    if t[m].str.Some? {
      assert term == Atom(t[m].str.value);
      assert m < 6;
    }
  }

  const DRIVER_ATOMS: set<Term> := {
    Atom("in_development"), Atom("direct_sound"), Atom("mme"), Atom("asio"),
    Atom("sound_manager"), Atom("core_audio"), Atom("oss"), Atom("alsa"), Atom("al"),
    Atom("beos"), Atom("wdmks"), Atom("jack"), Atom("wasapi"), Atom("audio_science_hpi")}

  /** Only the fourteen driver atoms map to a type id. */
  lemma DriverNames(term: Term)
    ensures DriverTypeOf(term).Some? <==> term in DRIVER_ATOMS
  {
    var t := PA_DRIVERS;
    DriverTableFacts();
    var m := AtomIndex(t, term, 0);
    if t[m].str.Some? {
      assert term == Atom(t[m].str.value);
      assert m < 14;
    } else {
      assert !NamesAtom(t, 0, term);
      assert !NamesAtom(t, 1, term);
      assert !NamesAtom(t, 2, term);
      assert !NamesAtom(t, 3, term);
      assert !NamesAtom(t, 4, term);
      assert !NamesAtom(t, 5, term);
      assert !NamesAtom(t, 6, term);
      assert !NamesAtom(t, 7, term);
      assert !NamesAtom(t, 8, term);
      assert !NamesAtom(t, 9, term);
      assert !NamesAtom(t, 10, term);
      assert !NamesAtom(t, 11, term);
      assert !NamesAtom(t, 12, term);
      assert !NamesAtom(t, 13, term);
    }
  }

  /** No two rows of `pa_drivers` carry the same name. */
  lemma DriverNamesDistinct()
    ensures forall i, j :: 0 <= i < j < |PA_DRIVERS| - 1 ==> PA_DRIVERS[i].str != PA_DRIVERS[j].str
  {
  }

  /** Each driver atom maps to the type id of its own row. */
  lemma DriverTypes()
    ensures forall i :: 0 <= i < |PA_DRIVERS| - 1 ==>
              DriverTypeOf(Atom(PA_DRIVERS[i].str.value)) == Some(PA_DRIVERS[i].key)
  {
    DriverTableFacts();
    DriverNamesDistinct();
    forall i | 0 <= i < |PA_DRIVERS| - 1
      ensures DriverTypeOf(Atom(PA_DRIVERS[i].str.value)) == Some(PA_DRIVERS[i].key)
    {
      AtomIndexOfRow(PA_DRIVERS, i);
    }
  }

  const STREAM_FLAG_ATOMS: set<Term> := {Atom("noclip"), Atom("nodither"), Atom("nodropinput")}

  /** The three flag atoms map to their flags; no other term maps to any. */
  lemma StreamFlagNames(term: Term)
    ensures StreamFlagOf(term).Some? <==> term in STREAM_FLAG_ATOMS
    ensures StreamFlagOf(Atom("noclip")) == Some(paClipOff)
    ensures StreamFlagOf(Atom("nodither")) == Some(paDitherOff)
    ensures StreamFlagOf(Atom("nodropinput")) == Some(paNeverDropInput)
  {
    var t := PA_STREAM_FLAGS;
    StreamFlagTableFacts();
    AtomIndexOfRow(t, 1);
    AtomIndexOfRow(t, 2);
    var m := AtomIndex(t, term, 0);
    if t[m].str.Some? {
      assert term == Atom(t[m].str.value);
      assert m < 3;
    }
  }
}
