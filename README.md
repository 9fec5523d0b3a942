# ex_portaudio NIF core, modelled in Dafny

This project models the C core of the Erlang/Elixir PortAudio binding
`ex_portaudio`. It covers three files:

- `c_src/portaudio_nif/pa_stream.c`: the stream handle (`struct
  pa_stream_handle`), its lifecycle (alloc, open, start, stop, abort,
  dealloc) and the input poll loop that the stream thread runs. The model is
  imperative: the handle is a `class` whose fields the operations update. The
  PortAudio library is a scripted `Driver` object. Its one-shot calls return
  fixed results. Its three poll-loop queries (`Pa_IsStreamActive`,
  `Pa_GetStreamReadAvailable`, `Pa_ReadStream`) consume a finite script.
  Every call is logged. The poll loop is specified by the function `Poll` on
  the script, and the loop methods are proved against it.
- `c_src/portaudio_nif/pa_conversions.c`: the sentinel-terminated tables
  (`pa_errors`, `pa_drivers`, `pa_sample_formats`, `pa_stream_flags`) and the
  conversions between Erlang terms and PortAudio values. Each table walker is
  a `while` loop, proved against a first-match search (`KeyIndex`,
  `AtomIndex`) on the table.
- `c_src/portaudio_nif.c`: the older single-file NIF. Its three tables have
  exactly the rows of the `pa_conversions.c` tables, so the same constants
  serve both. Its `pa_error_to_char` and `HANDLE_PA_ERROR` are the same code as
  `_pa_error_to_char` and `handle_pa_error`, and are modelled by
  `PaConversions.PaErrorToChar` and `PaConversions.HandlePaError`. What
  differs is modelled in `PortaudioNif`: `atom_to_sample_format`,
  `is_term_nil`, `convert_tuple_to_stream_params`, the type lookup of
  `portaudio_host_api_index_from_type_nif` and the index check of
  `portaudio_host_api_info_nif`.

Modules, one per file: `CInts` (C integer widths and implicit conversions,
LP64), `ErlTerms` (Erlang terms and the `enif_get_*` / `erli_*` helpers the
core relies on), `PaConstants` (the PortAudio v19 codes), `PaTables`,
`PaConversions`, `PortaudioNif`, `PaDriver` and `PaStream`.

Modelling choices:

- **The stream thread runs sequentially.** `pa_stream_start` creates the
  thread (`threadCreated`). `ThreadHandler` is the thread's whole run,
  called as an ordinary method. `terminate` is therefore constant while the
  loop runs.
- **The read/write lock is four plain fields of the handle:** `lockAlive`,
  `readers`, `writer` and `lockFault`. They record what the one running
  thread holds. A request the lock could never grant to that thread sets
  `lockFault`, since the thread would block there forever. Examples are a
  write lock while it holds the read lock, or an unlock of a mode it does
  not hold. The fields are not ghost, because the as-written handler reports
  a hang through them.
- **C `assert`s.** Those about the caller's state become preconditions:
  - `start` requires `running == false`;
  - `exec_stop` requires an active stream;
  - the thread handler requires a callback and an active stream.

  The open assertion `input_frame_size != 0` depends on what the driver
  answers, so it is an outcome instead: `FrameSizeAssertionFailed`.
- **Nil tests.** `erli_is_nil` (`erl_interop.c:17-20`) compares against the
  atom `nil` only. Its header comment says `undefined`, `null` and `nil`. The
  model follows the code. `NilTests` states the difference from the older
  `is_term_nil`, which does accept all three.

## Model

| member | source | states |
|---|---|---|
| CInts.ToShort | c_src/portaudio_nif/pa_stream.c:57-58 | the `short` fields hold their value truncated to 16 bits: a short congruent to it modulo 2^16, the value itself when it fits |
| CInts.UIntToInt | c_src/portaudio_nif/pa_conversions.c:173-174 | an `unsigned int` stored into an `int` field wraps around: non-negative exactly when it is at most `INT_MAX` |
| CInts.IntToUInt | c_src/portaudio_nif/pa_conversions.c:148 | `enif_make_uint` of an `int` device index: non-negative indices unchanged, negative ones offset by 2^32 |
| CInts.IntToULong | c_src/portaudio_nif.c:360 | `return -1` from a function returning `PaSampleFormat` yields `ULONG_MAX` |
| ErlTerms.GetInt | c_src/portaudio_nif.c:394-395 | `enif_get_int` succeeds exactly on integers that fit in a C `int`, with that value |
| ErlTerms.GetUInt | c_src/portaudio_nif/pa_conversions.c:165-166 | `enif_get_uint` succeeds exactly on integers that fit in an `unsigned int` |
| ErlTerms.GetDouble | c_src/portaudio_nif/pa_conversions.c:168 | `enif_get_double` succeeds exactly on floats |
| ErlTerms.ErliIsNil | c_src/portaudio_nif/erl_interop.c:17-20 | `erli_is_nil` holds exactly for the atom `nil` |
| PaTables.KeyIndex | c_src/portaudio_nif/pa_conversions.c:125-129 | the walk comparing codes stops at the first row holding the code, or at the sentinel; every row before it is a named row with another code |
| PaTables.AtomIndex | c_src/portaudio_nif/pa_conversions.c:191-196 | the walk comparing atoms stops at the first row naming the atom, or at the sentinel; no row before it names the atom |
| PaTables.KeyIndexOfRow | c_src/portaudio_nif/pa_conversions.c:125-129 | with no earlier row holding the same code, the walk for the code of row i stops at row i |
| PaTables.AtomIndexOfRow | c_src/portaudio_nif/pa_conversions.c:191-196 | with no earlier row holding the same name, the walk for the atom of row i stops at row i |
| PaTables.ErrorTableFacts | c_src/portaudio_nif/pa_conversions.c:22-53 | `pa_errors` (and its copy at `portaudio_nif.c:53-84`) is sentinel-terminated, has 29 named rows, and row i holds code `paNotInitialized + i`, so the codes are distinct and negative |
| PaTables.SampleFormatTableFacts | c_src/portaudio_nif/pa_conversions.c:91-99 | `pa_sample_formats` (and its copy at `portaudio_nif.c:118-126`) is sentinel-terminated with six named rows |
| PaTables.DriverTableFacts | c_src/portaudio_nif/pa_conversions.c:64-80 | `pa_drivers` (and its copy at `portaudio_nif.c:95-111`) is sentinel-terminated with fourteen named rows |
| PaTables.StreamFlagTableFacts | c_src/portaudio_nif/pa_conversions.c:110-115 | `pa_stream_flags` is sentinel-terminated with three named rows |
| PaTables.ErrorNameOfTableCode | c_src/portaudio_nif/pa_conversions.c:120-132 | every code of the table is negative and is named by its own row |
| PaTables.ErrorNameUnknown | c_src/portaudio_nif/pa_conversions.c:120-132 | `unknown_error` is the answer exactly for the codes no row holds |
| PaTables.SampleFormatNames | c_src/portaudio_nif/pa_conversions.c:91-99 | exactly the six format atoms name a format, each the format of its row (`float32` is `paFloat32`, ..., `uint8` is `paUInt8`) |
| PaTables.DriverNames | c_src/portaudio_nif/pa_conversions.c:64-80 | exactly the fourteen driver atoms name a host API type |
| PaTables.DriverNamesDistinct | c_src/portaudio_nif/pa_conversions.c:64-80 | no two rows of `pa_drivers` carry the same name |
| PaTables.DriverTypes | c_src/portaudio_nif/pa_conversions.c:64-80 | each driver atom resolves to the type id of its own row |
| PaTables.StreamFlagNames | c_src/portaudio_nif/pa_conversions.c:110-115 | exactly `noclip`, `nodither` and `nodropinput` name a flag: `paClipOff`, `paDitherOff`, `paNeverDropInput` |
| PaConversions.PaErrorToChar | c_src/portaudio_nif/pa_conversions.c:120-132 | the string of the row whose code equals the error, and `unknown_error` exactly when no row does; `pa_error_to_char` at `portaudio_nif.c:143-156` is the same loop |
| PaConversions.PaErrorToErrorTuple | c_src/portaudio_nif/pa_conversions.c:134-137 | the pair `{error, Name}` where `Name` is the atom for the error's table string (`unknown_error` for codes not in the table) |
| PaConversions.PaIsError | c_src/portaudio_nif/pa_conversions.c:139-142 | a status is an error exactly when it lies below `paNoError` |
| PaConversions.HandlePaError | c_src/portaudio_nif/pa_conversions.h:59-64 | the macro returns `{error, Name}` exactly for negative statuses and falls through otherwise; `HANDLE_PA_ERROR` at `portaudio_nif.c:33-38` is the same test |
| PaConversions.HandlePaErrorOnTableCodes | c_src/portaudio_nif/pa_conversions.h:59-64 | every table error code returns its own named error tuple, and `paNoError` falls through |
| PaConversions.PaDeviceToTerm | c_src/portaudio_nif/pa_conversions.c:144-149 | nil exactly for `paNoDevice`; otherwise the index as an unsigned integer, itself when non-negative |
| PaConversions.SampleFormatFromAtom | c_src/portaudio_nif/pa_conversions.c:186-200 | succeeds exactly on the six format atoms, writing the format the atom names; otherwise the out-parameter is untouched |
| PaConversions.StreamParamsFromTuple | c_src/portaudio_nif/pa_conversions.c:151-184 | the out-parameter is NULL unless the call succeeds; a non-tuple succeeds iff it is nil; a tuple succeeds iff it has four elements, an `unsigned int` device and channel count, a known format atom and a float; success fills all fields with a NULL host-specific pointer |
| PaConversions.AtomToStreamFlagsAsWritten | c_src/portaudio_nif/pa_conversions.c:202-213 | as written, the walk never leaves the row it started at: it answers only from that row (its flag on a name match, `paNoFlag` at the sentinel) or is still looping there |
| PaConversions.AtomToStreamFlagsAsWrittenNoclip | c_src/portaudio_nif/pa_conversions.c:202-213 | as written, `noclip` is answered with `paClipOff` in the first iteration |
| PaConversions.AtomToStreamFlagsAsWrittenDiverges | c_src/portaudio_nif/pa_conversions.c:202-213 | as written, for every other term the loop is still at row 0 after any number of iterations |
| PaConversions.AtomToStreamFlags | c_src/portaudio_nif/pa_conversions.c:202-213 | with the row advanced, the flag the atom names, and `paNoFlag` for any other term |
| PaConversions.FlagsOfMembers | c_src/portaudio_nif/pa_conversions.c:215-235 | the flags accumulated over a list are the OR of the bits of the flag atoms that occur in it |
| PaConversions.FlagsOfSameMembers | c_src/portaudio_nif/pa_conversions.c:215-235 | two lists with the same elements give the same flags, whatever their order and repetitions |
| PaConversions.OrNoFlag | c_src/portaudio_nif/pa_conversions.c:229-231 | skipping the OR for `paNoFlag` gives the same flags as OR-ing it in |
| PaConversions.StreamFlagsFromList | c_src/portaudio_nif/pa_conversions.c:215-235 | (calling the corrected walker) fails, leaving the out-parameter untouched, exactly on non-lists; on a list the flags are the accumulated OR of its elements' flags, `paNoFlag` for the empty list |
| PaConversions.HostApiTypeIdFromAtom | c_src/portaudio_nif/pa_conversions.c:237-251 | succeeds exactly on the fourteen driver atoms, writing the type id the atom names; otherwise the out-parameter is untouched |
| PaStream.InputStep | c_src/portaudio_nif/pa_stream.c:127-163 | one poll iteration never consumes an "active" answer of the driver |
| PaStream.InputStepCases | c_src/portaudio_nif/pa_stream.c:127-163 | frames > 0: one read and one callback with the read status, `frames * input_frame_size` bytes and the user data, continuing iff the read succeeded; frames < 0: no read, no callback, stop; frames == 0: no read, no callback, continue |
| PaStream.Poll | c_src/portaudio_nif/pa_stream.c:181-190 | the loop's first driver call is always the `Pa_IsStreamActive` check; its lemmas below state what it delivers and when it ends |
| PaStream.PollUnfold | c_src/portaudio_nif/pa_stream.c:181-190 | the loop checks the stream and `terminate`, then runs one iteration, and goes on only if that iteration continues |
| PaStream.PollStopsAtCheck | c_src/portaudio_nif/pa_stream.c:182-184 | with `terminate` set or the stream inactive, the loop ends at its first check with no read and no callback |
| PaStream.PollLengths | c_src/portaudio_nif/pa_stream.c:133-150 | with a positive frame size, every buffer handed to the callback is non-empty and a whole number of frames |
| PaStream.PollUsesCallback | c_src/portaudio_nif/pa_stream.c:146-150 | every callback call uses the registered callback and user data |
| PaStream.PollStatuses | c_src/portaudio_nif/pa_stream.c:155-156 | only the last callback may carry a read error; none does when the loop ends at its condition check |
| PaStream.PollBound | c_src/portaudio_nif/pa_stream.c:181-190 | the loop makes at most as many callbacks as the driver gives "active" answers, so it ends on every finite script |
| PaStream.StreamHandle.Alloc | c_src/portaudio_nif/pa_stream.c:67-81 | a fresh handle is not running, not terminating, has no stream and no callback, and has a free lock |
| PaStream.StreamHandle.ReadLock | c_src/portaudio_nif/pa_stream.c:181 | `enif_rwlock_rlock`: adds a reader when no writer holds a live lock; otherwise the thread could never proceed and a fault is recorded |
| PaStream.StreamHandle.ReadUnlock | c_src/portaudio_nif/pa_stream.c:185 | `enif_rwlock_runlock`: drops a reader; an unlock without a reader is recorded as a fault |
| PaStream.StreamHandle.WriteLock | c_src/portaudio_nif/pa_stream.c:192 | `enif_rwlock_rwlock`: granted exactly when the live lock has no reader and no writer; otherwise the thread waits forever and a fault is recorded |
| PaStream.StreamHandle.WriteUnlock | c_src/portaudio_nif/pa_stream.c:194 | `enif_rwlock_rwunlock`: frees the writer; an unlock without a writer is recorded as a fault |
| PaStream.StreamHandle.DestroyLock | c_src/portaudio_nif/pa_stream.c:87-89 | destroying a held or already destroyed lock is recorded as a misuse |
| PaStream.StreamHandle.Dealloc | c_src/portaudio_nif/pa_stream.c:83-98 | destroys the lock; aborts the stream only when there is one; frees the callback record only when there is one; frees the handle |
| PaStream.StreamHandle.OpenDefault | c_src/portaudio_nif/pa_stream.c:100-125 | the stream pointer is written; a driver error is returned with the geometry untouched; on success the geometry is the sample size times the input channel count (truncated to `short`), and 0 input channels fail the frame-size assertion |
| PaStream.StreamHandle.ThreadInput | c_src/portaudio_nif/pa_stream.c:127-163 | does what `InputStep` describes and leaves the lock free |
| PaStream.StreamHandle.PollLoop | c_src/portaudio_nif/pa_stream.c:181-190 | entered with `running` true, which it cannot change; with the read lock released before the first `break`, runs the loop `Poll` describes and leaves the lock free |
| PaStream.StreamHandle.PollLoopAsWritten | c_src/portaudio_nif/pa_stream.c:181-190 | entered with `running` true, which it cannot change; runs the loop `Poll` describes; when it leaves at the condition check the thread still holds the read lock |
| PaStream.StreamHandle.ThreadHandler | c_src/portaudio_nif/pa_stream.c:165-197 | (corrected) consumes the initial "active" answer, sets `running` before the poll loop (which requires it), runs the loop, and always ends with `running` false and the lock free |
| PaStream.StreamHandle.ThreadHandlerAsWritten | c_src/portaudio_nif/pa_stream.c:165-197 | the thread hangs on the write lock after the loop exactly when the loop left at its condition check, with `running` still true |
| PaStream.StreamHandle.Start | c_src/portaudio_nif/pa_stream.c:199-232 | returns the driver's start status; on failure registers nothing and creates no thread; on success registers exactly the given callback and user data and creates the thread |
| PaStream.StreamHandle.ExecStop | c_src/portaudio_nif/pa_stream.c:234-246 | sets `terminate` whatever the driver answers, returns that answer unchanged, and calls the given stop function once after checking the stream |
| PaStream.StreamHandle.Stop | c_src/portaudio_nif/pa_stream.c:248-251 | `exec_stop` with `Pa_StopStream` |
| PaStream.StreamHandle.Abort | c_src/portaudio_nif/pa_stream.c:253-256 | `exec_stop` with `Pa_AbortStream` |
| PaStream.CaptureUntilStoppedAsWritten | c_src/portaudio_nif/pa_stream.c:181-194 | open, start and one 128-frame read of a stereo `int16` stream deliver one 512-byte buffer, and then the thread hangs with `running` true |
| PaStream.CaptureUntilStopped | c_src/portaudio_nif/pa_stream.c:181-194 | the same run with the corrected loop delivers the same buffer and ends with `running` false and the lock free |
| PortaudioNif.AtomToSampleFormat | c_src/portaudio_nif.c:349-361 | the format the atom names, and otherwise `-1` as an `unsigned long`, `ULONG_MAX`, which no format equals |
| PortaudioNif.IsTermNil | c_src/portaudio_nif.c:368-373 | `is_term_nil` accepts exactly the atoms `undefined`, `null` and `nil`, so every term `erli_is_nil` accepts |
| PortaudioNif.NilTests | c_src/portaudio_nif.c:368-373 | `is_term_nil` accepts `undefined`, `null` and `nil`, a superset of what `erli_is_nil` accepts |
| PortaudioNif.ConvertTupleToStreamParamsAsWritten | c_src/portaudio_nif.c:382-420 | a non-tuple is accepted iff `is_term_nil` holds (`undefined`, `null` or `nil`); a tuple is accepted iff it has four elements, an `int` device in `[0, device count)`, a non-negative `int` channel count, an atom and a float, whatever the atom; acceptance writes the params with a NULL host-specific pointer |
| PortaudioNif.BogusParamsPassChecks | c_src/portaudio_nif.c:392-403 | `{0, 1, bogus, 0.0}` with one device passes every check before the format, and `bogus` names no format |
| PortaudioNif.BogusParamsAcceptedAsWritten | c_src/portaudio_nif.c:409-413 | that tuple is accepted with sample format `ULONG_MAX` |
| PortaudioNif.ConvertTupleToStreamParams | c_src/portaudio_nif.c:382-420 | (corrected) a tuple is accepted iff it passes the checks and its atom names a format, which is the format written |
| PortaudioNif.HostApiTypeOfArg | c_src/portaudio_nif.c:242-256 | an atom resolves only when it is a driver atom, and any other term only when it is an integer, to that integer |
| PortaudioNif.HostApiTypeOfArgCases | c_src/portaudio_nif.c:242-259 | an atom resolves through `pa_drivers` and is unresolved exactly when it is not a driver atom (no type id is -1); an `int` is taken as-is; any other term is unresolved |
| PortaudioNif.HostApiIndexFromType | c_src/portaudio_nif.c:235-264 | badarg for a wrong arity or an unresolved type; otherwise the host API index, or its error tuple when negative |
| PortaudioNif.HostApiInfoIndex | c_src/portaudio_nif.c:207-212 | an index is accepted exactly when there is one `int` argument with `0 <= index < host_api_count` |
| PortaudioNif.HostApiInfoNoHostApis | c_src/portaudio_nif.c:207-212 | a non-positive host API count (an error or no host API) rejects every argument |

## Left out

- PaStream.StreamHandle.Alloc: the lock is always created; a failing `enif_rwlock_create`, which the assertion `handle->lock != NULL` would reject, is not modelled.
- Threads: `enif_thread_create` is modelled as always succeeding, so the `erl_err == 0` assertion always holds; `pa_stream_wait_for_termination` (`enif_thread_join`) is not modelled; no interleaving of the caller and the stream thread is modelled, so `terminate` cannot change while the loop runs.
- The PortAudio library: its calls are answered by the scripted `PaDriver.Driver`, and `Pa_GetDeviceCount`, `Pa_GetHostApiCount` and `Pa_HostApiTypeIdToHostApiIndex` are parameters.
- Memory: `malloc`, `free` and `enif_alloc` are not modelled. The input buffer's contents are not modelled. Of the callback record and the handle, only "freed" flags are kept. Use after free and double free are not detected.
- The C assertions `handle != NULL` and `input_buf != NULL`, and the `NDEBUG` build in which assertions vanish: the assertions are kept, and so is the `Pa_IsStreamActive` call inside them.
- PaStream.StreamHandle.ThreadInput: the `(size_t)` cast of a negative byte count is not modelled. Such a count arises when a frame size truncated to `short` is negative. The overflow of `long` in `frames_available * input_frame_size` is not modelled either.
- PaStream.StreamHandle.OpenDefault: `input_sample_size * num_input_channels` is computed in `int` and then truncated to `short`. Only the truncation is modelled, not an `int` overflow of the product. The output geometry fields are never assigned by the source and stay indeterminate, as the input ones do after `alloc`.
- PaStream.StreamHandle.Start: a second successful start replaces the callback record without freeing the old one; the leak is not modelled.
- The callback's own effects: the delivered calls are recorded as `Invocation`s only.
- Erlang term construction (`enif_make_*`, `str_to_binary_term`): terms are a small datatype; atoms compare by name.
- Floating point: sample rates and latencies are opaque 64-bit patterns passed through unchanged.
- `portaudio_version_nif`, `portaudio_device_info_nif`, `portaudio_stream_format_supported_nif` (which also frees its params before using them), the other NIFs that only wrap one driver query, `on_load`/`on_unload` and the empty `pa_device_info_to_term`: they only format driver results.
- PortaudioNif.HostApiIndexFromType: the walk of `pa_drivers` is the shared `PaConversions.HostApiTypeIdFromAtom` loop, as the two files hold the same loop.
- PortaudioNif.HostApiInfoIndex: `Pa_GetHostApiInfo` and the keyword list built from its answer are not modelled.

## Findings

| source | as written | input that shows it | evidently intended | confidence | as-written member | corrected member |
|---|---|---|---|---|---|---|
| c_src/portaudio_nif/pa_conversions.c:207-210 | the loop of `_atom_to_stream_flags` never advances `cur` | any atom other than `noclip` in the list given to `pa_stream_flags_from_list`, e.g. `[nodither]`: the loop spins forever | advance `cur` each iteration and answer `paNoFlag` at the sentinel | high, not executed | PaConversions.AtomToStreamFlagsAsWrittenDiverges | PaConversions.AtomToStreamFlags |
| c_src/portaudio_nif/pa_stream.c:182-184 | the `break` on an inactive stream or `terminate` leaves the loop still holding the read lock, so the write lock at line 192 can never be granted to the same thread | a stream that stops after one 128-frame read (stream active, then inactive): the thread hangs with `running` still true | release the read lock before that `break` | high, not executed | PaStream.StreamHandle.ThreadHandlerAsWritten | PaStream.StreamHandle.ThreadHandler |
| c_src/portaudio_nif.c:409-410 | `atom_to_sample_format` returns `PaSampleFormat`, an `unsigned long`, so its `-1` is `ULONG_MAX` and the test `sampleFormat < 0` is never true | `{0, 1, bogus, 0.0}` with one device is accepted with format `ULONG_MAX` | reject atoms that name no sample format | high, not executed | PortaudioNif.BogusParamsAcceptedAsWritten | PortaudioNif.ConvertTupleToStreamParams |
