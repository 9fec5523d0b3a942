/** `pa_stream.c`: the stream handle, its lifecycle and the input poll loop,
    run sequentially against the scripted driver of `PaDriver`.

    The handle's `ErlNifRWLock` is modelled by the lock fields of the handle
    (`lockAlive`, `readers`, `writer`, `lockFault`) as seen by the one thread
    that runs the operation at hand: a request the lock cannot grant to that
    thread (a write lock while it holds the read lock, say) would block it
    forever, and is recorded in `lockFault`. */
module PaStream {
  import opened CInts
  import opened ErlTerms
  import opened PaConstants
  import opened PaDriver

  /** A `pa_stream_callback` function pointer. */
  datatype CallbackFn = CallbackFn(id: nat)

  /** `struct pa_stream_callback_handle`. */
  datatype CallbackHandle = CallbackHandle(callback: CallbackFn, userData: Ptr)

  /** One call of the input callback: `callback(status, buf, length, user_data)`. */
  datatype Invocation = Invocation(callback: CallbackFn, status: int, length: int, userData: Ptr)

  /** What one call of `pa_stream_thread_input` does, and whether the loop goes on. */
  datatype StepResult = StepResult(delivered: seq<Invocation>, calls: seq<Call>, rest: Script, cont: bool)

  /** `pa_stream_thread_input` against the script `s`. */
  function InputStep(s: Script, stream: Option<StreamRef>, frameSize: int, cb: CallbackHandle): (r: StepResult)
    ensures r.rest.active == s.active
  {
    var frames := s.NextAvailable();
    var s1 := s.PopAvailable();
    if frames > 0 then
      var err := s1.NextRead();
      StepResult([Invocation(cb.callback, err, frames * frameSize, cb.userData)],
                 [PaGetStreamReadAvailable(stream), PaReadStream(stream, frames)],
                 s1.PopRead(), err == paNoError)
    else
      StepResult([], [PaGetStreamReadAvailable(stream)], s1, frames == 0)
  }

  /** The three cases of one poll iteration: a positive frame count is read
      and handed to the callback once, with the read status, the byte length
      `frames * frameSize` and the registered user data, and the loop goes on
      iff the read succeeded; a negative count stops the loop, a zero count
      continues it, and neither reads nor calls back. */
  lemma InputStepCases(s: Script, stream: Option<StreamRef>, frameSize: int, cb: CallbackHandle)
    ensures var r := InputStep(s, stream, frameSize, cb);
      var frames := s.NextAvailable();
      (frames > 0 ==>
         r.delivered == [Invocation(cb.callback, s.NextRead(), frames * frameSize, cb.userData)] &&
         r.calls == [PaGetStreamReadAvailable(stream), PaReadStream(stream, frames)] &&
         r.rest == s.PopAvailable().PopRead() &&
         (r.cont <==> s.NextRead() == paNoError)) &&
      (frames <= 0 ==>
         r.delivered == [] && r.calls == [PaGetStreamReadAvailable(stream)] &&
         r.rest == s.PopAvailable() && (r.cont <==> frames == 0))
  {
  }

  /** Where the poll loop left: at the condition check (the stream is no
      longer active or `terminate` is set), or after a failed iteration. */
  datatype Exit = AtCheck | AtInput

  datatype PollResult = PollResult(delivered: seq<Invocation>, calls: seq<Call>, rest: Script, exit: Exit)

  /** The `while (true)` loop of `pa_stream_thread_handler` against the
      script `s`. `terminate` is constant while it runs: only the caller's
      thread sets it, and interleavings are not modelled. */
  function Poll(s: Script, stream: Option<StreamRef>, terminate: bool, frameSize: int, cb: CallbackHandle): (p: PollResult)
    ensures p.calls != [] && p.calls[0] == PaIsStreamActive(stream)
    decreases |s.active|
  {
    var act := s.NextActive();
    var s1 := s.PopActive();
    if act == 0 || terminate then
      PollResult([], [PaIsStreamActive(stream)], s1, AtCheck)
    else
      var r := InputStep(s1, stream, frameSize, cb);
      if !r.cont then
        PollResult(r.delivered, [PaIsStreamActive(stream)] + r.calls, r.rest, AtInput)
      else
        var p := Poll(r.rest, stream, terminate, frameSize, cb);
        PollResult(r.delivered + p.delivered, [PaIsStreamActive(stream)] + r.calls + p.calls, p.rest, p.exit)
  }

  /** One unfolding of `Poll`, as a lemma the loop proofs call. */
  lemma PollUnfold(s: Script, stream: Option<StreamRef>, terminate: bool, frameSize: int, cb: CallbackHandle)
    ensures var p := Poll(s, stream, terminate, frameSize, cb);
      var r := InputStep(s.PopActive(), stream, frameSize, cb);
      (s.NextActive() == 0 || terminate ==>
         p == PollResult([], [PaIsStreamActive(stream)], s.PopActive(), AtCheck)) &&
      (s.NextActive() != 0 && !terminate && !r.cont ==>
         p == PollResult(r.delivered, [PaIsStreamActive(stream)] + r.calls, r.rest, AtInput)) &&
      (s.NextActive() != 0 && !terminate && r.cont ==>
         var q := Poll(r.rest, stream, terminate, frameSize, cb);
         p.delivered == r.delivered + q.delivered &&
         p.calls == [PaIsStreamActive(stream)] + r.calls + q.calls &&
         p.rest == q.rest && p.exit == q.exit)
  {
  }

  /** A positive number of frames of a positive size is a positive whole number of frames. */
  lemma FramesToBytes(frames: int, frameSize: int)
    requires frames > 0 && frameSize > 0
    ensures frames * frameSize > 0 && (frames * frameSize) % frameSize == 0
    decreases frames
  {
    if frames > 1 {
      FramesToBytes(frames - 1, frameSize);
      var x := (frames - 1) * frameSize;
      assert frames * frameSize == x + frameSize;
      ModAddDivisor(x, frameSize);
    }
  }

  lemma MulAtLeast(b: int, k: int)
    requires b > 0 && k >= 1
    ensures b * k >= b
    decreases k
  {
    if k > 1 {
      MulAtLeast(b, k - 1);
      assert b * k == b * (k - 1) + b;
    }
  }

  lemma ModAddDivisor(x: int, b: int)
    requires b > 0
    ensures (x + b) % b == x % b
  {
    var q1, r1 := (x + b) / b, (x + b) % b;
    var q, r := x / b, x % b;
    var k := q1 - q - 1;
    assert b * k == r - r1 by {
      assert x + b == b * q1 + r1;
      assert x == b * q + r;
    }
    if k >= 1 {
      MulAtLeast(b, k);
    } else if k <= -1 {
      MulAtLeast(b, -k);
    }
  }

  /** A `terminate` request, or a stream no longer active, ends the loop at
      its first check, before any read. */
  lemma PollStopsAtCheck(s: Script, stream: Option<StreamRef>, terminate: bool, frameSize: int, cb: CallbackHandle)
    requires terminate || s.NextActive() == 0
    ensures Poll(s, stream, terminate, frameSize, cb) ==
      PollResult([], [PaIsStreamActive(stream)], s.PopActive(), AtCheck)
  {
  }

  /** With a positive frame size, every buffer handed to the callback is
      non-empty and holds a whole number of frames. */
  lemma {:induction false} PollLengths(s: Script, stream: Option<StreamRef>, terminate: bool, frameSize: int, cb: CallbackHandle)
    requires frameSize > 0
    ensures forall inv :: inv in Poll(s, stream, terminate, frameSize, cb).delivered ==>
      inv.length > 0 && inv.length % frameSize == 0
    decreases |s.active|
  {
    PollUnfold(s, stream, terminate, frameSize, cb);
    if s.NextActive() != 0 && !terminate {
      var s1 := s.PopActive();
      var r := InputStep(s1, stream, frameSize, cb);
      InputStepCases(s1, stream, frameSize, cb);
      if s1.NextAvailable() > 0 {
        FramesToBytes(s1.NextAvailable(), frameSize);
      }
      if r.cont {
        PollLengths(r.rest, stream, terminate, frameSize, cb);
      }
    }
  }

  /** Every callback is the registered one, with the registered user data. */
  lemma {:induction false} PollUsesCallback(s: Script, stream: Option<StreamRef>, terminate: bool, frameSize: int, cb: CallbackHandle)
    ensures forall inv :: inv in Poll(s, stream, terminate, frameSize, cb).delivered ==>
      inv.callback == cb.callback && inv.userData == cb.userData
    decreases |s.active|
  {
    var act := s.NextActive();
    var s1 := s.PopActive();
    if act != 0 && !terminate {
      var r := InputStep(s1, stream, frameSize, cb);
      if r.cont {
        PollUsesCallback(r.rest, stream, terminate, frameSize, cb);
      }
    }
  }

  /** Only the last callback can report a read error, and a loop that ends at
      its condition check saw none. */
  lemma {:induction false} PollStatuses(s: Script, stream: Option<StreamRef>, terminate: bool, frameSize: int, cb: CallbackHandle)
    ensures var p := Poll(s, stream, terminate, frameSize, cb);
      (forall i :: 0 <= i < |p.delivered| - 1 ==> p.delivered[i].status == paNoError) &&
      (p.exit == AtCheck ==> forall i :: 0 <= i < |p.delivered| ==> p.delivered[i].status == paNoError)
    decreases |s.active|
  {
    var act := s.NextActive();
    var s1 := s.PopActive();
    if act != 0 && !terminate {
      var r := InputStep(s1, stream, frameSize, cb);
      if r.cont {
        PollStatuses(r.rest, stream, terminate, frameSize, cb);
        var p := Poll(r.rest, stream, terminate, frameSize, cb);
        assert Poll(s, stream, terminate, frameSize, cb).delivered == r.delivered + p.delivered;
        assert forall inv :: inv in r.delivered ==> inv.status == paNoError;
      }
    }
  }

  /** Each callback needs an "active" answer of the driver, so a finite
      script bounds the number of callbacks; the loop never asks for more
      "active" answers than the script holds. */
  lemma {:induction false} PollBound(s: Script, stream: Option<StreamRef>, terminate: bool, frameSize: int, cb: CallbackHandle)
    ensures var p := Poll(s, stream, terminate, frameSize, cb);
      |p.delivered| <= |s.active| && |p.rest.active| <= |s.active|
    decreases |s.active|
  {
    var act := s.NextActive();
    var s1 := s.PopActive();
    if act != 0 && !terminate {
      var r := InputStep(s1, stream, frameSize, cb);
      if r.cont {
        PollBound(r.rest, stream, terminate, frameSize, cb);
      }
    }
  }

  /** The result of `pa_stream_open_default`: the error of the driver, or
      success, or the abort of the `input_frame_size != 0` assertion. */
  datatype OpenOutcome = Opened | OpenFailed(err: int) | FrameSizeAssertionFailed

  /** The driver function `pa_stream_exec_stop` is given. */
  datatype StopFunction = UseStopStream | UseAbortStream

  lemma AppendAssoc<T>(a: seq<T>, b: seq<T>, c: seq<T>)
    ensures a + (b + c) == (a + b) + c
  {
  }

  /** `struct pa_stream_handle`. */
  class StreamHandle {
    const driver: Driver
    var running: bool
    var terminate: bool
    var stream: Option<StreamRef>
    var inputSampleSize: int
    var inputFrameSize: int
    /** Declared but never assigned by any operation. */
    var outputSampleSize: int
    var outputFrameSize: int
    var inputCallback: Option<CallbackHandle>
    /** Whether the poll thread has been created (`thread` holds its id). */
    var threadCreated: bool
    /** The calls of the input callback made so far. */
    var invocations: seq<Invocation>
    /** `lock`: whether it exists, and what the running thread holds of it. */
    var lockAlive: bool
    var readers: nat
    var writer: bool
    var lockFault: bool
    /** Whether the callback record, and the handle itself, have been freed. */
    var callbackFreed: bool
    var freed: bool

    /** The lock exists, nobody holds it, and it has never been misused. */
    predicate LockHealthy()
      reads this
    {
      lockAlive && !lockFault && readers == 0 && !writer
    }

    /** `pa_stream_alloc`. The geometry fields are left indeterminate. */
    constructor Alloc(driver: Driver)
      ensures this.driver == driver
      ensures !running && !terminate && stream == None && inputCallback == None
      ensures !threadCreated && invocations == [] && !callbackFreed && !freed
      ensures LockHealthy()
    {
      this.driver := driver;
      running := false;
      terminate := false;
      stream := None;
      inputCallback := None;
      threadCreated := false;
      invocations := [];
      lockAlive := true;
      readers := 0;
      writer := false;
      lockFault := false;
      callbackFreed := false;
      freed := false;
    }

    /** `enif_rwlock_rlock`. */
    method ReadLock()
      modifies this`readers, this`lockFault
      ensures writer || !lockAlive ==> lockFault && readers == old(readers)
      ensures !writer && lockAlive ==> readers == old(readers) + 1 && lockFault == old(lockFault)
    {
      if writer || !lockAlive {
        lockFault := true;
      } else {
        readers := readers + 1;
      }
    }

    /** `enif_rwlock_runlock`. */
    method ReadUnlock()
      modifies this`readers, this`lockFault
      ensures old(readers) == 0 ==> lockFault && readers == 0
      ensures old(readers) > 0 ==> readers == old(readers) - 1 && lockFault == old(lockFault)
    {
      if readers == 0 {
        lockFault := true;
      } else {
        readers := readers - 1;
      }
    }

    /** `enif_rwlock_rwlock`: not `acquired` means the thread would wait forever. */
    method WriteLock() returns (acquired: bool)
      modifies this`writer, this`lockFault
      ensures acquired <==> readers == 0 && !old(writer) && lockAlive
      ensures acquired ==> writer && lockFault == old(lockFault)
      ensures !acquired ==> lockFault && writer == old(writer)
    {
      if readers == 0 && !writer && lockAlive {
        writer := true;
        return true;
      }
      lockFault := true;
      return false;
    }

    /** `enif_rwlock_rwunlock`. */
    method WriteUnlock()
      modifies this`writer, this`lockFault
      ensures !writer
      ensures lockFault == (old(lockFault) || !old(writer))
    {
      if !writer {
        lockFault := true;
      }
      writer := false;
    }

    /** `pa_stream_open_default`. `Pa_OpenDefaultStream` writes the stream
        pointer whatever it returns; on success the input geometry is set
        from `Pa_GetSampleSize`, truncated to `short` as the fields are. */
    method OpenDefault(numInputChannels: int, numOutputChannels: int, sampleFormat: int,
                       sampleRate: Double, framesPerBuffer: int) returns (outcome: OpenOutcome)
      modifies this`stream, this`inputSampleSize, this`inputFrameSize, driver`calls
      ensures stream == driver.openedStream
      ensures driver.openResult != paNoError ==>
        outcome == OpenFailed(driver.openResult) &&
        inputSampleSize == old(inputSampleSize) && inputFrameSize == old(inputFrameSize) &&
        driver.calls == old(driver.calls) +
          [PaOpenDefaultStream(numInputChannels, numOutputChannels, sampleFormat, sampleRate, framesPerBuffer)]
      ensures driver.openResult == paNoError ==>
        inputSampleSize == ToShort(driver.sampleSize) &&
        inputFrameSize == ToShort(inputSampleSize * numInputChannels) &&
        (outcome == Opened <==> inputFrameSize != 0) &&
        (outcome != Opened ==> outcome == FrameSizeAssertionFailed) &&
        driver.calls == old(driver.calls) +
          [PaOpenDefaultStream(numInputChannels, numOutputChannels, sampleFormat, sampleRate, framesPerBuffer),
           PaGetSampleSize(sampleFormat)]
      ensures driver.openResult == paNoError && numInputChannels == 0 ==> outcome == FrameSizeAssertionFailed
      ensures driver.openResult == paNoError && IsShort(driver.sampleSize) &&
              IsShort(driver.sampleSize * numInputChannels) ==>
        inputFrameSize == driver.sampleSize * numInputChannels
    {
      var err, newStream := driver.OpenDefaultStream(numInputChannels, numOutputChannels, sampleFormat,
                                                  sampleRate, framesPerBuffer);
      stream := newStream;
      if err != paNoError {
        return OpenFailed(err);
      }
      var size := driver.GetSampleSize(sampleFormat);
      inputSampleSize := ToShort(size);
      inputFrameSize := ToShort(inputSampleSize * numInputChannels);
      if inputFrameSize == 0 {
        return FrameSizeAssertionFailed;
      }
      return Opened;
    }

    /** `pa_stream_thread_input`: one poll iteration, as `InputStep` says. */
    method ThreadInput() returns (cont: bool)
      requires LockHealthy() && inputCallback.Some?
      modifies this`readers, this`lockFault, this`invocations, driver`script, driver`calls
      ensures LockHealthy()
      ensures var r := InputStep(old(driver.script), stream, inputFrameSize, inputCallback.value);
        invocations == old(invocations) + r.delivered && driver.calls == old(driver.calls) + r.calls &&
        driver.script == r.rest && cont == r.cont
    {
      ReadLock();
      var frames := driver.GetStreamReadAvailable(stream);
      ReadUnlock();
      if frames > 0 {
        ReadLock();
        var bytes := frames * inputFrameSize;
        ReadUnlock();
        ReadLock();
        var err := driver.ReadStream(stream, frames);
        var cb := inputCallback.value;
        invocations := invocations + [Invocation(cb.callback, err, bytes, cb.userData)];
        ReadUnlock();
        return err == paNoError;
      } else if frames < 0 {
        return false;
      }
      return true;
    }

    /** The loop of `pa_stream_thread_handler`, with the read lock released
        before the `break` at the condition check. */
    method PollLoop()
      requires LockHealthy() && inputCallback.Some? && running
      modifies this`readers, this`lockFault, this`invocations, driver`script, driver`calls
      ensures LockHealthy()
      ensures var p := Poll(old(driver.script), stream, terminate, inputFrameSize, inputCallback.value);
        invocations == old(invocations) + p.delivered && driver.script == p.rest &&
        driver.calls == old(driver.calls) + p.calls
    {
      ghost var cb := inputCallback.value;
      ghost var inv0, calls0 := invocations, driver.calls;
      ghost var whole := Poll(driver.script, stream, terminate, inputFrameSize, cb);
      ghost var rest := whole;
      ghost var done: seq<Invocation>, doneCalls: seq<Call> := [], [];
      // `while (true)` with its two `break`s, as a loop on `stop`
      var stop := false;
      while !stop
        invariant invocations == inv0 + done && driver.calls == calls0 + doneCalls
        invariant !stop ==> LockHealthy() && rest == Poll(driver.script, stream, terminate, inputFrameSize, cb)
        invariant !stop ==> whole.delivered == done + rest.delivered && whole.calls == doneCalls + rest.calls
        invariant !stop ==> whole.rest == rest.rest && whole.exit == rest.exit
        invariant stop ==> whole.delivered == done && whole.calls == doneCalls && whole.rest == driver.script
        invariant stop ==> LockHealthy()
        decreases if stop then 0 else 1, |driver.script.active|
      {
        ghost var s := driver.script;
        PollUnfold(s, stream, terminate, inputFrameSize, cb);
        ReadLock();
        var act := driver.IsStreamActive(stream);
        if act == 0 || terminate {
          ReadUnlock();
          AppendAssoc(calls0, doneCalls, [PaIsStreamActive(stream)]);
          doneCalls := doneCalls + [PaIsStreamActive(stream)];
          stop := true;
        } else {
          ReadUnlock();
          ghost var r := InputStep(driver.script, stream, inputFrameSize, cb);
          var cont := ThreadInput();
          AppendAssoc(done, r.delivered, Poll(driver.script, stream, terminate, inputFrameSize, cb).delivered);
          AppendAssoc(doneCalls, [PaIsStreamActive(stream)] + r.calls,
                      Poll(driver.script, stream, terminate, inputFrameSize, cb).calls);
          AppendAssoc(inv0, done, r.delivered);
          AppendAssoc(calls0 + doneCalls, [PaIsStreamActive(stream)], r.calls);
          AppendAssoc(calls0, doneCalls, [PaIsStreamActive(stream)] + r.calls);
          done, doneCalls := done + r.delivered, doneCalls + ([PaIsStreamActive(stream)] + r.calls);
          stop := !cont;
          rest := Poll(driver.script, stream, terminate, inputFrameSize, cb);
        }
      }
    }

    /** The loop of `pa_stream_thread_handler` as written: the `break` at the
        condition check leaves the loop with the read lock still held. */
    method PollLoopAsWritten()
      requires LockHealthy() && inputCallback.Some? && running
      modifies this`readers, this`lockFault, this`invocations, driver`script, driver`calls
      ensures var p := Poll(old(driver.script), stream, terminate, inputFrameSize, inputCallback.value);
        invocations == old(invocations) + p.delivered && driver.script == p.rest &&
        driver.calls == old(driver.calls) + p.calls &&
        (p.exit == AtCheck ==> readers == 1 && !lockFault) &&
        (p.exit == AtInput ==> LockHealthy())
    {
      ghost var cb := inputCallback.value;
      ghost var inv0, calls0 := invocations, driver.calls;
      ghost var whole := Poll(driver.script, stream, terminate, inputFrameSize, cb);
      ghost var rest := whole;
      ghost var done: seq<Invocation>, doneCalls: seq<Call> := [], [];
      // `while (true)` with its two `break`s, as a loop on `stop`
      var stop := false;
      while !stop
        invariant invocations == inv0 + done && driver.calls == calls0 + doneCalls
        invariant !stop ==> LockHealthy() && rest == Poll(driver.script, stream, terminate, inputFrameSize, cb)
        invariant !stop ==> whole.delivered == done + rest.delivered && whole.calls == doneCalls + rest.calls
        invariant !stop ==> whole.rest == rest.rest && whole.exit == rest.exit
        invariant stop ==> whole.delivered == done && whole.calls == doneCalls && whole.rest == driver.script
        invariant stop && whole.exit == AtCheck ==> readers == 1 && !lockFault
        invariant stop && whole.exit == AtInput ==> LockHealthy()
        decreases if stop then 0 else 1, |driver.script.active|
      {
        ghost var s := driver.script;
        PollUnfold(s, stream, terminate, inputFrameSize, cb);
        ReadLock();
        var act := driver.IsStreamActive(stream);
        if act == 0 || terminate {
          AppendAssoc(calls0, doneCalls, [PaIsStreamActive(stream)]);
          doneCalls := doneCalls + [PaIsStreamActive(stream)];
          stop := true;
        } else {
          ReadUnlock();
          ghost var r := InputStep(driver.script, stream, inputFrameSize, cb);
          var cont := ThreadInput();
          AppendAssoc(done, r.delivered, Poll(driver.script, stream, terminate, inputFrameSize, cb).delivered);
          AppendAssoc(doneCalls, [PaIsStreamActive(stream)] + r.calls,
                      Poll(driver.script, stream, terminate, inputFrameSize, cb).calls);
          AppendAssoc(inv0, done, r.delivered);
          AppendAssoc(calls0 + doneCalls, [PaIsStreamActive(stream)], r.calls);
          AppendAssoc(calls0, doneCalls, [PaIsStreamActive(stream)] + r.calls);
          done, doneCalls := done + r.delivered, doneCalls + ([PaIsStreamActive(stream)] + r.calls);
          stop := !cont;
          rest := Poll(driver.script, stream, terminate, inputFrameSize, cb);
        }
      }
    }

    /** `pa_stream_thread_handler` with the read lock released before the
        loop's first `break`: it runs the loop `Poll` describes and always
        ends with `running` false and the lock free. */
    method ThreadHandler()
      requires LockHealthy() && inputCallback.Some? && driver.script.NextActive() == 1
      modifies this`running, this`readers, this`writer, this`lockFault, this`invocations
      modifies driver`script, driver`calls
      ensures LockHealthy() && !running
      ensures var p := Poll(old(driver.script).PopActive(), stream, terminate, inputFrameSize, inputCallback.value);
        invocations == old(invocations) + p.delivered && driver.script == p.rest &&
        driver.calls == old(driver.calls) + [PaIsStreamActive(stream)] + p.calls
    {
      ReadLock();
      var active := driver.IsStreamActive(stream);
      assert active == 1;
      ReadUnlock();

      var acquired := WriteLock();
      running := true;
      WriteUnlock();

      PollLoop();

      acquired := WriteLock();
      running := false;
      WriteUnlock();
    }

    /** `pa_stream_thread_handler` as written: when the loop ends at its
        condition check, the thread still holds the read lock, so the write
        lock after the loop can never be granted and the thread hangs there
        with `running` still true. `hung` says whether that happened. */
    method ThreadHandlerAsWritten() returns (hung: bool)
      requires LockHealthy() && inputCallback.Some? && driver.script.NextActive() == 1
      modifies this`running, this`readers, this`writer, this`lockFault, this`invocations
      modifies driver`script, driver`calls
      ensures var p := Poll(old(driver.script).PopActive(), stream, terminate, inputFrameSize, inputCallback.value);
        invocations == old(invocations) + p.delivered && driver.script == p.rest &&
        driver.calls == old(driver.calls) + [PaIsStreamActive(stream)] + p.calls &&
        (hung <==> p.exit == AtCheck)
      ensures hung ==> running && lockFault && readers == 1 && !writer && lockAlive
      ensures !hung ==> LockHealthy() && !running
    {
      ReadLock();
      var active := driver.IsStreamActive(stream);
      assert active == 1;
      ReadUnlock();

      var acquired := WriteLock();
      running := true;
      WriteUnlock();

      PollLoopAsWritten();

      acquired := WriteLock();
      if !acquired {
        return true;
      }
      running := false;
      WriteUnlock();
      return false;
    }

    /** `pa_stream_start`: on a driver failure nothing is registered and no
        thread is created; on success the given callback and user data are
        registered and the poll thread is created. */
    method Start(callback: CallbackFn, userData: Ptr) returns (err: int)
      requires LockHealthy() && !running
      modifies this`inputCallback, this`threadCreated, this`readers, this`writer, this`lockFault
      modifies driver`calls
      ensures LockHealthy()
      ensures err == driver.startResult
      ensures driver.calls == old(driver.calls) + [PaStartStream(stream)]
      ensures err != paNoError ==> inputCallback == old(inputCallback) && threadCreated == old(threadCreated)
      ensures err == paNoError ==> inputCallback == Some(CallbackHandle(callback, userData)) && threadCreated
    {
      ReadLock();
      assert !running;
      ReadUnlock();

      var acquired := WriteLock();
      err := driver.StartStream(stream);
      WriteUnlock();

      if err != paNoError {
        return err;
      }
      inputCallback := Some(CallbackHandle(callback, userData));
      threadCreated := true;
      return paNoError;
    }

    /** `pa_stream_exec_stop`: sets `terminate` whatever the driver answers,
        and returns the driver's answer unchanged. */
    method ExecStop(stopWith: StopFunction) returns (err: int)
      requires LockHealthy() && driver.script.NextActive() == 1
      modifies this`terminate, this`writer, this`lockFault, driver`script, driver`calls
      ensures LockHealthy() && terminate
      ensures err == if stopWith == UseStopStream then driver.stopResult else driver.abortResult
      ensures driver.script == old(driver.script).PopActive()
      ensures driver.calls == old(driver.calls) + [PaIsStreamActive(stream),
        if stopWith == UseStopStream then PaStopStream(stream) else PaAbortStream(stream)]
    {
      var acquired := WriteLock();
      var active := driver.IsStreamActive(stream);
      assert active == 1;
      if stopWith == UseStopStream {
        err := driver.StopStream(stream);
      } else {
        err := driver.AbortStream(stream);
      }
      terminate := true;
      WriteUnlock();
    }

    /** `pa_stream_stop`. */
    method Stop() returns (err: int)
      requires LockHealthy() && driver.script.NextActive() == 1
      modifies this`terminate, this`writer, this`lockFault, driver`script, driver`calls
      ensures LockHealthy() && terminate && err == driver.stopResult
      ensures driver.script == old(driver.script).PopActive()
      ensures driver.calls == old(driver.calls) + [PaIsStreamActive(stream), PaStopStream(stream)]
    {
      err := ExecStop(UseStopStream);
    }

    /** `pa_stream_abort`. */
    method Abort() returns (err: int)
      requires LockHealthy() && driver.script.NextActive() == 1
      modifies this`terminate, this`writer, this`lockFault, driver`script, driver`calls
      ensures LockHealthy() && terminate && err == driver.abortResult
      ensures driver.script == old(driver.script).PopActive()
      ensures driver.calls == old(driver.calls) + [PaIsStreamActive(stream), PaAbortStream(stream)]
    {
      err := ExecStop(UseAbortStream);
    }

    /** `enif_rwlock_destroy`: destroying a lock that is held, or already
        destroyed, is a misuse. */
    method DestroyLock()
      modifies this`lockAlive, this`lockFault
      ensures !lockAlive
      ensures lockFault == (old(lockFault) || !old(lockAlive) || readers > 0 || writer)
    {
      if !lockAlive || readers > 0 || writer {
        lockFault := true;
      }
      lockAlive := false;
    }

    /** `pa_stream_dealloc`: destroys the lock, aborts the stream only when
        there is one (ignoring the answer), frees the callback record only
        when there is one, and frees the handle. */
    method Dealloc()
      modifies this`lockAlive, this`lockFault, this`callbackFreed, this`freed, driver`calls
      ensures !lockAlive && freed
      ensures lockFault == (old(lockFault) || !old(lockAlive) || readers > 0 || writer)
      ensures stream.Some? ==> driver.calls == old(driver.calls) + [PaAbortStream(stream)]
      ensures stream.None? ==> driver.calls == old(driver.calls)
      ensures callbackFreed == (old(callbackFreed) || inputCallback.Some?)
    {
      DestroyLock();
      if stream.Some? {
        var _ := driver.AbortStream(stream);
      }
      if inputCallback.Some? {
        callbackFreed := true;
      }
      freed := true;
    }
  }

  /** The driver of the capture scenarios: the stream is active for one
      poll iteration, in which 128 frames are available and read without
      error, and then stops; samples are 2 bytes wide. */
  method CaptureDriver() returns (d: Driver)
    ensures fresh(d)
    ensures d.script == Script([1, 1, 0], [128], []) && d.calls == []
    ensures d.openResult == paNoError && d.openedStream == Some(StreamRef(1)) && d.sampleSize == 2
    ensures d.startResult == paNoError
  {
    d := new Driver(Script([1, 1, 0], [128], []), paNoError, Some(StreamRef(1)), 2,
                    paNoError, paNoError, paNoError);
  }

  /** Open a stereo `int16` input stream, start it, and run the poll thread
      as written until the stream stops: the callback receives one buffer of
      128 frames of 4 bytes, and then the thread hangs on the write lock with
      `running` still true. */
  method CaptureUntilStoppedAsWritten() returns (hung: bool, running: bool, delivered: seq<Invocation>)
    ensures hung && running
    ensures delivered == [Invocation(CallbackFn(1), paNoError, 512, Addr(7))]
  {
    var d := CaptureDriver();
    var h := new StreamHandle.Alloc(d);
    var outcome := h.OpenDefault(2, 0, paInt16, Double(0), 128);
    assert h.inputFrameSize == 4;
    var err := h.Start(CallbackFn(1), Addr(7));
    var cb := h.inputCallback.value;
    PollUnfold(Script([1, 0], [128], []), h.stream, false, 4, cb);
    PollUnfold(Script([0], [], []), h.stream, false, 4, cb);
    hung := h.ThreadHandlerAsWritten();
    running, delivered := h.running, h.invocations;
  }

  /** The same run with the read lock released before the loop's first
      `break`: the same buffer is delivered and the thread ends with
      `running` false and the lock free. */
  method CaptureUntilStopped() returns (running: bool, lockHealthy: bool, delivered: seq<Invocation>)
    ensures !running && lockHealthy
    ensures delivered == [Invocation(CallbackFn(1), paNoError, 512, Addr(7))]
  {
    var d := CaptureDriver();
    var h := new StreamHandle.Alloc(d);
    var outcome := h.OpenDefault(2, 0, paInt16, Double(0), 128);
    assert h.inputFrameSize == 4;
    var err := h.Start(CallbackFn(1), Addr(7));
    var cb := h.inputCallback.value;
    PollUnfold(Script([1, 0], [128], []), h.stream, false, 4, cb);
    PollUnfold(Script([0], [], []), h.stream, false, 4, cb);
    h.ThreadHandler();
    running, lockHealthy, delivered := h.running, h.LockHealthy(), h.invocations;
  }
}
