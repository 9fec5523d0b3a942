/** The PortAudio calls `pa_stream.c` makes, played by a scripted driver.
    PortAudio itself is not part of this model: each query answers from a
    script fixed in advance, and every call is appended to a log so that the
    contracts of the stream handle can say which calls it made, in which order
    and with which arguments. */
module PaDriver {
  import opened CInts
  import opened ErlTerms
  import opened PaConstants

  /** A `PaStream *` the driver handed out. */
  datatype StreamRef = StreamRef(id: nat)

  /** One call into PortAudio, with the arguments that matter. */
  datatype Call =
    | PaOpenDefaultStream(numInputChannels: int, numOutputChannels: int, sampleFormat: int,
                        sampleRate: Double, framesPerBuffer: int)
    | PaGetSampleSize(format: int)
    | PaStartStream(stream: Option<StreamRef>)
    | PaStopStream(stream: Option<StreamRef>)
    | PaAbortStream(stream: Option<StreamRef>)
    | PaIsStreamActive(stream: Option<StreamRef>)
    | PaGetStreamReadAvailable(stream: Option<StreamRef>)
    | PaReadStream(stream: Option<StreamRef>, frames: int)

  /** The answers still to be given to the three queries of the poll loop:
      `Pa_IsStreamActive` (1 active, 0 stopped, negative on error),
      `Pa_GetStreamReadAvailable` (frames, negative on error) and
      `Pa_ReadStream` (a `PaError`). An exhausted script answers "stopped",
      "no frames" and `paNoError`. */
  datatype Script = Script(active: seq<int>, available: seq<int>, readResults: seq<int>) {
    function NextActive(): (r: int)
      ensures r != 0 ==> |active| > 0
    {
      if |active| == 0 then 0 else active[0]
    }

    function PopActive(): (r: Script)
      ensures r.available == available && r.readResults == readResults
      ensures |active| > 0 ==> r.active == active[1..]
      ensures |active| == 0 ==> r == this
    {
      if |active| == 0 then this else this.(active := active[1..])
    }

    function NextAvailable(): int {
      if |available| == 0 then 0 else available[0]
    }

    function PopAvailable(): (r: Script)
      ensures r.active == active && r.readResults == readResults
      ensures |available| > 0 ==> r.available == available[1..]
      ensures |available| == 0 ==> r == this
    {
      if |available| == 0 then this else this.(available := available[1..])
    }

    function NextRead(): int {
      if |readResults| == 0 then paNoError else readResults[0]
    }

    function PopRead(): (r: Script)
      ensures r.active == active && r.available == available
      ensures |readResults| > 0 ==> r.readResults == readResults[1..]
      ensures |readResults| == 0 ==> r == this
    {
      if |readResults| == 0 then this else this.(readResults := readResults[1..])
    }
  }

  /** The scripted PortAudio library. The results of the one-shot calls are
      constants; the three poll-loop queries consume `script`. */
  class Driver {
    var script: Script
    ghost var calls: seq<Call>
    /** What `Pa_OpenDefaultStream` returns, and what it writes through its `PaStream **`. */
    const openResult: int
    const openedStream: Option<StreamRef>
    /** What `Pa_GetSampleSize` returns. */
    const sampleSize: int
    const startResult: int
    const stopResult: int
    const abortResult: int

    constructor (script: Script, openResult: int, openedStream: Option<StreamRef>, sampleSize: int,
                 startResult: int, stopResult: int, abortResult: int)
      ensures this.script == script && calls == []
      ensures this.openResult == openResult && this.openedStream == openedStream
      ensures this.sampleSize == sampleSize
      ensures this.startResult == startResult && this.stopResult == stopResult
      ensures this.abortResult == abortResult
    {
      this.script := script;
      calls := [];
      this.openResult := openResult;
      this.openedStream := openedStream;
      this.sampleSize := sampleSize;
      this.startResult := startResult;
      this.stopResult := stopResult;
      this.abortResult := abortResult;
    }

    method OpenDefaultStream(numInputChannels: int, numOutputChannels: int, sampleFormat: int,
                             sampleRate: Double, framesPerBuffer: int)
      returns (err: int, stream: Option<StreamRef>)
      modifies this`calls
      ensures err == openResult && stream == openedStream
      ensures calls == old(calls) + [PaOpenDefaultStream(numInputChannels, numOutputChannels, sampleFormat, sampleRate, framesPerBuffer)]
    {
      calls := calls + [PaOpenDefaultStream(numInputChannels, numOutputChannels, sampleFormat, sampleRate, framesPerBuffer)];
      return openResult, openedStream;
    }

    method GetSampleSize(format: int) returns (size: int)
      modifies this`calls
      ensures size == sampleSize
      ensures calls == old(calls) + [PaGetSampleSize(format)]
    {
      calls := calls + [PaGetSampleSize(format)];
      return sampleSize;
    }

    method StartStream(stream: Option<StreamRef>) returns (err: int)
      modifies this`calls
      ensures err == startResult
      ensures calls == old(calls) + [PaStartStream(stream)]
    {
      calls := calls + [PaStartStream(stream)];
      return startResult;
    }

    method StopStream(stream: Option<StreamRef>) returns (err: int)
      modifies this`calls
      ensures err == stopResult
      ensures calls == old(calls) + [PaStopStream(stream)]
    {
      calls := calls + [PaStopStream(stream)];
      return stopResult;
    }

    method AbortStream(stream: Option<StreamRef>) returns (err: int)
      modifies this`calls
      ensures err == abortResult
      ensures calls == old(calls) + [PaAbortStream(stream)]
    {
      calls := calls + [PaAbortStream(stream)];
      return abortResult;
    }

    method IsStreamActive(stream: Option<StreamRef>) returns (r: int)
      modifies this`script, this`calls
      ensures r == old(script).NextActive() && script == old(script).PopActive()
      ensures calls == old(calls) + [PaIsStreamActive(stream)]
    {
      r := script.NextActive();
      script := script.PopActive();
      calls := calls + [PaIsStreamActive(stream)];
    }

    method GetStreamReadAvailable(stream: Option<StreamRef>) returns (frames: int)
      modifies this`script, this`calls
      ensures frames == old(script).NextAvailable() && script == old(script).PopAvailable()
      ensures calls == old(calls) + [PaGetStreamReadAvailable(stream)]
    {
      frames := script.NextAvailable();
      script := script.PopAvailable();
      calls := calls + [PaGetStreamReadAvailable(stream)];
    }

    method ReadStream(stream: Option<StreamRef>, frames: int) returns (err: int)
      modifies this`script, this`calls
      ensures err == old(script).NextRead() && script == old(script).PopRead()
      ensures calls == old(calls) + [PaReadStream(stream, frames)]
    {
      err := script.NextRead();
      script := script.PopRead();
      calls := calls + [PaReadStream(stream, frames)];
    }
  }
}
