/** The PortAudio (v19) constants and types used by the binding. `portaudio.h` is not
    part of this model; the values below are those of its public header, and the
    proofs use these concrete values: among other facts, that the error codes are
    consecutive and negative, that the stream flags are the bits 1, 2 and 4, that
    no host API type id is negative and that no sample format is `ULONG_MAX`. */
module PaConstants {
  import opened CInts

  // PaErrorCode
  const paNoError: int := 0
  const paNotInitialized: int := -10000
  const paUnanticipatedHostError: int := -9999
  const paInvalidChannelCount: int := -9998
  const paInvalidSampleRate: int := -9997
  const paInvalidDevice: int := -9996
  const paInvalidFlag: int := -9995
  const paSampleFormatNotSupported: int := -9994
  const paBadIODeviceCombination: int := -9993
  const paInsufficientMemory: int := -9992
  const paBufferTooBig: int := -9991
  const paBufferTooSmall: int := -9990
  const paNullCallback: int := -9989
  const paBadStreamPtr: int := -9988
  const paTimedOut: int := -9987
  const paInternalError: int := -9986
  const paDeviceUnavailable: int := -9985
  const paIncompatibleHostApiSpecificStreamInfo: int := -9984
  const paStreamIsStopped: int := -9983
  const paStreamIsNotStopped: int := -9982
  const paInputOverflowed: int := -9981
  const paOutputUnderflowed: int := -9980
  const paHostApiNotFound: int := -9979
  const paInvalidHostApi: int := -9978
  const paCanNotReadFromACallbackStream: int := -9977
  const paCanNotWriteToACallbackStream: int := -9976
  const paCanNotReadFromAnOutputOnlyStream: int := -9975
  const paCanNotWriteToAnInputOnlyStream: int := -9974
  const paIncompatibleStreamHostApi: int := -9973
  const paBadBufferPtr: int := -9972

  // PaDeviceIndex
  const paNoDevice: int := -1

  // PaHostApiTypeId
  const paInDevelopment: int := 0
  const paDirectSound: int := 1
  const paMME: int := 2
  const paASIO: int := 3
  const paSoundManager: int := 4
  const paCoreAudio: int := 5
  const paOSS: int := 7
  const paALSA: int := 8
  const paAL: int := 9
  const paBeOS: int := 10
  const paWDMKS: int := 11
  const paJACK: int := 12
  const paWASAPI: int := 13
  const paAudioScienceHPI: int := 14

  // PaSampleFormat (an `unsigned long` bit set)
  const paFloat32: int := 0x01
  const paInt32: int := 0x02
  const paInt24: int := 0x04
  const paInt16: int := 0x08
  const paInt8: int := 0x10
  const paUInt8: int := 0x20

  // PaStreamFlags (an `unsigned long` bit set)
  type StreamFlags = bv64
  const paNoFlag: StreamFlags := 0
  const paClipOff: StreamFlags := 0x01
  const paDitherOff: StreamFlags := 0x02
  const paNeverDropInput: StreamFlags := 0x04

  /** A `void *` the binding stores; only whether it is NULL matters. */
  datatype Ptr = Null | Addr(addr: nat)

  /** `PaStreamParameters`. */
  datatype StreamParameters = StreamParameters(
    device: int,
    channelCount: int,
    sampleFormat: int,
    suggestedLatency: Double,
    hostApiSpecificStreamInfo: Ptr)
}
