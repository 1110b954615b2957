/** `convertAudioBufferListToPCMBuffer` from
    MTAudioTap/ConvertAudioBufferList.swift: copy the samples of a Core Audio
    buffer list into a freshly allocated PCM buffer.

    Samples are opaque values of a type parameter `S`: the code only copies
    them, so a copy is bit-identical whatever the sample kind. A source buffer
    of the list is `Some(samples)`, or `None` when its data pointer is nil. */
module BufferConversion {
  import opened Wrappers

  /** `AVAudioCommonFormat`. */
  datatype CommonFormat =
    | OtherFormat
    | PcmFormatFloat32
    | PcmFormatFloat64
    | PcmFormatInt16
    | PcmFormatInt32

  /** The three sample kinds the conversion dispatches over. */
  predicate IsCopyable(kind: CommonFormat)
  {
    kind == PcmFormatFloat32 || kind == PcmFormatInt16 || kind == PcmFormatInt32
  }

  /** What the conversion reads of an `AVAudioFormat`. */
  datatype AudioFormat = AudioFormat(isInterleaved: bool, commonFormat: CommonFormat, channelCount: nat)

  /** `AVAudioFormat(standardFormatWithSampleRate:channels:)`: deinterleaved
      Float32 with the given channel count. */
  function StandardFormat(channels: nat): AudioFormat
  {
    AudioFormat(false, PcmFormatFloat32, channels)
  }

  /** Raw buffers of an `AudioBufferList`, in order. */
  type BufferList<S> = seq<Option<seq<S>>>

  /** Number of destination regions of a PCM buffer: one shared region when
      interleaved, one per channel otherwise. */
  function RegionCount(format: AudioFormat): nat
  {
    if format.isInterleaved then 1 else format.channelCount
  }

  /** Elements in each destination region of a buffer of the given capacity. */
  function RegionLength(format: AudioFormat, frameCapacity: nat): nat
  {
    if format.isInterleaved then frameCapacity * format.channelCount else frameCapacity
  }

  /** What the copy reads from the source, which the code does not check (its
      `mDataByteSize` checks are commented out): a buffer that the call copies
      from holds at least as many elements as it copies. */
  predicate SourceHoldsFrames<S>(buffers: BufferList<S>, format: AudioFormat, frameCount: nat)
  {
    if format.isInterleaved then
      (|buffers| == 1 && buffers[0].Some? && IsCopyable(format.commonFormat) ==>
         frameCount * format.channelCount <= |buffers[0].value|)
    else
      (|buffers| == format.channelCount && IsCopyable(format.commonFormat) ==>
         forall c :: 0 <= c < |buffers| && buffers[c].Some? ==> frameCount <= |buffers[c].value|)
  }

  /** `AVAudioPCMBuffer`: `channelData` are the regions that
      `floatChannelData`, `int16ChannelData` or `int32ChannelData` point at. */
  class PcmBuffer<S(0)> {
    const format: AudioFormat
    const frameCapacity: nat
    var frameLength: nat
    const channelData: seq<array<S>>

    ghost predicate Valid()
      reads this
    {
      && frameLength <= frameCapacity
      && |channelData| == RegionCount(format)
      && (forall i :: 0 <= i < |channelData| ==> channelData[i].Length == RegionLength(format, frameCapacity))
      && (forall i, j :: 0 <= i < j < |channelData| ==> channelData[i] != channelData[j])
    }

    /** `AVAudioPCMBuffer(pcmFormat:frameCapacity:)` when it succeeds: fresh
        regions and no valid frames yet. */
    constructor (format: AudioFormat, frameCapacity: nat)
      ensures Valid()
      ensures this.format == format && this.frameCapacity == frameCapacity && frameLength == 0
      ensures forall i :: 0 <= i < |channelData| ==> fresh(channelData[i])
    {
      var regions := AllocateRegions<S>(RegionCount(format), RegionLength(format, frameCapacity));
      this.format := format;
      this.frameCapacity := frameCapacity;
      frameLength := 0;
      channelData := regions;
    }
  }

  /** Whatever its layout, a PCM buffer stores frames times channels
      elements: its regions together hold `frameCapacity * channelCount`. */
  lemma ElementCount<S(0)>(buffer: PcmBuffer<S>)
    requires buffer.Valid()
    ensures forall i :: 0 <= i < |buffer.channelData| ==>
      |buffer.channelData| * buffer.channelData[i].Length == buffer.frameCapacity * buffer.format.channelCount
  {
  }

  /** `count` fresh, pairwise distinct arrays of `length` elements each. */
  method AllocateRegions<S(0)>(count: nat, length: nat) returns (regions: seq<array<S>>)
    ensures |regions| == count
    ensures forall i :: 0 <= i < count ==> fresh(regions[i]) && regions[i].Length == length
    ensures forall i, j :: 0 <= i < j < count ==> regions[i] != regions[j]
  {
    regions := [];
    while |regions| < count
      invariant |regions| <= count
      invariant forall i :: 0 <= i < |regions| ==> fresh(regions[i]) && regions[i].Length == length
      invariant forall i, j :: 0 <= i < j < |regions| ==> regions[i] != regions[j]
    {
      var region := new S[length];
      regions := regions + [region];
    }
  }

  /** `UnsafeMutablePointer.initialize(from:count:)`: the first `count`
      elements of `dest` become those of `source`; the rest is untouched. */
  method InitializeFrom<S>(dest: array<S>, source: seq<S>, count: nat)
    requires count <= dest.Length && count <= |source|
    modifies dest
    ensures dest[..count] == source[..count]
    ensures dest[count..] == old(dest[count..])
  {
    for i := 0 to count
      invariant forall k :: 0 <= k < i ==> dest[k] == source[k]
      invariant forall k :: count <= k < dest.Length ==> dest[k] == old(dest[k])
    {
      dest[i] := source[i];
    }
  }

  /** The body of the conversion over an explicit format. `formatCreated` and
      `bufferCreated` are whether `AVAudioFormat(...)` and
      `AVAudioPCMBuffer(...)` returned an object. */
  method ConvertBufferList<S(0)>(
    buffers: BufferList<S>, format: AudioFormat, frameCount: nat,
    formatCreated: bool, bufferCreated: bool)
    returns (pcm: PcmBuffer?<S>)
    requires SourceHoldsFrames(buffers, format, frameCount)
    // A failed allocation gives nil.
    ensures !formatCreated || !bufferCreated ==> pcm == null
    // Interleaved: exactly one buffer, with data, of a supported kind.
    ensures formatCreated && bufferCreated && format.isInterleaved ==>
      (pcm != null <==> |buffers| == 1 && buffers[0].Some? && IsCopyable(format.commonFormat))
    // Deinterleaved: one buffer per channel; missing data never fails the call.
    ensures formatCreated && bufferCreated && !format.isInterleaved ==>
      (pcm != null <==> |buffers| == format.channelCount)
    ensures pcm != null ==>
      && fresh(pcm) && pcm.Valid()
      && pcm.format == format && pcm.frameCapacity == frameCount && pcm.frameLength == frameCount
      && (forall i :: 0 <= i < |pcm.channelData| ==> fresh(pcm.channelData[i]))
    // Interleaved: region 0 starts with frames times channels source elements, in order.
    ensures pcm != null && format.isInterleaved ==>
      pcm.channelData[0][..frameCount * format.channelCount] == buffers[0].value[..frameCount * format.channelCount]
    // Deinterleaved: every channel with data is copied; the others are skipped.
    ensures pcm != null && !format.isInterleaved && IsCopyable(format.commonFormat) ==>
      forall c :: 0 <= c < |buffers| && buffers[c].Some? ==>
        pcm.channelData[c][..frameCount] == buffers[c].value[..frameCount]
  {
    if !formatCreated {
      return null;
    }
    if !bufferCreated {
      return null;
    }
    pcm := new PcmBuffer<S>(format, frameCount);
    pcm.frameLength := frameCount;

    if format.isInterleaved {
      if |buffers| != 1 {
        return null;
      }
      match buffers[0]
      case None =>
        return null;
      case Some(source) =>
        var total := frameCount * format.channelCount;
        match format.commonFormat
        case PcmFormatFloat32 | PcmFormatInt16 | PcmFormatInt32 =>
          InitializeFrom(pcm.channelData[0], source, total);
        case _ =>
          return null;
    } else {
      if |buffers| != format.channelCount {
        return null;
      }
      for channel := 0 to format.channelCount
        invariant pcm.Valid() && pcm.frameLength == frameCount
        invariant forall i :: 0 <= i < |pcm.channelData| ==> fresh(pcm.channelData[i])
        invariant IsCopyable(format.commonFormat) ==>
          forall c :: 0 <= c < channel && buffers[c].Some? ==>
            pcm.channelData[c][..frameCount] == buffers[c].value[..frameCount]
      {
        match buffers[channel]
        case None =>
          continue;
        case Some(source) =>
          match format.commonFormat
          case PcmFormatFloat32 | PcmFormatInt16 | PcmFormatInt32 =>
            InitializeFrom(pcm.channelData[channel], source, frameCount);
          case _ =>
            continue;
      }
    }
  }

  /** `convertAudioBufferListToPCMBuffer(audioBufferList:asbd:frameCount:)`:
      the format is always the standard one built from the stream's channel
      count, so only the deinterleaved Float32 path is taken. */
  method ConvertAudioBufferListToPcmBuffer<S(0)>(
    buffers: BufferList<S>, channelsPerFrame: nat, frameCount: nat,
    formatCreated: bool, bufferCreated: bool)
    returns (pcm: PcmBuffer?<S>)
    requires SourceHoldsFrames(buffers, StandardFormat(channelsPerFrame), frameCount)
    ensures pcm != null <==> formatCreated && bufferCreated && |buffers| == channelsPerFrame
    ensures pcm != null ==>
      && fresh(pcm) && pcm.Valid()
      && pcm.format == StandardFormat(channelsPerFrame)
      && pcm.frameLength == frameCount
      && |pcm.channelData| == channelsPerFrame
      && forall c :: 0 <= c < channelsPerFrame && buffers[c].Some? ==>
           pcm.channelData[c][..frameCount] == buffers[c].value[..frameCount]
  {
    pcm := ConvertBufferList(buffers, StandardFormat(channelsPerFrame), frameCount, formatCreated, bufferCreated);
  }
}
