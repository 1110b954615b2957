/** `AudioTapProcessor` from MTAudioTap/AudioTapProcessor.swift: creation of
    an `MTAudioProcessingTap` whose opaque client info is a manually retained
    `AudioTapContext`, the tap's init, process and finalize callbacks, and the
    forwarding of spectra to the processor's delegate.

    The host (MediaToolbox) is not modelled: what it reports is passed in
    (`OSStatus` results, whether it produced a tap), and the order in which it
    invokes the callbacks is a sequence of discrete events. */
module AudioTapProcessing {
  import opened Wrappers

  /** A Core Audio status code; zero is `noErr`. */
  type OSStatus = int
  const NoErr: OSStatus := 0

  /** `PlayerError` (declared in MTAudioTap/AudioPlayer.swift). */
  datatype PlayerError = FailedToCreateTap | NoAudioTrack

  /** The address of the `AudioBufferList` the host hands to the process
      callback; the analyzer receives that same list. */
  datatype BufferListRef = BufferListRef(address: nat)

  /** `[[Float]]`: one sequence of magnitudes per channel, each magnitude kept
      as the bit pattern of its `Float`. */
  type Spectrum = seq<seq<bv32>>

  /** The `SpectrumAnalyzer`, seen only through the calls it receives. */
  class SpectrumAnalyzer {
    /** False once the analyzer has been deallocated. */
    var alive: bool
    /** The buffer lists passed to `analyse(bufferList:)`, in call order. */
    var analysed: seq<BufferListRef>

    constructor ()
      ensures alive && analysed == []
    {
      alive := true;
      analysed := [];
    }

    /** `analyse(bufferList:)`; the FFT it runs is not modelled. */
    method Analyse(bufferList: BufferListRef)
      requires alive
      modifies this
      ensures alive && analysed == old(analysed) + [bufferList]
    {
      analysed := analysed + [bufferList];
    }

    /** The last strong reference (the processor's) goes away. */
    method Deallocate()
      modifies this
      ensures !alive && analysed == old(analysed)
    {
      alive := false;
    }
  }

  /** `AudioTapContext`: a weak reference to the analyzer, and the number of
      manual (`Unmanaged`) retains that have not been released yet. */
  class AudioTapContext {
    /** The object the weak `content` field was set to. */
    const referent: SpectrumAnalyzer
    var unmanagedRetains: nat

    /** `init(content:)` only records the analyzer: it is not retained. */
    constructor (content: SpectrumAnalyzer)
      ensures referent == content && unmanagedRetains == 0
    {
      referent := content;
      unmanagedRetains := 0;
    }

    /** Reading the weak field `content`: nil once the analyzer is gone. */
    function Content(): (r: SpectrumAnalyzer?)
      reads this, referent
      ensures r != null <==> referent.alive
      ensures r != null ==> r == referent
    {
      if referent.alive then referent else null
    }

    /** `Unmanaged.passRetained`. */
    method PassRetained()
      modifies this
      ensures unmanagedRetains == old(unmanagedRetains) + 1
    {
      unmanagedRetains := unmanagedRetains + 1;
    }

    /** `Unmanaged.release()`; releasing more than was retained is not allowed. */
    method Release()
      requires unmanagedRetains >= 1
      modifies this
      ensures unmanagedRetains == old(unmanagedRetains) - 1
    {
      unmanagedRetains := unmanagedRetains - 1;
    }
  }

  /** An `MTAudioProcessingTap` as the callbacks see it: the client info it was
      created with and its storage slot. */
  class ProcessingTap {
    const clientInfo: AudioTapContext
    var storage: AudioTapContext?

    constructor (clientInfo: AudioTapContext)
      ensures this.clientInfo == clientInfo && storage == null
    {
      this.clientInfo := clientInfo;
      storage := null;
    }
  }

  /** An object registered as `AudioTapProcessorDelegate`, seen through the
      spectra it is handed. */
  class TapDelegate {
    var spectra: seq<Spectrum>

    constructor ()
      ensures spectra == []
    {
      spectra := [];
    }

    method DidUpdateSpectrum(spectrum: Spectrum)
      modifies this
      ensures spectra == old(spectra) + [spectrum]
    {
      spectra := spectra + [spectrum];
    }
  }

  // ---------------------------------------------------------------------
  // The lifecycle of one tap, from its init callback on, as a state machine

  /** What one tap's callbacks can observe and change: the context's manual
      retains, whether the analyzer is alive, and the calls it received. The
      retain count is an integer so that every step is defined; a negative
      count would be a release without a retain, which crashes in Swift. */
  datatype TapState = TapState(unmanagedRetains: int, analyzerAlive: bool, analysed: seq<BufferListRef>)

  /** Events after init: a process callback with the status
      `MTAudioProcessingTapGetSourceAudio` returned, the deallocation of the
      analyzer, and the finalize callback. */
  datatype TapEvent =
    | Process(sourceStatus: OSStatus, bufferList: BufferListRef)
    | AnalyzerReleased
    | Finalize

  /** The effect of one event. */
  function Step(s: TapState, e: TapEvent): TapState
  {
    match e
    case Process(status, list) =>
      if status != NoErr || !s.analyzerAlive then s else s.(analysed := s.analysed + [list])
    case AnalyzerReleased =>
      s.(analyzerAlive := false)
    case Finalize =>
      s.(unmanagedRetains := s.unmanagedRetains - 1)
  }

  /** Events the host delivers while the tap is live, before finalize. */
  predicate AreCallbacks(events: seq<TapEvent>)
  {
    forall i :: 0 <= i < |events| ==> !events[i].Finalize?
  }

  /** The state after a sequence of events. */
  function Run(s: TapState, events: seq<TapEvent>): TapState
    decreases |events|
  {
    if events == [] then s else Run(Step(s, events[0]), events[1..])
  }

  /** Reference definition of the calls to `analyse`: the buffer list of
      every successful process event before the analyzer is released. */
  function AnalysedLists(events: seq<TapEvent>): seq<BufferListRef>
  {
    if events == [] then []
    else match events[0]
      case AnalyzerReleased => []
      case Process(status, list) => (if status == NoErr then [list] else []) + AnalysedLists(events[1..])
      case Finalize => AnalysedLists(events[1..])
  }

  /** Running two sequences one after the other is running their concatenation. */
  lemma {:induction false} RunAppend(s: TapState, first: seq<TapEvent>, second: seq<TapEvent>)
    ensures Run(s, first + second) == Run(Run(s, first), second)
    decreases |first|
  {
    if first != [] {
      assert (first + second)[1..] == first[1..] + second;
      RunAppend(Step(s, first[0]), first[1..], second);
    } else {
      assert first + second == second;
    }
  }

  /** No callback before finalize changes the context's retain count, however
      many process calls there are. */
  lemma {:induction false} CallbacksKeepRetains(s: TapState, events: seq<TapEvent>)
    requires AreCallbacks(events)
    ensures Run(s, events).unmanagedRetains == s.unmanagedRetains
    decreases |events|
  {
    if events != [] {
      assert !events[0].Finalize?;
      assert AreCallbacks(events[1..]) by {
        forall i | 0 <= i < |events| - 1
          ensures !events[1..][i].Finalize?
        {
          assert events[1..][i] == events[i + 1];
        }
      }
      CallbacksKeepRetains(Step(s, events[0]), events[1..]);
    }
  }

  /** A released analyzer stays released and receives no further call. */
  lemma {:induction false} ReleasedStaysSilent(s: TapState, events: seq<TapEvent>)
    requires !s.analyzerAlive
    ensures Run(s, events).analysed == s.analysed && !Run(s, events).analyzerAlive
    decreases |events|
  {
    if events != [] {
      ReleasedStaysSilent(Step(s, events[0]), events[1..]);
    }
  }

  /** While the analyzer is alive, `analyse` receives exactly the lists of
      the successful process calls made before it is released, in order. */
  lemma {:induction false} AnalysedWhileAlive(s: TapState, events: seq<TapEvent>)
    requires s.analyzerAlive
    ensures Run(s, events).analysed == s.analysed + AnalysedLists(events)
    decreases |events|
  {
    if events != [] {
      var rest := events[1..];
      var t := Step(s, events[0]);
      assert Run(s, events) == Run(t, rest);
      match events[0]
      case AnalyzerReleased =>
        ReleasedStaysSilent(t, rest);
      case Finalize =>
        AnalysedWhileAlive(t, rest);
      case Process(status, list) =>
        AnalysedWhileAlive(t, rest);
        var added := if status == NoErr then [list] else [];
        assert t.analysed == s.analysed + added;
        assert AnalysedLists(events) == added + AnalysedLists(rest);
        assert s.analysed + added + AnalysedLists(rest) == s.analysed + (added + AnalysedLists(rest));
    }
  }

  /** After the analyzer is released, later process calls add no call to
      `analyse`, whatever their status. */
  lemma NoAnalyseAfterRelease(s: TapState, before: seq<TapEvent>, after: seq<TapEvent>)
    ensures Run(s, before + [AnalyzerReleased] + after).analysed == Run(s, before).analysed
  {
    RunAppend(s, before, [AnalyzerReleased]);
    RunAppend(s, before + [AnalyzerReleased], after);
    var released := Run(s, before + [AnalyzerReleased]);
    assert released == Step(Run(s, before), AnalyzerReleased);
    ReleasedStaysSilent(released, after);
  }

  /** A context holding the one retain `createTap` hands over is released
      exactly once: it keeps that retain through any number of callbacks, and
      finalize brings it to zero. */
  lemma FinalizeReleasesOnce(s: TapState, events: seq<TapEvent>)
    requires s.unmanagedRetains == 1
    requires AreCallbacks(events)
    ensures Run(s, events).unmanagedRetains == 1
    ensures Run(s, events + [Finalize]).unmanagedRetains == 0
  {
    CallbacksKeepRetains(s, events);
    RunAppend(s, events, [Finalize]);
  }

  // ---------------------------------------------------------------------
  // The callbacks, on the objects

  /** The state of `tap` that its callbacks observe. */
  ghost function View(tap: ProcessingTap): TapState
    requires tap.storage != null
    reads tap, tap.storage, tap.storage.referent
  {
    TapState(tap.storage.unmanagedRetains, tap.storage.referent.alive, tap.storage.referent.analysed)
  }

  /** `tapInit`: the storage slot becomes the client info, unchanged. */
  method TapInit(tap: ProcessingTap, clientInfo: AudioTapContext?)
    modifies tap
    ensures tap.storage == clientInfo
  {
    tap.storage := clientInfo;
  }

  /** `tapProcess`. When getting the source audio fails the storage slot is
      not needed at all; otherwise the context it holds is read, and the
      analyzer is called only if the weak reference still resolves. */
  method TapProcess(tap: ProcessingTap, sourceStatus: OSStatus, bufferList: BufferListRef)
    requires sourceStatus == NoErr ==> tap.storage != null
    modifies if tap.storage != null then {tap.storage.referent} else {}
    ensures tap.storage != null ==> View(tap) == Step(old(View(tap)), Process(sourceStatus, bufferList))
  {
    if sourceStatus != NoErr {
      return;
    }
    var context := tap.storage;
    var analyzer := context.Content();
    if analyzer == null {
      return;
    }
    analyzer.Analyse(bufferList);
  }

  /** `tapFinalize`: releases the context held in the storage slot. The host
      calls it once, after init. */
  method TapFinalize(tap: ProcessingTap)
    requires tap.storage != null && tap.storage.unmanagedRetains >= 1
    modifies tap.storage
    ensures View(tap) == Step(old(View(tap)), Finalize)
  {
    tap.storage.Release();
  }

  /** `AudioTapProcessor`: owns the analyzer, weakly references its delegate. */
  class AudioTapProcessor {
    const analyzer: SpectrumAnalyzer
    var delegate: TapDelegate?

    /** `init(sampleRate:)`: a fresh analyzer, no delegate yet. */
    constructor ()
      ensures fresh(analyzer) && analyzer.alive && analyzer.analysed == []
      ensures delegate == null
    {
      analyzer := new SpectrumAnalyzer();
      delegate := null;
    }

    /** `createTap()`. `hostStatus` is what `MTAudioProcessingTapCreate`
        returned and `hostMadeTap` whether it wrote a tap. The ghost `context`
        is the context built for the tap. */
    method CreateTap(hostStatus: OSStatus, hostMadeTap: bool)
      returns (r: Result<ProcessingTap, PlayerError>, ghost context: AudioTapContext)
      ensures fresh(context) && context.referent == analyzer
      ensures unchanged(analyzer)
      ensures r.Success? <==> hostStatus == NoErr && hostMadeTap
      ensures r.Success? ==>
        fresh(r.value) && r.value.clientInfo == context && r.value.storage == null
        && context.unmanagedRetains == 1
      ensures r.Failure? ==> r.error == FailedToCreateTap && context.unmanagedRetains == 0
    {
      var tapContext := new AudioTapContext(analyzer);
      context := tapContext;
      tapContext.PassRetained();
      if hostStatus != NoErr || !hostMadeTap {
        tapContext.Release();
        return Failure(FailedToCreateTap), context;
      }
      var tap := new ProcessingTap(tapContext);
      r := Success(tap);
    }

    /** The processor's own deallocation takes the analyzer with it. */
    method Deinit()
      modifies analyzer
      ensures !analyzer.alive && analyzer.analysed == old(analyzer.analysed)
    {
      analyzer.Deallocate();
    }

    /** `spectrumAnalyzer(_:didUpdateSpectrum:)`: the spectrum goes to the
        delegate, if there is one, unchanged. */
    method SpectrumAnalyzerDidUpdate(spectrum: Spectrum)
      modifies if delegate != null then {delegate} else {}
      ensures delegate != null ==> delegate.spectra == old(delegate.spectra) + [spectrum]
    {
      if delegate != null {
        delegate.DidUpdateSpectrum(spectrum);
      }
    }
  }

  /** One tap from creation to teardown, as the host drives it: `createTap`
      succeeds, `tapInit` stores the client info, the process callbacks in
      `calls` run in order, and `tapFinalize` runs once. The context ends with
      no manual retain, and the analyzer has received exactly the buffer
      lists of the successful calls. */
  method TapLifecycle(processor: AudioTapProcessor, calls: seq<TapEvent>)
    returns (tap: ProcessingTap)
    requires processor.analyzer.alive
    requires forall i :: 0 <= i < |calls| ==> calls[i].Process?
    modifies processor.analyzer
    ensures fresh(tap) && tap.storage == tap.clientInfo && tap.clientInfo.referent == processor.analyzer
    ensures tap.clientInfo.unmanagedRetains == 0
    ensures processor.analyzer.alive
    ensures processor.analyzer.analysed == old(processor.analyzer.analysed) + AnalysedLists(calls)
  {
    var created, context := processor.CreateTap(NoErr, true);
    tap := created.value;
    TapInit(tap, tap.clientInfo);
    ghost var start := View(tap);
    assert start == TapState(1, true, old(processor.analyzer.analysed));
    for i := 0 to |calls|
      invariant tap.storage == tap.clientInfo == context
      invariant View(tap) == Run(start, calls[..i])
      invariant processor.analyzer.alive
    {
      TapProcess(tap, calls[i].sourceStatus, calls[i].bufferList);
      assert calls[..i + 1] == calls[..i] + [calls[i]];
      RunAppend(start, calls[..i], [calls[i]]);
    }
    assert calls[..|calls|] == calls;
    assert AreCallbacks(calls);
    FinalizeReleasesOnce(start, calls);
    AnalysedWhileAlive(start, calls);
    TapFinalize(tap);
    RunAppend(start, calls, [Finalize]);
  }
}
