# MTAudioTap core, modelled in Dafny

MTAudioTap attaches an `MTAudioProcessingTap` to the audio track of an
`AVPlayerItem`, passes every buffer the tap sees to a spectrum analyzer, and
republishes the spectra to a delegate. This project models four parts of it:

- **Buffer conversion** (`buffer_conversion.dfy`, module `BufferConversion`).
  `convertAudioBufferListToPCMBuffer` copies a Core Audio buffer list into a
  fresh `AVAudioPCMBuffer`. The body is `ConvertBufferList`. It takes an
  explicit format descriptor (interleaved flag, common format, channel count),
  so every branch is checked. `ConvertAudioBufferListToPcmBuffer` fixes that
  descriptor the way the source does, to the standard deinterleaved Float32
  format, where only the per-channel Float32 path can run. Samples are opaque
  values, so a copy is bit-identical. Each source buffer is `Some(samples)`, or
  `None` when its data pointer is nil. The destination is a class holding one
  fresh array per region, filled in place by a copy loop.
- **Tap lifecycle** (`audio_tap_processor.dfy`, module `AudioTapProcessing`).
  `AudioTapContext` has a weak reference to the analyzer and a count of manual
  retains. `CreateTap` takes one retain and either hands it to the new tap or
  gives it back. The `tapInit`, `tapProcess` and `tapFinalize` callbacks are
  methods that take the tap. `tapInit` sets the tap's storage slot to the
  client info; `tapProcess` and `tapFinalize` are specified by the `Step`
  function over a small `TapState`. Lemmas over sequences of host events (`Run`) prove
  that callbacks never change the retain count, that finalize releases the
  context exactly once, and that `analyse` receives the successful buffers and
  nothing after the analyzer is gone.
- **Playback session** (`audio_player.dfy`, module `Playback`). The
  `AudioPlayer` class has the optional fields `player`, `playerItem`,
  `tracksObserver` and `statusObservation`. `Play`, `Pause`, `Stop` and
  `InstallTap` update them. The bodies of the two key-value observers are
  explicit event methods, and each takes the weakly captured `self` as a
  parameter that may be null.
- **Clamping** (`clamping.dfy`, module `Clamping`). `Comparable.clamped(to:)`
  over integers, with Swift's `min`/`max` tie rules.

`wrappers.dfy` holds the `Option`, `Result` and `Outcome` datatypes used for
Swift optionals and thrown errors.

The code has no session-state variable; the model follows its optional
fields. Three behaviours of the code are worth stating outright:

- `play` throws `noAudioTrack` to its caller and does not notify the delegate.
- A non-empty tracks notification installs a tap every time, with no
  at-most-once guard (`TracksNotifiedTwice`).
- A deinterleaved channel that has no data, or has an unsupported kind, is
  skipped. The call does not fail.

## Model

| member | source | states |
|---|---|---|
| `Clamping.Clamped` | MTAudioTap/ClosedRange+Extensions.swift:9-11 | The result lies in `[lower, upper]`. A value inside the range is returned unchanged. A value below gives `lower` and a value above gives `upper`. |
| `Clamping.ClampedIsIdempotent` | MTAudioTap/ClosedRange+Extensions.swift:9-11 | Clamping a clamped value again gives the same value. |
| `BufferConversion.ElementCount` | MTAudioTap/ConvertAudioBufferList.swift:40 | For any valid PCM buffer, interleaved or not, the number of regions times the length of each region is `frameCapacity` × channelCount. |
| `BufferConversion.PcmBuffer.constructor` | MTAudioTap/ConvertAudioBufferList.swift:40-43 | A created buffer has fresh, pairwise distinct regions of the right size and a `frameLength` of 0. |
| `BufferConversion.AllocateRegions` | MTAudioTap/ConvertAudioBufferList.swift:40 | The buffer's storage consists of `count` fresh, distinct arrays of the given length. |
| `BufferConversion.InitializeFrom` | MTAudioTap/ConvertAudioBufferList.swift:86-87 | After `initialize(from:count:)`, the first `count` destination elements equal the source's and the rest are untouched. |
| `BufferConversion.ConvertBufferList` | MTAudioTap/ConvertAudioBufferList.swift:30-168 | Returns nil if format or buffer creation fails. Interleaved: returns a buffer iff there is exactly one buffer, it has data, and its kind is Float32, Int16 or Int32; region 0 then starts with the first frames × channels source elements, in order. Deinterleaved: returns a buffer iff the buffer count equals the channel count; each channel with data and a supported kind holds the first `frameCount` source elements, and other channels are skipped. On success `frameLength == frameCount`. |
| `BufferConversion.ConvertAudioBufferListToPcmBuffer` | MTAudioTap/ConvertAudioBufferList.swift:16-169 | With the standard format, the result is non-nil iff creation succeeds and there is one buffer per channel. Every channel that has data is then copied, bit for bit. |
| `AudioTapProcessing.SpectrumAnalyzer.Analyse` | MTAudioTap/AudioTapProcessor.swift:48 | Each call to `analyse` is recorded once, with the buffer list it was given. |
| `AudioTapProcessing.SpectrumAnalyzer.Deallocate` | MTAudioTap/AudioTapProcessor.swift:15 | Once the analyzer is gone it stays recorded as not alive, and its past calls are kept. |
| `AudioTapProcessing.AudioTapContext.constructor` | MTAudioTap/AudioTapProcessor.swift:97-102 | The context records the analyzer without retaining it, and starts with no manual retains. |
| `AudioTapProcessing.AudioTapContext.Content` | MTAudioTap/AudioTapProcessor.swift:98 | Reading the weak field gives the analyzer while it is alive, and nil after. |
| `AudioTapProcessing.AudioTapContext.PassRetained` | MTAudioTap/AudioTapProcessor.swift:65 | `passRetained` adds one manual retain. |
| `AudioTapProcessing.AudioTapContext.Release` | MTAudioTap/AudioTapProcessor.swift:57 | `release` removes one manual retain. It cannot be called when no retain is held. |
| `AudioTapProcessing.ProcessingTap.constructor` | MTAudioTap/AudioTapProcessor.swift:63-80 | A created tap carries the client info it was given, and its storage is empty until init. |
| `AudioTapProcessing.TapDelegate.DidUpdateSpectrum` | MTAudioTap/AudioTapProcessor.swift:10-12 | The delegate receives each spectrum once, in order. |
| `AudioTapProcessing.RunAppend` | MTAudioTap/AudioTapProcessor.swift:27-58 | Running two event sequences in turn is the same as running their concatenation. |
| `AudioTapProcessing.CallbacksKeepRetains` | MTAudioTap/AudioTapProcessor.swift:27-49 | No sequence of process calls or analyzer teardown before finalize changes the context's retain count. |
| `AudioTapProcessing.AnalysedWhileAlive` | MTAudioTap/AudioTapProcessor.swift:27-49 | Starting with a live analyzer, `analyse` receives exactly the buffer lists of the successful process calls made before the analyzer is released, in order. |
| `AudioTapProcessing.ReleasedStaysSilent` | MTAudioTap/AudioTapProcessor.swift:42-46 | A released analyzer stays released, and no later event adds a call to `analyse`. |
| `AudioTapProcessing.NoAnalyseAfterRelease` | MTAudioTap/AudioTapProcessor.swift:42-46 | Once the analyzer is released, no later process call reaches `analyse`, whatever its status. |
| `AudioTapProcessing.FinalizeReleasesOnce` | MTAudioTap/AudioTapProcessor.swift:55-58 | A context that holds one retain, as `createTap` hands it over, keeps it through any number of callbacks (0, 1 or many), and finalize brings it to zero. |
| `AudioTapProcessing.TapLifecycle` | MTAudioTap/AudioTapProcessor.swift:27-88 | On the objects: after a successful `createTap`, `tapInit`, any process calls and one `tapFinalize`, the context holds no manual retain, and the analyzer has received exactly the buffer lists of the successful calls, in order. |
| `AudioTapProcessing.TapInit` | MTAudioTap/AudioTapProcessor.swift:51-53 | The storage slot becomes the client info, unchanged. |
| `AudioTapProcessing.TapProcess` | MTAudioTap/AudioTapProcessor.swift:27-49 | If getting source audio fails, nothing changes, even with an empty storage slot. If the analyzer is gone, nothing changes. Otherwise `analyse` is called once with the buffer list. The retain count never changes. |
| `AudioTapProcessing.TapFinalize` | MTAudioTap/AudioTapProcessor.swift:55-58 | The stored context loses exactly one manual retain. |
| `AudioTapProcessing.AudioTapProcessor.constructor` | MTAudioTap/AudioTapProcessor.swift:18-25 | The processor owns a fresh, live analyzer. |
| `AudioTapProcessing.AudioTapProcessor.CreateTap` | MTAudioTap/AudioTapProcessor.swift:60-88 | The analyzer is left untouched (weak reference). If the host succeeds, a fresh tap is returned whose client info is the new context, holding one retain. Otherwise that retain is given back (zero left) and `failedToCreateTap` is thrown. |
| `AudioTapProcessing.AudioTapProcessor.Deinit` | MTAudioTap/AudioTapProcessor.swift:15 | Deallocating the processor deallocates the analyzer it alone owns. |
| `AudioTapProcessing.AudioTapProcessor.SpectrumAnalyzerDidUpdate` | MTAudioTap/AudioTapProcessor.swift:91-95 | Each spectrum reaches the delegate, if there is one, unchanged. |
| `Playback.AudioPlayer.constructor` | MTAudioTap/AudioPlayer.swift:31-34 | A new player owns a tap processor with a live analyzer, and nothing is loaded. |
| `Playback.AudioPlayer.Play` | MTAudioTap/AudioPlayer.swift:36-66 | The item and player are always replaced. If loading the tracks throws, that error propagates; with no audio track, `noAudioTrack` is thrown. In both cases no observer is registered, and the previous observations keep their fields and stay as they were. Otherwise both observers are registered, valid, on the new item, and capture the first audio track. The observations they replace are ended and can no longer be notified. |
| `Playback.AudioPlayer.Pause` | MTAudioTap/AudioPlayer.swift:68-70 | Only pauses the player. No field of the session changes. |
| `Playback.AudioPlayer.Stop` | MTAudioTap/AudioPlayer.swift:72-79 | Pauses the player and clears the item's audio mix. Both observers are invalidated and kept in their fields. `player` and `playerItem` become nil. A second stop changes nothing. |
| `Playback.AudioPlayer.InstallTap` | MTAudioTap/AudioPlayer.swift:81-89 | On success the item's audio mix has exactly one input parameter: the found track, with a fresh tap whose context holds one retain. On failure `failedToCreateTap` propagates and the mix is unchanged. |
| `Playback.AudioPlayer.AudioTapProcessorDidUpdate` | MTAudioTap/AudioPlayer.swift:92-98 | Each spectrum reaches the delegate, if there is one, unchanged. |
| `Playback.OnTracksChanged` | MTAudioTap/AudioPlayer.swift:45-50 | A tap is installed only when the player is alive, the track list is non-empty, and creation succeeds. It then holds the one input parameter for the captured track, with a fresh tap whose context refers to the player's analyzer and holds one retain. Otherwise the audio mix is unchanged. |
| `Playback.OnStatusChanged` | MTAudioTap/AudioPlayer.swift:52-65 | Every status reaches the delegate. Only `readyToPlay` starts the player. No field of the session changes. |
| `Playback.TracksNotifiedTwice` | MTAudioTap/AudioPlayer.swift:45-50 | Two non-empty tracks notifications install two different taps. The second replaces the first in the audio mix. |

## Left out

- Sample rate: `AVAudioFormat(standardFormatWithSampleRate:channels:)` is the host's. Whether format and buffer creation succeed is an input. The sample rate is not modelled.
- BufferConversion.ConvertBufferList: the `floatChannelData` / `int16ChannelData` / `int32ChannelData` nil guards are not separate branches. The buffer's format is the one being dispatched on, so the matching accessor is present.
- BufferConversion.ConvertBufferList: it does not model the trap if `Int(frameCount) * Int(format.channelCount)` overflows. A source large enough to need that product cannot exist, and the source length is a precondition.
- BufferConversion.ConvertBufferList: it says nothing about a skipped channel's contents. The real memory there is uninitialised.
- The `mDataByteSize` checks are commented out in the source, so they are not modelled. That each source buffer holds enough elements is the precondition `SourceHoldsFrames`.
- The link by which the player becomes the processor's delegate (`tapProcessor.delegate = self`) cannot be typed without protocols. `TapDelegate` stands for whatever delegate the processor has. `AudioPlayer.AudioTapProcessorDidUpdate` models the player's side of that protocol.
- Concurrency: the real-time thread, the main actor and each `Task` hop are left out. A `Task` body runs at the point it is created. `OnStatusChanged` reports the status passed with the notification, not the item's status when the task runs.
- Key-value observation: notifications, including the `.initial` one, are calls that the host makes. The model does not say when. An invalidated observation is never notified (the `isValid` precondition).
- Host internals: `MTAudioProcessingTapCreate` and `MTAudioProcessingTapGetSourceAudio` appear only as the status they report. The tap init callback is a separate event after creation. When the host calls finalize, and the ARC lifetime of the tap object (`takeRetainedValue`), are not modelled.
- The spectrum analyzer's FFT is left out. Only the calls to `analyse` are recorded, and spectra are opaque `Float` bit patterns.
- Clamping.Clamped: modelled over `int`. `Float`, with NaN, is not a total order, and the `SpectrumView` call site is not part of this model.
- Logging (`print`) is left out. MediaPlayerViewModel.swift, SpectrumView.swift, MediaPlayerView.swift and MTAudioTapApp.swift are not part of this model.
