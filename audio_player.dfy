/** `AudioPlayer` from MTAudioTap/AudioPlayer.swift: the playback session
    whose optional fields are set by `play(url:)`, by the key-value observers
    it registers on the player item, and cleared by `stop()`.

    AVFoundation is not modelled: the asset's audio tracks are an input of
    `Play`, and each key-value notification is a call of the observer's body
    (`OnTracksChanged`, `OnStatusChanged`) with what the item reports. The
    observer closures capture `self` weakly; their `weakSelf` parameter is null
    once the player has been deallocated. */
module Playback {
  import opened Wrappers
  import opened AudioTapProcessing

  /** `AVPlayerItem.Status`. */
  datatype ItemStatus = Unknown | ReadyToPlay | Failed

  /** An `AVAssetTrack`, known by its track ID. */
  datatype AssetTrack = AssetTrack(trackID: int)

  /** The media location given to `play(url:)`. */
  datatype Url = Url(text: string)

  /** `AVMutableAudioMixInputParameters`: a track and the tap on it. */
  datatype AudioMixInputParameters = AudioMixInputParameters(track: AssetTrack, audioTapProcessor: ProcessingTap)

  /** `AVMutableAudioMix`. */
  datatype AudioMix = AudioMix(inputParameters: seq<AudioMixInputParameters>)

  /** What `play(url:)` throws: `PlayerError.noAudioTrack`, or the error
      `loadTracks(withMediaType:)` throws. */
  datatype PlayError = Player(reason: PlayerError) | TrackLoading

  /** `AVPlayerItem`: the field the session writes is its audio mix. */
  class AVPlayerItem {
    const url: Url
    var audioMix: Option<AudioMix>

    constructor (url: Url)
      ensures this.url == url && audioMix == None
    {
      this.url := url;
      audioMix := None;
    }
  }

  /** `AVPlayer`: the item it plays and whether it is playing. */
  class AVPlayer {
    const currentItem: AVPlayerItem
    var isPlaying: bool

    constructor (playerItem: AVPlayerItem)
      ensures currentItem == playerItem && !isPlaying
    {
      currentItem := playerItem;
      isPlaying := false;
    }

    method Play()
      modifies this
      ensures isPlaying
    {
      isPlaying := true;
    }

    method Pause()
      modifies this
      ensures !isPlaying
    {
      isPlaying := false;
    }
  }

  /** The observation of `tracks`, with what its closure captured: the
      observed item and the first audio track found by `play`. */
  class TracksObservation {
    const item: AVPlayerItem
    const audioTrack: AssetTrack
    var isValid: bool

    constructor (item: AVPlayerItem, audioTrack: AssetTrack)
      ensures this.item == item && this.audioTrack == audioTrack && isValid
    {
      this.item := item;
      this.audioTrack := audioTrack;
      isValid := true;
    }

    /** `NSKeyValueObservation.invalidate()`. */
    method Invalidate()
      modifies this
      ensures !isValid
    {
      isValid := false;
    }
  }

  /** The observation of `status`. */
  class StatusObservation {
    const item: AVPlayerItem
    var isValid: bool

    constructor (item: AVPlayerItem)
      ensures this.item == item && isValid
    {
      this.item := item;
      isValid := true;
    }

    method Invalidate()
      modifies this
      ensures !isValid
    {
      isValid := false;
    }
  }

  /** An object registered as `AudioPlayerDelegate`, seen through the calls it
      receives. */
  class PlayerDelegate {
    var spectra: seq<Spectrum>
    var statuses: seq<ItemStatus>

    constructor ()
      ensures spectra == [] && statuses == []
    {
      spectra := [];
      statuses := [];
    }

    method DidUpdateSpectrum(spectrum: Spectrum)
      modifies this
      ensures spectra == old(spectra) + [spectrum] && statuses == old(statuses)
    {
      spectra := spectra + [spectrum];
    }

    method DidChangeStatus(status: ItemStatus)
      modifies this
      ensures statuses == old(statuses) + [status] && spectra == old(spectra)
    {
      statuses := statuses + [status];
    }
  }

  class AudioPlayer {
    const tapProcessor: AudioTapProcessor
    var player: AVPlayer?
    var playerItem: AVPlayerItem?
    var tracksObserver: TracksObservation?
    var statusObservation: StatusObservation?
    var delegate: PlayerDelegate?

    /** The player and its item are set and cleared together, and the player
        plays that item. */
    ghost predicate Valid()
      reads this, player
    {
      && (player == null <==> playerItem == null)
      && (player != null ==> player.currentItem == playerItem)
    }

    /** Nothing is loaded and neither observer can fire. */
    ghost predicate Stopped()
      reads this, tracksObserver, statusObservation
    {
      && player == null && playerItem == null
      && (tracksObserver != null ==> !tracksObserver.isValid)
      && (statusObservation != null ==> !statusObservation.isValid)
    }

    /** The objects a status notification may change. */
    ghost function StatusTargets(): set<object>
      reads this
    {
      (if delegate != null then {delegate as object} else {}) + (if player != null then {player as object} else {})
    }

    /** `init()`: a tap processor whose analyzer is alive, nothing loaded. */
    constructor ()
      ensures Valid() && Stopped()
      ensures fresh(tapProcessor) && fresh(tapProcessor.analyzer) && tapProcessor.analyzer.alive
      ensures tracksObserver == null && statusObservation == null && delegate == null
    {
      tapProcessor := new AudioTapProcessor();
      player := null;
      playerItem := null;
      tracksObserver := null;
      statusObservation := null;
      delegate := null;
    }

    /** `play(url:)`. `loadedAudioTracks` is what
        `loadTracks(withMediaType: .audio)` returned, `None` if it threw. The
        item and player are replaced before the tracks are loaded; the two
        observers are registered only once an audio track is found.
        Overwriting an observer field releases the previous observation,
        which ends it: it is invalid afterwards. */
    method Play(url: Url, loadedAudioTracks: Option<seq<AssetTrack>>) returns (r: Outcome<PlayError>)
      modifies this, tracksObserver, statusObservation
      ensures Valid()
      ensures fresh(playerItem) && fresh(player)
      ensures playerItem.url == url && playerItem.audioMix == None && !player.isPlaying
      ensures delegate == old(delegate)
      ensures loadedAudioTracks == None ==> r == Fail(TrackLoading)
      ensures loadedAudioTracks == Some([]) ==> r == Fail(Player(NoAudioTrack))
      ensures r.Fail? ==>
        tracksObserver == old(tracksObserver) && statusObservation == old(statusObservation)
      ensures r.Fail? && old(tracksObserver) != null ==> unchanged(old(tracksObserver))
      ensures r.Fail? && old(statusObservation) != null ==> unchanged(old(statusObservation))
      ensures loadedAudioTracks.Some? && loadedAudioTracks.value != [] ==>
        && r == Pass
        && fresh(tracksObserver) && tracksObserver.isValid
        && tracksObserver.item == playerItem && tracksObserver.audioTrack == loadedAudioTracks.value[0]
        && fresh(statusObservation) && statusObservation.isValid
        && statusObservation.item == playerItem
        && (old(tracksObserver) != null ==> !old(tracksObserver).isValid)
        && (old(statusObservation) != null ==> !old(statusObservation).isValid)
    {
      var item := new AVPlayerItem(url);
      playerItem := item;
      player := new AVPlayer(item);
      match loadedAudioTracks
      case None =>
        return Fail(TrackLoading);
      case Some(tracks) =>
        if tracks == [] {
          return Fail(Player(NoAudioTrack));
        }
        var audioTrack := tracks[0];
        var previousTracks, previousStatus := tracksObserver, statusObservation;
        tracksObserver := new TracksObservation(item, audioTrack);
        if previousTracks != null {
          previousTracks.Invalidate();
        }
        statusObservation := new StatusObservation(item);
        if previousStatus != null {
          previousStatus.Invalidate();
        }
        r := Pass;
    }

    /** `pause()`: pauses the player, if any; no field changes. */
    method Pause()
      modifies player
      ensures unchanged(this)
      ensures player != null ==> !player.isPlaying
    {
      if player != null {
        player.Pause();
      }
    }

    /** `stop()`: pauses, removes the audio mix, invalidates both observers
        and drops the item and the player. The observer fields keep their
        (now invalid) observations. Stopping a stopped player changes
        nothing. */
    method Stop()
      modifies this, player, playerItem, tracksObserver, statusObservation
      ensures Valid() && Stopped()
      ensures tracksObserver == old(tracksObserver) && statusObservation == old(statusObservation)
      ensures delegate == old(delegate)
      ensures old(player) != null ==> !old(player).isPlaying
      ensures old(playerItem) != null ==> old(playerItem).audioMix == None
      ensures old(Stopped()) ==> unchanged(this)
    {
      if player != null {
        player.Pause();
      }
      if playerItem != null {
        playerItem.audioMix := None;
      }
      if tracksObserver != null {
        tracksObserver.Invalidate();
      }
      if statusObservation != null {
        statusObservation.Invalidate();
      }
      playerItem := null;
      player := null;
    }

    /** `installTap(playerItem:audioTrack:)`. `hostStatus` and `hostMadeTap`
        are what `MTAudioProcessingTapCreate` reported to `createTap`. On
        success the item's audio mix is replaced by one with a single input,
        for the track, carrying the new tap; on failure the error propagates
        and the mix is left as it was. */
    method InstallTap(item: AVPlayerItem, audioTrack: AssetTrack, hostStatus: OSStatus, hostMadeTap: bool)
      returns (r: Outcome<PlayerError>)
      modifies item
      ensures r.Pass? <==> hostStatus == NoErr && hostMadeTap
      ensures r.Fail? ==> r.error == FailedToCreateTap && item.audioMix == old(item.audioMix)
      ensures r.Pass? ==>
        && item.audioMix.Some?
        && |item.audioMix.value.inputParameters| == 1
        && item.audioMix.value.inputParameters[0].track == audioTrack
        && fresh(item.audioMix.value.inputParameters[0].audioTapProcessor)
        && item.audioMix.value.inputParameters[0].audioTapProcessor.clientInfo.referent == tapProcessor.analyzer
        && item.audioMix.value.inputParameters[0].audioTapProcessor.clientInfo.unmanagedRetains == 1
    {
      var created, context := tapProcessor.CreateTap(hostStatus, hostMadeTap);
      match created
      case Failure(e) =>
        return Fail(e);
      case Success(tap) =>
        var inputParams := AudioMixInputParameters(audioTrack, tap);
        item.audioMix := Some(AudioMix([inputParams]));
        r := Pass;
    }

    /** `audioTapProcessor(_:didUpdateSpectrum:)`: the spectrum goes to the
        delegate, if there is one, unchanged. */
    method AudioTapProcessorDidUpdate(spectrum: Spectrum)
      modifies delegate
      ensures unchanged(this)
      ensures delegate != null ==>
        delegate.spectra == old(delegate.spectra) + [spectrum] && delegate.statuses == old(delegate.statuses)
    {
      if delegate != null {
        delegate.DidUpdateSpectrum(spectrum);
      }
    }
  }

  /** The body of the `tracks` observer. A tap is installed only when the
      player is still alive and the item has tracks, and every such
      notification installs a new one: nothing prevents a second tap. The
      error a failed installation throws ends the `Task` it runs in. */
  method OnTracksChanged(
    weakSelf: AudioPlayer?, observation: TracksObservation, tracksNonEmpty: bool,
    hostStatus: OSStatus, hostMadeTap: bool)
    requires observation.isValid
    modifies observation.item
    ensures weakSelf == null || !tracksNonEmpty || hostStatus != NoErr || !hostMadeTap ==>
      observation.item.audioMix == old(observation.item.audioMix)
    ensures weakSelf != null && tracksNonEmpty && hostStatus == NoErr && hostMadeTap ==>
      && observation.item.audioMix.Some?
      && |observation.item.audioMix.value.inputParameters| == 1
      && observation.item.audioMix.value.inputParameters[0].track == observation.audioTrack
      && fresh(observation.item.audioMix.value.inputParameters[0].audioTapProcessor)
      && observation.item.audioMix.value.inputParameters[0].audioTapProcessor.clientInfo.referent == weakSelf.tapProcessor.analyzer
      && observation.item.audioMix.value.inputParameters[0].audioTapProcessor.clientInfo.unmanagedRetains == 1
  {
    if weakSelf == null || !tracksNonEmpty {
      return;
    }
    var _ := weakSelf.InstallTap(observation.item, observation.audioTrack, hostStatus, hostMadeTap);
  }

  /** The body of the `status` observer. Every status is reported to the
      delegate; `readyToPlay` also starts the player; `failed` is only
      logged. */
  method OnStatusChanged(weakSelf: AudioPlayer?, observation: StatusObservation, status: ItemStatus)
    requires observation.isValid
    modifies if weakSelf != null then weakSelf.StatusTargets() else {}
    ensures weakSelf != null ==> unchanged(weakSelf)
    ensures weakSelf != null && weakSelf.delegate != null ==>
      && weakSelf.delegate.statuses == old(weakSelf.delegate.statuses) + [status]
      && weakSelf.delegate.spectra == old(weakSelf.delegate.spectra)
    ensures weakSelf != null && weakSelf.player != null ==>
      weakSelf.player.isPlaying == (status == ReadyToPlay || old(weakSelf.player.isPlaying))
  {
    if weakSelf == null {
      return;
    }
    if weakSelf.delegate != null {
      weakSelf.delegate.DidChangeStatus(status);
    }
    if status == ReadyToPlay && weakSelf.player != null {
      weakSelf.player.Play();
    }
  }

  /** Two non-empty `tracks` notifications, both with a successful host, leave
      the item with a second, different tap: installation is not guarded to
      happen once. */
  method TracksNotifiedTwice(owner: AudioPlayer, observation: TracksObservation)
    returns (first: ProcessingTap, second: ProcessingTap)
    requires observation.isValid
    modifies observation.item
    ensures first != second
    ensures observation.item.audioMix.Some?
    ensures observation.item.audioMix.value.inputParameters == [AudioMixInputParameters(observation.audioTrack, second)]
  {
    OnTracksChanged(owner, observation, true, NoErr, true);
    first := observation.item.audioMix.value.inputParameters[0].audioTapProcessor;
    OnTracksChanged(owner, observation, true, NoErr, true);
    second := observation.item.audioMix.value.inputParameters[0].audioTapProcessor;
  }
}
