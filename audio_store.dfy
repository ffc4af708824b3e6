/**
 * The playback store: the current episode, the transport state, the queue and the bound
 * audio element. Transport actions drive the element and update the state at once, without
 * waiting for the element to confirm; with no element bound they do nothing.
 */
module Playback {
  import opened Wrappers
  import opened Seqs
  import opened Types

  /**
   * The page's `<audio>` element, reduced to what the client reads and writes.
   * `loadCount` counts the calls to `load()`.
   */
  class AudioElement {
    var src: string
    var currentTime: real
    var duration: real
    var volume: real
    var playbackRate: real
    var paused: bool
    var loadCount: nat

    /** Everything the element holds, as one value. */
    function View(): DeviceView
      reads this
    {
      DeviceView(src, currentTime, duration, volume, playbackRate, paused, loadCount)
    }

    constructor ()
      ensures src == "" && currentTime == 0.0 && duration == 0.0
      ensures volume == 1.0 && playbackRate == 1.0 && paused && loadCount == 0
    {
      src := "";
      currentTime := 0.0;
      duration := 0.0;
      volume := 1.0;
      playbackRate := 1.0;
      paused := true;
      loadCount := 0;
    }

    /** `play()`: asks the element to start. */
    method Play()
      modifies this`paused
      ensures !paused
    {
      paused := false;
    }

    /** `pause()`. */
    method Pause()
      modifies this`paused
      ensures paused
    {
      paused := true;
    }

    /** `load()`: asks the element to (re)load its source. */
    method Load()
      modifies this`loadCount
      ensures loadCount == old(loadCount) + 1
    {
      loadCount := loadCount + 1;
    }
  }

  /** The fields of an `AudioElement` at one moment. */
  datatype DeviceView = DeviceView(
    src: string, currentTime: real, duration: real, volume: real,
    playbackRate: real, paused: bool, loadCount: nat)

  /** initialPlaybackState. */
  const InitialPlaybackState: PlaybackState :=
    PlaybackState(isPlaying := false, isPaused := false, currentTime := 0.0,
                  duration := 0.0, volume := 1.0, playbackRate := 1.0)

  /** At most one of the two transport flags is set. */
  predicate FlagsExclusive(s: PlaybackState) {
    !(s.isPlaying && s.isPaused)
  }

  /** `Partial<PlaybackState>`: the fields an update supplies. */
  datatype PlaybackPatch = PlaybackPatch(
    isPlaying: Option<bool> := None,
    isPaused: Option<bool> := None,
    currentTime: Option<real> := None,
    duration: Option<real> := None,
    volume: Option<real> := None,
    playbackRate: Option<real> := None)

  /** `{ ...s, ...patch }`: the supplied fields of `patch` over `s`. */
  function Patched(s: PlaybackState, patch: PlaybackPatch): PlaybackState {
    PlaybackState(
      isPlaying := patch.isPlaying.GetOr(s.isPlaying),
      isPaused := patch.isPaused.GetOr(s.isPaused),
      currentTime := patch.currentTime.GetOr(s.currentTime),
      duration := patch.duration.GetOr(s.duration),
      volume := patch.volume.GetOr(s.volume),
      playbackRate := patch.playbackRate.GetOr(s.playbackRate))
  }

  /** `{ ...p, ...q }`: q's supplied fields win. */
  function Merge(p: PlaybackPatch, q: PlaybackPatch): PlaybackPatch {
    PlaybackPatch(
      isPlaying := if q.isPlaying.Some? then q.isPlaying else p.isPlaying,
      isPaused := if q.isPaused.Some? then q.isPaused else p.isPaused,
      currentTime := if q.currentTime.Some? then q.currentTime else p.currentTime,
      duration := if q.duration.Some? then q.duration else p.duration,
      volume := if q.volume.Some? then q.volume else p.volume,
      playbackRate := if q.playbackRate.Some? then q.playbackRate else p.playbackRate)
  }

  /** An update with no fields changes nothing; a field it supplies is taken verbatim. */
  lemma PatchedOverwritesExactlySupplied(s: PlaybackState, patch: PlaybackPatch)
    ensures Patched(s, PlaybackPatch()) == s
    ensures patch.currentTime.Some? ==> Patched(s, patch).currentTime == patch.currentTime.value
    ensures patch.currentTime.None? ==> Patched(s, patch).currentTime == s.currentTime
    ensures patch.isPlaying.Some? ==> Patched(s, patch).isPlaying == patch.isPlaying.value
    ensures patch.isPlaying.None? ==> Patched(s, patch).isPlaying == s.isPlaying
    ensures patch.isPaused.Some? ==> Patched(s, patch).isPaused == patch.isPaused.value
    ensures patch.isPaused.None? ==> Patched(s, patch).isPaused == s.isPaused
    ensures patch.duration.Some? ==> Patched(s, patch).duration == patch.duration.value
    ensures patch.duration.None? ==> Patched(s, patch).duration == s.duration
    ensures patch.volume.Some? ==> Patched(s, patch).volume == patch.volume.value
    ensures patch.volume.None? ==> Patched(s, patch).volume == s.volume
    ensures patch.playbackRate.Some? ==> Patched(s, patch).playbackRate == patch.playbackRate.value
    ensures patch.playbackRate.None? ==> Patched(s, patch).playbackRate == s.playbackRate
  {
  }

  /** Two updates in a row are one update with the later fields winning; repeating one is harmless. */
  lemma PatchedCompose(s: PlaybackState, p: PlaybackPatch, q: PlaybackPatch)
    ensures Patched(Patched(s, p), q) == Patched(s, Merge(p, q))
    ensures Patched(Patched(s, p), p) == Patched(s, p)
  {
  }

  /** `queue.filter(episode => episode.id !== episodeId)`. */
  function WithoutEpisode(queue: seq<Episode>, episodeId: string): seq<Episode> {
    Filter(queue, (e: Episode) => e.id != episodeId)
  }

  /** Removing drops every entry with the id and keeps every other entry, in order. */
  lemma WithoutEpisodeSpec(queue: seq<Episode>, episodeId: string, e: Episode)
    ensures forall k :: 0 <= k < |WithoutEpisode(queue, episodeId)| ==> WithoutEpisode(queue, episodeId)[k].id != episodeId
    ensures e.id != episodeId ==> multiset(WithoutEpisode(queue, episodeId))[e] == multiset(queue)[e]
    ensures (forall k :: 0 <= k < |queue| ==> queue[k].id != episodeId) ==> WithoutEpisode(queue, episodeId) == queue
  {
    var p := (x: Episode) => x.id != episodeId;
    FilterCount(queue, p, e);
    if forall k :: 0 <= k < |queue| ==> queue[k].id != episodeId {
      FilterKeepsAll(queue, p);
    }
  }

  /** partialize: the persisted snapshot never says "playing"; everything else is kept. */
  function Partialize(state: AudioState): (r: AudioState)
    ensures !r.playbackState.isPlaying
    ensures r.playbackState.(isPlaying := state.playbackState.isPlaying) == state.playbackState
    ensures r.currentEpisode == state.currentEpisode && r.queue == state.queue
  {
    state.(playbackState := state.playbackState.(isPlaying := false))
  }

  /** Saving a restored snapshot again stores the same snapshot. */
  lemma PartializeIdempotent(state: AudioState)
    ensures Partialize(Partialize(state)) == Partialize(state)
  {
  }

  /** The audio store. `audioElement == null` is the state before an element is bound. */
  class AudioStore {
    var currentEpisode: Option<Episode>
    var playbackState: PlaybackState
    var queue: seq<Episode>
    var audioElement: AudioElement?

    constructor ()
      ensures currentEpisode == None && playbackState == InitialPlaybackState
      ensures queue == [] && audioElement == null
    {
      currentEpisode := None;
      playbackState := InitialPlaybackState;
      queue := [];
      audioElement := null;
    }

    /** The data the store persists and restores. */
    function State(): AudioState
      reads this
    {
      AudioState(currentEpisode, playbackState, queue)
    }

    /** setCurrentEpisode: replaces the episode only; transport state and queue are kept. */
    method SetCurrentEpisode(episode: Episode)
      modifies this`currentEpisode
      ensures currentEpisode == Some(episode)
    {
      currentEpisode := Some(episode);
    }

    /** updatePlaybackState. */
    method UpdatePlaybackState(patch: PlaybackPatch)
      modifies this`playbackState
      ensures playbackState == Patched(old(playbackState), patch)
    {
      playbackState := Patched(playbackState, patch);
    }

    /** play: starts the element and sets the flags to playing at once. */
    method Play()
      modifies this`playbackState, audioElement
      ensures old(audioElement) == null ==> playbackState == old(playbackState)
      ensures old(audioElement) != null ==>
                playbackState == old(playbackState).(isPlaying := true, isPaused := false) &&
                audioElement.View() == old(audioElement.View()).(paused := false)
      ensures old(FlagsExclusive(playbackState)) ==> FlagsExclusive(playbackState)
    {
      if audioElement != null {
        audioElement.Play();
        playbackState := playbackState.(isPlaying := true, isPaused := false);
      }
    }

    /** pause: pauses the element and sets the flags to paused at once. */
    method Pause()
      modifies this`playbackState, audioElement
      ensures old(audioElement) == null ==> playbackState == old(playbackState)
      ensures old(audioElement) != null ==>
                playbackState == old(playbackState).(isPlaying := false, isPaused := true) &&
                audioElement.View() == old(audioElement.View()).(paused := true)
      ensures old(FlagsExclusive(playbackState)) ==> FlagsExclusive(playbackState)
    {
      if audioElement != null {
        audioElement.Pause();
        playbackState := playbackState.(isPlaying := false, isPaused := true);
      }
    }

    /** stop: pauses the element, rewinds it and clears both flags. */
    method Stop()
      modifies this`playbackState, audioElement
      ensures old(audioElement) == null ==> playbackState == old(playbackState)
      ensures old(audioElement) != null ==>
                playbackState == old(playbackState).(isPlaying := false, isPaused := false, currentTime := 0.0) &&
                audioElement.View() == old(audioElement.View()).(paused := true, currentTime := 0.0)
      ensures FlagsExclusive(playbackState) || old(audioElement) == null
    {
      if audioElement != null {
        audioElement.Pause();
        audioElement.currentTime := 0.0;
        playbackState := playbackState.(isPlaying := false, isPaused := false, currentTime := 0.0);
      }
    }

    /** seek: moves the element and the state to `time`, unclamped. */
    method Seek(time: real)
      modifies this`playbackState, audioElement
      ensures old(audioElement) == null ==> playbackState == old(playbackState)
      ensures old(audioElement) != null ==>
                playbackState == old(playbackState).(currentTime := time) &&
                audioElement.View() == old(audioElement.View()).(currentTime := time)
    {
      if audioElement != null {
        audioElement.currentTime := time;
        playbackState := playbackState.(currentTime := time);
      }
    }

    /** setVolume: applies `volume` to the element and the state, unclamped. */
    method SetVolume(volume: real)
      modifies this`playbackState, audioElement
      ensures old(audioElement) == null ==> playbackState == old(playbackState)
      ensures old(audioElement) != null ==>
                playbackState == old(playbackState).(volume := volume) &&
                audioElement.View() == old(audioElement.View()).(volume := volume)
    {
      if audioElement != null {
        audioElement.volume := volume;
        playbackState := playbackState.(volume := volume);
      }
    }

    /** setPlaybackRate: applies `rate` to the element and the state, unclamped. */
    method SetPlaybackRate(rate: real)
      modifies this`playbackState, audioElement
      ensures old(audioElement) == null ==> playbackState == old(playbackState)
      ensures old(audioElement) != null ==>
                playbackState == old(playbackState).(playbackRate := rate) &&
                audioElement.View() == old(audioElement.View()).(playbackRate := rate)
    {
      if audioElement != null {
        audioElement.playbackRate := rate;
        playbackState := playbackState.(playbackRate := rate);
      }
    }

    /** setAudioElement. */
    method SetAudioElement(element: AudioElement)
      modifies this`audioElement
      ensures audioElement == element
    {
      audioElement := element;
    }

    /** addToQueue: appends, duplicates allowed. */
    method AddToQueue(episode: Episode)
      modifies this`queue
      ensures queue == old(queue) + [episode]
    {
      queue := queue + [episode];
    }

    /** removeFromQueue: drops every entry with the id. */
    method RemoveFromQueue(episodeId: string)
      modifies this`queue
      ensures queue == WithoutEpisode(old(queue), episodeId)
      ensures forall k :: 0 <= k < |queue| ==> queue[k].id != episodeId
    {
      queue := WithoutEpisode(queue, episodeId);
    }

    /** clearQueue. */
    method ClearQueue()
      modifies this`queue
      ensures queue == []
    {
      queue := [];
    }
  }
}
