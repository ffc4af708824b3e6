/**
 * The hidden audio player component: it binds the page's audio element to the playback
 * store, reloads the element when the current episode changes, turns the element's events
 * into playback-state updates, saves the listening position every five seconds and copies
 * the store's volume and rate onto the element.
 */
module AudioPlayer {
  import opened Wrappers
  import opened Types
  import opened Playback
  import opened Preferences

  /** The element events the player listens to. */
  datatype DeviceEvent = LoadedMetadata | TimeUpdate | PlayEvent | PauseEvent | Ended | Error

  /** The update each event applies to the playback state, given the element at that moment. */
  function EventPatch(event: DeviceEvent, device: DeviceView): PlaybackPatch {
    match event
    case LoadedMetadata => PlaybackPatch(duration := Some(device.duration))
    case TimeUpdate => PlaybackPatch(currentTime := Some(device.currentTime))
    case PlayEvent => PlaybackPatch(isPlaying := Some(true), isPaused := Some(false))
    case PauseEvent => PlaybackPatch(isPlaying := Some(false), isPaused := Some(true))
    case Ended => PlaybackPatch(isPlaying := Some(false), isPaused := Some(false), currentTime := Some(0.0))
    case Error => PlaybackPatch(isPlaying := Some(false), isPaused := Some(false))
  }

  /** The playback state after the store applies an event's update. */
  function AfterEvent(s: PlaybackState, event: DeviceEvent, device: DeviceView): PlaybackState {
    Patched(s, EventPatch(event, device))
  }

  /** loadedmetadata copies the element's duration and nothing else. */
  lemma LoadedMetadataSetsDuration(s: PlaybackState, device: DeviceView)
    ensures AfterEvent(s, LoadedMetadata, device) == s.(duration := device.duration)
  {
  }

  /** timeupdate mirrors the element's position into the state and changes nothing else. */
  lemma TimeUpdateMirrorsPosition(s: PlaybackState, device: DeviceView)
    ensures AfterEvent(s, TimeUpdate, device) == s.(currentTime := device.currentTime)
  {
  }

  /**
   * The transport events: play gives playing, pause gives paused, ended clears both flags
   * and rewinds, error clears both flags and keeps position and duration.
   */
  lemma TransportEvents(s: PlaybackState, device: DeviceView)
    ensures AfterEvent(s, PlayEvent, device) == s.(isPlaying := true, isPaused := false)
    ensures AfterEvent(s, PauseEvent, device) == s.(isPlaying := false, isPaused := true)
    ensures AfterEvent(s, Ended, device) == s.(isPlaying := false, isPaused := false, currentTime := 0.0)
    ensures AfterEvent(s, Error, device) == s.(isPlaying := false, isPaused := false)
  {
  }

  /** No event leaves the state both playing and paused if it was not before. */
  lemma EventsKeepFlagsExclusive(s: PlaybackState, event: DeviceEvent, device: DeviceView)
    requires FlagsExclusive(s)
    ensures FlagsExclusive(AfterEvent(s, event, device))
  {
  }

  /** Only the events that report a new position move it. */
  lemma EventPosition(s: PlaybackState, event: DeviceEvent, device: DeviceView)
    ensures AfterEvent(s, event, device).currentTime ==
              match event
              case TimeUpdate => device.currentTime
              case Ended => 0.0
              case _ => s.currentTime
    ensures AfterEvent(s, event, device).volume == s.volume
    ensures AfterEvent(s, event, device).playbackRate == s.playbackRate
  {
  }

  /**
   * `Math.floor(t) % 5 === 0`. ECMAScript's `%` keeps the dividend's sign, but a remainder
   * is zero under that rule exactly when it is zero under Dafny's, so the test is the same.
   */
  predicate ShouldPersist(t: real) {
    t.Floor % 5 == 0
  }

  /** Whole second `n` is a save point. */
  predicate PersistsAtSecond(n: int) {
    ShouldPersist(n as real)
  }

  /** Over the first twenty seconds the position is saved at 0, 5, 10, 15 and 20 only. */
  lemma PersistWholeSeconds()
    ensures forall n :: 0 <= n <= 20 ==>
              (PersistsAtSecond(n) <==> n == 0 || n == 5 || n == 10 || n == 15 || n == 20)
  {
    forall n | 0 <= n <= 20
      ensures PersistsAtSecond(n) <==> n == 0 || n == 5 || n == 10 || n == 15 || n == 20
    {
      assert (n as real).Floor == n;
    }
  }

  /** In each five-second window updates are saved during its first second only. */
  lemma PersistWindow(k: int, t: real)
    requires 5.0 * (k as real) <= t < 5.0 * (k as real) + 5.0
    ensures ShouldPersist(t) <==> t < 5.0 * (k as real) + 1.0
  {
    var f := t.Floor;
    assert 5 * k <= f <= 5 * k + 4;
    assert f % 5 == f - 5 * k;
  }

  /** The (episode id, position) pair a timeupdate saves, if any. */
  function ProgressToSave(current: Option<Episode>, time: real): (r: Option<(string, real)>)
    ensures r.Some? <==> current.Some? && ShouldPersist(time)
    ensures r.Some? ==> r.value == (current.value.id, time)
  {
    if current.Some? && ShouldPersist(time) then Some((current.value.id, time)) else None
  }

  /** Binding effect: an element that exists becomes the store's element. */
  method Mount(store: AudioStore, audio: AudioElement?)
    modifies store`audioElement
    ensures audio != null ==> store.audioElement == audio
    ensures audio == null ==> store.audioElement == old(store.audioElement)
  {
    if audio != null {
      store.SetAudioElement(audio);
    }
  }

  /** Source effect: the element plays the current episode's file, reloaded. */
  method LoadCurrentSource(store: AudioStore, audio: AudioElement?)
    modifies audio
    ensures audio != null && store.currentEpisode.Some? ==>
              audio.View() == old(audio.View()).(src := store.currentEpisode.value.audioUrl,
                                                 loadCount := old(audio.loadCount) + 1)
    ensures audio != null && store.currentEpisode.None? ==> audio.View() == old(audio.View())
  {
    if audio != null && store.currentEpisode.Some? {
      audio.src := store.currentEpisode.value.audioUrl;
      audio.Load();
    }
  }

  /** One element event, handled as the component's listener does. */
  method HandleEvent(store: AudioStore, prefs: UserPreferencesStore, audio: AudioElement, event: DeviceEvent)
    modifies store`playbackState, prefs`lastPlayedEpisode, prefs`lastPlayedPosition
    ensures store.playbackState == AfterEvent(old(store.playbackState), event, audio.View())
    ensures var saved := if event == TimeUpdate then ProgressToSave(store.currentEpisode, audio.currentTime) else None;
            if saved.Some? then prefs.lastPlayedEpisode == Some(saved.value.0) && prefs.lastPlayedPosition == saved.value.1
            else prefs.lastPlayedEpisode == old(prefs.lastPlayedEpisode) && prefs.lastPlayedPosition == old(prefs.lastPlayedPosition)
  {
    store.UpdatePlaybackState(EventPatch(event, audio.View()));
    if event == TimeUpdate && store.currentEpisode.Some? && ShouldPersist(audio.currentTime) {
      prefs.SetLastPlayed(store.currentEpisode.value.id, audio.currentTime);
    }
  }

  /** Volume and rate effect: the element takes the store's volume and rate. */
  method SyncVolumeAndRate(store: AudioStore, audio: AudioElement?)
    modifies audio
    ensures audio != null ==>
              audio.View() == old(audio.View()).(volume := store.playbackState.volume,
                                                 playbackRate := store.playbackState.playbackRate)
  {
    if audio != null {
      audio.volume := store.playbackState.volume;
      audio.playbackRate := store.playbackState.playbackRate;
    }
  }
}
