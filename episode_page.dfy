/**
 * The episode page: the episode named by the route, its transport buttons (play/pause and
 * ten-second skips), the favourite button and the effect that makes the episode current
 * and schedules a seek to the saved position.
 */
module EpisodePage {
  import opened Wrappers
  import opened Types
  import opened Playback
  import opened Preferences
  import opened Episodes

  /** Seconds moved by each skip button. */
  const SkipSeconds: real := 10.0

  /** `id ? getEpisodeById(id) : null`: an absent or empty route id names no episode. */
  function PageEpisode(routeId: Option<string>, episodes: seq<Episode>): (r: Option<Episode>)
    ensures r.Some? ==> routeId == Some(r.value.id) && r.value in episodes
    ensures routeId.Some? && routeId.value != "" ==> r == FindById(episodes, routeId.value)
    ensures r.None? <==> routeId.None? || routeId.value == "" ||
                         forall i :: 0 <= i < |episodes| ==> episodes[i].id != routeId.value
  {
    if routeId.Some? && routeId.value != "" then FindById(episodes, routeId.value) else None
  }

  /** `Math.max(0, t - 10)`. */
  function SkipBackTarget(t: real): (r: real)
    ensures r >= 0.0 && r >= t - SkipSeconds
    ensures r == 0.0 || r == t - SkipSeconds
  {
    if t - SkipSeconds > 0.0 then t - SkipSeconds else 0.0
  }

  /** `Math.min(duration, t + 10)`. */
  function SkipForwardTarget(t: real, duration: real): (r: real)
    ensures r <= duration && r <= t + SkipSeconds
    ensures r == duration || r == t + SkipSeconds
  {
    if t + SkipSeconds < duration then t + SkipSeconds else duration
  }

  /** Within the episode, skipping forward and then back returns to the start position. */
  lemma SkipForwardThenBack(t: real, duration: real)
    requires 0.0 <= t && t + SkipSeconds <= duration
    ensures SkipBackTarget(SkipForwardTarget(t, duration)) == t
  {
  }

  /** Skipping back from the first ten seconds goes to the start. */
  lemma SkipBackNearStart(t: real)
    requires t <= SkipSeconds
    ensures SkipBackTarget(t) == 0.0
  {
  }

  /** The seek the page schedules when it opens, if any. */
  function ResumeTarget(episode: Option<Episode>, current: Option<Episode>,
                        lastPlayedEpisode: Option<string>, lastPlayedPosition: real): (r: Option<real>)
    ensures r.Some? <==> episode.Some? && current.None? &&
                         lastPlayedEpisode == Some(episode.value.id) && lastPlayedPosition > 0.0
    ensures r.Some? ==> r.value == lastPlayedPosition
  {
    if episode.Some? && current.None? && lastPlayedEpisode == Some(episode.value.id) && lastPlayedPosition > 0.0
    then Some(lastPlayedPosition)
    else None
  }

  /** Once an episode is playing, opening any page schedules no seek. */
  lemma NoResumeWhileAnEpisodeIsCurrent(episode: Option<Episode>, current: Option<Episode>,
                                        lastPlayedEpisode: Option<string>, lastPlayedPosition: real)
    requires current.Some?
    ensures ResumeTarget(episode, current, lastPlayedEpisode, lastPlayedPosition) == None
  {
  }

  /**
   * The page's effect: with no current episode, the page's episode becomes current, and the
   * saved position is returned as the seek the timer will make.
   */
  method OnEpisodeOpened(store: AudioStore, prefs: UserPreferencesStore, episode: Option<Episode>)
    returns (resumeAt: Option<real>)
    modifies store`currentEpisode
    ensures episode.Some? && old(store.currentEpisode).None? ==> store.currentEpisode == episode
    ensures episode.None? || old(store.currentEpisode).Some? ==> store.currentEpisode == old(store.currentEpisode)
    ensures resumeAt == ResumeTarget(episode, old(store.currentEpisode), prefs.lastPlayedEpisode, prefs.lastPlayedPosition)
  {
    resumeAt := None;
    if episode.Some? && store.currentEpisode.None? {
      store.SetCurrentEpisode(episode.value);
      if prefs.lastPlayedEpisode == Some(episode.value.id) && prefs.lastPlayedPosition > 0.0 {
        resumeAt := Some(prefs.lastPlayedPosition);
      }
    }
  }

  /**
   * Play/pause: makes the episode current unless it already is, then pauses if the store
   * says it is playing and plays otherwise. The flag read is the store's, so pressing play
   * on another episode while one plays switches to it and pauses.
   */
  method HandlePlayPause(store: AudioStore, episode: Episode)
    modifies store`currentEpisode, store`playbackState, store.audioElement
    ensures store.currentEpisode ==
              if IsCurrentEpisode(old(store.currentEpisode), Some(episode)) then old(store.currentEpisode)
              else Some(episode)
    ensures old(store.audioElement) == null ==> store.playbackState == old(store.playbackState)
    ensures old(store.audioElement) != null ==>
              store.playbackState == old(store.playbackState).(isPlaying := !old(store.playbackState.isPlaying),
                                                               isPaused := old(store.playbackState.isPlaying)) &&
              store.audioElement.View() == old(store.audioElement.View()).(paused := old(store.playbackState.isPlaying))
  {
    var wasPlaying := store.playbackState.isPlaying;
    if !IsCurrentEpisode(store.currentEpisode, Some(episode)) {
      store.SetCurrentEpisode(episode);
    }
    if wasPlaying {
      store.Pause();
    } else {
      store.Play();
    }
  }

  /** Skip back: seeks ten seconds earlier, not before the start. */
  method HandleSkipBackward(store: AudioStore)
    modifies store`playbackState, store.audioElement
    ensures old(store.audioElement) == null ==> store.playbackState == old(store.playbackState)
    ensures old(store.audioElement) != null ==>
              store.playbackState == old(store.playbackState).(currentTime := SkipBackTarget(old(store.playbackState.currentTime))) &&
              store.audioElement.View() == old(store.audioElement.View()).(currentTime := store.playbackState.currentTime)
  {
    store.Seek(SkipBackTarget(store.playbackState.currentTime));
  }

  /** Skip forward: seeks ten seconds later, not past the duration. */
  method HandleSkipForward(store: AudioStore)
    modifies store`playbackState, store.audioElement
    ensures old(store.audioElement) == null ==> store.playbackState == old(store.playbackState)
    ensures old(store.audioElement) != null ==>
              store.playbackState == old(store.playbackState).(currentTime := SkipForwardTarget(
                                       old(store.playbackState.currentTime), old(store.playbackState.duration))) &&
              store.audioElement.View() == old(store.audioElement.View()).(currentTime := store.playbackState.currentTime)
  {
    store.Seek(SkipForwardTarget(store.playbackState.currentTime, store.playbackState.duration));
  }

  /** Slider: seeks to the chosen position. */
  method HandleSeek(store: AudioStore, time: real)
    modifies store`playbackState, store.audioElement
    ensures old(store.audioElement) == null ==> store.playbackState == old(store.playbackState)
    ensures old(store.audioElement) != null ==>
              store.playbackState == old(store.playbackState).(currentTime := time) &&
              store.audioElement.View() == old(store.audioElement.View()).(currentTime := time)
  {
    store.Seek(time);
  }

  /** The favourite button: removes the episode if it is a favourite, adds it otherwise. */
  method HandleToggleFavorite(prefs: UserPreferencesStore, episode: Episode)
    modifies prefs`favoriteEpisodes
    ensures prefs.favoriteEpisodes == ToggledFavorites(old(prefs.favoriteEpisodes), episode.id)
    ensures prefs.IsFavorite(episode.id) == !old(prefs.IsFavorite(episode.id))
  {
    if prefs.IsFavorite(episode.id) {
      prefs.RemoveFromFavorites(episode.id);
    } else {
      prefs.AddToFavorites(episode.id);
    }
  }
}
