/**
 * An episode card in the list: its shortened description, its play and favourite buttons
 * and the highlight that marks the current episode.
 */
module EpisodeCard {
  import opened Wrappers
  import opened JsRuntime
  import opened Types
  import opened Playback
  import opened Preferences

  /** Characters of description a card shows before cutting it. */
  const DescriptionLength: nat := 150

  const Ellipsis: string := "..."

  /**
   * truncateText: a text that fits is kept; a longer one is cut to `maxLength` characters,
   * trimmed, and followed by an ellipsis.
   */
  function TruncateText(text: string, maxLength: nat): (r: string)
    ensures |text| <= maxLength ==> r == text
    ensures |text| > maxLength ==>
              |Ellipsis| <= |r| <= maxLength + |Ellipsis| && r[|r| - |Ellipsis|..] == Ellipsis &&
              TrimmedOf(r[..|r| - |Ellipsis|], text[..maxLength])
  {
    if |text| <= maxLength then text
    else
      TrimIsTrimmedOf(text[..maxLength]);
      var r := Trim(text[..maxLength]) + Ellipsis;
      assert r[..|r| - |Ellipsis|] == Trim(text[..maxLength]);
      r
  }

  /** The card's description line. */
  function CardDescription(e: Episode): (r: string)
    ensures |r| <= DescriptionLength + |Ellipsis|
    ensures |e.description| <= DescriptionLength ==> r == e.description
  {
    TruncateText(e.description, DescriptionLength)
  }

  /** A 160-character description of letters is cut to its first 150 and an ellipsis. */
  lemma CardDescriptionExample(e: Episode)
    requires |e.description| == 160
    requires forall i :: 0 <= i < 160 ==> 'a' <= e.description[i] <= 'z'
    ensures CardDescription(e) == e.description[..150] + Ellipsis
  {
    var s := e.description[..150];
    assert !IsWhiteSpace(s[0]) && !IsWhiteSpace(s[149]);
    assert TrimStart(s) == s;
    assert TrimEnd(s) == s;
  }

  /**
   * The play button: the card's episode becomes current and the store plays, even when the
   * episode was already current and playing.
   */
  method HandlePlayEpisode(store: AudioStore, episode: Episode)
    modifies store`currentEpisode, store`playbackState, store.audioElement
    ensures store.currentEpisode == Some(episode) && IsCurrentEpisode(store.currentEpisode, Some(episode))
    ensures old(store.audioElement) == null ==> store.playbackState == old(store.playbackState)
    ensures old(store.audioElement) != null ==>
              store.playbackState == old(store.playbackState).(isPlaying := true, isPaused := false) &&
              store.audioElement.View() == old(store.audioElement.View()).(paused := false)
  {
    store.SetCurrentEpisode(episode);
    store.Play();
  }

  /** The heart button: removes the episode from the favourites if it is there, adds it otherwise. */
  method HandleToggleFavorite(prefs: UserPreferencesStore, episode: Episode)
    modifies prefs`favoriteEpisodes
    ensures prefs.favoriteEpisodes == ToggledFavorites(old(prefs.favoriteEpisodes), episode.id)
    ensures prefs.IsFavorite(episode.id) == !old(prefs.IsFavorite(episode.id))
  {
    if prefs.IsFavorite(episode.id) {
      prefs.RemoveFromFavorites(episode.id);
    } else {
      prefs.AddToFavorites(episode.id);
    }
  }
}
