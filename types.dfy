/** The records the client passes between its stores and components. */
module Types {
  import opened Wrappers
  import opened JsRuntime

  /**
   * One playable unit derived from a feed item. `duration` keeps parseDuration's result,
   * NaN included; `publishDate` is a time value in milliseconds; `thumbnail` is the empty
   * string when neither the item nor the channel names an image.
   */
  datatype Episode = Episode(
    id: string,
    title: string,
    description: string,
    audioUrl: string,
    duration: Number,
    publishDate: int,
    thumbnail: string,
    episodeNumber: Option<int>,
    season: Option<int>)

  /** The transport facet of playback, as the audio store keeps it. */
  datatype PlaybackState = PlaybackState(
    isPlaying: bool,
    isPaused: bool,
    currentTime: real,
    duration: real,
    volume: real,
    playbackRate: real)

  /** The audio store's data: what it keeps and what it persists. */
  datatype AudioState = AudioState(
    currentEpisode: Option<Episode>,
    playbackState: PlaybackState,
    queue: seq<Episode>)

  /** The identifier of an optional episode: `episode?.id`. */
  function IdOf(e: Option<Episode>): Option<string> {
    match e
    case None => None
    case Some(x) => Some(x.id)
  }

  /** `currentEpisode?.id === episode?.id`: two absent episodes count as the same. */
  predicate IsCurrentEpisode(current: Option<Episode>, episode: Option<Episode>) {
    IdOf(current) == IdOf(episode)
  }

  /**
   * The same-episode test of the episode page and the card highlight: it is symmetric and
   * ignores everything but the id.
   */
  lemma IsCurrentEpisodeById(current: Option<Episode>, episode: Episode)
    ensures IsCurrentEpisode(current, Some(episode)) <==> current.Some? && current.value.id == episode.id
    ensures IsCurrentEpisode(current, Some(episode)) == IsCurrentEpisode(Some(episode), current)
  {
  }
}
