# Podcast client: a verified model

This project models the logic of a small single-feed podcast web client written in
TypeScript and React:

- the feed normaliser that turns an RSS 2.0 document into episodes;
- the four state stores: playback, user preferences, episodes and navigation;
- the event handlers and small rules inside the pages and components that drive those stores.

Each core source file becomes one Dafny module:

| source file | module | file |
|---|---|---|
| `src/utils/rssParser.ts` | `RssParser` | `rss_parser.dfy` |
| `src/stores/audioStore.ts` | `Playback` | `audio_store.dfy` |
| `src/components/player/AudioPlayer.tsx` | `AudioPlayer` | `audio_player.dfy` |
| `src/stores/userPreferencesStore.ts` | `Preferences` | `user_preferences_store.dfy` |
| `src/stores/episodesStore.ts` | `Episodes` | `episodes_store.dfy` |
| `src/stores/navigationStore.ts` | `Navigation` | `navigation_store.dfy` |
| `src/hooks/useRSSFeed.ts` | `RssFeed` | `use_rss_feed.dfy` |
| `src/pages/EpisodePage.tsx` | `EpisodePage` | `episode_page.dfy` |
| `src/pages/HomePage.tsx` | `HomePage` | `home_page.dfy` |
| `src/components/episode/EpisodeCard.tsx` | `EpisodeCard` | `episode_card.dfy` |
| `src/components/player/MiniPlayer.tsx` | `MiniPlayer` | `mini_player.dfy` |

Four shared modules support them:

- `Wrappers`: `Option` and `Result`.
- `Seqs`: the generic `Array.prototype.filter`, `map` with an index, and `find`.
- `JsRuntime`: the ECMAScript behaviour the code relies on. This covers ToInt32, `parseInt`, `trim`, ASCII `toLowerCase`, `includes`, `split`, `Number.prototype.toString(radix)` and UTF-16 code units.
- `Types`: the `Episode`, `PlaybackState` and audio-state records of `src/types/index.ts`, and the same-episode test (`currentEpisode?.id === episode?.id`) that the episode page and the card share.

The stores are classes whose methods update their fields in place, as the Zustand actions
do. The bound `HTMLAudioElement` is a class `AudioElement` whose fields the store's
transport actions assign. A store with no bound element holds `null`. The parser, the
filters, the labels and the clamps are functions.

JavaScript numbers are modelled in two ways:

- Integers read by `parseInt` are `Number = NaN | Int(n)`, so a failed parse stays visible as NaN.
- Playback positions, durations, volumes and rates are `real`.

Two behaviours of the code are worth stating on their own:

- `parseDuration` guards only the empty string. A part that is not a number reaches the
  arithmetic, so `parseDuration("not-a-time")` is NaN (lemma
  `RssParser.ParseDurationExampleNotATime`).
- `retry: 3` lets React Query retry a failed fetch three times, so a fetch is tried at most
  four times (lemmas `RssFeed.AttemptsBound` and `RssFeed.AllFailing`).

## Model

| member | source | states |
|---|---|---|
| `RssParser.GetElementText` | src/utils/rssParser.ts:100-121 | the text is the element's trimmed text content; if that is empty it is the `href` attribute; with no element it is empty |
| `RssParser.ParseRSSFeed` | src/utils/rssParser.ts:10-42 | a parser error or a missing channel fails, and every failure carries the one message "Failed to parse RSS feed"; on success a non-empty channel title is kept, the description is the channel's (empty when it has none), the image is the channel image, every episode has a non-empty audio URL, there are no more episodes than items, and the episodes are the parsed items with audio |
| `RssParser.FeedEpisodes` | src/utils/rssParser.ts:29-36 | every surviving episode has a non-empty audio URL, and there are no more of them than items |
| `RssParser.FeedEpisodesAppend` | src/utils/rssParser.ts:30-36 | surviving episodes keep document order: one more item at the end of the document adds its own episode after all earlier ones when it has audio, and nothing otherwise |
| `RssParser.FeedEpisodesKeepAudioItems` | src/utils/rssParser.ts:30-36 | an item with an audio URL is never dropped |
| `RssParser.TitleFallback` | src/utils/rssParser.ts:46 | an item without a title is named `Episode <index+1>` |
| `RssParser.DescriptionFallback` | src/utils/rssParser.ts:47 | an item without a description takes its itunes:summary, and '' when that is missing too |
| `RssParser.ThumbnailFallback` | src/utils/rssParser.ts:78-82 | an item with no image of its own takes the image found for the channel |
| `RssParser.ChannelTitleFallback` | src/utils/rssParser.ts:26 | when the channel's title lookup yields no text, the feed's title is 'Unknown Podcast' |
| `RssParser.ChannelImage` | src/utils/rssParser.ts:28 | the itunes:image text when it is non-empty, otherwise the image text (empty when that is missing too); every episode without an image of its own falls back to it |
| `RssParser.EnclosurePreferred` | src/utils/rssParser.ts:50-59 | when an audio-typed enclosure exists, the media:content elements are never consulted |
| `RssParser.MediaContentFallback` | src/utils/rssParser.ts:55-58 | with no audio enclosure, the URL is that of the first audio-typed media:content |
| `RssParser.FirstAudioEnclosure` | src/utils/rssParser.ts:51-53 | with an audio-typed enclosure, the URL is the `url` attribute of the first such enclosure |
| `RssParser.AudioUrl` | src/utils/rssParser.ts:50-59 | a non-empty audio URL is the `url` attribute of some audio-typed enclosure or audio-typed media:content of the item |
| `RssParser.ItemImage` | src/utils/rssParser.ts:75-79 | with no image element the item image is empty; otherwise it is the first image's `href`, or its `url` when the `href` is empty |
| `RssParser.ParseEpisode` | src/utils/rssParser.ts:44-98 | the episode's id is non-empty; a missing duration gives 0; the date is the clock's time or the date the pubDate text parses to; the thumbnail is empty only when the backup image is; episode and season numbers are never 0 |
| `RssParser.OptionalNumber` | src/utils/rssParser.ts:84-85 | an episode or season number is present exactly when `parseInt` of the text (or '0') gives a non-zero number, and then it is that number |
| `RssParser.ParseDate` | src/utils/rssParser.ts:131-136 | non-empty text that parses to a valid date gives that date; empty or unparsable text gives the current time |
| `RssParser.ParseDurationHms` | src/utils/rssParser.ts:138-146 | "h:m:s" whose three fields hold no ':' and are read by `parseInt` as whole numbers h, m, s gives h*3600+m*60+s |
| `RssParser.ParseDurationMs` | src/utils/rssParser.ts:142-149 | "m:s" whose two fields hold no ':' and are read by `parseInt` as whole numbers m, s gives m*60+s |
| `RssParser.ParseIntDigits` | src/utils/rssParser.ts:142 | `parseInt(part, 10)` of a run of decimal digits is the run's decimal value |
| `RssParser.ParseDurationSeconds` | src/utils/rssParser.ts:150-152 | a non-empty string without ':' gives `parseInt` of itself |
| `RssParser.ParseDurationNotANumber` | src/utils/rssParser.ts:150-152 | a string without ':' whose first character cannot start a number gives NaN |
| `RssParser.ParseDuration` | src/utils/rssParser.ts:138-156 | the empty string gives 0; one, two or three ':'-separated parts are read with `parseInt` as seconds, m:s or h:m:s; more parts give 0 (its properties are the lemmas `ParseDurationHms`, `ParseDurationMs`, `ParseDurationSeconds`, `ParseDurationTooManyParts` and `ParseDurationNaN`) |
| `RssParser.ParseDurationTooManyParts` | src/utils/rssParser.ts:142-155 | three or more colons (four or more parts) give 0 |
| `RssParser.ParseDurationNaN` | src/utils/rssParser.ts:142-153 | a non-numeric part among one to three parts makes the duration NaN |
| `RssParser.ParseDurationExampleHms` | src/utils/rssParser.ts:144-146 | "01:02:03" gives 3723 |
| `RssParser.ParseDurationExampleMs` | src/utils/rssParser.ts:147-149 | "02:03" gives 123 |
| `RssParser.ParseDurationExampleSeconds` | src/utils/rssParser.ts:150-152 | "45" gives 45 |
| `RssParser.ParseDurationExampleSuffix` | src/utils/rssParser.ts:150-152 | "45s" gives 45, since `parseInt` stops at the first non-digit |
| `RssParser.ParseDurationExampleNotATime` | src/utils/rssParser.ts:139-153 | "not-a-time" gives NaN |
| `RssParser.Hash` | src/utils/rssParser.ts:161-166 | the hash stays a signed 32-bit integer after every step |
| `RssParser.HashStepIsWrappedRecurrence` | src/utils/rssParser.ts:164-165 | one step `((h << 5) - h) + c` then `& hash` equals ToInt32(h*31 + c) |
| `RssParser.EpisodeId` | src/utils/rssParser.ts:158-168 | the id is non-empty and uses only the characters 0-9 and a-z |
| `RssParser.EpisodeIdBound` | src/utils/rssParser.ts:167 | read back in base 36, the id is at most 2^31 |
| `RssParser.GenerateEpisodeId` | src/utils/rssParser.ts:158-168 | the loop over the UTF-16 code units of `title-pubDate` computes the id defined by the hash recurrence |
| `RssParser.ParseEpisodeId` | src/utils/rssParser.ts:88 | the id depends only on the raw title text and the raw pubDate text, not on text cleaning, date parsing or the clock |
| `JsRuntime.ToInt32` | src/utils/rssParser.ts:164-165 | the result is a signed 32-bit integer congruent to the input modulo 2^32 |
| `JsRuntime.ToInt32OfInt32` | src/utils/rssParser.ts:165 | `hash & hash` leaves a 32-bit value unchanged |
| `JsRuntime.RadixRoundTrip` | src/utils/rssParser.ts:167 | `toString(radix)` read back in the same radix gives the number |
| `JsRuntime.TrimIsTrimmedOf` | src/utils/rssParser.ts:116 | `trim` removes whitespace at both ends and nothing else |
| `JsRuntime.TrimEmptyIffBlank` | src/stores/episodesStore.ts:48 | a string trims to '' exactly when it is all whitespace |
| `JsRuntime.IncludesIffAt` | src/stores/episodesStore.ts:55-56 | `includes` holds exactly when the text occurs at some position |
| `JsRuntime.SplitJoin` | src/utils/rssParser.ts:142 | joining the parts of `split(':')` with ':' gives back the string |
| `JsRuntime.SplitPartsSeparatorFree` | src/utils/rssParser.ts:142 | no part of `split(':')` contains ':' |
| `JsRuntime.SplitCount` | src/utils/rssParser.ts:142 | `split` gives one more part than there are separators |
| `JsRuntime.ParseIntLeadingDecimal` | src/pages/HomePage.tsx:149 | `parseInt` reads back a decimal number followed by a non-digit |
| `JsRuntime.ParseInt` | src/utils/rssParser.ts:142 | `parseInt(s, 10)`: leading whitespace skipped, an optional sign, then the longest run of decimal digits; no digits give NaN (its properties are the lemmas `JsRuntime.ParseIntShape`, `RssParser.ParseIntDigits` and `JsRuntime.ParseIntLeadingDecimal`) |
| `JsRuntime.ParseIntShape` | src/utils/rssParser.ts:142 | a blank string gives NaN, and a negative result needs a leading '-' |
| `Seqs.Filter` | src/utils/rssParser.ts:36 | every kept element is in the input and passes the test, and every element that passes is kept |
| `Seqs.FilterConcat` | src/utils/rssParser.ts:36 | filtering distributes over concatenation, so it keeps order |
| `Seqs.FilterCount` | src/stores/userPreferencesStore.ts:35 | filtering keeps every copy of an element that passes and no copy of one that fails |
| `Seqs.Find` | src/stores/episodesStore.ts:64 | the result is the first element that passes; it is absent exactly when none passes |
| `Playback.AudioStore.constructor` | src/stores/audioStore.ts:26-41 | not playing, not paused, time 0, duration 0, volume 1, rate 1, no episode, an empty queue, no element |
| `Playback.AudioStore.SetCurrentEpisode` | src/stores/audioStore.ts:43-45 | only the current episode changes; transport state and queue are kept |
| `Playback.AudioStore.UpdatePlaybackState` | src/stores/audioStore.ts:47-51 | the new state is the old one with the supplied fields overwritten |
| `Playback.Patched` | src/stores/audioStore.ts:49 | `{ ...state, ...updates }`: each field takes the update's value when supplied (its properties are the lemmas `PatchedOverwritesExactlySupplied` and `PatchedCompose`) |
| `Playback.PatchedOverwritesExactlySupplied` | src/stores/audioStore.ts:49 | an empty update changes nothing; for each of the six fields, a supplied value is taken verbatim and an unsupplied one is kept |
| `Playback.PatchedCompose` | src/stores/audioStore.ts:49 | two updates in a row equal their merge, and repeating an update changes nothing more |
| `Playback.AudioStore.Play` | src/stores/audioStore.ts:53-65 | with no element nothing changes; otherwise the element plays and the flags become (playing, not paused) at once |
| `Playback.AudioStore.Pause` | src/stores/audioStore.ts:67-79 | with no element nothing changes; otherwise the element pauses and the flags become (not playing, paused) |
| `Playback.AudioStore.Stop` | src/stores/audioStore.ts:81-95 | with no element nothing changes; otherwise the element pauses and rewinds, both flags clear and the time is 0 |
| `Playback.AudioStore.Seek` | src/stores/audioStore.ts:97-108 | with an element, the element and the state take the time unclamped and nothing else changes |
| `Playback.AudioStore.SetVolume` | src/stores/audioStore.ts:110-121 | with an element, the element and the state take the volume unclamped and nothing else changes |
| `Playback.AudioStore.SetPlaybackRate` | src/stores/audioStore.ts:123-134 | with an element, the element and the state take the rate unclamped and nothing else changes |
| `Playback.AudioStore.SetAudioElement` | src/stores/audioStore.ts:136-138 | the element becomes the bound one |
| `Playback.AudioStore.AddToQueue` | src/stores/audioStore.ts:140-144 | the episode is appended, duplicates allowed |
| `Playback.AudioStore.RemoveFromQueue` | src/stores/audioStore.ts:146-150 | the queue loses every entry with the id and keeps the rest in order |
| `Playback.WithoutEpisode` | src/stores/audioStore.ts:148 | `queue.filter(e => e.id !== episodeId)` (its properties are the lemma `WithoutEpisodeSpec`) |
| `Playback.WithoutEpisodeSpec` | src/stores/audioStore.ts:148 | no entry with the id remains; every other entry keeps its count; a queue without the id is unchanged |
| `Playback.AudioStore.ClearQueue` | src/stores/audioStore.ts:152-154 | the queue is empty |
| `Playback.Partialize` | src/stores/audioStore.ts:158-165 | the saved snapshot is not playing, keeps every other playback field, the episode and the queue, and has no element |
| `Playback.PartializeIdempotent` | src/stores/audioStore.ts:158-165 | saving a restored snapshot again gives the same snapshot |
| `AudioPlayer.Mount` | src/components/player/AudioPlayer.tsx:16-20 | an existing element becomes the store's element |
| `AudioPlayer.LoadCurrentSource` | src/components/player/AudioPlayer.tsx:23-28 | with an element and a current episode, the element's source becomes the episode's audio URL and it is reloaded; otherwise nothing changes |
| `AudioPlayer.LoadedMetadataSetsDuration` | src/components/player/AudioPlayer.tsx:35-39 | loadedmetadata sets the duration and nothing else |
| `AudioPlayer.TimeUpdateMirrorsPosition` | src/components/player/AudioPlayer.tsx:41-44 | timeupdate copies the element's position and nothing else |
| `AudioPlayer.TransportEvents` | src/components/player/AudioPlayer.tsx:52-80 | play gives (playing, not paused); pause gives (not playing, paused); ended clears both flags and rewinds; error clears both flags and keeps time and duration |
| `AudioPlayer.EventsKeepFlagsExclusive` | src/components/player/AudioPlayer.tsx:35-80 | no event makes the state both playing and paused |
| `AudioPlayer.EventPosition` | src/components/player/AudioPlayer.tsx:35-80 | only timeupdate and ended move the position; no event touches volume or rate |
| `AudioPlayer.HandleEvent` | src/components/player/AudioPlayer.tsx:35-80 | the store's state takes the event's update; on timeupdate the preferences take (episode id, time) exactly when a save is due, and are otherwise left alone |
| `AudioPlayer.ProgressToSave` | src/components/player/AudioPlayer.tsx:46-49 | a save happens exactly when an episode is current and floor(time) is a multiple of 5, and it saves that episode's id and the time |
| `AudioPlayer.ShouldPersist` | src/components/player/AudioPlayer.tsx:47 | a position is saved when its whole seconds are a multiple of 5 (its properties are the lemmas `PersistWholeSeconds` and `PersistWindow`) |
| `AudioPlayer.PersistWholeSeconds` | src/components/player/AudioPlayer.tsx:47 | at whole seconds 0 to 20 the position is saved at 0, 5, 10, 15 and 20 only |
| `AudioPlayer.PersistWindow` | src/components/player/AudioPlayer.tsx:47 | within each five-second window, saves happen during its first second only |
| `AudioPlayer.SyncVolumeAndRate` | src/components/player/AudioPlayer.tsx:139-144 | the element's volume and rate equal the store's, and nothing else on it changes |
| `Preferences.UserPreferencesStore.constructor` | src/stores/userPreferencesStore.ts:22-25 | no favourites, no last-played episode, position 0, volume 1 |
| `Preferences.UserPreferencesStore.AddToFavorites` | src/stores/userPreferencesStore.ts:27-31 | the id is appended, so it is a favourite and the list grows by one even when it was already there |
| `Preferences.UserPreferencesStore.RemoveFromFavorites` | src/stores/userPreferencesStore.ts:33-37 | the list loses every copy of the id, so it is no longer a favourite |
| `Preferences.Without` | src/stores/userPreferencesStore.ts:35 | the id is gone after removal |
| `Preferences.WithoutKeepsOthers` | src/stores/userPreferencesStore.ts:35 | every other id keeps its count, and a list without the id is unchanged |
| `Preferences.AddThenRemove` | src/stores/userPreferencesStore.ts:27-37 | adding an id that was not a favourite and removing it restores the list exactly |
| `Preferences.RemoveOtherAfterAdd` | src/stores/userPreferencesStore.ts:27-37 | removing one id commutes with adding a different one |
| `Preferences.UserPreferencesStore.SetLastPlayed` | src/stores/userPreferencesStore.ts:44-49 | both the id and the position are set |
| `Preferences.UserPreferencesStore.SetVolume` | src/stores/userPreferencesStore.ts:51-53 | only the volume changes |
| `Preferences.UserPreferencesStore.ClearLastPlayed` | src/stores/userPreferencesStore.ts:55-60 | the id is cleared and the position is 0 |
| `Preferences.UserPreferencesStore.IsFavorite` | src/stores/userPreferencesStore.ts:39-42 | an id is a favourite when the list contains it (the store methods above state how each action changes it) |
| `Preferences.ToggledFavorites` | src/pages/EpisodePage.tsx:109-115 | after the favourite button, the id is a favourite exactly when it was not before, and no other id's membership changes |
| `Preferences.ToggleTwiceRestores` | src/components/episode/EpisodeCard.tsx:40-47 | pressing the favourite button twice on a non-favourite restores the list |
| `Episodes.FilterEpisodes` | src/stores/episodesStore.ts:45-60 | an all-whitespace query gives the whole list; otherwise the result is exactly the episodes whose lower-cased title or description contains the lower-cased, untrimmed query |
| `Episodes.MatchesQuery` | src/stores/episodesStore.ts:53-57 | an episode matches when its lower-cased title or description includes the lower-cased query (see `JsRuntime.IncludesIffAt`) |
| `Episodes.FilterEpisodesConcat` | src/stores/episodesStore.ts:54-57 | the filtered view keeps the original order |
| `Episodes.SearchExample` | src/stores/episodesStore.ts:53-57 | titles "Intro", "Deep Dive", "Outro" searched for "dee" give only "Deep Dive" |
| `Episodes.FindById` | src/stores/episodesStore.ts:62-65 | the result is the first episode with the id, or none exactly when no episode has it |
| `Episodes.EpisodesStore.constructor` | src/stores/episodesStore.ts:21-25 | no episodes, not loading, no error, empty query, empty view |
| `Episodes.EpisodesStore.SetEpisodes` | src/stores/episodesStore.ts:27-30 | the list is replaced and the view is the filter of the new list by the query |
| `Episodes.EpisodesStore.SetSearchQuery` | src/stores/episodesStore.ts:40-43 | the query is replaced and the view is the filter of the list by the new query |
| `Episodes.EpisodesStore.FilterCurrent` | src/stores/episodesStore.ts:45-60 | the view becomes the filter of the list by the query |
| `Episodes.EpisodesStore.SetLoading` | src/stores/episodesStore.ts:32-34 | only the loading flag changes |
| `Episodes.EpisodesStore.SetError` | src/stores/episodesStore.ts:36-38 | only the error changes |
| `Episodes.EpisodesStore.GetEpisodeById` | src/stores/episodesStore.ts:62-65 | a found episode has the id, is in the list and no earlier episode has the id; none is found exactly when no episode has the id |
| `Navigation.NavigationStore.constructor` | src/stores/navigationStore.ts:14-16 | current '/', previous '/', mini player hidden |
| `Navigation.NavigationStore.SetCurrentRoute` | src/stores/navigationStore.ts:18-24 | the old current route becomes the previous one, the new route becomes current, and visibility is unchanged |
| `Navigation.NavigationStore.SetMiniPlayerVisible` | src/stores/navigationStore.ts:26-28 | only the visibility changes |
| `Navigation.NavigateTwice` | src/stores/navigationStore.ts:18-24 | setting the same route twice leaves both routes equal to it |
| `RssFeed.FeedUrl` | src/hooks/useRSSFeed.ts:4-7 | an absent or empty URL falls back to the built-in feed; any other URL is used as given |
| `RssFeed.RetryDelay` | src/hooks/useRSSFeed.ts:15 | the delay is 1000*2^attempt ms capped at 30000, and never more than 30000 |
| `RssFeed.RetryDelayMonotone` | src/hooks/useRSSFeed.ts:15 | a later attempt never waits less |
| `RssFeed.RetryDelayFirstAttempts` | src/hooks/useRSSFeed.ts:14-15 | the waits are 1000, 2000, 4000, 8000 and 16000 ms for attempts 0 to 4 |
| `RssFeed.RetryDelayCapped` | src/hooks/useRSSFeed.ts:15 | every attempt from 5 on waits 30000 ms |
| `RssFeed.AttemptsFrom` | src/hooks/useRSSFeed.ts:14 | counting from a given failure count, at least one attempt is made; another follows a failure while fewer than three retries were made |
| `RssFeed.WaitFrom` | src/hooks/useRSSFeed.ts:14-15 | each retry waits the retry delay of the failures so far (its properties are the lemma `AllFailing`) |
| `RssFeed.AttemptsBound` | src/hooks/useRSSFeed.ts:14 | whatever fails, a fetch is tried at most four times |
| `RssFeed.AttemptsUntilSuccess` | src/hooks/useRSSFeed.ts:14 | when the first success comes within the retries, the attempts stop right there |
| `RssFeed.AllFailing` | src/hooks/useRSSFeed.ts:14-15 | when every attempt fails, the fetch is tried four times and waits 1000+2000+4000 = 7000 ms in all |
| `EpisodePage.PageEpisode` | src/pages/EpisodePage.tsx:48 | an absent or empty route id names no episode; otherwise the page shows the first episode with that id, and none exactly when no episode has it |
| `Types.IsCurrentEpisodeById` | src/pages/EpisodePage.tsx:49 | the page's episode is current exactly when the current episode has its id, whatever its other fields; the card highlight of `src/components/episode/EpisodeCard.tsx` uses the same test |
| `EpisodePage.OnEpisodeOpened` | src/pages/EpisodePage.tsx:52-63 | with no current episode, the page's episode becomes current, and the saved position is scheduled for a seek when it belongs to this episode and is positive; otherwise nothing changes |
| `EpisodePage.ResumeTarget` | src/pages/EpisodePage.tsx:53-61 | a resume seek is scheduled exactly when the page has an episode, none is current, the last-played id is this episode's and the position is positive; it seeks to that position |
| `EpisodePage.NoResumeWhileAnEpisodeIsCurrent` | src/pages/EpisodePage.tsx:53 | while an episode is current, opening a page schedules no seek |
| `EpisodePage.HandlePlayPause` | src/pages/EpisodePage.tsx:82-92 | the episode becomes current unless it already is; with an element, the store then pauses if it was playing and plays otherwise, and the element's `paused` becomes the old playing flag with its other fields kept; so pressing play on another episode while one plays pauses |
| `EpisodePage.SkipBackTarget` | src/pages/EpisodePage.tsx:99-102 | the target is never below 0 nor below t-10, and is one of the two |
| `EpisodePage.SkipForwardTarget` | src/pages/EpisodePage.tsx:104-107 | the target is never above the duration nor above t+10, and is one of the two |
| `EpisodePage.SkipForwardThenBack` | src/pages/EpisodePage.tsx:99-107 | away from both ends, skipping forward then back returns to the same position |
| `EpisodePage.SkipBackNearStart` | src/pages/EpisodePage.tsx:99-102 | skipping back within the first ten seconds goes to 0 |
| `EpisodePage.HandleSkipBackward` | src/pages/EpisodePage.tsx:99-102 | with an element, the store and the element's position both become the skip-back target and nothing else changes |
| `EpisodePage.HandleSkipForward` | src/pages/EpisodePage.tsx:104-107 | with an element, the store and the element's position both become the skip-forward target and nothing else changes |
| `EpisodePage.HandleSeek` | src/pages/EpisodePage.tsx:94-97 | with an element, the store and the element's position both become the slider position and nothing else changes |
| `EpisodePage.HandleToggleFavorite` | src/pages/EpisodePage.tsx:109-115 | the favourite list is toggled for this episode, so its membership flips |
| `HomePage.GetDisplayEpisodes` | src/pages/HomePage.tsx:71-77 | tab 0 shows the filtered episodes unchanged; tab 1 shows exactly the filtered episodes whose id is a favourite |
| `HomePage.DisplayEpisodesConcat` | src/pages/HomePage.tsx:74 | the favourites tab keeps the list's order |
| `HomePage.DisplayAllFavorites` | src/pages/HomePage.tsx:74 | when every shown episode is a favourite, the favourites tab shows the whole list |
| `HomePage.FavoritesTabLabel` | src/pages/HomePage.tsx:115 | the label is 'Favorites (' followed by a number that `parseInt` reads back as the list's length |
| `HomePage.FavoritesTabLabelCounts` | src/pages/HomePage.tsx:115 | two favourite lists give the same tab label exactly when they are equally long |
| `HomePage.FavoritesTabLabelDuplicate` | src/pages/HomePage.tsx:115 | adding a duplicate favourite still changes the count in the tab label |
| `HomePage.CountLabel` | src/pages/HomePage.tsx:149-151 | the label starts with the number of displayed episodes, which `parseInt` reads back |
| `HomePage.CountLabelPlural` | src/pages/HomePage.tsx:149 | the label says "episodes" exactly when the count is not one |
| `HomePage.EmptyStateTitle` | src/pages/HomePage.tsx:158 | 'No favorite episodes yet' exactly on tab 1, else 'No episodes found' |
| `HomePage.EmptyStateMessage` | src/pages/HomePage.tsx:161-166 | the favourites hint on tab 1; otherwise the search hint when there is a query, else the check-back hint |
| `HomePage.ListAreaOf` | src/pages/HomePage.tsx:136-171 | the list area (hidden, a counted listing, or an empty state) is hidden exactly while loading or showing an error; it lists exactly the episodes to show, labelled with a count `parseInt` reads back, exactly when there are some; otherwise it shows the tab's empty-state title |
| `HomePage.ApplyFeedData` | src/pages/HomePage.tsx:40-45 | new feed data replaces the store's episodes, keeps the view consistent and clears the error; no data changes nothing |
| `HomePage.ApplyLoading` | src/pages/HomePage.tsx:48-50 | the store's loading flag follows the query's |
| `HomePage.ApplyFetchError` | src/pages/HomePage.tsx:53-57 | a query error's message becomes the store's error; no error leaves it |
| `HomePage.HandleSearchChange` | src/pages/HomePage.tsx:59-61 | the typed text becomes the query and the view follows it |
| `EpisodeCard.TruncateText` | src/components/episode/EpisodeCard.tsx:53-56 | a text that fits is unchanged; a longer one becomes its first maxLength characters with only surrounding whitespace removed, then '...', and is at most maxLength+3 long |
| `EpisodeCard.CardDescription` | src/components/episode/EpisodeCard.tsx:128 | the description shown is at most 153 characters and is unchanged when it fits in 150 |
| `EpisodeCard.CardDescriptionExample` | src/components/episode/EpisodeCard.tsx:128 | a 160-letter description shows its first 150 letters and '...' |
| `EpisodeCard.HandlePlayEpisode` | src/components/episode/EpisodeCard.tsx:34-38 | the card's episode becomes current; with an element, the store plays and the element is no longer paused, its other fields kept |
| `EpisodeCard.HandleToggleFavorite` | src/components/episode/EpisodeCard.tsx:40-47 | the favourite list is toggled for this episode, so its membership flips |
| `MiniPlayer.GetVolumeIcon` | src/components/player/MiniPlayer.tsx:57-61 | mute exactly at volume 0, down exactly for a non-zero volume below 0.5, up exactly from 0.5 |
| `MiniPlayer.IsVisible` | src/components/player/MiniPlayer.tsx:34 | the mini player renders exactly when an episode is current |
| `MiniPlayer.MuteTarget` | src/components/player/MiniPlayer.tsx:53-55 | mute sets 0 exactly when the volume is positive, and 1 otherwise |
| `MiniPlayer.MuteTwice` | src/components/player/MiniPlayer.tsx:53-61 | muting twice gives full volume, not the volume before, with the mute icon in between and the high icon after |
| `MiniPlayer.SliderVolume` | src/components/player/MiniPlayer.tsx:48-51 | a slider value in 0..100 gives a volume in 0..1, one hundredth of it |
| `MiniPlayer.SliderIcon` | src/components/player/MiniPlayer.tsx:48-61 | the slider at 0 shows the mute icon, and from 50 up the high icon |
| `MiniPlayer.HandleTogglePlayback` | src/components/player/MiniPlayer.tsx:36-42 | with an element, the store pauses if it was playing and plays otherwise, and the element's `paused` becomes the old playing flag with its other fields kept |
| `MiniPlayer.HandleVolumeChange` | src/components/player/MiniPlayer.tsx:48-51 | with an element, the store's and the element's volume both become the slider value over 100 and nothing else changes |
| `MiniPlayer.HandleVolumeMute` | src/components/player/MiniPlayer.tsx:53-55 | with an element, the store's and the element's volume both become the mute target of the old volume and nothing else changes |

## Left out

- XML parsing and DOM queries are not modelled. The parsed document is given as records: for each tag the parser looks up, the element found, if any, with its text content and attributes. For selector queries, the matching elements are given in document order. Selector matching itself and `querySelector` exceptions are not modelled.
- Channel lookups: `querySelector` and the `getElementsByTagName` fallback search all descendants of the channel, so a channel without its own `<title>`, `<description>` or `<itunes:image>` gets the first item's. The model takes whatever element the lookup returns and does not derive it from the item list. Through the channel image, an item's `<itunes:image>` can so become every episode's backup thumbnail.
- `JsRuntime.ParseInt`: results are exact unbounded integers, not IEEE doubles. There is no precision loss above 2^53, no Infinity for digit runs of about 309 digits or more, and `h*3600+m*60+s` is exact. This affects `RssParser.OptionalNumber` and `RssParser.ParseDuration`.
- `cleanText` (HTML stripping via `innerHTML`) and `new Date(...)` are parameters of the parser (`Env.cleanText`, `Env.dateValue`), not definitions. The wall clock is `Env.now`, and dates are their millisecond values.
- `fetchRSSFeed` is not modelled: network I/O, the non-2xx and empty-body checks, and the rewrapped fetch error message. React Query's caching (`staleTime`, `gcTime`) and the scheduling of retries are not modelled either; only the retry count and delay are.
- `console.log` and `console.error` calls are left out; they are logging only.
- The Zustand `persist` middleware and `localStorage` are left out; only the `partialize` snapshot is modelled.
- The Media Session API, listener registration and removal, and the browser's own playback are not modelled. The audio element is reduced to the fields the client reads and writes. Its `play()` only clears `paused`, and `load()` only counts calls.
- `RssParser.GenerateEpisodeId`: the hash reads UTF-16 code units as `charCodeAt` does. Elsewhere, string lengths and indices are counted in Unicode scalar values, not UTF-16 units. So `EpisodeCard.TruncateText` counts characters outside the Basic Multilingual Plane as one, not two.
- `JsRuntime.ToLowerCase`: folds ASCII letters only, not the full Unicode case mapping.
- JavaScript numbers: playback times, volumes and rates are exact reals, with no NaN, Infinity or rounding. So `Math.max`, `Math.min` and `Math.floor` are exact, and `MiniPlayer.SliderVolume` divides exactly.
- The slider handlers take a single number. The array form of a slider value, whose first element the handlers use, is not modelled.
- `EpisodePage.OnEpisodeOpened`: the one-second `setTimeout` before the resume seek is not modelled. The effect returns the position it schedules.
- React rendering, effect scheduling, routing, theming and list layout are not modelled (`App.tsx`, `main.tsx`, `AppHeader.tsx`, `EpisodeList.tsx`).
- Progress percentages and the formatting of times and dates (`formatDuration`, `formatDate`) are presentation only. The time utilities are not part of this model.
- `src/constants`, which `HomePage.tsx` imports the feed URL from, is not part of this model.
