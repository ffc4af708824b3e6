/**
 * The preferences store: favourite episode ids, the last played episode and position, and
 * the preferred volume. Favourites form a list, not a set: adding does not check for a
 * duplicate and removing drops every copy.
 */
module Preferences {
  import opened Wrappers
  import opened Seqs

  /** `ids.filter(id => id !== episodeId)`. */
  function Without(ids: seq<string>, episodeId: string): (r: seq<string>)
    ensures episodeId !in r
  {
    Filter(ids, (id: string) => id != episodeId)
  }

  /** Removing keeps every other id as often as it was there, and in order. */
  lemma WithoutKeepsOthers(ids: seq<string>, episodeId: string, other: string)
    requires other != episodeId
    ensures multiset(Without(ids, episodeId))[other] == multiset(ids)[other]
    ensures Without(ids, episodeId) == ids || episodeId in ids
  {
    var p := (id: string) => id != episodeId;
    FilterCount(ids, p, other);
    if episodeId !in ids {
      FilterKeepsAll(ids, p);
    }
  }

  /** Adding an id that was not a favourite and removing it again restores the list exactly. */
  lemma AddThenRemove(ids: seq<string>, episodeId: string)
    requires episodeId !in ids
    ensures Without(ids + [episodeId], episodeId) == ids
  {
    var p := (id: string) => id != episodeId;
    FilterConcat(ids, [episodeId], p);
    FilterKeepsAll(ids, p);
  }

  /** Removing commutes with appending an unrelated id. */
  lemma RemoveOtherAfterAdd(ids: seq<string>, added: string, removed: string)
    requires added != removed
    ensures Without(ids + [added], removed) == Without(ids, removed) + [added]
  {
    FilterConcat(ids, [added], (id: string) => id != removed);
  }

  /** The favourite button's effect on the list: remove the id if it is a favourite, else add it. */
  function ToggledFavorites(ids: seq<string>, episodeId: string): (r: seq<string>)
    ensures episodeId in r <==> episodeId !in ids
    ensures forall other :: other != episodeId ==> (other in r <==> other in ids)
  {
    if episodeId in ids then Without(ids, episodeId) else ids + [episodeId]
  }

  /** Pressing the button twice on a non-favourite restores the list exactly. */
  lemma ToggleTwiceRestores(ids: seq<string>, episodeId: string)
    requires episodeId !in ids
    ensures ToggledFavorites(ToggledFavorites(ids, episodeId), episodeId) == ids
  {
    AddThenRemove(ids, episodeId);
  }

  class UserPreferencesStore {
    var favoriteEpisodes: seq<string>
    var lastPlayedEpisode: Option<string>
    var lastPlayedPosition: real
    var volume: real

    /** The defaults: no favourites, nothing last played, position 0, volume 1. */
    constructor ()
      ensures favoriteEpisodes == [] && lastPlayedEpisode == None
      ensures lastPlayedPosition == 0.0 && volume == 1.0
    {
      favoriteEpisodes := [];
      lastPlayedEpisode := None;
      lastPlayedPosition := 0.0;
      volume := 1.0;
    }

    /** isFavorite: the id occurs in the list. */
    predicate IsFavorite(episodeId: string)
      reads this
    {
      episodeId in favoriteEpisodes
    }

    /** addToFavorites: appends, even when the id is already there. */
    method AddToFavorites(episodeId: string)
      modifies this`favoriteEpisodes
      ensures favoriteEpisodes == old(favoriteEpisodes) + [episodeId]
      ensures IsFavorite(episodeId) && |favoriteEpisodes| == old(|favoriteEpisodes|) + 1
    {
      favoriteEpisodes := favoriteEpisodes + [episodeId];
    }

    /** removeFromFavorites: drops every occurrence. */
    method RemoveFromFavorites(episodeId: string)
      modifies this`favoriteEpisodes
      ensures favoriteEpisodes == Without(old(favoriteEpisodes), episodeId)
      ensures !IsFavorite(episodeId)
    {
      favoriteEpisodes := Without(favoriteEpisodes, episodeId);
    }

    /** setLastPlayed. */
    method SetLastPlayed(episodeId: string, position: real)
      modifies this`lastPlayedEpisode, this`lastPlayedPosition
      ensures lastPlayedEpisode == Some(episodeId) && lastPlayedPosition == position
    {
      lastPlayedEpisode := Some(episodeId);
      lastPlayedPosition := position;
    }

    /** setVolume: the stored preference only. */
    method SetVolume(volume: real)
      modifies this`volume
      ensures this.volume == volume
    {
      this.volume := volume;
    }

    /** clearLastPlayed. */
    method ClearLastPlayed()
      modifies this`lastPlayedEpisode, this`lastPlayedPosition
      ensures lastPlayedEpisode == None && lastPlayedPosition == 0.0
    {
      lastPlayedEpisode := None;
      lastPlayedPosition := 0.0;
    }
  }
}
