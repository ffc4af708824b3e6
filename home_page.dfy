/**
 * The home page: it pushes the feed query's data, loading flag and error into the episodes
 * store, shows either all filtered episodes or only the favourite ones, and labels the list.
 */
module HomePage {
  import opened Wrappers
  import opened Seqs
  import opened JsRuntime
  import opened Types
  import opened Episodes
  import opened RssParser

  /** Tab index of "Favorites"; every other index shows all episodes. */
  const FavoritesTab: int := 1

  /** getDisplayEpisodes. */
  function GetDisplayEpisodes(tab: int, filtered: seq<Episode>, favorites: seq<string>): (r: seq<Episode>)
    ensures tab != FavoritesTab ==> r == filtered
    ensures tab == FavoritesTab ==> forall k :: 0 <= k < |r| ==> r[k] in filtered && r[k].id in favorites
    ensures tab == FavoritesTab ==> forall k :: 0 <= k < |filtered| && filtered[k].id in favorites ==> filtered[k] in r
  {
    if tab == FavoritesTab then Filter(filtered, (e: Episode) => e.id in favorites) else filtered
  }

  /** The favourites view keeps the list's order: it distributes over concatenation. */
  lemma DisplayEpisodesConcat(tab: int, a: seq<Episode>, b: seq<Episode>, favorites: seq<string>)
    ensures GetDisplayEpisodes(tab, a + b, favorites) == GetDisplayEpisodes(tab, a, favorites) + GetDisplayEpisodes(tab, b, favorites)
  {
    if tab == FavoritesTab {
      FilterConcat(a, b, (e: Episode) => e.id in favorites);
    }
  }

  /** With every shown episode a favourite, the favourites tab shows the whole list. */
  lemma DisplayAllFavorites(filtered: seq<Episode>, favorites: seq<string>)
    requires forall k :: 0 <= k < |filtered| ==> filtered[k].id in favorites
    ensures GetDisplayEpisodes(FavoritesTab, filtered, favorites) == filtered
  {
    FilterKeepsAll(filtered, (e: Episode) => e.id in favorites);
  }

  /** The text of the favourites tab before the count. */
  const FavoritesCaption: string := "Favorites ("

  /** `Favorites (${favoriteEpisodes.length})`: the number after the parenthesis reads back as the count. */
  function FavoritesTabLabel(favorites: seq<string>): (caption: string)
    ensures |caption| > |FavoritesCaption| && caption[..|FavoritesCaption|] == FavoritesCaption
    ensures ParseInt(caption[|FavoritesCaption|..]) == Int(|favorites|)
  {
    CountAfterPrefix(FavoritesCaption, |favorites|, ")");
    FavoritesCaption + Decimal(|favorites|) + ")"
  }

  /** A decimal number between a prefix and a suffix that starts with a non-digit reads back. */
  lemma CountAfterPrefix(prefix: string, n: nat, rest: string)
    requires rest == [] || !IsDecimalDigit(rest[0])
    ensures |prefix + Decimal(n) + rest| > |prefix|
    ensures (prefix + Decimal(n) + rest)[..|prefix|] == prefix
    ensures ParseInt((prefix + Decimal(n) + rest)[|prefix|..]) == Int(n)
  {
    assert (prefix + Decimal(n) + rest)[|prefix|..] == Decimal(n) + rest;
    ParseIntLeadingDecimal(n, rest);
  }

  /**
   * The label tells the list's length exactly, duplicates and ids missing from the feed
   * included: two lists share a label only if they are equally long.
   */
  lemma FavoritesTabLabelCounts(a: seq<string>, b: seq<string>)
    ensures FavoritesTabLabel(a) == FavoritesTabLabel(b) <==> |a| == |b|
  {
    var p := FavoritesCaption;
    if FavoritesTabLabel(a) == FavoritesTabLabel(b) {
      var da, db := Decimal(|a|), Decimal(|b|);
      assert |da| == |db| by {
        assert |p + da + ")"| == |p + db + ")"|;
      }
      assert da == (p + da + ")")[|p|..|p| + |da|];
      assert db == (p + db + ")")[|p|..|p| + |db|];
      DecimalInjective(|a|, |b|);
    }
  }

  /** Adding a favourite that is already there still raises the count. */
  lemma FavoritesTabLabelDuplicate(favorites: seq<string>, id: string)
    ensures FavoritesTabLabel(favorites + [id]) != FavoritesTabLabel(favorites)
  {
    FavoritesTabLabelCounts(favorites + [id], favorites);
  }

  /** The line above the list: the count, then the rest of the sentence. */
  function CountLabel(count: nat, searchQuery: string, tab: int): (r: string)
    ensures ParseInt(r) == Int(count)
  {
    var rest := CountLabelRest(count, searchQuery, tab);
    ParseIntLeadingDecimal(count, rest);
    Decimal(count) + rest
  }

  /** After the count: the noun, plural unless the count is one, the query if any, the tab note. */
  function CountLabelRest(count: nat, searchQuery: string, tab: int): (r: string)
    ensures r != [] && r[0] == ' '
  {
    var noun := if count != 1 then " episodes" else " episode";
    var matching := if searchQuery != "" then " matching \"" + searchQuery + "\"" else "";
    var inFavorites := if tab == FavoritesTab then " in favorites" else "";
    assert (noun + matching + inFavorites)[0] == noun[0];
    noun + matching + inFavorites
  }

  /** The label says "episodes" exactly when the count is not one. */
  lemma CountLabelPlural(count: nat, searchQuery: string, tab: int)
    ensures StartsWith(CountLabel(count, searchQuery, tab), Decimal(count) + " episodes") <==> count != 1
  {
    var d := Decimal(count);
    var rest := CountLabelRest(count, searchQuery, tab);
    var plural := " episodes";
    PluralRest(count, searchQuery, tab);
    if StartsWith(d + rest, d + plural) {
      assert rest[..|plural|] == (d + rest)[|d|..|d| + |plural|];
    }
    if StartsWith(rest, plural) {
      assert (d + rest)[..|d| + |plural|] == d + rest[..|plural|];
    }
  }

  lemma PluralRest(count: nat, searchQuery: string, tab: int)
    ensures StartsWith(CountLabelRest(count, searchQuery, tab), " episodes") <==> count != 1
  {
    var rest := CountLabelRest(count, searchQuery, tab);
    var singular := " episode";
    if count == 1 {
      var after := rest[|singular|..];
      assert rest == singular + after;
      assert after == [] || after[0] == ' ';
    } else {
      assert rest[..9] == " episodes";
    }
  }

  /** The heading shown when the list is empty. */
  function EmptyStateTitle(tab: int): (r: string)
    ensures r == "No favorite episodes yet" <==> tab == FavoritesTab
    ensures r == "No episodes found" <==> tab != FavoritesTab
  {
    if tab == FavoritesTab then "No favorite episodes yet" else "No episodes found"
  }

  /** The hint under the empty-state heading. */
  function EmptyStateMessage(tab: int, searchQuery: string): (r: string)
    ensures tab == FavoritesTab ==> r == "Start adding episodes to your favorites by clicking the heart icon."
    ensures tab != FavoritesTab && searchQuery != "" ==> r == "Try adjusting your search terms."
    ensures tab != FavoritesTab && searchQuery == "" ==> r == "Check back later for new episodes."
  {
    if tab == FavoritesTab then "Start adding episodes to your favorites by clicking the heart icon."
    else if searchQuery != "" then "Try adjusting your search terms."
    else "Check back later for new episodes."
  }

  /** What the page shows below the tabs. */
  datatype ListArea =
    | Hidden
    | Listing(countLabel: string, episodes: seq<Episode>)
    | EmptyState(title: string, message: string)

  /** An error message is shown when it is a non-empty string. */
  predicate ShowsError(storeError: Option<string>) {
    storeError.Some? && storeError.value != ""
  }

  /** The list area: hidden while loading or showing an error, else the list or the empty state. */
  function ListAreaOf(isLoading: bool, storeError: Option<string>, display: seq<Episode>,
                      searchQuery: string, tab: int): (r: ListArea)
    ensures r.Hidden? <==> isLoading || ShowsError(storeError)
    ensures r.Listing? <==> !isLoading && !ShowsError(storeError) && display != []
    ensures r.Listing? ==> r.episodes == display && ParseInt(r.countLabel) == Int(|display|)
    ensures r.EmptyState? ==> r.title == EmptyStateTitle(tab)
  {
    if isLoading || ShowsError(storeError) then Hidden
    else if display != [] then Listing(CountLabel(|display|, searchQuery, tab), display)
    else EmptyState(EmptyStateTitle(tab), EmptyStateMessage(tab, searchQuery))
  }

  /** Feed effect: new data replaces the store's episodes and clears the error. */
  method ApplyFeedData(store: EpisodesStore, data: Option<RSSChannel>)
    requires store.Valid()
    modifies store`episodes, store`filteredEpisodes, store`error
    ensures store.Valid()
    ensures data.Some? ==> store.episodes == data.value.episodes && store.error == None
    ensures data.None? ==> store.episodes == old(store.episodes) && store.error == old(store.error)
  {
    if data.Some? {
      store.SetEpisodes(data.value.episodes);
      store.SetError(None);
    }
  }

  /** Loading effect: the store mirrors the query's loading flag. */
  method ApplyLoading(store: EpisodesStore, isLoading: bool)
    modifies store`isLoading
    ensures store.isLoading == isLoading
  {
    store.SetLoading(isLoading);
  }

  /** Error effect: a failed query's message becomes the store's error; no error leaves it. */
  method ApplyFetchError(store: EpisodesStore, error: Option<string>)
    modifies store`error
    ensures error.Some? ==> store.error == error
    ensures error.None? ==> store.error == old(store.error)
  {
    if error.Some? {
      store.SetError(error);
    }
  }

  /** Search box: the query becomes the store's and the filtered view follows it. */
  method HandleSearchChange(store: EpisodesStore, value: string)
    modifies store`searchQuery, store`filteredEpisodes
    ensures store.searchQuery == value
    ensures store.filteredEpisodes == FilterEpisodes(store.episodes, value)
  {
    store.SetSearchQuery(value);
  }
}
