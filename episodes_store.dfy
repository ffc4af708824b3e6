/**
 * The episodes store: the parsed episodes, loading and error flags, the search query and
 * the filtered view, which every change of the episodes or the query recomputes.
 */
module Episodes {
  import opened Wrappers
  import opened JsRuntime
  import opened Seqs
  import opened Types

  /** Title or description contains the query, both folded to lower case. */
  predicate MatchesQuery(e: Episode, query: string) {
    var q := ToLowerCase(query);
    Includes(ToLowerCase(e.title), q) || Includes(ToLowerCase(e.description), q)
  }

  /** A query with nothing but whitespace in it. */
  predicate IsBlank(query: string) {
    forall i :: 0 <= i < |query| ==> IsWhiteSpace(query[i])
  }

  /**
   * filterEpisodes as a value: the whole list for a blank query, otherwise the episodes
   * that match the untrimmed query, in their original order.
   */
  function FilterEpisodes(episodes: seq<Episode>, query: string): (r: seq<Episode>)
    ensures IsBlank(query) ==> r == episodes
    ensures !IsBlank(query) ==> forall k :: 0 <= k < |r| ==> r[k] in episodes && MatchesQuery(r[k], query)
    ensures !IsBlank(query) ==> forall k :: 0 <= k < |episodes| && MatchesQuery(episodes[k], query) ==> episodes[k] in r
  {
    TrimEmptyIffBlank(query);
    if Trim(query) == "" then episodes
    else Filter(episodes, (e: Episode) => MatchesQuery(e, query))
  }

  /** A blank query filters nothing out. */
  lemma BlankQueryKeepsAll(episodes: seq<Episode>, query: string)
    requires IsBlank(query)
    ensures FilterEpisodes(episodes, query) == episodes
  {
  }

  /** The filtered view keeps the original order: it distributes over concatenation. */
  lemma FilterEpisodesConcat(a: seq<Episode>, b: seq<Episode>, query: string)
    ensures FilterEpisodes(a + b, query) == FilterEpisodes(a, query) + FilterEpisodes(b, query)
  {
    TrimEmptyIffBlank(query);
    if Trim(query) != "" {
      FilterConcat(a, b, (e: Episode) => MatchesQuery(e, query));
    }
  }

  /** `episodes.find(episode => episode.id === id)`: the first episode with that id. */
  function FindById(episodes: seq<Episode>, id: string): (r: Option<Episode>)
    ensures r.Some? ==> r.value.id == id
    ensures r.Some? ==> exists i :: 0 <= i < |episodes| && episodes[i] == r.value &&
                                    forall j :: 0 <= j < i ==> episodes[j].id != id
    ensures r.None? <==> forall i :: 0 <= i < |episodes| ==> episodes[i].id != id
  {
    Find(episodes, (e: Episode) => e.id == id)
  }

  function TitledEpisode(title: string): Episode {
    Episode(id := title, title := title, description := "", audioUrl := "a.mp3",
            duration := Int(0), publishDate := 0, thumbnail := "",
            episodeNumber := None, season := None)
  }

  /** "Intro", "Deep Dive", "Outro" searched for "dee" leave only "Deep Dive". */
  lemma SearchExample()
    ensures FilterEpisodes([TitledEpisode("Intro"), TitledEpisode("Deep Dive"), TitledEpisode("Outro")], "dee")
            == [TitledEpisode("Deep Dive")]
  {
    DeeIsNotBlank();
    DeepDiveMatches();
    IntroMisses();
    OutroMisses();
  }

  lemma DeeIsNotBlank()
    ensures Trim("dee") != "" && !IsBlank("dee")
  {
    var q := "dee";
    assert !IsWhiteSpace(q[0]);
    TrimEmptyIffBlank(q);
  }

  lemma DeepDiveMatches()
    ensures MatchesQuery(TitledEpisode("Deep Dive"), "dee")
  {
    var q := "dee";
    assert ToLowerCase(q) == q;
    assert ToLowerCase("Deep Dive") == "deep dive";
    assert StartsWith("deep dive", q);
  }

  lemma IntroMisses()
    ensures !MatchesQuery(TitledEpisode("Intro"), "dee")
  {
    var q := "dee";
    assert ToLowerCase(q) == q;
    assert ToLowerCase("Intro") == "intro";
    NotIncludes("intro", q);
    NotIncludes("", q);
  }

  lemma OutroMisses()
    ensures !MatchesQuery(TitledEpisode("Outro"), "dee")
  {
    var q := "dee";
    assert ToLowerCase(q) == q;
    assert ToLowerCase("Outro") == "outro";
    NotIncludes("outro", q);
    NotIncludes("", q);
  }

  /** `t` is not in `s` when `s` has no occurrence of `t`'s first character. */
  lemma {:induction false} NotIncludes(s: string, t: string)
    requires t != [] && t[0] !in s
    ensures !Includes(s, t)
  {
    if s != [] {
      NotIncludes(s[1..], t);
    }
  }

  class EpisodesStore {
    var episodes: seq<Episode>
    var isLoading: bool
    var error: Option<string>
    var searchQuery: string
    var filteredEpisodes: seq<Episode>

    /** The filtered view is always the filter of the list by the query. */
    predicate Valid()
      reads this
    {
      filteredEpisodes == FilterEpisodes(episodes, searchQuery)
    }

    constructor ()
      ensures Valid()
      ensures episodes == [] && !isLoading && error == None && searchQuery == "" && filteredEpisodes == []
    {
      episodes := [];
      isLoading := false;
      error := None;
      searchQuery := "";
      filteredEpisodes := [];
      BlankQueryKeepsAll([], "");
    }

    /** setEpisodes: replaces the list and recomputes the view. */
    method SetEpisodes(episodes: seq<Episode>)
      modifies this`episodes, this`filteredEpisodes
      ensures this.episodes == episodes && Valid()
    {
      this.episodes := episodes;
      FilterCurrent();
    }

    /** setLoading. */
    method SetLoading(isLoading: bool)
      modifies this`isLoading
      ensures this.isLoading == isLoading
    {
      this.isLoading := isLoading;
    }

    /** setError. */
    method SetError(error: Option<string>)
      modifies this`error
      ensures this.error == error
    {
      this.error := error;
    }

    /** setSearchQuery: replaces the query and recomputes the view. */
    method SetSearchQuery(searchQuery: string)
      modifies this`searchQuery, this`filteredEpisodes
      ensures this.searchQuery == searchQuery && Valid()
    {
      this.searchQuery := searchQuery;
      FilterCurrent();
    }

    /** filterEpisodes: recomputes the view from the list and the query. */
    method FilterCurrent()
      modifies this`filteredEpisodes
      ensures Valid()
    {
      if Trim(searchQuery) == "" {
        filteredEpisodes := episodes;
        return;
      }
      var rawQuery := searchQuery;
      var query := ToLowerCase(rawQuery);
      filteredEpisodes := Filter(episodes, (e: Episode) =>
        Includes(ToLowerCase(e.title), query) || Includes(ToLowerCase(e.description), query));
      FilterSameLambda(episodes, rawQuery, query);
      TrimEmptyIffBlank(rawQuery);
    }

    /** getEpisodeById. */
    function GetEpisodeById(id: string): (r: Option<Episode>)
      reads this
      ensures r.Some? ==> r.value.id == id && r.value in episodes
      ensures r.Some? ==> exists i :: 0 <= i < |episodes| && episodes[i] == r.value &&
                                      forall j :: 0 <= j < i ==> episodes[j].id != id
      ensures r.None? <==> forall i :: 0 <= i < |episodes| ==> episodes[i].id != id
    {
      FindById(episodes, id)
    }
  }

  lemma FilterSameLambda(episodes: seq<Episode>, searchQuery: string, query: string)
    requires query == ToLowerCase(searchQuery)
    ensures Filter(episodes, (e: Episode) =>
              Includes(ToLowerCase(e.title), query) || Includes(ToLowerCase(e.description), query))
            == Filter(episodes, (e: Episode) => MatchesQuery(e, searchQuery))
  {
    var f := (e: Episode) => Includes(ToLowerCase(e.title), query) || Includes(ToLowerCase(e.description), query);
    var g := (e: Episode) => MatchesQuery(e, searchQuery);
    FilterExtensional(episodes, f, g);
  }
}
