/**
 * The web service's route parameters and its request handler: the chart kind
 * and the genre list are parsed out of the URL, the chart's entries are
 * reconciled with the catalog by the mode the kind selects, and the playlist
 * is named and filled in chunks.
 */
module Service {
  import opened Wrappers
  import opened Text
  import opened Dedup
  import opened Matching
  import opened Singles
  import opened Popularity
  import opened Albums
  import opened Naming
  import opened Batching

  /** The two `NotImplementedError`s of `parse_kinds`. */
  datatype KindError = MultipleKinds | UnsupportedKind(kind: string)

  /** `parse_kinds`: a single kind, which must be "album" or "track". */
  function ParseKinds(kinds: string): (r: Result<string, KindError>)
    ensures r == Failure(MultipleKinds) <==> ',' in kinds
    ensures r.Success? <==> kinds == "album" || kinds == "track"
    ensures r.Success? ==> r.value == kinds
    ensures r.Failure? && r.error.UnsupportedKind? ==> r.error.kind == kinds
  {
    var parts := Split(kinds, ",");
    SplitSingle(kinds, ",");
    ContainsChar(kinds, ',');
    if |parts| > 1 then Failure(MultipleKinds)
    else if parts[0] != "album" && parts[0] != "track" then Failure(UnsupportedKind(parts[0]))
    else Success(parts[0])
  }

  /** The genre prefix of the route: a leading "g:" is removed once, when present. */
  function StripGenrePrefix(genres: string): (r: string)
    ensures "g:" <= genres ==> genres == "g:" + r
    ensures !("g:" <= genres) ==> r == genres
  {
    if |genres| >= 2 && genres[..2] == "g:" then genres[2..] else genres
  }

  /** `parse_genres`: the prefix-stripped string split at every comma. */
  function ParseGenres(genres: string): seq<string>
  {
    Split(StripGenrePrefix(genres), ",")
  }

  /**
   * The genre list is never empty, no genre holds a comma, and joining the
   * genres with commas gives back the string after its prefix was stripped.
   */
  lemma ParseGenresRoundTrip(genres: string)
    ensures |ParseGenres(genres)| >= 1
    ensures forall g :: g in ParseGenres(genres) ==> ',' !in g
    ensures Join(ParseGenres(genres), ",") == StripGenrePrefix(genres)
  {
    var s := StripGenrePrefix(genres);
    SplitJoin(s, ",");
    SplitPiecesAreFree(s, ",");
    forall g | g in ParseGenres(genres)
      ensures ',' !in g
    {
      ContainsChar(g, ',');
    }
  }

  /** An empty genre string is accepted and gives the list holding one empty genre. */
  lemma EmptyGenresExample()
    ensures ParseGenres("") == [""]
  {
    SplitSingle("", ",");
    ContainsChar("", ',');
  }

  /** The prefix is removed only once: "g:g:rock" gives the one genre "g:rock". */
  lemma DoublePrefixExample()
    ensures ParseGenres("g:g:rock") == ["g:rock"]
  {
    var s := "g:g:rock";
    assert s[..2] == "g:" && s[2..] == "g:rock";
    var t := "g:rock";
    assert t[0] != ',' && t[1] != ',' && t[2] != ',' && t[3] != ',' && t[4] != ',' && t[5] != ',';
    assert ',' !in t;
    ContainsChar(t, ',');
    SplitSingle(t, ",");
  }

  /** A request that is refused, and why. */
  datatype ServiceError = BadKind(reason: KindError) | NoTracksFound | BadYear(cause: NamingError)

  /** What the handler creates: the playlist's text and the track batches handed to the catalog. */
  datatype Playlist = Playlist(text: PlaylistText, batches: seq<seq<string>>)

  /** The URIs the handler collects for a parsed kind: album mode for "album", single mode otherwise. */
  function ChartUris(kind: string, entries: seq<ChartEntry>, search: Search, searchAlbums: Search,
                     tracksOf: TrackLookup, sim: Similarity): seq<string>
  {
    if kind == "album" then Unique(AlbumMatches(entries, searchAlbums, tracksOf, sim, DefaultSizeLimit))
    else Unique(SingleMatches(entries, search, sim))
  }

  /**
   * `rym_chart`, with the scraped chart entries and the catalog as
   * parameters: parse the kind and genres, refuse an empty chart, collect the
   * URIs for the kind, name the playlist, and cut the URIs into batches.
   */
  method RymChart(kinds: string, years: string, genres: string, entries: seq<ChartEntry>,
                  search: Search, searchAlbums: Search, tracksOf: TrackLookup, sim: Similarity)
    returns (r: Result<Playlist, ServiceError>)
    ensures ParseKinds(kinds).Failure? ==> r == Failure(BadKind(ParseKinds(kinds).error))
    ensures ParseKinds(kinds).Success? && entries == [] ==> r == Failure(NoTracksFound)
    ensures ParseKinds(kinds).Success? && entries != [] && years == "" ==> r == Failure(BadYear(EmptyYear))
    ensures r.Success? <==> (kinds == "album" || kinds == "track") && entries != [] && years != ""
    ensures r.Success? ==>
      r.value.text == PlaylistNameAndDescription(years, ParseGenres(genres)).value
      && r.value.batches == Chunks(ChartUris(kinds, entries, search, searchAlbums, tracksOf, sim))
      && Flatten(r.value.batches) == ChartUris(kinds, entries, search, searchAlbums, tracksOf, sim)
  {
    var kind := ParseKinds(kinds);
    if kind.Failure? {
      return Failure(BadKind(kind.error));
    }
    var genreList := ParseGenres(genres);
    if entries == [] {
      return Failure(NoTracksFound);
    }
    var uris;
    if kind.value == "album" {
      uris := GetAlbumTracks(entries, searchAlbums, tracksOf, sim, DefaultSizeLimit);
    } else {
      uris := SearchForSingleUris(entries, search, sim);
    }
    var text := PlaylistNameAndDescription(years, genreList);
    if text.Failure? {
      return Failure(BadYear(text.error));
    }
    var batches := AddTracksInChunks(uris);
    return Success(Playlist(text.value, batches));
  }
}
