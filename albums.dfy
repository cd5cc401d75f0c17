/**
 * `get_album_tracks`: album mode. Each chart entry is searched for as an
 * album; the first acceptable album contributes its most popular tracks; the
 * URIs are collected in chart order and then deduplicated.
 */
module Albums {
  import opened Dedup
  import opened Matching
  import opened Popularity
  import opened Sequences

  /** The catalog's track lookup for an album URI: every track with its popularity, in catalog order. */
  type TrackLookup = string -> seq<TrackDetail>

  /** The number of tracks taken from each album when the caller does not say. */
  const DefaultSizeLimit: nat := 3

  function Uris(details: seq<TrackDetail>): seq<string>
  {
    seq(|details|, i requires 0 <= i < |details| => details[i].uri)
  }

  /**
   * What one chart entry contributes: nothing when no album candidate is
   * acceptable; otherwise the URIs of the first acceptable album's most
   * popular tracks, min(limit, number of tracks) of them.
   */
  function AlbumTracks(entry: ChartEntry, searchAlbums: Search, tracksOf: TrackLookup, sim: Similarity, limit: nat): (r: seq<string>)
    ensures var items := searchAlbums(Query(entry.album, entry.artist));
      (forall k :: 0 <= k < |items| ==> !Accepts(sim, items[k], entry.artist, entry.album)) ==> r == []
    ensures var items := searchAlbums(Query(entry.album, entry.artist));
      forall k :: 0 <= k < |items| && Accepts(sim, items[k], entry.artist, entry.album)
                  && (forall m :: 0 <= m < k ==> !Accepts(sim, items[m], entry.artist, entry.album))
        ==> r == Uris(TopTracks(tracksOf(items[k].uri), limit))
            && |r| == TakeCount(limit, |tracksOf(items[k].uri)|)
  {
    var items := searchAlbums(Query(entry.album, entry.artist));
    match FirstAcceptable(items, entry.artist, entry.album, sim)
    case None => []
    case Some(k) =>
      TopTracksAreMostPopular(tracksOf(items[k].uri), limit);
      Uris(TopTracks(tracksOf(items[k].uri), limit))
  }

  /** `AlbumTracks` as a function of the entry. */
  function AlbumMatcher(searchAlbums: Search, tracksOf: TrackLookup, sim: Similarity, limit: nat): ChartEntry -> seq<string>
  {
    e => AlbumTracks(e, searchAlbums, tracksOf, sim, limit)
  }

  /** The collected track URIs before deduplication, entries in chart order. */
  function AlbumMatches(entries: seq<ChartEntry>, searchAlbums: Search, tracksOf: TrackLookup, sim: Similarity, limit: nat): seq<string>
  {
    FlatMap(entries, AlbumMatcher(searchAlbums, tracksOf, sim, limit))
  }

  /** The raw list is the concatenation, in chart order, of what each run of entries contributes. */
  lemma AlbumMatchesAppend(front: seq<ChartEntry>, back: seq<ChartEntry>, searchAlbums: Search, tracksOf: TrackLookup, sim: Similarity, limit: nat)
    ensures AlbumMatches(front + back, searchAlbums, tracksOf, sim, limit)
         == AlbumMatches(front, searchAlbums, tracksOf, sim, limit) + AlbumMatches(back, searchAlbums, tracksOf, sim, limit)
  {
    FlatMapAppend(front, back, AlbumMatcher(searchAlbums, tracksOf, sim, limit));
  }

  /** A single entry contributes its album's selected tracks. */
  lemma AlbumMatchesOfOne(e: ChartEntry, searchAlbums: Search, tracksOf: TrackLookup, sim: Similarity, limit: nat)
    ensures AlbumMatches([e], searchAlbums, tracksOf, sim, limit) == AlbumTracks(e, searchAlbums, tracksOf, sim, limit)
  {
    FlatMapSingleton(e, AlbumMatcher(searchAlbums, tracksOf, sim, limit));
  }

  /** A URI is collected exactly when some entry's album contributes it. */
  lemma AlbumMatchesProvenance(entries: seq<ChartEntry>, searchAlbums: Search, tracksOf: TrackLookup, sim: Similarity, limit: nat)
    ensures forall u :: u in AlbumMatches(entries, searchAlbums, tracksOf, sim, limit) <==>
              exists i :: 0 <= i < |entries| && u in AlbumTracks(entries[i], searchAlbums, tracksOf, sim, limit)
  {
    var f := AlbumMatcher(searchAlbums, tracksOf, sim, limit);
    FlatMapSound(entries, f);
    forall u, i | 0 <= i < |entries| && u in AlbumTracks(entries[i], searchAlbums, tracksOf, sim, limit)
      ensures u in AlbumMatches(entries, searchAlbums, tracksOf, sim, limit)
    {
      FlatMapComplete(entries, f, i);
    }
  }

  /** `get_album_tracks`. */
  method GetAlbumTracks(entries: seq<ChartEntry>, searchAlbums: Search, tracksOf: TrackLookup, sim: Similarity, sizeLimit: nat)
    returns (uris: seq<string>)
    ensures uris == Unique(AlbumMatches(entries, searchAlbums, tracksOf, sim, sizeLimit))
    ensures Distinct(uris)
    ensures forall u :: u in uris <==> u in AlbumMatches(entries, searchAlbums, tracksOf, sim, sizeLimit)
  {
    var trackUris: seq<string> := [];
    for i := 0 to |entries|
      invariant trackUris == AlbumMatches(entries[..i], searchAlbums, tracksOf, sim, sizeLimit)
    {
      var entry := entries[i];
      var items := searchAlbums(Query(entry.album, entry.artist));
      var album := ScanCandidates(items, entry.artist, entry.album, sim);
      ghost var before := trackUris;
      if album.Some? {
        var trackDetails := tracksOf(items[album.value].uri);
        trackDetails := SortByPopularity(trackDetails);
        var n := if |trackDetails| >= sizeLimit then sizeLimit else |trackDetails|;
        assert Uris(trackDetails)[..n] == Uris(trackDetails[..n]);
        trackUris := trackUris + Uris(trackDetails)[..n];
      }
      assert trackUris == before + AlbumTracks(entry, searchAlbums, tracksOf, sim, sizeLimit);
      assert entries[..i + 1][..i] == entries[..i];
      assert AlbumMatcher(searchAlbums, tracksOf, sim, sizeLimit)(entry) == AlbumTracks(entry, searchAlbums, tracksOf, sim, sizeLimit);
    }
    assert entries[..|entries|] == entries;
    uris := UniqueTracks(trackUris);
    UniqueIsDistinct(trackUris);
    UniqueElements(trackUris);
  }
}
