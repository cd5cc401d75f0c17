/**
 * `search_for_single_uris`: single mode. Every chart entry's `Album` field
 * is split into song titles; each title is searched for and reconciled on its
 * own; the accepted URIs are collected in chart order and then deduplicated.
 */
module Singles {
  import opened Text
  import opened Dedup
  import opened Matching
  import opened Sequences

  /** The delimiter that packs several song titles into one `Album` field. */
  const TitleSeparator: string := " / "

  /** The song titles of one chart entry, in field order. */
  function Titles(entry: ChartEntry): (r: seq<string>)
    ensures |r| >= 1
    ensures Join(r, TitleSeparator) == entry.album
    ensures forall t :: t in r ==> !Contains(t, TitleSeparator)
  {
    SplitJoin(entry.album, TitleSeparator);
    SplitPiecesAreFree(entry.album, TitleSeparator);
    Split(entry.album, TitleSeparator)
  }

  /**
   * What one (entry, title) pair contributes: nothing when no candidate is
   * acceptable, otherwise exactly the URI of the first acceptable candidate.
   */
  function TitleMatch(artist: string, title: string, search: Search, sim: Similarity): (r: seq<string>)
    ensures |r| <= 1
    ensures var items := search(Query(title, artist));
      r == [] <==> forall k :: 0 <= k < |items| ==> !Accepts(sim, items[k], artist, title)
    ensures var items := search(Query(title, artist));
      r != [] ==> exists k :: 0 <= k < |items| && r[0] == items[k].uri && Accepts(sim, items[k], artist, title)
                   && forall m :: 0 <= m < k ==> !Accepts(sim, items[m], artist, title)
  {
    var items := search(Query(title, artist));
    match FirstAcceptable(items, artist, title, sim)
    case None => []
    case Some(k) => [items[k].uri]
  }

  /** `TitleMatch` for one artist, as a function of the title. */
  function TitleMatcher(artist: string, search: Search, sim: Similarity): string -> seq<string>
  {
    t => TitleMatch(artist, t, search, sim)
  }

  /** The contributions of one chart entry, in title order. */
  function EntryMatches(entry: ChartEntry, search: Search, sim: Similarity): (r: seq<string>)
    ensures |r| <= |Titles(entry)|
  {
    FlatMapAtMostOneEach(Titles(entry), TitleMatcher(entry.artist, search, sim));
    FlatMap(Titles(entry), TitleMatcher(entry.artist, search, sim))
  }

  /** `EntryMatches` as a function of the entry. */
  function EntryMatcher(search: Search, sim: Similarity): ChartEntry -> seq<string>
  {
    e => EntryMatches(e, search, sim)
  }

  /** The accepted URIs before deduplication: entries in chart order, titles in split order. */
  function SingleMatches(entries: seq<ChartEntry>, search: Search, sim: Similarity): seq<string>
  {
    FlatMap(entries, EntryMatcher(search, sim))
  }

  /** The raw list is the concatenation, in chart order, of what each run of entries contributes. */
  lemma SingleMatchesAppend(front: seq<ChartEntry>, back: seq<ChartEntry>, search: Search, sim: Similarity)
    ensures SingleMatches(front + back, search, sim) == SingleMatches(front, search, sim) + SingleMatches(back, search, sim)
  {
    FlatMapAppend(front, back, EntryMatcher(search, sim));
  }

  /** A single entry contributes its titles' matches, in title order. */
  lemma SingleMatchesOfOne(e: ChartEntry, search: Search, sim: Similarity)
    ensures SingleMatches([e], search, sim) == FlatMap(Titles(e), TitleMatcher(e.artist, search, sim))
  {
    FlatMapSingleton(e, EntryMatcher(search, sim));
    assert EntryMatcher(search, sim)(e) == EntryMatches(e, search, sim);
  }

  /** A URI comes from one chart entry exactly when one of its titles contributes it. */
  lemma EntryMatchesProvenance(e: ChartEntry, search: Search, sim: Similarity)
    ensures forall u :: u in EntryMatches(e, search, sim) <==>
              exists j :: 0 <= j < |Titles(e)| && TitleMatch(e.artist, Titles(e)[j], search, sim) == [u]
  {
    var titles := Titles(e);
    var g := TitleMatcher(e.artist, search, sim);
    assert EntryMatches(e, search, sim) == FlatMap(titles, g);
    FlatMapSound(titles, g);
    forall u | u in FlatMap(titles, g)
      ensures exists j :: 0 <= j < |titles| && TitleMatch(e.artist, titles[j], search, sim) == [u]
    {
      var j :| 0 <= j < |titles| && u in g(titles[j]);
      assert g(titles[j]) == TitleMatch(e.artist, titles[j], search, sim);
    }
    forall u, j | 0 <= j < |titles| && TitleMatch(e.artist, titles[j], search, sim) == [u]
      ensures u in FlatMap(titles, g)
    {
      FlatMapComplete(titles, g, j);
      assert g(titles[j]) == [u];
    }
  }

  /**
   * A URI is in the raw list exactly when some title of some entry
   * contributes it, as its first acceptable candidate.
   */
  lemma SingleMatchesProvenance(entries: seq<ChartEntry>, search: Search, sim: Similarity)
    ensures forall u :: u in SingleMatches(entries, search, sim) <==>
              exists i, j :: 0 <= i < |entries| && 0 <= j < |Titles(entries[i])|
                && TitleMatch(entries[i].artist, Titles(entries[i])[j], search, sim) == [u]
  {
    var f := EntryMatcher(search, sim);
    FlatMapSound(entries, f);
    forall u | u in SingleMatches(entries, search, sim)
      ensures exists i, j :: 0 <= i < |entries| && 0 <= j < |Titles(entries[i])|
                && TitleMatch(entries[i].artist, Titles(entries[i])[j], search, sim) == [u]
    {
      var i :| 0 <= i < |entries| && u in f(entries[i]);
      EntryMatchesProvenance(entries[i], search, sim);
    }
    forall u, i, j | 0 <= i < |entries| && 0 <= j < |Titles(entries[i])|
                && TitleMatch(entries[i].artist, Titles(entries[i])[j], search, sim) == [u]
      ensures u in SingleMatches(entries, search, sim)
    {
      EntryMatchesProvenance(entries[i], search, sim);
      assert u in f(entries[i]);
      FlatMapComplete(entries, f, i);
    }
  }

  /** The inner loop of `search_for_single_uris`: the URIs one chart entry's titles contribute. */
  method EntryUris(entry: ChartEntry, search: Search, sim: Similarity) returns (found: seq<string>)
    ensures found == EntryMatches(entry, search, sim)
  {
    var songs := Split(entry.album, TitleSeparator);
    assert songs == Titles(entry);
    var g := TitleMatcher(entry.artist, search, sim);
    found := [];
    for j := 0 to |songs|
      invariant found == FlatMap(songs[..j], g)
    {
      var song := songs[j];
      var items := search(Query(song, entry.artist));
      var hit := ScanCandidates(items, entry.artist, song, sim);
      if hit.Some? {
        found := found + [items[hit.value].uri];
      }
      assert g(song) == TitleMatch(entry.artist, song, search, sim);
      assert songs[..j + 1][..j] == songs[..j];
    }
    assert songs[..|songs|] == songs;
  }

  /** `search_for_single_uris`. */
  method SearchForSingleUris(entries: seq<ChartEntry>, search: Search, sim: Similarity) returns (uris: seq<string>)
    ensures uris == Unique(SingleMatches(entries, search, sim))
    ensures Distinct(uris)
    ensures forall u :: u in uris <==> u in SingleMatches(entries, search, sim)
  {
    var spotifyUris: seq<string> := [];
    for i := 0 to |entries|
      invariant spotifyUris == SingleMatches(entries[..i], search, sim)
    {
      var entry := entries[i];
      var found := EntryUris(entry, search, sim);
      spotifyUris := spotifyUris + found;
      assert entries[..i + 1][..i] == entries[..i];
      assert EntryMatcher(search, sim)(entry) == EntryMatches(entry, search, sim);
    }
    assert entries[..|entries|] == entries;
    uris := UniqueTracks(spotifyUris);
    UniqueIsDistinct(spotifyUris);
    UniqueElements(spotifyUris);
  }
}
