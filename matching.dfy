/**
 * The reconciler's decision for one query: scan the catalog's candidates in
 * the catalog's own order and accept the first one whose artist and title are
 * both similar enough to the chart entry's.
 */
module Matching {
  import opened Wrappers

  /**
   * The string-similarity metric (Jaro-Winkler in the system). It is a
   * parameter of the model: nothing about its values is assumed.
   */
  type Similarity = (string, string) -> real

  /** Both similarities must be strictly greater than these. */
  const ArtistThreshold: real := 0.7
  const TitleThreshold: real := 0.7

  /** One chart row: its artist and its `Album` field (an album title, or song titles joined by " / "). */
  datatype ChartEntry = ChartEntry(artist: string, album: string)

  /** One catalog search hit: its URI, the name of its first artist, and its own name. */
  datatype Candidate = Candidate(uri: string, artist: string, name: string)

  /** A catalog search (by track or by album): the candidates for a query, in the catalog's relevance order. */
  type Search = string -> seq<Candidate>

  /** The free-text query sent to the catalog search: "{title} by {artist}". */
  function Query(title: string, artist: string): string
  {
    title + " by " + artist
  }

  /** The acceptance test; the candidate's names come first, as in the metric's calls. */
  predicate Accepts(sim: Similarity, c: Candidate, artist: string, title: string)
  {
    sim(c.artist, artist) > ArtistThreshold && sim(c.name, title) > TitleThreshold
  }

  /**
   * The index of the first acceptable candidate, or None when no candidate
   * clears both thresholds.
   */
  function FirstAcceptable(items: seq<Candidate>, artist: string, title: string, sim: Similarity): (r: Option<nat>)
    ensures r.Some? ==> r.value < |items| && Accepts(sim, items[r.value], artist, title)
    ensures r.Some? ==> forall m :: 0 <= m < r.value ==> !Accepts(sim, items[m], artist, title)
    ensures r.None? <==> forall m :: 0 <= m < |items| ==> !Accepts(sim, items[m], artist, title)
  {
    if |items| == 0 then None
    else if Accepts(sim, items[0], artist, title) then Some(0)
    else
      match FirstAcceptable(items[1..], artist, title, sim)
      case None => None
      case Some(k) => Some(k + 1)
  }

  /** The scan stops at acceptance: candidates after the accepted one do not change the decision. */
  lemma FirstAcceptableIgnoresLater(items: seq<Candidate>, other: seq<Candidate>, artist: string, title: string, sim: Similarity, k: nat)
    requires FirstAcceptable(items, artist, title, sim) == Some(k)
    requires k < |other| && other[..k + 1] == items[..k + 1]
    ensures FirstAcceptable(other, artist, title, sim) == Some(k)
  {
    assert forall m :: 0 <= m <= k ==> other[m] == other[..k + 1][m] == items[m];
    assert Accepts(sim, other[k], artist, title);
    assert forall m :: 0 <= m < k ==> !Accepts(sim, other[m], artist, title);
  }

  /** A candidate whose artist similarity is at most the threshold is never accepted, whatever its title scores. */
  lemma LowArtistSimilarityRejected(items: seq<Candidate>, artist: string, title: string, sim: Similarity, m: nat)
    requires m < |items| && sim(items[m].artist, artist) <= ArtistThreshold
    ensures FirstAcceptable(items, artist, title, sim) != Some(m)
  {
  }

  /**
   * The design's example: with perfect scores for the first candidate it is
   * accepted, whatever the metric says about the misspelt second one.
   */
  lemma ExactFirstCandidateExample(sim: Similarity)
    requires sim("The Beatles", "The Beatles") == 1.0 && sim("Hey Jude", "Hey Jude") == 1.0
    ensures FirstAcceptable([Candidate("u1", "The Beatles", "Hey Jude"), Candidate("u2", "Beetles", "Hey Jewd")],
                            "The Beatles", "Hey Jude", sim) == Some(0)
  {
  }

  /**
   * The scanning loop shared by both modes: candidates are examined in order
   * and the loop breaks at the first one accepted.
   */
  method ScanCandidates(items: seq<Candidate>, artist: string, title: string, sim: Similarity) returns (r: Option<nat>)
    ensures r == FirstAcceptable(items, artist, title, sim)
  {
    r := None;
    var k := 0;
    while k < |items|
      invariant 0 <= k <= |items|
      invariant forall m :: 0 <= m < k ==> !Accepts(sim, items[m], artist, title)
    {
      if Accepts(sim, items[k], artist, title) {
        r := Some(k);
        break;
      }
      k := k + 1;
    }
  }
}
