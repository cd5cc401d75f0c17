# top-tracks, modelled in Dafny

top-tracks turns a Rate Your Music chart into a Spotify playlist. It reads the
chart's rows (artist plus an `Album` field), reconciles each row with the
Spotify catalog by fuzzy name matching, collects the matched track URIs in
chart order and removes duplicates. It then names the playlist after the chart
and adds the tracks in batches of at most 100.

There are two reconciliation modes:

- **Single mode.** The `Album` field is split on `" / "` into song titles. Each
  title is searched as a track, and the first hit whose artist and name both
  score above 0.7 is taken.
- **Album mode.** The entry is searched as an album. The first acceptable album
  contributes its `size_limit` most popular tracks (3 by default).

The web service parses the chart kind and the genre list out of the request
path and dispatches to one of the two modes.

The model has one module per concern:

| file | module | models |
|---|---|---|
| `wrappers.dfy` | `Wrappers` | `Option` and `Result` |
| `text.dfy` | `Text` | what the core uses of Python `str` |
| `dedup.dfy` | `Dedup` | `unique_tracks` |
| `matching.dfy` | `Matching` | records, the search query, the acceptance test and the scan with `break` |
| `sequences.dfy` | `Sequences` | in-order collection (`FlatMap`), the shape of the `append`/`extend` loops |
| `singles.dfy` | `Singles` | `search_for_single_uris` |
| `popularity.dfy` | `Popularity` | the stable descending sort and the top-N slice |
| `albums.dfy` | `Albums` | `get_album_tracks` |
| `naming.dfy` | `Naming` | `create_playlist_name_and_description` |
| `batching.dfy` | `Batching` | the 100-URI chunks and their in-order submission |
| `service.dfy` | `Service` | `parse_kinds`, `parse_genres` and the `rym_chart` handler's control flow |

In `Text`, the Python `str` operations are `split` and `join` with a separator,
`in`, single-character `replace`, and ASCII `lower` and `title`.

The code that changes state step by step is written as methods with loops. Each
method is proved equal to a specification function, and the properties are
proved about that function:

- `unique_tracks`, with its `seen` set
- the nested search loops with early `break`
- the chunk submission loop

The string and list building is written as functions.

The catalog and the metric are parameters of the model:

- Spotify search is `Search = string -> seq<Candidate>`.
- The album track lookup is `TrackLookup = string -> seq<TrackDetail>`.
- The Jaro-Winkler metric is `Similarity = (string, string) -> real`.

Nothing is assumed about their values, so every property holds for every
catalog and every metric.

## Model

| member | source | states |
|---|---|---|
| Dedup.UniqueTracks | top_tracks/rym.py:87-88 | The loop with its `seen` set returns exactly `Unique(tracks)`, the order-preserving deduplication. |
| Dedup.UniqueElements | top_tracks/rym.py:74-88 | Deduplication keeps exactly the tracks that occur in the input: nothing is lost and nothing is added. |
| Dedup.UniqueIsDistinct | top_tracks/rym.py:74-88 | No URI occurs twice in the result. |
| Dedup.UniqueLength | top_tracks/rym.py:74-88 | The result is never longer than the input. |
| Dedup.UniqueOfDistinct | top_tracks/rym.py:74-88 | A list that is already duplicate-free comes back unchanged. |
| Dedup.UniqueIdempotent | top_tracks/rym.py:74-88 | Deduplicating twice is the same as deduplicating once. |
| Dedup.UniqueFirstOccurrenceOrder | top_tracks/rym.py:74-88 | The kept tracks appear in the order of their first occurrences in the input. |
| Dedup.UniqueExample | top_tracks/rym.py:74-88 | `["a","b","a","c","b"]` deduplicates to `["a","b","c"]`. |
| Matching.FirstAcceptable | top_tracks/rym.py:113-122 | The chosen candidate clears both thresholds and no earlier one does. The result is None exactly when no candidate clears both. |
| Matching.ScanCandidates | top_tracks/rym.py:113-122 | The loop that breaks at the first candidate with artist and title similarity both above 0.7 returns exactly `FirstAcceptable`. |
| Matching.FirstAcceptableIgnoresLater | top_tracks/rym.py:120-122 | Once a candidate is accepted, the candidates after it cannot change the decision. |
| Matching.LowArtistSimilarityRejected | top_tracks/rym.py:116-120 | A candidate whose artist similarity is at most 0.7 is never chosen, whatever its title scores. |
| Matching.ExactFirstCandidateExample | top_tracks/rym.py:113-122 | When the first candidate scores 1.0 on both names, it is chosen over a misspelt second candidate. |
| Singles.Titles | top_tracks/rym.py:106 | An `Album` field splits into at least one title. Joining the titles with `" / "` gives the field back, and no title contains `" / "`. |
| Singles.TitleMatch | top_tracks/rym.py:111-122 | One title contributes at most one URI. It contributes none exactly when no candidate is acceptable, and otherwise the URI of the first acceptable candidate. |
| Singles.EntryMatches | top_tracks/rym.py:106-122 | An entry contributes at most as many URIs as it has titles. |
| Singles.EntryUris | top_tracks/rym.py:106-122 | The inner loop over one entry's titles collects exactly `EntryMatches`. |
| Singles.SingleMatchesAppend | top_tracks/rym.py:105-122 | The raw URI list for a run of entries is the concatenation, in chart order, of the lists for its parts. |
| Singles.SingleMatchesOfOne | top_tracks/rym.py:106-122 | One entry contributes its titles' matches in title order. |
| Singles.EntryMatchesProvenance | top_tracks/rym.py:108-121 | A URI comes from an entry exactly when one of the entry's titles matches it. |
| Singles.SingleMatchesProvenance | top_tracks/rym.py:105-121 | A URI is in the raw list exactly when some title of some entry has it as its first acceptable candidate. |
| Singles.SearchForSingleUris | top_tracks/rym.py:91-124 | Returns `Unique` of the raw list. The result has no duplicates and holds exactly the URIs of the raw list. |
| Popularity.SortByPopularityPermutes | top_tracks/rym.py:207 | The sort is a permutation of the album's track details. |
| Popularity.SortByPopularitySorted | top_tracks/rym.py:207 | The sorted details are in non-increasing popularity. |
| Popularity.SortByPopularityStable | top_tracks/rym.py:207 | For every popularity value, the tracks with that popularity keep their catalog order, as with Python's stable `sort(reverse=True)`. |
| Popularity.TakeCount | top_tracks/rym.py:210 | The slice length is at most `size_limit` and at most the number of tracks, and it equals one of the two. |
| Popularity.TopTracksAreMostPopular | top_tracks/rym.py:205-210 | The kept tracks number `min(size_limit, tracks)`. They are in non-increasing popularity and are a sub-bag of the album. No track left out is more popular than any kept one. |
| Popularity.TopTracksKeepCatalogOrder | top_tracks/rym.py:207-210 | For each popularity, the kept tracks are the first ones of that popularity in catalog order. |
| Popularity.TopTracksExample | top_tracks/rym.py:207-210 | Popularities `[10,50,30,90,20]` with a limit of 3 keep the tracks with 90, 50 and 30, in that order. |
| Albums.AlbumTracks | top_tracks/rym.py:190-210 | An entry with no acceptable album contributes nothing. Otherwise it contributes the URIs of the first acceptable album's top tracks, `min(size_limit, tracks)` of them. |
| Albums.AlbumMatchesAppend | top_tracks/rym.py:187-210 | The raw URI list for a run of entries is the concatenation, in chart order, of the lists for its parts. |
| Albums.AlbumMatchesOfOne | top_tracks/rym.py:190-210 | One entry contributes exactly `AlbumTracks`. |
| Albums.AlbumMatchesProvenance | top_tracks/rym.py:187-210 | A URI is in the raw list exactly when some entry's `AlbumTracks` holds it. |
| Albums.GetAlbumTracks | top_tracks/rym.py:169-212 | Returns `Unique` of the raw list. The result has no duplicates and holds exactly the URIs of the raw list. |
| Naming.LabelAndPreposition | top_tracks/rym.py:142-148 | Only the empty year fails. `"all-time"` shows as "All Time" with "of". Any other year ending in `s` shows as "the {year}" with "from". Any other year shows as given, with "of" only when it is literally "All Time". |
| Naming.NameText | top_tracks/rym.py:150-155 | The name is "RYM Top", then the genres (or "Tracks" when there are none), the preposition and the displayed year, separated by single spaces. |
| Naming.DescriptionText | top_tracks/rym.py:156-166 | The description is the seven parts separated by single spaces. The genre part is lower-cased, or empty when there are no genres. |
| Naming.NoGenresDoubleSpace | top_tracks/rym.py:141-166 | With no genres the description starts "The top  tracks ", with two spaces. |
| Naming.DisplayGenresHaveNoHyphens | top_tracks/rym.py:139-140 | No displayed genre contains a hyphen. |
| Naming.DisplayNewWave | top_tracks/rym.py:139-140 | "new-wave" is displayed as "New Wave". |
| Naming.DecadeDisplay | top_tracks/rym.py:142-148 | "1960s" is displayed as "the 1960s", after "from". |
| Naming.AllTimeWithoutGenresExample | top_tracks/rym.py:139-166 | "all-time" with no genres is named "RYM Top Tracks of All Time". |
| Naming.DecadeWithGenreExample | top_tracks/rym.py:139-166 | "1960s" with the genre "new-wave" is named "RYM Top New Wave from the 1960s". |
| Batching.Chunks | top_tracks/rym.py:241 | There are ceil(n/100) chunks, and none only when there are no URIs. Every chunk holds 1 to 100 URIs, and every chunk but the last holds exactly 100. |
| Batching.ChunksFlatten | top_tracks/rym.py:241 | Concatenating the chunks gives back the URI list, so every URI is submitted once and in order. |
| Batching.ChunksExample | top_tracks/rym.py:241 | 250 URIs give chunks of 100, 100 and 50. |
| Batching.AddTracksInChunks | top_tracks/rym.py:240-247 | The submitted batches are exactly the chunks, in chunk order. Their concatenation is the URI list, and each batch holds at most 100 URIs. |
| Service.ParseKinds | top_tracks/service.py:11-20 | Fails with "multiple kinds" exactly when the input contains a comma. Succeeds exactly when the input is "album" or "track", and then returns the input unchanged. Any other single token is reported as unsupported. |
| Service.StripGenrePrefix | top_tracks/service.py:24-25 | A leading "g:" is removed once. A string without it is left unchanged. |
| Service.ParseGenresRoundTrip | top_tracks/service.py:23-27 | The genre list is never empty and no genre contains a comma. Joining the genres with "," reproduces the prefix-stripped string. |
| Service.EmptyGenresExample | top_tracks/service.py:27 | The empty genre string parses to `[""]`. |
| Service.DoublePrefixExample | top_tracks/service.py:24-27 | "g:g:rock" parses to `["g:rock"]`, so the prefix is removed only once. |
| Service.RymChart | top_tracks/service.py:31-52 | Results by case: a malformed kind fails with the kind error; an empty chart gives "no tracks found"; an empty year fails. Otherwise the playlist gets the text from `PlaylistNameAndDescription`, and its batches are the chunks of the album-mode URIs for "album" or the single-mode URIs otherwise. |
| Text.FindFrom | top_tracks/rym.py:106 | Finds the leftmost occurrence of the separator at or after the start, or reports that there is none. |
| Text.SplitJoin | top_tracks/rym.py:106 | `sep.join(s.split(sep)) == s` for a non-empty separator. |
| Text.SplitPiecesAreFree | top_tracks/rym.py:106 | No piece of a split contains the separator. |
| Text.SplitSingle | top_tracks/service.py:12-14 | A split yields a single piece exactly when the separator does not occur, and that piece is the whole string. |

## Left out

- `get_chart_entries` (top_tracks/rym.py:41-71): browser-driven scraping of the chart. The chart's rows are an input sequence of `ChartEntry`.
- `get_args`, logging and the `tqdm` progress bars: command-line parsing and console output.
- `main` (top_tracks/rym.py:252-277): command-line glue with the same dispatch that `Service.RymChart` models.
- The Flask route machinery, the JSON body and the access token: web framework and authentication.
- All Spotify calls:
  - `search`, `album_tracks` and `tracks` are the parameters `search`, `searchAlbums` and `tracksOf`.
  - `album_tracks` and `tracks` are composed into one lookup from an album URI to its track details.
  - `current_user`, `user_playlist_create` and the URL in the result are not modelled; the network and its failures are outside the core.
  - `user_playlist_add_tracks` is modelled only as the sequence of batches it receives.
- `jaro.jaro_winkler_metric`: a foreign floating-point library, kept abstract as the parameter `sim`.
- `Text.Lower`, `Text.Title`: ASCII only. Python's `str.lower` and `str.title` follow Unicode case rules, which are not modelled.
- `Popularity.SortByPopularity`: the in-place `list.sort` (top_tracks/rym.py:207) is modelled on values, as a stable insertion sort. Aliasing of the list is not modelled.
- `Albums.GetAlbumTracks`: `size_limit` is a `nat`. Python's `x[:n]` with a negative `n` drops elements from the end instead, and that case is not modelled.
- `Matching.Candidate`: the candidate's artist is the first listed artist (`item['artists'][0]`). A hit with no artists, which raises `IndexError` in Python, is not modelled.
- `Batching.AddTracksInChunks`: `list(spotify_uris)` is the identity here, because the URIs arrive as a list. A caller passing a set, whose iteration order Python leaves open, is not modelled.
- `top-tracks/rym.py` (the prototype script) is not part of this model.

Where the design description and the code differ, the model follows the code:

- With no genres, the description has two spaces between "The top" and "tracks" (`Naming.NoGenresDoubleSpace`). The design's example shows one.
- A year spelled literally "All Time" also takes the preposition "of" (`Naming.LabelAndPreposition`).
- `parse_genres` accepts empty genre tokens, e.g. `""` gives `[""]` (`Service.EmptyGenresExample`). The design says such input is rejected.
- A title split from an `Album` field can be empty (`" / "` gives two empty titles). The design calls the titles non-empty.
- An empty year raises `IndexError` at `display_year[-1]`. The model returns `Failure(EmptyYear)`.
