/**
 * The ranking step of album mode: an album's track details sorted by
 * popularity, highest first, keeping catalog order among equal popularities
 * (Python's `list.sort(key=..., reverse=True)` is stable), and the first
 * `size_limit` of them kept.
 */
module Popularity {

  /** A track as the catalog's track lookup describes it. */
  datatype TrackDetail = TrackDetail(uri: string, popularity: int)

  predicate NonIncreasing(s: seq<TrackDetail>)
  {
    forall i, j :: 0 <= i < j < |s| ==> s[i].popularity >= s[j].popularity
  }

  /** `[x]` when `x` has popularity `p`, otherwise nothing. */
  function IfPopularity(x: TrackDetail, p: int): seq<TrackDetail>
  {
    if x.popularity == p then [x] else []
  }

  /** The tracks of `s` with popularity `p`, in their order in `s`. */
  function WithPopularity(s: seq<TrackDetail>, p: int): seq<TrackDetail>
  {
    if |s| == 0 then [] else IfPopularity(s[0], p) + WithPopularity(s[1..], p)
  }

  lemma NonIncreasingTail(t: seq<TrackDetail>)
    requires |t| > 0 && NonIncreasing(t)
    ensures NonIncreasing(t[1..])
  {
    assert forall i :: 0 <= i < |t| - 1 ==> t[1..][i] == t[i + 1];
  }

  /** Insert `x` before the first element of `t` that is not more popular than it. */
  function Insert(x: TrackDetail, t: seq<TrackDetail>): (r: seq<TrackDetail>)
    ensures |r| == |t| + 1
  {
    if |t| == 0 then [x]
    else if x.popularity >= t[0].popularity then [x] + t
    else [t[0]] + Insert(x, t[1..])
  }

  /** The stable descending sort by popularity. */
  function SortByPopularity(s: seq<TrackDetail>): (r: seq<TrackDetail>)
    ensures |r| == |s|
  {
    if |s| == 0 then [] else Insert(s[0], SortByPopularity(s[1..]))
  }

  lemma {:induction false} InsertPermutes(x: TrackDetail, t: seq<TrackDetail>)
    ensures multiset(Insert(x, t)) == multiset(t) + multiset{x}
    decreases |t|
  {
    if |t| > 0 && x.popularity < t[0].popularity {
      InsertPermutes(x, t[1..]);
      assert t == [t[0]] + t[1..];
    }
  }

  /** The sort is a permutation of its input. */
  lemma {:induction false} SortByPopularityPermutes(s: seq<TrackDetail>)
    ensures multiset(SortByPopularity(s)) == multiset(s)
    decreases |s|
  {
    if |s| > 0 {
      SortByPopularityPermutes(s[1..]);
      InsertPermutes(s[0], SortByPopularity(s[1..]));
      assert s == [s[0]] + s[1..];
    }
  }

  lemma WithPopularityCons(x: TrackDetail, s: seq<TrackDetail>, p: int)
    ensures WithPopularity([x] + s, p) == IfPopularity(x, p) + WithPopularity(s, p)
  {
    assert ([x] + s)[0] == x && ([x] + s)[1..] == s;
  }

  lemma {:induction false} WithPopularityAppend(a: seq<TrackDetail>, b: seq<TrackDetail>, p: int)
    ensures WithPopularity(a + b, p) == WithPopularity(a, p) + WithPopularity(b, p)
    decreases |a|
  {
    if |a| == 0 {
      assert a + b == b;
    } else {
      var t := a[1..];
      assert (a + b)[0] == a[0] && (a + b)[1..] == t + b;
      WithPopularityAppend(t, b, p);
      var x := IfPopularity(a[0], p);
      assert WithPopularity(a + b, p) == x + (WithPopularity(t, p) + WithPopularity(b, p));
      assert x + (WithPopularity(t, p) + WithPopularity(b, p)) == (x + WithPopularity(t, p)) + WithPopularity(b, p);
    }
  }

  lemma ConsSorted(y: TrackDetail, s: seq<TrackDetail>)
    requires NonIncreasing(s) && (|s| > 0 ==> y.popularity >= s[0].popularity)
    ensures NonIncreasing([y] + s)
  {
    assert forall k :: 0 < k < |s| + 1 ==> ([y] + s)[k] == s[k - 1];
  }

  lemma {:induction false} InsertSorted(x: TrackDetail, t: seq<TrackDetail>)
    requires NonIncreasing(t)
    ensures NonIncreasing(Insert(x, t))
    ensures Insert(x, t)[0] == if |t| == 0 || x.popularity >= t[0].popularity then x else t[0]
    decreases |t|
  {
    if |t| == 0 {
    } else if x.popularity >= t[0].popularity {
      ConsSorted(x, t);
    } else {
      NonIncreasingTail(t);
      InsertSorted(x, t[1..]);
      var rest := Insert(x, t[1..]);
      assert |t| > 1 ==> t[0].popularity >= t[1..][0].popularity;
      ConsSorted(t[0], rest);
    }
  }

  /** Equal popularities keep their relative order when one element is inserted at the front of its group. */
  lemma {:induction false} InsertStable(x: TrackDetail, t: seq<TrackDetail>, p: int)
    requires NonIncreasing(t)
    ensures WithPopularity(Insert(x, t), p) == WithPopularity([x] + t, p)
    decreases |t|
  {
    if |t| > 0 && x.popularity < t[0].popularity {
      var t0, t' := t[0], t[1..];
      assert t == [t0] + t';
      NonIncreasingTail(t);
      assert IfPopularity(t0, p) + IfPopularity(x, p) == IfPopularity(x, p) + IfPopularity(t0, p);
      calc {
        WithPopularity(Insert(x, t), p);
        { WithPopularityCons(t0, Insert(x, t'), p); }
        IfPopularity(t0, p) + WithPopularity(Insert(x, t'), p);
        { InsertStable(x, t', p); }
        IfPopularity(t0, p) + WithPopularity([x] + t', p);
        { WithPopularityCons(x, t', p); }
        IfPopularity(t0, p) + (IfPopularity(x, p) + WithPopularity(t', p));
        IfPopularity(x, p) + (IfPopularity(t0, p) + WithPopularity(t', p));
        { WithPopularityCons(t0, t', p); }
        IfPopularity(x, p) + WithPopularity(t, p);
        { WithPopularityCons(x, t, p); }
        WithPopularity([x] + t, p);
      }
    }
  }

  /** The sorted tracks are in non-increasing order of popularity. */
  lemma {:induction false} SortByPopularitySorted(s: seq<TrackDetail>)
    ensures NonIncreasing(SortByPopularity(s))
    decreases |s|
  {
    if |s| > 0 {
      SortByPopularitySorted(s[1..]);
      InsertSorted(s[0], SortByPopularity(s[1..]));
    }
  }

  /** The sort is stable: for every popularity, its tracks keep their catalog order. */
  lemma {:induction false} SortByPopularityStable(s: seq<TrackDetail>, p: int)
    ensures WithPopularity(SortByPopularity(s), p) == WithPopularity(s, p)
    decreases |s|
  {
    if |s| > 0 {
      SortByPopularityStable(s[1..], p);
      SortByPopularitySorted(s[1..]);
      InsertStable(s[0], SortByPopularity(s[1..]), p);
      WithPopularityCons(s[0], SortByPopularity(s[1..]), p);
      assert s == [s[0]] + s[1..];
      WithPopularityCons(s[0], s[1..], p);
    }
  }

  /** How many tracks an accepted album contributes: `size_limit`, or all of them when there are fewer. */
  function TakeCount(limit: nat, n: nat): (k: nat)
    ensures k <= n && k <= limit && (k == n || k == limit)
  {
    if n >= limit then limit else n
  }

  /** The most popular `limit` tracks, most popular first. */
  function TopTracks(details: seq<TrackDetail>, limit: nat): seq<TrackDetail>
  {
    var sorted := SortByPopularity(details);
    sorted[..TakeCount(limit, |sorted|)]
  }

  lemma NonIncreasingPrefix(s: seq<TrackDetail>, n: nat)
    requires NonIncreasing(s) && n <= |s|
    ensures NonIncreasing(s[..n])
  {
    assert forall i :: 0 <= i < n ==> s[..n][i] == s[i];
  }

  /** Splitting a sequence splits its bag: what is left after the prefix is the bag of the suffix. */
  lemma MultisetSplit(s: seq<TrackDetail>, sorted: seq<TrackDetail>, n: nat)
    requires multiset(sorted) == multiset(s) && n <= |sorted|
    ensures multiset(sorted[..n]) <= multiset(s)
    ensures multiset(s) - multiset(sorted[..n]) == multiset(sorted[n..])
  {
    assert sorted == sorted[..n] + sorted[n..];
    assert multiset(sorted) == multiset(sorted[..n]) + multiset(sorted[n..]);
  }

  /**
   * A prefix of a non-increasing rearrangement of `s` is non-increasing, is
   * drawn from `s`, and nothing of `s` outside it is more popular than
   * anything in it.
   */
  lemma SortedPrefixDominates(s: seq<TrackDetail>, sorted: seq<TrackDetail>, n: nat)
    requires multiset(sorted) == multiset(s) && NonIncreasing(sorted) && n <= |sorted|
    ensures NonIncreasing(sorted[..n])
    ensures multiset(sorted[..n]) <= multiset(s)
    ensures forall d, i :: d in multiset(s) - multiset(sorted[..n]) && 0 <= i < n ==> d.popularity <= sorted[..n][i].popularity
  {
    NonIncreasingPrefix(sorted, n);
    MultisetSplit(s, sorted, n);
    SuffixBelowPrefix(sorted, n);
  }

  /** In a non-increasing sequence, nothing after position `n` is more popular than anything before it. */
  lemma SuffixBelowPrefix(sorted: seq<TrackDetail>, n: nat)
    requires NonIncreasing(sorted) && n <= |sorted|
    ensures forall d, i :: d in multiset(sorted[n..]) && 0 <= i < n ==> d.popularity <= sorted[..n][i].popularity
  {
    forall d, i | d in multiset(sorted[n..]) && 0 <= i < n
      ensures d.popularity <= sorted[..n][i].popularity
    {
      var rest := sorted[n..];
      assert d in rest;
      var j :| 0 <= j < |rest| && rest[j] == d;
      assert sorted[n + j] == d && sorted[..n][i] == sorted[i];
    }
  }

  /**
   * The selection holds min(limit, |details|) tracks, in non-increasing
   * popularity, drawn from the album's tracks; and no track left out is more
   * popular than a track kept.
   */
  lemma TopTracksAreMostPopular(details: seq<TrackDetail>, limit: nat)
    ensures |TopTracks(details, limit)| == TakeCount(limit, |details|)
    ensures NonIncreasing(TopTracks(details, limit))
    ensures multiset(TopTracks(details, limit)) <= multiset(details)
    ensures forall d, i :: d in multiset(details) - multiset(TopTracks(details, limit)) && 0 <= i < |TopTracks(details, limit)|
              ==> d.popularity <= TopTracks(details, limit)[i].popularity
  {
    var sorted := SortByPopularity(details);
    SortByPopularitySorted(details);
    SortByPopularityPermutes(details);
    SortedPrefixDominates(details, sorted, TakeCount(limit, |sorted|));
  }

  /** The kept tracks of each popularity are the first ones of that popularity in catalog order. */
  lemma TopTracksKeepCatalogOrder(details: seq<TrackDetail>, limit: nat)
    ensures forall p :: WithPopularity(TopTracks(details, limit), p) <= WithPopularity(details, p)
  {
    var sorted := SortByPopularity(details);
    var n := TakeCount(limit, |sorted|);
    var top := sorted[..n];
    var rest := sorted[n..];
    assert sorted == top + rest;
    forall p
      ensures WithPopularity(top, p) <= WithPopularity(details, p)
    {
      WithPopularityAppend(top, rest, p);
      SortByPopularityStable(details, p);
    }
  }

  /** The example from the design: popularities [10, 50, 30, 90, 20] with a limit of 3 give 90, 50, 30. */
  lemma TopTracksExample()
    ensures var details := [TrackDetail("a", 10), TrackDetail("b", 50), TrackDetail("c", 30),
                            TrackDetail("d", 90), TrackDetail("e", 20)];
            TopTracks(details, 3) == [TrackDetail("d", 90), TrackDetail("b", 50), TrackDetail("c", 30)]
  {
    var a, b, c, d, e := TrackDetail("a", 10), TrackDetail("b", 50), TrackDetail("c", 30),
                         TrackDetail("d", 90), TrackDetail("e", 20);
    var details := [a, b, c, d, e];
    assert details[1..] == [b, c, d, e];
    assert [b, c, d, e][1..] == [c, d, e];
    assert [c, d, e][1..] == [d, e];
    assert [d, e][1..] == [e];
    assert [e][1..] == [];
    assert SortByPopularity([e]) == [e];
    assert SortByPopularity([d, e]) == [d, e];
    assert [d, e][1..] == [e];
    assert Insert(c, [e]) == [c, e];
    assert SortByPopularity([c, d, e]) == [d, c, e];
    assert [d, c, e][1..] == [c, e];
    assert [d, c, e][1..] == [c, e];
    assert Insert(b, [c, e]) == [b, c, e];
    assert SortByPopularity([b, c, d, e]) == [d, b, c, e];
    assert [d, b, c, e][1..] == [b, c, e];
    assert [b, c, e][1..] == [c, e];
    assert [c, e][1..] == [e];
    assert Insert(a, [e]) == [e, a];
    assert Insert(a, [c, e]) == [c, e, a];
    assert Insert(a, [b, c, e]) == [b, c, e, a];
    assert SortByPopularity(details) == [d, b, c, e, a];
  }
}
