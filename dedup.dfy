/**
 * `unique_tracks`: order-preserving removal of duplicate track URIs with a
 * seen-set.
 */
module Dedup {

  /** No element occurs twice. */
  predicate Distinct(s: seq<string>)
  {
    forall i, j :: 0 <= i < j < |s| ==> s[i] != s[j]
  }

  /** The input with every element after its first occurrence dropped, built left to right. */
  function Unique(s: seq<string>): seq<string>
    decreases |s|
  {
    if |s| == 0 then []
    else
      var prefix := Unique(s[..|s| - 1]);
      if s[|s| - 1] in prefix then prefix else prefix + [s[|s| - 1]]
  }

  /** The index of the first occurrence of `x` in `s`. */
  function FirstIndex(s: seq<string>, x: string): (r: nat)
    requires x in s
    ensures r < |s| && s[r] == x && x !in s[..r]
  {
    if s[0] == x then 0
    else
      var k := FirstIndex(s[1..], x);
      assert s[..k + 1] == [s[0]] + s[1..][..k];
      k + 1
  }

  lemma FirstIndexIsFirst(s: seq<string>, k: nat)
    requires k < |s| && s[k] !in s[..k]
    ensures FirstIndex(s, s[k]) == k
  {
    var r := FirstIndex(s, s[k]);
    assert forall m :: 0 <= m < k ==> s[m] != s[k];
    assert forall m :: 0 <= m < r ==> s[m] != s[k];
  }

  lemma FirstIndexOfPrefix(s: seq<string>, n: nat, x: string)
    requires n <= |s| && x in s[..n]
    ensures FirstIndex(s[..n], x) == FirstIndex(s, x)
  {
    var k := FirstIndex(s[..n], x);
    assert s[..n][..k] == s[..k];
    FirstIndexIsFirst(s, k);
  }

  /** The output holds exactly the elements of the input. */
  lemma {:induction false} UniqueElements(s: seq<string>)
    ensures forall x :: x in Unique(s) <==> x in s
    decreases |s|
  {
    if |s| > 0 {
      var init := s[..|s| - 1];
      UniqueElements(init);
      assert s == init + [s[|s| - 1]];
    }
  }

  /** The output has no duplicates. */
  lemma {:induction false} UniqueIsDistinct(s: seq<string>)
    ensures Distinct(Unique(s))
    decreases |s|
  {
    if |s| > 0 {
      UniqueIsDistinct(s[..|s| - 1]);
    }
  }

  /** The output is never longer than the input. */
  lemma {:induction false} UniqueLength(s: seq<string>)
    ensures |Unique(s)| <= |s|
    decreases |s|
  {
    if |s| > 0 {
      UniqueLength(s[..|s| - 1]);
    }
  }

  /** A sequence without duplicates is returned unchanged. */
  lemma {:induction false} UniqueOfDistinct(s: seq<string>)
    requires Distinct(s)
    ensures Unique(s) == s
    decreases |s|
  {
    if |s| > 0 {
      var init := s[..|s| - 1];
      UniqueOfDistinct(init);
      assert s[|s| - 1] !in init;
      assert s == init + [s[|s| - 1]];
    }
  }

  /** Deduplicating twice is the same as deduplicating once. */
  lemma UniqueIdempotent(s: seq<string>)
    ensures Unique(Unique(s)) == Unique(s)
  {
    UniqueIsDistinct(s);
    UniqueOfDistinct(Unique(s));
  }

  /** The output lists the elements in the order of their first occurrence in the input. */
  lemma {:induction false} UniqueFirstOccurrenceOrder(s: seq<string>)
    ensures forall x :: x in Unique(s) <==> x in s
    ensures forall i, j :: 0 <= i < j < |Unique(s)| ==>
              FirstIndex(s, Unique(s)[i]) < FirstIndex(s, Unique(s)[j])
    decreases |s|
  {
    UniqueElements(s);
    if |s| > 0 {
      var n := |s| - 1;
      var init := s[..n];
      var u := Unique(init);
      UniqueFirstOccurrenceOrder(init);
      UniqueElements(init);
      forall i, j | 0 <= i < j < |Unique(s)|
        ensures FirstIndex(s, Unique(s)[i]) < FirstIndex(s, Unique(s)[j])
      {
        assert i < |u| && Unique(s)[i] == u[i] && u[i] in u;
        assert u[i] in init;
        FirstIndexOfPrefix(s, n, u[i]);
        if j < |u| {
          assert Unique(s)[j] == u[j] && u[j] in u;
          FirstIndexOfPrefix(s, n, u[j]);
        } else {
          assert Unique(s)[j] == s[n] && s[n] !in u;
          assert s[n] !in s[..n];
          FirstIndexIsFirst(s, n);
        }
      }
    }
  }

  /** `unique_tracks`: filter the input through a seen-set. */
  method UniqueTracks(tracks: seq<string>) returns (r: seq<string>)
    ensures r == Unique(tracks)
  {
    var seen: set := {};
    r := [];
    for i := 0 to |tracks|
      invariant r == Unique(tracks[..i])
      invariant forall x :: x in seen <==> x in r
    {
      assert tracks[..i + 1][..i] == tracks[..i];
      if tracks[i] !in seen {
        seen := seen + {tracks[i]};
        r := r + [tracks[i]];
      }
    }
    assert tracks[..|tracks|] == tracks;
  }

  /** The example from the design: `[a, b, a, c, b]` deduplicates to `[a, b, c]`. */
  lemma UniqueExample()
    ensures Unique(["a", "b", "a", "c", "b"]) == ["a", "b", "c"]
  {
    assert ["a", "b", "a", "c", "b"][..4] == ["a", "b", "a", "c"];
    assert ["a", "b", "a", "c"][..3] == ["a", "b", "a"];
    assert ["a", "b", "a"][..2] == ["a", "b"];
    assert ["a", "b"][..1] == ["a"];
    assert ["a"][..0] == [];
  }
}
