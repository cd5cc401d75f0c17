/**
 * The few Python `str` operations the reconciliation core relies on:
 * `split` and `join` with an explicit separator, `replace` of one character,
 * and an ASCII model of `lower` and `title`.
 */
module Text {
  import opened Wrappers

  /** `sep` occurs in `s` starting at index `i`. */
  predicate OccursAt(s: string, sep: string, i: nat)
  {
    i + |sep| <= |s| && s[i..i + |sep|] == sep
  }

  /** Python's `sep in s`. */
  predicate Contains(s: string, sep: string)
  {
    exists i: nat | i <= |s| :: OccursAt(s, sep, i)
  }

  /** The leftmost occurrence of `sep` in `s` at or after `start`, as `str.find` does. */
  function FindFrom(s: string, sep: string, start: nat): (r: Option<nat>)
    requires |sep| > 0
    ensures r.Some? ==> start <= r.value && OccursAt(s, sep, r.value)
    ensures r.Some? ==> forall j :: start <= j < r.value ==> !OccursAt(s, sep, j)
    ensures r.None? ==> forall j: nat :: start <= j ==> !OccursAt(s, sep, j)
    decreases |s| - start
  {
    if start + |sep| > |s| then None
    else if OccursAt(s, sep, start) then Some(start)
    else FindFrom(s, sep, start + 1)
  }

  /**
   * Python's `s.split(sep)` for a non-empty separator: cut at every
   * non-overlapping occurrence, scanning from the left.
   */
  function Split(s: string, sep: string): (r: seq<string>)
    requires |sep| > 0
    ensures |r| >= 1
    decreases |s|
  {
    match FindFrom(s, sep, 0)
    case None => [s]
    case Some(i) => [s[..i]] + Split(s[i + |sep|..], sep)
  }

  /** Python's `sep.join(parts)`. */
  function Join(parts: seq<string>, sep: string): string
  {
    if |parts| == 0 then ""
    else if |parts| == 1 then parts[0]
    else parts[0] + sep + Join(parts[1..], sep)
  }

  /** Python's `s.replace(from, to)` for single characters. */
  function ReplaceChar(s: string, from: char, to: char): string
  {
    seq(|s|, i requires 0 <= i < |s| => if s[i] == from then to else s[i])
  }

  predicate IsUpper(c: char) { 'A' <= c <= 'Z' }

  predicate IsLower(c: char) { 'a' <= c <= 'z' }

  /** A cased character in the ASCII model of `str.title` and `str.lower`. */
  predicate IsLetter(c: char) { IsUpper(c) || IsLower(c) }

  function LowerChar(c: char): char
  {
    if IsUpper(c) then (c as int - 'A' as int + 'a' as int) as char else c
  }

  function UpperChar(c: char): char
  {
    if IsLower(c) then (c as int - 'a' as int + 'A' as int) as char else c
  }

  /** Python's `s.lower()`, on ASCII letters. */
  function Lower(s: string): string
  {
    seq(|s|, i requires 0 <= i < |s| => LowerChar(s[i]))
  }

  /**
   * Python's `s.title()`, on ASCII letters: a letter that follows a letter is
   * lower-cased, any other letter is upper-cased, and every other character
   * (digits included) is kept and starts a new word.
   */
  function Title(s: string): string
  {
    seq(|s|, i requires 0 <= i < |s| =>
      if i > 0 && IsLetter(s[i - 1]) then LowerChar(s[i]) else UpperChar(s[i]))
  }

  lemma FindFromIsLeftmost(s: string, sep: string, start: nat, i: nat)
    requires |sep| > 0
    requires start <= i && OccursAt(s, sep, i)
    requires forall j :: start <= j < i ==> !OccursAt(s, sep, j)
    ensures FindFrom(s, sep, start) == Some(i)
  {
  }

  /** Joining the pieces of a split with the same separator gives back the string. */
  lemma {:induction false} SplitJoin(s: string, sep: string)
    requires |sep| > 0
    ensures Join(Split(s, sep), sep) == s
    decreases |s|
  {
    match FindFrom(s, sep, 0)
    case None =>
    case Some(i) =>
      var rest := s[i + |sep|..];
      var parts := Split(s, sep);
      SplitJoin(rest, sep);
      assert parts == [s[..i]] + Split(rest, sep);
      assert parts[1..] == Split(rest, sep);
      assert Join(parts, sep) == s[..i] + sep + rest;
      assert s[i..i + |sep|] == sep;
      assert s == s[..i] + s[i..i + |sep|] + rest;
  }

  /** No piece of a split contains the separator. */
  lemma {:induction false} SplitPiecesAreFree(s: string, sep: string)
    requires |sep| > 0
    ensures forall p :: p in Split(s, sep) ==> !Contains(p, sep)
    decreases |s|
  {
    match FindFrom(s, sep, 0)
    case None =>
      assert Split(s, sep) == [s];
    case Some(i) =>
      var rest := s[i + |sep|..];
      SplitPiecesAreFree(rest, sep);
      var head := s[..i];
      forall j: nat | OccursAt(head, sep, j)
        ensures false
      {
        assert head[j..j + |sep|] == s[j..j + |sep|];
        assert OccursAt(s, sep, j);
      }
      assert Split(s, sep) == [head] + Split(rest, sep);
  }

  /** A split yields one piece exactly when the separator does not occur, and that piece is the whole string. */
  lemma SplitSingle(s: string, sep: string)
    requires |sep| > 0
    ensures |Split(s, sep)| == 1 <==> !Contains(s, sep)
    ensures !Contains(s, sep) ==> Split(s, sep) == [s]
  {
    match FindFrom(s, sep, 0)
    case None =>
    case Some(i) =>
      assert |Split(s[i + |sep|..], sep)| >= 1;
  }

  /** For a one-character separator, containment is membership. */
  lemma ContainsChar(s: string, c: char)
    ensures Contains(s, [c]) <==> c in s
  {
    if c in s {
      var i :| 0 <= i < |s| && s[i] == c;
      assert OccursAt(s, [c], i);
    }
    if Contains(s, [c]) {
      var i: nat :| i <= |s| && OccursAt(s, [c], i);
      assert s[i] == s[i..i + 1][0];
    }
  }

  lemma JoinCons(p: string, ps: seq<string>, sep: string)
    requires |ps| > 0
    ensures Join([p] + ps, sep) == p + sep + Join(ps, sep)
  {
    assert ([p] + ps)[1..] == ps;
  }

  /** Joining with one more part at the end appends the separator and that part. */
  lemma {:induction false} JoinSnoc(ps: seq<string>, q: string, sep: string)
    requires |ps| > 0
    ensures Join(ps + [q], sep) == Join(ps, sep) + sep + q
    decreases |ps|
  {
    if |ps| == 1 {
      assert ps + [q] == [ps[0], q];
      assert [ps[0], q][1..] == [q];
    } else {
      var p, rest := ps[0], ps[1..];
      assert ps + [q] == [p] + (rest + [q]);
      JoinCons(p, rest + [q], sep);
      JoinSnoc(rest, q, sep);
      var j := Join(rest, sep);
      assert p + sep + (j + sep + q) == p + sep + j + sep + q;
    }
  }

  lemma JoinConsNested(a: string, b: string, c: string, later: seq<string>, sep: string)
    requires |later| > 0
    ensures Join([a] + ([b] + ([c] + later)), sep) == a + sep + (b + sep + (c + sep + Join(later, sep)))
  {
    JoinCons(a, [b] + ([c] + later), sep);
    JoinCons(b, [c] + later, sep);
    JoinCons(c, later, sep);
  }

  lemma RegroupThree(a: string, b: string, c: string, r: string, sep: string)
    ensures a + sep + (b + sep + (c + sep + r)) == a + sep + b + sep + c + sep + r
  {
  }

  /** Three leading parts come out in front, each followed by the separator. */
  lemma JoinConsThree(a: string, b: string, c: string, later: seq<string>, sep: string)
    requires |later| > 0
    ensures Join([a, b, c] + later, sep) == a + sep + b + sep + c + sep + Join(later, sep)
  {
    assert [a, b, c] + later == [a] + ([b] + ([c] + later));
    JoinConsNested(a, b, c, later, sep);
    RegroupThree(a, b, c, Join(later, sep), sep);
  }
}
