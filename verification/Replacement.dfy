/**
 `strings.Count` and `strings.Replace` as the edit tool uses them, and what they mean:
 the text falls into pieces around the occurrences that a left-to-right scan finds.
 */
module Replacement {

  predicate OccursAt(s: string, pattern: string, i: nat) {
    i <= |s| && pattern <= s[i..]
  }

  /** `strings.Index`; the length of the text stands for -1. */
  function Index(s: string, pattern: string): (i: nat)
    requires pattern != ""
    ensures i <= |s| && (i < |s| ==> OccursAt(s, pattern, i))
  {
    if s == "" || pattern <= s then 0
    else
      var i := Index(s[1..], pattern);
      assert s[1 + i..] == s[1..][i..];
      1 + i
  }

  lemma {:induction false} IndexIsFirst(s: string, pattern: string, j: nat)
    requires pattern != "" && OccursAt(s, pattern, j)
    ensures Index(s, pattern) <= j
  {
    if j > 0 && !(pattern <= s) {
      assert s[1..][j - 1..] == s[j..];
      IndexIsFirst(s[1..], pattern, j - 1);
    }
  }

  predicate Occurs(s: string, pattern: string)
    requires pattern != ""
  {
    Index(s, pattern) < |s|
  }

  function Before(s: string, pattern: string): string
    requires pattern != ""
  {
    s[..Index(s, pattern)]
  }

  function After(s: string, pattern: string): (rest: string)
    requires pattern != "" && Occurs(s, pattern)
    ensures |rest| < |s| && s == Before(s, pattern) + pattern + rest
  {
    s[Index(s, pattern)..][|pattern|..]
  }

  function Count(s: string, pattern: string): nat
    requires pattern != ""
    decreases |s|
  {
    if Occurs(s, pattern) then 1 + Count(After(s, pattern), pattern) else 0
  }

  /** Replaces the first `n` occurrences. */
  function Replace(s: string, pattern: string, with: string, n: nat): string
    requires pattern != ""
  {
    if n > 0 && Occurs(s, pattern) then
      Before(s, pattern) + with + Replace(After(s, pattern), pattern, with, n - 1)
    else s
  }

  function Interleave(pieces: seq<string>, separator: string): string
    requires pieces != []
  {
    if |pieces| == 1 then pieces[0] else pieces[0] + separator + Interleave(pieces[1..], separator)
  }

  /** The text around the first `n` occurrences. */
  function Pieces(s: string, pattern: string, n: nat): (pieces: seq<string>)
    requires pattern != ""
    ensures pieces != []
  {
    if n > 0 && Occurs(s, pattern) then [Before(s, pattern)] + Pieces(After(s, pattern), pattern, n - 1) else [s]
  }

  lemma InterleaveCons(piece: string, pieces: seq<string>, separator: string)
    requires pieces != []
    ensures Interleave([piece] + pieces, separator) == piece + separator + Interleave(pieces, separator)
  {
    assert ([piece] + pieces)[1..] == pieces;
  }

  /**
   The pieces joined by the pattern are the text, joined by the new string they are the
   replaced text, and there is one more piece than there are replacements.
   */
  lemma {:induction false} ReplaceMeaning(s: string, pattern: string, with: string, n: nat)
    requires pattern != "" && n <= Count(s, pattern)
    ensures Interleave(Pieces(s, pattern, n), pattern) == s
    ensures Interleave(Pieces(s, pattern, n), with) == Replace(s, pattern, with, n)
    ensures |Pieces(s, pattern, n)| == n + 1
    decreases n
  {
    hide Occurs, Before, After;
    if n > 0 {
      var rest := After(s, pattern);
      ReplaceMeaning(rest, pattern, with, n - 1);
      InterleaveCons(Before(s, pattern), Pieces(rest, pattern, n - 1), pattern);
      InterleaveCons(Before(s, pattern), Pieces(rest, pattern, n - 1), with);
    }
  }

  lemma FreeBeforeFirst(s: string, pattern: string, i: nat)
    requires pattern != ""
    ensures !OccursAt(Before(s, pattern), pattern, i)
  {
    var before := Before(s, pattern);
    if OccursAt(before, pattern, i) {
      assert before[i..] <= s[i..];
      IndexIsFirst(s, pattern, i);
    }
  }

  /** After all counted occurrences are taken out, no piece contains the pattern any more. */
  lemma {:induction false} PiecesAreFree(s: string, pattern: string, piece: string, i: nat)
    requires pattern != "" && piece in Pieces(s, pattern, Count(s, pattern))
    ensures !OccursAt(piece, pattern, i)
    decreases |s|
  {
    hide After, OccursAt, Occurs, Pieces, Count, Before;
    FreeBeforeFirst(s, pattern, i);
    CountedPieces(s, pattern);
    if Occurs(s, pattern) {
      var rest := After(s, pattern);
      if piece in Pieces(rest, pattern, Count(rest, pattern)) {
        PiecesAreFree(rest, pattern, piece, i);
      }
    }
  }

  lemma CountedPieces(s: string, pattern: string)
    requires pattern != ""
    ensures Pieces(s, pattern, Count(s, pattern)) ==
            [Before(s, pattern)] +
            if Occurs(s, pattern) then Pieces(After(s, pattern), pattern, Count(After(s, pattern), pattern)) else []
  {
    if !Occurs(s, pattern) {
      assert Before(s, pattern) == s;
    }
    hide After;
  }

  ghost predicate Appears(s: string, pattern: string) {
    exists i: nat :: OccursAt(s, pattern, i)
  }

  lemma CountsNoneExactly(s: string, pattern: string)
    requires pattern != ""
    ensures Count(s, pattern) == 0 <==> !Appears(s, pattern)
  {
    forall i: nat | OccursAt(s, pattern, i) ensures Occurs(s, pattern) {
      IndexIsFirst(s, pattern, i);
    }
  }

  /** The text has an occurrence, and every further one overlaps it. */
  ghost predicate OneSeparateOccurrence(s: string, pattern: string) {
    exists i: nat :: OccursAt(s, pattern, i) && forall j: nat :: OccursAt(s, pattern, j) ==> i <= j < i + |pattern|
  }

  lemma DropTwice(s: string, a: nat, b: nat)
    requires a + b <= |s|
    ensures s[a..][b..] == s[a + b..]
  {
  }

  lemma OccursInRest(s: string, pattern: string, cut: nat, j: nat)
    requires cut <= |s| && cut <= j
    ensures OccursAt(s, pattern, j) <==> OccursAt(s[cut..], pattern, j - cut)
  {
    if j <= |s| {
      DropTwice(s, cut, j - cut);
    }
  }

  lemma AfterIsRest(s: string, pattern: string)
    requires pattern != "" && Occurs(s, pattern)
    ensures Index(s, pattern) + |pattern| <= |s| && After(s, pattern) == s[Index(s, pattern) + |pattern|..]
  {
    DropTwice(s, Index(s, pattern), |pattern|);
  }

  /** The occurrences behind the first one and clear of it are those of the rest. */
  lemma OccursBehind(s: string, pattern: string, j: nat)
    requires pattern != "" && Occurs(s, pattern) && Index(s, pattern) + |pattern| <= j
    ensures OccursAt(s, pattern, j) <==> OccursAt(After(s, pattern), pattern, j - Index(s, pattern) - |pattern|)
  {
    hide Index, Occurs, After, OccursAt;
    AfterIsRest(s, pattern);
    OccursInRest(s, pattern, Index(s, pattern) + |pattern|, j);
  }

  /** A count of one means one occurrence up to overlaps, not one occurrence. */
  lemma CountsOneExactly(s: string, pattern: string)
    requires pattern != ""
    ensures Count(s, pattern) == 1 <==> OneSeparateOccurrence(s, pattern)
  {
    var i := Index(s, pattern);
    forall j: nat | OccursAt(s, pattern, j) ensures i <= j && j < |s| {
      IndexIsFirst(s, pattern, j);
    }
    if Occurs(s, pattern) {
      var k := Index(After(s, pattern), pattern);
      OccursBehind(s, pattern, i + |pattern| + k);
      forall j: nat | i + |pattern| <= j && OccursAt(s, pattern, j) ensures Occurs(After(s, pattern), pattern) {
        OccursBehind(s, pattern, j);
        IndexIsFirst(After(s, pattern), pattern, j - i - |pattern|);
      }
    }
    hide OccursAt, After;
  }

  /** In "aaa" the string "aa" occurs twice and counts as unique. */
  lemma OverlapCountsOnce()
    ensures OccursAt("aaa", "aa", 0) && OccursAt("aaa", "aa", 1)
    ensures Count("aaa", "aa") == 1 && Replace("aaa", "aa", "b", 1) == "ba"
  {
    assert Index("aaa", "aa") == 0;
    assert After("aaa", "aa") == "a";
    assert Index("a", "aa") == 1;
  }
}
