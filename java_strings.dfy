/**
 * Java's `String.split` for a one-character separator that is not a regular
 * expression metacharacter (the server splits CSV lines on ","):
 *  - a string that does not contain the separator splits into itself, so
 *    "" splits into [""];
 *  - otherwise the string is cut at every separator and trailing empty
 *    pieces are dropped, so "a,,b,," splits into ["a", "", "b"] and ","
 *    splits into the empty array.
 */
module JavaStrings {

  /** Position of the first `c` in `s`, or `|s|` when there is none. */
  function IndexOf(s: string, c: char): (i: nat)
    ensures i <= |s|
    ensures i < |s| ==> s[i] == c
  {
    if |s| == 0 then 0
    else if s[0] == c then 0
    else 1 + IndexOf(s[1..], c)
  }

  /** `IndexOf` finds the first occurrence: no `c` stands before it. */
  lemma {:induction false} IndexOfIsFirst(s: string, c: char)
    ensures forall j :: 0 <= j < IndexOf(s, c) ==> s[j] != c
    ensures IndexOf(s, c) == |s| <==> c !in s
  {
    if |s| > 0 && s[0] != c {
      IndexOfIsFirst(s[1..], c);
      assert forall j :: 1 <= j < |s| ==> s[j] == s[1..][j - 1];
    }
  }

  /** Searching past a stretch without `c` adds its length to the position found. */
  lemma {:induction false} IndexOfSkip(a: string, b: string, c: char)
    requires c !in a
    ensures IndexOf(a + b, c) == |a| + IndexOf(b, c)
    decreases |a|
  {
    if |a| > 0 {
      assert (a + b)[0] == a[0];
      assert (a + b)[1..] == a[1..] + b;
      IndexOfSkip(a[1..], b, c);
    } else {
      assert a + b == b;
    }
  }

  /** The text before the first `c`, or all of `s` when it has none. */
  function Before(s: string, c: char): (r: string)
    ensures c !in r
    ensures r <= s
    ensures |r| < |s| ==> s[|r|] == c
  {
    IndexOfIsFirst(s, c);
    s[..IndexOf(s, c)]
  }

  /** All pieces of `s` between separators, trailing empty pieces included. */
  function Pieces(s: string, sep: char): (r: seq<string>)
    ensures |r| >= 1
    decreases |s|
  {
    var i := IndexOf(s, sep);
    if i == |s| then [s] else [s[..i]] + Pieces(s[i + 1..], sep)
  }

  /** Glues pieces back together with `sep` between neighbours. */
  function Join(parts: seq<string>, sep: char): string
    requires |parts| >= 1
  {
    if |parts| == 1 then parts[0] else parts[0] + [sep] + Join(parts[1..], sep)
  }

  lemma CutAt(s: string, i: nat)
    requires i < |s|
    ensures s == s[..i] + [s[i]] + s[i + 1..]
  {
  }

  /** Cutting at every separator loses nothing: joining the pieces restores the string. */
  lemma {:induction false} JoinPieces(s: string, sep: char)
    ensures Join(Pieces(s, sep), sep) == s
    decreases |s|
  {
    var i := IndexOf(s, sep);
    if i < |s| {
      var rest := s[i + 1..];
      JoinPieces(rest, sep);
      var ps := Pieces(s, sep);
      assert ps[0] == s[..i] && ps[1..] == Pieces(rest, sep);
      CutAt(s, i);
    }
  }

  /** The list without its run of trailing empty strings. */
  function DropTrailingEmpty(parts: seq<string>): (r: seq<string>)
    ensures r <= parts
    ensures r == [] || r[|r| - 1] != ""
    ensures forall k :: |r| <= k < |parts| ==> parts[k] == ""
  {
    if |parts| > 0 && parts[|parts| - 1] == "" then DropTrailingEmpty(parts[..|parts| - 1])
    else parts
  }

  /** `s.split(String.valueOf(sep))` in Java. */
  function Split(s: string, sep: char): seq<string>
  {
    if sep !in s then [s] else DropTrailingEmpty(Pieces(s, sep))
  }

  /**
   * What `split` keeps: a prefix of the pieces, dropping only empty ones,
   * and, when a separator was present, never ending in an empty piece.
   */
  lemma SplitKeepsLeadingPieces(s: string, sep: char)
    ensures Split(s, sep) <= Pieces(s, sep)
    ensures forall k :: |Split(s, sep)| <= k < |Pieces(s, sep)| ==> Pieces(s, sep)[k] == ""
    ensures sep in s && Split(s, sep) != [] ==> Split(s, sep)[|Split(s, sep)| - 1] != ""
    ensures sep !in s ==> Split(s, sep) == [s]
  {
    if sep !in s {
      assert IndexOf(s, sep) == |s|;
    }
  }

  /** The first element of a non-empty split is the text before the first separator. */
  lemma SplitFirst(s: string, sep: char)
    requires Split(s, sep) != []
    ensures Split(s, sep)[0] == Before(s, sep)
  {
    SplitKeepsLeadingPieces(s, sep);
    if sep !in s {
      assert Before(s, sep) == s[..|s|] == s;
    }
  }

  predicate AllEmpty(parts: seq<string>) { forall k :: 0 <= k < |parts| ==> parts[k] == "" }

  predicate OnlySeparators(s: string, sep: char) { forall i :: 0 <= i < |s| ==> s[i] == sep }

  /** Every piece is empty exactly when the string is made of separators only. */
  lemma {:induction false} PiecesAllEmpty(s: string, sep: char)
    ensures AllEmpty(Pieces(s, sep)) <==> OnlySeparators(s, sep)
    decreases |s|
  {
    var i := IndexOf(s, sep);
    var ps := Pieces(s, sep);
    if i == |s| {
      IndexOfIsFirst(s, sep);
      assert ps == [s];
      if |s| > 0 {
        assert s[0] != sep;
        assert ps[0] != "";
      }
    } else {
      var rest := s[i + 1..];
      PiecesAllEmpty(rest, sep);
      var pr := Pieces(rest, sep);
      assert ps == [s[..i]] + pr;
      if i == 0 {
        assert s == [sep] + rest;
        assert AllEmpty(ps) <==> AllEmpty(pr) by {
          assert forall k :: 0 <= k < |pr| ==> ps[k + 1] == pr[k];
        }
        assert OnlySeparators(s, sep) <==> OnlySeparators(rest, sep) by {
          assert forall j :: 0 <= j < |rest| ==> s[j + 1] == rest[j];
        }
      } else {
        IndexOfIsFirst(s, sep);
        assert s[0] != sep;
        assert ps[0] != "";
      }
    }
  }

  /**
   * `split` returns the empty array exactly for a non-empty string made only
   * of separators; every other string keeps at least one element.
   */
  lemma SplitEmptyIff(s: string, sep: char)
    ensures Split(s, sep) == [] <==> |s| > 0 && forall i :: 0 <= i < |s| ==> s[i] == sep
  {
    SplitKeepsLeadingPieces(s, sep);
    PiecesAllEmpty(s, sep);
    var ps := Pieces(s, sep);
    var r := Split(s, sep);
    if |s| > 0 && OnlySeparators(s, sep) {
      assert s[0] == sep;
    }
    if r == [] {
      assert sep in s;
      assert AllEmpty(ps);
    }
  }
}
