/**
 * String helpers used by the parser: prefix test and Java's
 * `String.split(",")`, which drops trailing empty pieces.
 */
module Strings {

  const Comma: char := ','

  predicate StartsWith(s: string, prefix: string) {
    |prefix| <= |s| && s[..|prefix|] == prefix
  }

  /**
   * The pieces of `s` between commas, every piece kept (also empty ones):
   * "a,,b," gives ["a", "", "b", ""].
   */
  function Pieces(s: string): (r: seq<string>)
    ensures |r| >= 1
    ensures forall k :: 0 <= k < |r| ==> Comma !in r[k]
    decreases |s|
  {
    if |s| == 0 then [""]
    else
      var rest := Pieces(s[1..]);
      if s[0] == Comma then [""] + rest
      else [[s[0]] + rest[0]] + rest[1..]
  }

  /** Pieces glued back together with commas. */
  function Join(ps: seq<string>): string
    requires |ps| >= 1
    decreases |ps|
  {
    if |ps| == 1 then ps[0] else ps[0] + [Comma] + Join(ps[1..])
  }

  lemma {:induction false} JoinConsChar(c: char, x: string, tail: seq<string>)
    ensures Join([[c] + x] + tail) == [c] + Join([x] + tail)
  {
    var ps := [[c] + x] + tail;
    if |tail| > 0 {
      assert ps[1..] == tail;
      assert ([x] + tail)[1..] == tail;
    }
  }

  /** Splitting on commas loses nothing: joining the pieces restores the input. */
  lemma {:induction false} JoinPieces(s: string)
    ensures Join(Pieces(s)) == s
    decreases |s|
  {
    if |s| > 0 {
      var rest := Pieces(s[1..]);
      JoinPieces(s[1..]);
      if s[0] == Comma {
        assert ([""] + rest)[1..] == rest;
        assert s == [s[0]] + s[1..];
      } else {
        JoinConsChar(s[0], rest[0], rest[1..]);
        assert [rest[0]] + rest[1..] == rest;
        assert s == [s[0]] + s[1..];
      }
    }
  }

  /** `ps` without its trailing empty strings. */
  function DropTrailingEmpty(ps: seq<string>): (r: seq<string>)
    ensures |r| <= |ps| && r == ps[..|r|]
    ensures forall k :: |r| <= k < |ps| ==> ps[k] == ""
    ensures r == [] || r[|r| - 1] != ""
  {
    if |ps| == 0 || ps[|ps| - 1] != "" then ps
    else DropTrailingEmpty(ps[..|ps| - 1])
  }

  /**
   * Java's `s.split(",")`: when `s` holds no comma the result is `[s]`
   * (so "" gives [""]); otherwise the pieces between commas with the
   * trailing empty ones removed (so ",," gives []).
   */
  function JavaSplit(s: string): (r: seq<string>)
    ensures forall k :: 0 <= k < |r| ==> Comma !in r[k]
    ensures Comma !in s ==> r == [s]
    ensures Comma in s ==> r == [] || r[|r| - 1] != ""
  {
    if Comma !in s then [s] else DropTrailingEmpty(Pieces(s))
  }

  /**
   * What `JavaSplit` keeps: a prefix of the comma pieces, the dropped
   * ones all empty, none of them holding a comma; a non-empty input
   * without commas is its own single piece, and an input that ends in
   * a non-comma character keeps every piece.
   */
  lemma {:induction false} JavaSplitPieces(s: string)
    ensures var r := JavaSplit(s);
      && |r| <= |Pieces(s)| && r == Pieces(s)[..|r|]
      && (forall k :: |r| <= k < |Pieces(s)| ==> Pieces(s)[k] == "")
      && (forall k :: 0 <= k < |r| ==> Comma !in r[k])
      && (Comma !in s ==> r == [s])
      && (Comma in s ==> r == [] || r[|r| - 1] != "")
      && (|s| > 0 && s[|s| - 1] != Comma ==> r == Pieces(s))
  {
    var ps := Pieces(s);
    if Comma !in s {
      NoCommaSinglePiece(s);
    } else if |s| > 0 && s[|s| - 1] != Comma {
      LastPieceNonEmpty(s);
    }
  }

  lemma {:induction false} NoCommaSinglePiece(s: string)
    requires Comma !in s
    ensures Pieces(s) == [s]
    decreases |s|
  {
    if |s| > 0 {
      assert Comma !in s[1..] by {
        forall k | 0 <= k < |s[1..]| ensures s[1..][k] != Comma { assert s[1..][k] == s[k + 1]; }
      }
      NoCommaSinglePiece(s[1..]);
      assert s == [s[0]] + s[1..];
    }
  }

  lemma {:induction false} LastPieceNonEmpty(s: string)
    requires |s| > 0 && s[|s| - 1] != Comma
    ensures Pieces(s)[|Pieces(s)| - 1] != ""
    decreases |s|
  {
    if |s| > 1 {
      assert s[1..][|s[1..]| - 1] == s[|s| - 1];
      LastPieceNonEmpty(s[1..]);
    }
  }
}
