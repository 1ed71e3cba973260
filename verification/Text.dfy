/** Splitting strings. */
module Text {
  import opened Wrappers

  function IndexOf(s: string, c: char): (n: nat)
    ensures n <= |s| && (n < |s| ==> s[n] == c) && c !in s[..n]
  {
    if s == "" || s[0] == c then 0 else IndexOf(s[1..], c) + 1
  }

  /** `split(c)`. */
  function Split(s: string, c: char): seq<string>
    decreases |s|
  {
    var n := IndexOf(s, c);
    if n == |s| then [s] else [s[..n]] + Split(s[n + 1..], c)
  }

  /** `split_once(c)`. */
  function SplitOnce(s: string, c: char): Option<(string, string)> {
    var n := IndexOf(s, c);
    if n == |s| then None else Some((s[..n], s[n + 1..]))
  }

  lemma {:induction false} IndexAfter(piece: string, rest: string, c: char)
    requires c !in piece
    ensures IndexOf(piece + rest, c) == |piece| + IndexOf(rest, c)
  {
    if piece == "" {
      assert piece + rest == rest;
    } else {
      assert piece[0] in piece;
      assert (piece + rest)[1..] == piece[1..] + rest;
      IndexAfter(piece[1..], rest, c);
    }
  }

  lemma SplitBase(base: string, sub: string)
    requires '/' !in base
    ensures SplitOnce(base + "/" + sub, '/') == Some((base, sub))
  {
    var s := base + "/" + sub;
    assert s == base + ("/" + sub);
    IndexAfter(base, "/" + sub, '/');
    assert s[..|base|] == base && s[|base| + 1..] == sub;
  }

  /** A piece without the separator comes off the front. */
  lemma SplitPiece(piece: string, rest: string, c: char)
    requires c !in piece
    ensures Split(piece + [c] + rest, c) == [piece] + Split(rest, c)
  {
    var s := piece + [c] + rest;
    assert s == piece + ([c] + rest);
    IndexAfter(piece, [c] + rest, c);
    assert s[..|piece|] == piece && s[|piece| + 1..] == rest;
  }

  lemma SplitLast(piece: string, c: char)
    requires c !in piece
    ensures Split(piece, c) == [piece]
  {
    assert piece + "" == piece;
    IndexAfter(piece, "", c);
  }

  lemma Assoc<T>(a: seq<T>, b: seq<T>, c: seq<T>)
    ensures a + b + c == a + (b + c)
  {
  }

  /** Splitting at a separator splits both sides. */
  lemma {:induction false} SplitAppend(a: string, b: string, c: char)
    ensures Split(a + [c] + b, c) == Split(a, c) + Split(b, c)
    decreases |a|
  {
    hide Split;
    if c !in a {
      SplitPiece(a, b, c);
      SplitLast(a, c);
    } else {
      var piece, rest := CutFirst(a, c);
      SplitPiece(piece, rest, c);
      SplitAppend(rest, b, c);
      SplitRest(piece, rest, b, c);
      Assoc([piece], Split(rest, c), Split(b, c));
    }
  }

  lemma SplitRest(piece: string, rest: string, b: string, c: char)
    requires c !in piece
    ensures Split(piece + [c] + rest + [c] + b, c) == [piece] + Split(rest + [c] + b, c)
  {
    hide Split;
    Assoc(piece + [c], rest, [c]);
    Assoc(piece + [c], rest + [c], b);
    SplitPiece(piece, rest + [c] + b, c);
  }

  /** A string that holds a separator, cut at its first. */
  lemma CutFirst(s: string, c: char) returns (piece: string, rest: string)
    requires c in s
    ensures c !in piece && s == piece + [c] + rest && |rest| < |s|
  {
    FoundWithin(s, c);
    var n := IndexOf(s, c);
    piece, rest := s[..n], s[n + 1..];
  }

  lemma {:induction false} FoundWithin(s: string, c: char)
    ensures c in s <==> IndexOf(s, c) < |s|
  {
    if s != "" && s[0] != c {
      FoundWithin(s[1..], c);
      assert s == [s[0]] + s[1..];
    }
  }

  /** No piece holds the separator, and there is but one exactly if the whole does not. */
  lemma {:induction false} SplitPieces(s: string, c: char)
    ensures Split(s, c) != [] && (forall i | 0 <= i < |Split(s, c)| :: c !in Split(s, c)[i])
    ensures |Split(s, c)| == 1 <==> c !in s
    ensures c !in s ==> Split(s, c) == [s]
    decreases |s|
  {
    FoundWithin(s, c);
    if c in s {
      SplitPieces(s[IndexOf(s, c) + 1..], c);
    }
  }

  predicate IsDigit(c: char) { '0' <= c <= '9' }

  function Digits(s: string): nat
    requires forall c | c in s :: IsDigit(c)
  {
    if s == "" then 0
    else assert IsDigit(s[|s| - 1]); Digits(s[..|s| - 1]) * 10 + (s[|s| - 1] as int - '0' as int)
  }
}
