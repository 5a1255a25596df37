/**
 * String searching and `String.prototype.split` with a one-character
 * separator, together with the inverse join used to state what split means.
 */
module Text {

  /** `s.indexOf(c)` for a character known to occur. */
  function IndexOf(s: string, c: char): (i: nat)
    requires c in s
    ensures i < |s| && s[i] == c && c !in s[..i]
  {
    if s[0] == c then 0
    else
      assert c in s[1..] by { assert s == [s[0]] + s[1..]; }
      var j := IndexOf(s[1..], c);
      assert s[..j + 1] == [s[0]] + s[1..][..j];
      j + 1
  }

  /** `s.lastIndexOf(c)` for a character known to occur. */
  function LastIndexOf(s: string, c: char): (i: nat)
    requires c in s
    ensures i < |s| && s[i] == c && c !in s[i + 1..]
  {
    var n := |s| - 1;
    if s[n] == c then n
    else
      assert c in s[..n] by { assert s == s[..n] + [s[n]]; }
      var j := LastIndexOf(s[..n], c);
      assert s[j + 1..] == s[..n][j + 1..] + [s[n]];
      j
  }

  /** `s.split(c)`: the maximal pieces between occurrences of `c`. */
  function Split(s: string, c: char): (parts: seq<string>)
    ensures |parts| >= 1
    decreases |s|
  {
    if c in s then
      var i := IndexOf(s, c);
      [s[..i]] + Split(s[i + 1..], c)
    else [s]
  }

  /** `parts.join(c)`, the reference against which `Split` is stated. */
  function Join(parts: seq<string>, c: char): string
    requires |parts| >= 1
  {
    if |parts| == 1 then parts[0] else parts[0] + [c] + Join(parts[1..], c)
  }

  /** Splitting and joining back gives the original string, and no piece holds the separator. */
  lemma {:induction false} SplitJoin(s: string, c: char)
    ensures Join(Split(s, c), c) == s
    ensures forall k :: 0 <= k < |Split(s, c)| ==> c !in Split(s, c)[k]
    decreases |s|
  {
    if c in s {
      var i := IndexOf(s, c);
      SplitJoin(s[i + 1..], c);
      assert s == s[..i] + [c] + s[i + 1..];
      var parts := Split(s, c);
      assert parts[1..] == Split(s[i + 1..], c);
    }
  }

  /** There is a second piece exactly when the separator occurs; the first piece is a separator-free prefix. */
  lemma FirstPiece(s: string, c: char)
    ensures |Split(s, c)| > 1 <==> c in s
    ensures c !in Split(s, c)[0] && Split(s, c)[0] <= s
  {
  }

  /** A string built as `a + c + b` with no `c` in `a` splits into `a` and the pieces of `b`. */
  lemma {:induction false} SplitAfterSeparator(a: string, c: char, b: string)
    requires c !in a
    ensures Split(a + [c] + b, c) == [a] + Split(b, c)
  {
    var s := a + [c] + b;
    assert s[|a|] == c;
    var i := IndexOf(s, c);
    assert i == |a| by {
      assert forall k :: 0 <= k < |a| ==> s[k] == a[k];
    }
    assert s[..i] == a;
    assert s[i + 1..] == b;
  }

  /** The first piece ends at the end of the string or at an occurrence of the separator. */
  lemma FirstPieceEnds(s: string, c: char)
    ensures var n := |Split(s, c)[0]|; n == |s| || (n < |s| && s[n] == c)
  {
    if c in s {
      var i := IndexOf(s, c);
      assert |Split(s, c)[0]| == i;
    }
  }

  /** The first piece of a split is the whole string exactly when the separator does not occur. */
  lemma FirstPieceIsWhole(s: string, c: char)
    ensures Split(s, c)[0] == s <==> c !in s
  {
    if c in s {
      var i := IndexOf(s, c);
      assert |Split(s, c)[0]| == i < |s|;
    }
  }
}
