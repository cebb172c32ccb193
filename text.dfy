/** Strings and token lists: searching for a separator, joining tokens with
    single spaces (what the script mode prints) and splitting them again. */
module Text {

  /** Index of the first `c` in `s`, or `|s|` when there is none. */
  function FirstIndex(s: string, c: char): (i: nat)
    ensures i <= |s|
    ensures i < |s| ==> s[i] == c
    ensures forall j :: 0 <= j < i ==> s[j] != c
    decreases |s|
  {
    if s == [] then 0
    else if s[0] == c then 0
    else 1 + FirstIndex(s[1..], c)
  }

  lemma {:induction false} FirstIndexAfterPrefix(a: string, c: char, b: string)
    requires c !in a
    ensures FirstIndex(a + [c] + b, c) == |a|
  {
    var s := a + [c] + b;
    assert s[|a|] == c;
    assert forall j :: 0 <= j < |a| ==> s[j] == a[j];
  }

  /** `' '.join(tokens)` */
  function JoinSpaces(tokens: seq<string>): string
    decreases |tokens|
  {
    if |tokens| == 0 then ""
    else if |tokens| == 1 then tokens[0]
    else tokens[0] + " " + JoinSpaces(tokens[1..])
  }

  /** `s.split(' ')`: cut at every single space; always at least one piece. */
  function SplitSpaces(s: string): (pieces: seq<string>)
    ensures |pieces| > 0
    decreases |s|
  {
    var i := FirstIndex(s, ' ');
    if i == |s| then [s] else [s[..i]] + SplitSpaces(s[i + 1..])
  }

  /** Splitting a joined line yields its first token (when that token holds
      no space) followed by the pieces of the rest. */
  lemma SplitJoinFirst(first: string, rest: seq<string>)
    requires ' ' !in first && rest != []
    ensures SplitSpaces(JoinSpaces([first] + rest)) == [first] + SplitSpaces(JoinSpaces(rest))
  {
    var tail := JoinSpaces(rest);
    var line := first + " " + tail;
    assert ([first] + rest)[1..] == rest;
    assert JoinSpaces([first] + rest) == line;
    assert line == first + [' '] + tail;
    FirstIndexAfterPrefix(first, ' ', tail);
    assert line[..|first|] == first;
    assert line[|first| + 1..] == tail;
  }

  predicate NoSpaces(tokens: seq<string>)
  {
    forall k :: 0 <= k < |tokens| ==> ' ' !in tokens[k]
  }

  /** Joining tokens that hold no space and splitting the line again gives
      the tokens back: the line is an exact rendering of the list. */
  lemma {:induction false} SplitJoinRoundTrip(tokens: seq<string>)
    requires |tokens| > 0 && NoSpaces(tokens)
    ensures SplitSpaces(JoinSpaces(tokens)) == tokens
  {
    if |tokens| == 1 {
      assert FirstIndex(tokens[0], ' ') == |tokens[0]|;
    } else {
      var rest := JoinSpaces(tokens[1..]);
      var line := tokens[0] + " " + rest;
      assert line == tokens[0] + [' '] + rest;
      FirstIndexAfterPrefix(tokens[0], ' ', rest);
      assert line[..|tokens[0]|] == tokens[0];
      assert line[|tokens[0]| + 1..] == rest;
      SplitJoinRoundTrip(tokens[1..]);
      assert tokens == [tokens[0]] + tokens[1..];
    }
  }

  /** A token holding a space is not quoted, so two different token lists
      can print as the same line. */
  lemma JoinSpacesLosesBoundaries()
    ensures JoinSpaces(["ls", "my dir"]) == JoinSpaces(["ls", "my", "dir"])
  {
    assert JoinSpaces(["my", "dir"]) == "my dir";
  }
}
