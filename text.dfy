/** Python's `str.split()` and `str.strip()` with no arguments, on strings as `seq<char>`. */
module Text {

  /** The characters `str.isspace()` accepts, by code point. */
  predicate IsSpace(c: char) {
    var n := c as int;
    n == 0x20 || 0x09 <= n <= 0x0D || 0x1C <= n <= 0x1F || n == 0x85 || n == 0xA0
    || n == 0x1680 || 0x2000 <= n <= 0x200A || n == 0x2028 || n == 0x2029
    || n == 0x202F || n == 0x205F || n == 0x3000
  }

  predicate NoSpace(s: string) {
    forall i :: 0 <= i < |s| ==> !IsSpace(s[i])
  }

  predicate AllSpace(s: string) {
    forall i :: 0 <= i < |s| ==> IsSpace(s[i])
  }

  predicate StartsWith(s: string, prefix: string) {
    |prefix| <= |s| && s[..|prefix|] == prefix
  }

  /** `s` without its leading whitespace. */
  function TrimLeft(s: string): (r: string)
    ensures |r| <= |s| && r == s[|s| - |r|..]
    ensures AllSpace(s[..|s| - |r|])
    ensures r == [] || !IsSpace(r[0])
  {
    if s != [] && IsSpace(s[0]) then TrimLeft(s[1..]) else s
  }

  /** `s` without its trailing whitespace. */
  function TrimRight(s: string): (r: string)
    ensures |r| <= |s| && r == s[..|r|]
    ensures AllSpace(s[|r|..])
    ensures r == [] || !IsSpace(r[|r| - 1])
  {
    if s != [] && IsSpace(s[|s| - 1]) then
      var r := TrimRight(s[..|s| - 1]);
      assert s[|r|..] == s[..|s| - 1][|r|..] + [s[|s| - 1]];
      r
    else s
  }

  /** `s.strip()`: `s` without whitespace at either end. */
  function Strip(s: string): (r: string)
    ensures |r| <= |s|
    ensures r == [] || (!IsSpace(r[0]) && !IsSpace(r[|r| - 1]))
    decreases |s|
  {
    if s == [] then []
    else if IsSpace(s[0]) then Strip(s[1..])
    else if IsSpace(s[|s| - 1]) then Strip(s[..|s| - 1])
    else s
  }

  /** Strip removes leading and trailing whitespace and nothing else: it equals trimming both ends. */
  lemma {:induction false} StripIsTrim(s: string)
    ensures Strip(s) == TrimRight(TrimLeft(s))
    decreases |s|
  {
    if s != [] && IsSpace(s[0]) {
      StripIsTrim(s[1..]);
    } else if s != [] && IsSpace(s[|s| - 1]) {
      StripIsTrim(s[..|s| - 1]);
      assert TrimLeft(s) == s;
      assert TrimLeft(s[..|s| - 1]) == s[..|s| - 1];
    }
  }

  /** The longest prefix of `s` that holds no whitespace. */
  function Word(s: string): (w: string)
    ensures |w| <= |s| && w == s[..|w|] && NoSpace(w)
    ensures |w| == |s| || IsSpace(s[|w|])
  {
    if s == [] || IsSpace(s[0]) then [] else [s[0]] + Word(s[1..])
  }

  /** `s.split()`: the maximal runs of non-whitespace characters, in order. */
  function Split(s: string): seq<string>
    decreases |s|
  {
    var t := TrimLeft(s);
    if t == [] then [] else
      var w := Word(t);
      [w] + Split(t[|w|..])
  }

  /** Every token Split yields is non-empty and holds no whitespace. */
  lemma {:induction false} SplitTokens(s: string)
    ensures forall k :: 0 <= k < |Split(s)| ==> Split(s)[k] != [] && NoSpace(Split(s)[k])
    decreases |s|
  {
    var t := TrimLeft(s);
    if t != [] {
      var w := Word(t);
      assert w != [] by {
        assert !IsSpace(t[0]);
      }
      var rest := t[|w|..];
      SplitTokens(rest);
      ConsTokens(w, Split(rest));
    }
  }

  lemma ConsTokens(w: string, tokens: seq<string>)
    requires w != [] && NoSpace(w)
    requires forall k :: 0 <= k < |tokens| ==> tokens[k] != [] && NoSpace(tokens[k])
    ensures forall k :: 0 <= k < |[w] + tokens| ==> ([w] + tokens)[k] != [] && NoSpace(([w] + tokens)[k])
  {
  }

  /** The tokens written out with one space between neighbours. */
  function Join(tokens: seq<string>): string {
    if tokens == [] then []
    else if |tokens| == 1 then tokens[0]
    else tokens[0] + " " + Join(tokens[1..])
  }

  lemma {:induction false} WordOfToken(w: string, rest: string)
    requires w != [] && NoSpace(w)
    requires rest == [] || IsSpace(rest[0])
    ensures Word(w + rest) == w
  {
    assert (w + rest)[0] == w[0];
    assert (w + rest)[1..] == w[1..] + rest;
    if |w| > 1 {
      WordOfToken(w[1..], rest);
    }
    assert w == [w[0]] + w[1..];
  }

  /** A token followed by whitespace or the end of the text is split off whole. */
  lemma SplitOfToken(w: string, rest: string)
    requires w != [] && NoSpace(w)
    requires rest == [] || IsSpace(rest[0])
    ensures Split(w + rest) == [w] + Split(rest)
  {
    assert TrimLeft(w + rest) == w + rest by { assert (w + rest)[0] == w[0]; }
    WordOfToken(w, rest);
    assert (w + rest)[|w|..] == rest;
  }

  /** Leading whitespace is trimmed away whatever follows it. */
  lemma {:induction false} TrimLeftAfterSpace(ws: string, x: string)
    requires AllSpace(ws)
    ensures TrimLeft(ws + x) == TrimLeft(x)
  {
    if ws == [] {
      assert ws + x == x;
    } else {
      assert (ws + x)[0] == ws[0];
      assert (ws + x)[1..] == ws[1..] + x;
      TrimLeftAfterSpace(ws[1..], x);
    }
  }

  /** Leading whitespace, of any kind and length, does not change the tokens. */
  lemma SplitAfterSpace(ws: string, x: string)
    requires AllSpace(ws)
    ensures Split(ws + x) == Split(x)
  {
    TrimLeftAfterSpace(ws, x);
  }

  /** A text of whitespace only has no tokens. */
  lemma SplitOfSpace(s: string)
    requires AllSpace(s)
    ensures Split(s) == []
  {
    var t := TrimLeft(s);
    if t != [] {
      assert t[0] == s[|s| - |t|];
    }
  }

  /**
   * After any whitespace, a token followed by whitespace or the end of the
   * text is split off whole. With SplitOfSpace this fixes Split on every input.
   */
  lemma SplitOfWord(ws: string, w: string, rest: string)
    requires AllSpace(ws)
    requires w != [] && NoSpace(w)
    requires rest == [] || IsSpace(rest[0])
    ensures Split(ws + w + rest) == [w] + Split(rest)
  {
    assert ws + w + rest == ws + (w + rest);
    SplitAfterSpace(ws, w + rest);
    SplitOfToken(w, rest);
  }

  lemma SplitJoinCons(tokens: seq<string>)
    requires |tokens| > 1 && tokens[0] != [] && NoSpace(tokens[0])
    ensures Split(Join(tokens)) == [tokens[0]] + Split(Join(tokens[1..]))
  {
    var w, more := tokens[0], tokens[1..];
    var rest := " " + Join(more);
    assert Join(tokens) == w + rest;
    SplitOfToken(w, rest);
    SplitAfterSpace(" ", Join(more));
  }

  /** A sequence of tokens, stated one token at a time. */
  predicate AreTokens(tokens: seq<string>) {
    tokens == [] || (tokens[0] != [] && NoSpace(tokens[0]) && AreTokens(tokens[1..]))
  }

  lemma {:induction false} AreTokensOfAll(tokens: seq<string>)
    requires forall k :: 0 <= k < |tokens| ==> tokens[k] != [] && NoSpace(tokens[k])
    ensures AreTokens(tokens)
  {
    if tokens != [] {
      var more := tokens[1..];
      assert forall k :: 0 <= k < |more| ==> more[k] == tokens[k + 1];
      AreTokensOfAll(more);
    }
  }

  lemma SplitOfSingle(w: string)
    requires w != [] && NoSpace(w)
    ensures Split(w) == [w]
  {
    var none: string := [];
    assert w + none == w;
    SplitOfToken(w, none);
  }

  lemma {:induction false} SplitJoinOfTokens(tokens: seq<string>)
    requires AreTokens(tokens)
    ensures Split(Join(tokens)) == tokens
  {
    if |tokens| == 1 {
      SplitOfSingle(tokens[0]);
    } else if |tokens| > 1 {
      SplitJoinOfTokens(tokens[1..]);
      SplitJoinStep(tokens);
    }
  }

  lemma SplitJoinStep(tokens: seq<string>)
    requires |tokens| > 1 && tokens[0] != [] && NoSpace(tokens[0])
    requires Split(Join(tokens[1..])) == tokens[1..]
    ensures Split(Join(tokens)) == tokens
  {
    SplitJoinCons(tokens);
    assert [tokens[0]] + tokens[1..] == tokens;
  }

  /** Splitting what Join wrote gives back the tokens: Split is the inverse of Join. */
  lemma SplitJoin(tokens: seq<string>)
    requires forall k :: 0 <= k < |tokens| ==> tokens[k] != [] && NoSpace(tokens[k])
    ensures Split(Join(tokens)) == tokens
  {
    AreTokensOfAll(tokens);
    SplitJoinOfTokens(tokens);
  }
}
