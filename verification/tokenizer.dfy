/** Splitting the input string on the delimiter, as Python's `str.split(d)`
    does: every occurrence separates two tokens, and empty tokens are kept. */
module Tokenizer {

  /** The tokens of `s`, left to right. There is always at least one, and no
      token contains the delimiter. */
  function Split(s: string, d: char): (r: seq<string>)
    ensures |r| >= 1
    ensures forall i :: 0 <= i < |r| ==> d !in r[i]
    decreases |s|
  {
    if |s| == 0 then [""]
    else
      var tail := Split(s[1..], d);
      if s[0] == d then [""] + tail
      else [[s[0]] + tail[0]] + tail[1..]
  }

  /** The tokens put back together with one delimiter between neighbours. */
  function Join(tokens: seq<string>, d: char): string
  {
    if |tokens| == 0 then ""
    else if |tokens| == 1 then tokens[0]
    else tokens[0] + [d] + Join(tokens[1..], d)
  }

  /** Prefixing the first token with a character prefixes the joined string. */
  lemma JoinConsFirst(c: char, tokens: seq<string>, d: char)
    requires |tokens| >= 1
    ensures Join([[c] + tokens[0]] + tokens[1..], d) == [c] + Join(tokens, d)
  {
    var t := [[c] + tokens[0]] + tokens[1..];
    assert t[1..] == tokens[1..];
  }

  /** Splitting loses nothing: joining the tokens gives back the input. */
  lemma {:induction false} JoinSplit(s: string, d: char)
    ensures Join(Split(s, d), d) == s
    decreases |s|
  {
    if |s| > 0 {
      var tail := Split(s[1..], d);
      JoinSplit(s[1..], d);
      if s[0] == d {
        assert ([""] + tail)[1..] == tail;
      } else {
        JoinConsFirst(s[0], tail, d);
      }
      assert s == [s[0]] + s[1..];
    }
  }

  /** A string without the delimiter is a single token. */
  lemma {:induction false} SplitNoDelimiter(s: string, d: char)
    requires d !in s
    ensures Split(s, d) == [s]
    decreases |s|
  {
    if |s| > 0 {
      assert d !in s[1..];
      SplitNoDelimiter(s[1..], d);
      assert s == [s[0]] + s[1..];
    }
  }

  /** A delimiter-free token followed by the delimiter is split off whole. */
  lemma {:induction false} SplitAtDelimiter(t: string, rest: string, d: char)
    requires d !in t
    ensures Split(t + [d] + rest, d) == [t] + Split(rest, d)
    decreases |t|
  {
    var s := t + [d] + rest;
    if |t| == 0 {
      assert s[1..] == rest;
    } else {
      assert s[1..] == t[1..] + [d] + rest;
      assert d !in t[1..];
      SplitAtDelimiter(t[1..], rest, d);
      assert t == [t[0]] + t[1..];
    }
  }

  /** Joining delimiter-free tokens and splitting again gives the tokens back. */
  lemma {:induction false} SplitJoin(tokens: seq<string>, d: char)
    requires |tokens| >= 1
    requires forall i :: 0 <= i < |tokens| ==> d !in tokens[i]
    ensures Split(Join(tokens, d), d) == tokens
    decreases |tokens|
  {
    if |tokens| == 1 {
      SplitNoDelimiter(tokens[0], d);
    } else {
      SplitJoin(tokens[1..], d);
      SplitAtDelimiter(tokens[0], Join(tokens[1..], d), d);
      assert tokens == [tokens[0]] + tokens[1..];
    }
  }
}
