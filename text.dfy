/**
 * Strings as `seq<char>`: prefix test, Rust's `str::split(char)`, `split_once(char)`
 * and `[..].join(sep)`, with the round trips between splitting and joining.
 */
module Text {
  import opened Wrappers
  import opened Seqs

  predicate StartsWith(s: string, prefix: string) {
    |prefix| <= |s| && s[..|prefix|] == prefix
  }

  /** `s.split(d)`: the pieces between occurrences of `d`; never empty ("" gives [""]). */
  function Split(s: string, d: char): (tokens: seq<string>)
    ensures |tokens| >= 1
    ensures forall t | t in tokens :: d !in t
    ensures forall t, c | t in tokens && c in t :: c in s
    decreases |s|
  {
    if d in s then
      var i := IndexOf(s, d);
      var rest := Split(s[i + 1..], d);
      assert forall c | c in s[i + 1..] :: c in s;
      [s[..i]] + rest
    else
      [s]
  }

  /** `tokens.join(d)`: the tokens with one `d` between neighbours. */
  function Join(tokens: seq<string>, d: char): string
  {
    if |tokens| == 0 then ""
    else if |tokens| == 1 then tokens[0]
    else tokens[0] + [d] + Join(tokens[1..], d)
  }

  /** `s.split_once(d)`: the text before and after the first `d`, if there is one. */
  function SplitOnce(s: string, d: char): (r: Option<(string, string)>)
    ensures r.None? <==> d !in s
    ensures r.Some? ==> s == r.value.0 + [d] + r.value.1 && d !in r.value.0
  {
    if d in s then
      var i := IndexOf(s, d);
      assert s == s[..i] + [d] + s[i + 1..];
      Some((s[..i], s[i + 1..]))
    else
      None
  }

  /** Splitting at head `t + [d]` when `t` has no `d` peels off exactly `t`. */
  lemma SplitOnceOfJoined(t: string, d: char, rest: string)
    requires d !in t
    ensures SplitOnce(t + [d] + rest, d) == Some((t, rest))
  {
    var s := t + [d] + rest;
    assert s[..|t|] == t;
    IndexOfUnique(s, d, |t|);
    assert s[|t| + 1..] == rest;
  }

  /** Joining the pieces of a split gives the original string back. */
  lemma {:induction false} JoinSplit(s: string, d: char)
    ensures Join(Split(s, d), d) == s
    decreases |s|
  {
    if d in s {
      var i := IndexOf(s, d);
      JoinSplit(s[i + 1..], d);
      assert s == s[..i] + [d] + s[i + 1..];
    }
  }

  /** Splitting a join gives the tokens back, when no token holds the delimiter. */
  lemma {:induction false} SplitJoin(tokens: seq<string>, d: char)
    requires |tokens| >= 1
    requires forall t | t in tokens :: d !in t
    ensures Split(Join(tokens, d), d) == tokens
  {
    if |tokens| > 1 {
      var rest := Join(tokens[1..], d);
      var s := tokens[0] + [d] + rest;
      assert s[..|tokens[0]|] == tokens[0];
      IndexOfUnique(s, d, |tokens[0]|);
      assert s[|tokens[0]| + 1..] == rest;
      SplitJoin(tokens[1..], d);
      assert tokens == [tokens[0]] + tokens[1..];
    }
  }
}
