/**
 * The two string operations the chain builds its context keys with:
 * joining words with a single space, and splitting a key back into words
 * at every space (the behaviour of Go's strings.Join and strings.Split with
 * the separator " "). Also the small string tests the chain uses.
 */
module Strings {

  /** A word as the tokenizer produces it: it contains no space. */
  predicate SpaceFree(w: string) {
    forall i :: 0 <= i < |w| ==> w[i] != ' '
  }

  predicate AllSpaceFree(ws: seq<string>) {
    forall i :: 0 <= i < |ws| ==> SpaceFree(ws[i])
  }

  /**
   * strings.Join(ws, " "): the words with one space between neighbours.
   * The result begins with the first word.
   */
  function Join(ws: seq<string>): (r: string)
    ensures |ws| >= 1 ==> |r| >= |ws[0]| && r[..|ws[0]|] == ws[0]
  {
    if |ws| == 0 then ""
    else if |ws| == 1 then ws[0]
    else ws[0] + " " + Join(ws[1..])
  }

  /**
   * strings.Split(s, " "): the pieces of `s` between spaces, always at least
   * one piece (the empty string splits into one empty piece).
   */
  function Split(s: string): (r: seq<string>)
    ensures |r| >= 1
    ensures AllSpaceFree(r)
  {
    if |s| == 0 then [""]
    else
      var rest := Split(s[1..]);
      if s[0] == ' ' then [""] + rest
      else [[s[0]] + rest[0]] + rest[1..]
  }

  /** strings.HasSuffix(s, suffix): `s` is some string followed by `suffix`. */
  predicate HasSuffix(s: string, suffix: string)
    ensures HasSuffix(s, suffix) <==> |suffix| <= |s| && s == s[..|s| - |suffix|] + suffix
  {
    |suffix| <= |s| && s[|s| - |suffix|..] == suffix
  }

  /**
   * The seed test: the first character is one of the 26 ASCII capital
   * letters (no other alphabet's capitals count).
   */
  predicate StartsUpper(s: string)
    ensures StartsUpper(s) <==> s != "" && s[0] in "ABCDEFGHIJKLMNOPQRSTUVWXYZ"
  {
    |s| > 0 && 'A' <= s[0] <= 'Z'
  }

  /** Splitting a space-free word followed by anything glues the word to the first piece. */
  lemma {:induction false} SplitPrefix(w: string, s: string)
    requires SpaceFree(w)
    ensures Split(w + s) == [w + Split(s)[0]] + Split(s)[1..]
  {
    if |w| > 0 {
      assert (w + s)[1..] == w[1..] + s;
      SplitPrefix(w[1..], s);
      assert [w[0]] + (w[1..] + Split(s)[0]) == w + Split(s)[0];
    } else {
      assert w + s == s;
      assert w + Split(s)[0] == Split(s)[0];
      assert Split(s) == [Split(s)[0]] + Split(s)[1..];
    }
  }

  /**
   * Splitting a join of space-free words gives the words back: the context
   * slide in GenerateRandomText relies on this.
   */
  lemma {:induction false} SplitJoin(ws: seq<string>)
    requires |ws| >= 1 && AllSpaceFree(ws)
    ensures Split(Join(ws)) == ws
  {
    if |ws| == 1 {
      SplitPrefix(ws[0], "");
      assert ws[0] + "" == ws[0];
    } else {
      var rest := Join(ws[1..]);
      SplitJoin(ws[1..]);
      SplitPrefix(ws[0], " " + rest);
      assert Join(ws) == ws[0] + (" " + rest);
      assert (" " + rest)[1..] == rest;
      assert Split(" " + rest) == [""] + ws[1..];
      assert ws[0] + "" == ws[0];
      assert ws == [ws[0]] + ws[1..];
    }
  }

  /**
   * Different word lists of space-free words never share a key: "a bc"
   * and "ab c" stay apart.
   */
  lemma JoinInjective(a: seq<string>, b: seq<string>)
    requires |a| >= 1 && AllSpaceFree(a)
    requires |b| >= 1 && AllSpaceFree(b)
    requires Join(a) == Join(b)
    ensures a == b
  {
    SplitJoin(a);
    SplitJoin(b);
  }

  /** A join that starts with a non-empty word is non-empty, so its first character exists. */
  lemma JoinNonEmpty(ws: seq<string>)
    requires |ws| >= 1 && ws[0] != ""
    ensures Join(ws) != "" && Join(ws)[0] == ws[0][0]
  {
  }
}
