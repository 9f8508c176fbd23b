/**
 * The pieces of JavaScript string behaviour the launcher relies on:
 * the `\s` character class (which is also the set `String.prototype.trim`
 * strips), trimming, `indexOf(..) > -1`, `split(/\s+/)` and `join(' ')`.
 */
module Text {

  /** JavaScript's `\s`: WhiteSpace and LineTerminator code points. */
  predicate IsWhitespace(c: char) {
    || c == '\t' || c == '\n' || c == '\U{000B}' || c == '\U{000C}' || c == '\r'
    || c == ' ' || c == '\U{00A0}' || c == '\U{1680}' || ('\U{2000}' <= c <= '\U{200A}')
    || c == '\U{2028}' || c == '\U{2029}' || c == '\U{202F}' || c == '\U{205F}'
    || c == '\U{3000}' || c == '\U{FEFF}'
  }

  /** The characters that JavaScript's `.` refuses to match. */
  predicate IsLineTerminator(c: char) {
    c == '\n' || c == '\r' || c == '\U{2028}' || c == '\U{2029}'
  }

  predicate NoWhitespace(s: string) {
    forall i | 0 <= i < |s| :: !IsWhitespace(s[i])
  }

  predicate NoLineTerminator(s: string) {
    forall i | 0 <= i < |s| :: !IsLineTerminator(s[i])
  }

  /** Drops leading whitespace; `TrimStartDropsWhitespace` shows what it keeps and what it drops. */
  function TrimStart(s: string): (r: string)
    ensures |r| <= |s|
    ensures r == [] || !IsWhitespace(r[0])
  {
    if s != [] && IsWhitespace(s[0]) then TrimStart(s[1..]) else s
  }

  /** `TrimStart` keeps a suffix of `s`, and everything it drops is whitespace. */
  lemma {:induction false} TrimStartDropsWhitespace(s: string)
    ensures TrimStart(s) == s[|s| - |TrimStart(s)|..]
    ensures forall i | 0 <= i < |s| - |TrimStart(s)| :: IsWhitespace(s[i])
  {
    if s != [] && IsWhitespace(s[0]) {
      TrimStartDropsWhitespace(s[1..]);
      forall i | 1 <= i < |s| - |TrimStart(s)| ensures IsWhitespace(s[i]) {
        assert s[i] == s[1..][i - 1];
      }
    }
  }

  /** Drops trailing whitespace; `TrimEndDropsWhitespace` shows what it keeps and what it drops. */
  function TrimEnd(s: string): (r: string)
    ensures |r| <= |s| && (r == [] || r[0] == s[0])
    ensures r == [] || !IsWhitespace(r[|r| - 1])
  {
    if s != [] && IsWhitespace(s[|s| - 1]) then TrimEnd(s[..|s| - 1]) else s
  }

  /** `TrimEnd` keeps a prefix of `s`, and everything it drops is whitespace. */
  lemma {:induction false} TrimEndDropsWhitespace(s: string)
    ensures TrimEnd(s) == s[..|TrimEnd(s)|]
    ensures forall i | |TrimEnd(s)| <= i < |s| :: IsWhitespace(s[i])
  {
    if s != [] && IsWhitespace(s[|s| - 1]) {
      TrimEndDropsWhitespace(s[..|s| - 1]);
      forall i | |TrimEnd(s)| <= i < |s| - 1 ensures IsWhitespace(s[i]) {
        assert s[i] == s[..|s| - 1][i];
      }
    }
  }

  /** `s.trim()`: the result neither starts nor ends with whitespace. */
  function Trim(s: string): (r: string)
    ensures |r| <= |s|
    ensures r == [] || (!IsWhitespace(r[0]) && !IsWhitespace(r[|r| - 1]))
  {
    TrimEnd(TrimStart(s))
  }

  /** A string that neither starts nor ends with whitespace is its own trim. */
  lemma TrimOfTrimmed(s: string)
    requires s == [] || (!IsWhitespace(s[0]) && !IsWhitespace(s[|s| - 1]))
    ensures Trim(s) == s
  {
  }

  /** `s.trim()` is empty exactly when `s` is all whitespace. */
  lemma TrimEmptyIff(s: string)
    ensures Trim(s) == [] <==> forall i | 0 <= i < |s| :: IsWhitespace(s[i])
  {
    var t := TrimStart(s);
    TrimStartDropsWhitespace(s);
    TrimEndDropsWhitespace(t);
    if Trim(s) != [] {
      assert t != [] && s[|s| - |t|] == t[0];
    }
  }

  /** `sub` occurs in `s` at position `i`. */
  predicate OccursAt(s: string, sub: string, i: nat) {
    i + |sub| <= |s| && s[i..i + |sub|] == sub
  }

  /** `s.indexOf(sub) > -1`. */
  predicate Contains(s: string, sub: string) {
    exists i: nat | i <= |s| :: OccursAt(s, sub, i)
  }

  /** Index of the first whitespace character of `s`, or `|s|` when there is none. */
  function IndexOfWhitespace(s: string): (i: nat)
    ensures i <= |s|
    ensures i < |s| ==> IsWhitespace(s[i])
    ensures forall j | 0 <= j < i :: !IsWhitespace(s[j])
  {
    if s == [] || IsWhitespace(s[0]) then 0 else 1 + IndexOfWhitespace(s[1..])
  }

  /** Length of the whitespace run that starts `s`. */
  function WhitespaceRun(s: string): (k: nat)
    ensures k <= |s|
    ensures forall j | 0 <= j < k :: IsWhitespace(s[j])
    ensures k < |s| ==> !IsWhitespace(s[k])
  {
    if s != [] && IsWhitespace(s[0]) then 1 + WhitespaceRun(s[1..]) else 0
  }

  /**
   * `s.split(/\s+/)`: the pieces between maximal whitespace runs, with an
   * empty first piece when `s` starts with whitespace and an empty last piece
   * when it ends with whitespace.
   */
  function SplitWhitespace(s: string): (r: seq<string>)
    ensures |r| >= 1
    ensures forall t | t in r :: NoWhitespace(t)
    decreases |s|
  {
    var i := IndexOfWhitespace(s);
    if i == |s| then [s]
    else
      var rest := s[i..];
      var k := WhitespaceRun(rest);
      [s[..i]] + SplitWhitespace(rest[k..])
  }

  /**
   * The text with every maximal whitespace run replaced by one space, read
   * character by character: an independent account of what the pieces of a
   * whitespace split are.
   */
  function CollapseWhitespace(s: string): (r: string)
    ensures |r| <= |s|
    // the result starts with whitespace exactly when the text does
    ensures r != [] <==> s != []
    ensures r != [] ==> (IsWhitespace(r[0]) <==> IsWhitespace(s[0]))
    // the only whitespace left is single spaces
    ensures forall i | 0 <= i < |r| && IsWhitespace(r[i]) :: r[i] == ' '
    ensures forall i | 0 <= i < |r| - 1 :: !(IsWhitespace(r[i]) && IsWhitespace(r[i + 1]))
    decreases |s|
  {
    if s == [] then []
    else if IsWhitespace(s[0]) then
      var k := WhitespaceRun(s);
      assert k > 0;
      " " + CollapseWhitespace(s[k..])
    else [s[0]] + CollapseWhitespace(s[1..])
  }

  /** A whitespace-free prefix passes through the collapse unchanged. */
  lemma {:induction false} CollapseWordPrefix(w: string, rest: string)
    requires NoWhitespace(w)
    ensures CollapseWhitespace(w + rest) == w + CollapseWhitespace(rest)
    decreases |w|
  {
    if w != [] {
      assert (w + rest)[0] == w[0] && !IsWhitespace(w[0]);
      assert (w + rest)[1..] == w[1..] + rest;
      CollapseWordPrefix(w[1..], rest);
      assert [w[0]] + w[1..] == w;
    } else {
      assert w + rest == rest;
    }
  }

  /**
   * The pieces of `split(/\s+/)` are exactly the text between the whitespace
   * runs: joined back with single spaces they give the text with each run
   * collapsed to one space. As no piece holds whitespace, this determines
   * the pieces.
   */
  lemma {:induction false} SplitJoinCollapses(s: string)
    ensures JoinSpace(SplitWhitespace(s)) == CollapseWhitespace(s)
    decreases |s|
  {
    if IndexOfWhitespace(s) == |s| {
      CollapseWordPrefix(s, []);
      assert s + [] == s;
    } else {
      var word, rest, tail := SplitAtFirstRun(s);
      SplitJoinCollapses(tail);
      JoinFront(word, SplitWhitespace(tail));
      CollapseWordPrefix(word, rest);
      ConcatAssoc(word, " ", CollapseWhitespace(tail));
    }
  }

  /** Regrouping a concatenation, kept apart so that callers do not pay for it. */
  lemma ConcatAssoc<T>(a: seq<T>, b: seq<T>, c: seq<T>)
    ensures a + b + c == a + (b + c)
  {
  }

  /**
   * One step of the split: the word before the first whitespace run, the
   * text from that run on, and what follows the run.
   */
  lemma SplitAtFirstRun(s: string) returns (word: string, rest: string, tail: string)
    requires IndexOfWhitespace(s) < |s|
    ensures NoWhitespace(word) && word + rest == s && |tail| < |s|
    ensures SplitWhitespace(s) == [word] + SplitWhitespace(tail)
    ensures CollapseWhitespace(rest) == " " + CollapseWhitespace(tail)
  {
    var i := IndexOfWhitespace(s);
    word, rest := s[..i], s[i..];
    tail := rest[WhitespaceRun(rest)..];
  }

  /** Joining a word in front of at least one piece puts one space between them. */
  lemma JoinFront(word: string, pieces: seq<string>)
    requires |pieces| >= 1
    ensures JoinSpace([word] + pieces) == word + " " + JoinSpace(pieces)
  {
    assert ([word] + pieces)[1..] == pieces;
  }

  /** `ts.join(' ')`. */
  function JoinSpace(ts: seq<string>): string {
    if |ts| == 0 then ""
    else if |ts| == 1 then ts[0]
    else ts[0] + " " + JoinSpace(ts[1..])
  }

  /** The tokens a whitespace split can produce and a single-space join preserves. */
  predicate IsToken(t: string) {
    t != [] && NoWhitespace(t)
  }

  /**
   * Splitting a trimmed, non-empty string yields only tokens: no piece is empty
   * because no whitespace run touches either end.
   */
  lemma {:induction false} SplitTrimmedYieldsTokens(s: string)
    requires s != [] && !IsWhitespace(s[0]) && !IsWhitespace(s[|s| - 1])
    ensures forall i | 0 <= i < |SplitWhitespace(s)| :: IsToken(SplitWhitespace(s)[i])
    decreases |s|
  {
    var i := IndexOfWhitespace(s);
    if i < |s| {
      var rest := s[i..];
      var k := WhitespaceRun(rest);
      assert i > 0;
      assert rest[|rest| - 1] == s[|s| - 1];
      SplitTrimmedYieldsTokens(rest[k..]);
    }
  }

  /** Joining tokens with single spaces and splitting on whitespace runs gives the tokens back. */
  lemma {:induction false} SplitJoinRoundTrip(ts: seq<string>)
    requires |ts| >= 1
    requires forall i | 0 <= i < |ts| :: IsToken(ts[i])
    ensures SplitWhitespace(JoinSpace(ts)) == ts
  {
    if |ts| == 1 {
      assert IndexOfWhitespace(ts[0]) == |ts[0]|;
    } else {
      var t := ts[0];
      var j := JoinSpace(ts[1..]);
      JoinStartsWithToken(ts[1..]);
      var s := t + " " + j;
      assert s == JoinSpace(ts);
      assert s[|t|] == ' ';
      assert IsToken(ts[0]) && IsToken(ts[1]);
      assert forall q | 0 <= q < |t| :: s[q] == t[q] && !IsWhitespace(s[q]);
      var i := IndexOfWhitespace(s);
      assert i == |t|;
      var rest := s[i..];
      assert rest == " " + j;
      var k := WhitespaceRun(rest);
      assert k == 1 by {
        assert !IsWhitespace(rest[1]);
      }
      assert rest[k..] == j;
      assert s[..i] == t;
      SplitJoinRoundTrip(ts[1..]);
    }
  }

  /** A single-space join of tokens neither starts nor ends with whitespace. */
  lemma {:induction false} JoinStartsWithToken(ts: seq<string>)
    requires |ts| >= 1
    requires forall i | 0 <= i < |ts| :: IsToken(ts[i])
    ensures JoinSpace(ts) != []
    ensures !IsWhitespace(JoinSpace(ts)[0]) && !IsWhitespace(JoinSpace(ts)[|JoinSpace(ts)| - 1])
  {
    assert IsToken(ts[0]);
    if |ts| > 1 {
      JoinStartsWithToken(ts[1..]);
      assert IsToken(ts[1..][0]);
    }
  }
}
