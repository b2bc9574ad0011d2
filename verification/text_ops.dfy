/**
 * The Python string operations the conversation engine relies on:
 * `str.isspace`, `str.lower`, `str.strip`, `str.split()` with no argument,
 * `sep.join(...)` and the substring test `t in s`.
 */
module TextOps {

  /** Python's `str.isspace` on one character (the Unicode White_Space characters Python accepts). */
  predicate IsSpace(c: char) {
    || c == ' '
    || ('\t' <= c <= '\r')
    || ('\U{1c}' <= c <= '\U{1f}')
    || c == '\U{85}'
    || c == '\U{a0}'
    || c == '\U{1680}'
    || ('\U{2000}' <= c <= '\U{200a}')
    || c == '\U{2028}'
    || c == '\U{2029}'
    || c == '\U{202f}'
    || c == '\U{205f}'
    || c == '\U{3000}'
  }

  /** Every character is white space (so the empty string too). */
  predicate AllSpace(s: string) {
    forall k :: 0 <= k < |s| ==> IsSpace(s[k])
  }

  predicate NoSpace(w: string) {
    forall i :: 0 <= i < |w| ==> !IsSpace(w[i])
  }

  /** `t in s` for strings: `t` occurs as a contiguous piece of `s`. */
  predicate IsInfix(t: string, s: string) {
    exists i :: 0 <= i <= |s| && t <= s[i..]
  }

  // ---------------------------------------------------------------- lower

  /** Lower-casing of one character; only the ASCII letters are mapped. */
  function LowerChar(c: char): char {
    if 'A' <= c <= 'Z' then (c as int + 32) as char else c
  }

  /** `s.lower()`, character by character. */
  function Lower(s: string): (r: string)
    ensures |r| == |s|
    ensures forall i :: 0 <= i < |s| ==> r[i] == LowerChar(s[i])
  {
    if s == [] then [] else [LowerChar(s[0])] + Lower(s[1..])
  }

  /** Lower-casing twice is lower-casing once. */
  lemma LowerIdempotent(s: string)
    ensures Lower(Lower(s)) == Lower(s)
  {
  }

  // ---------------------------------------------------------------- strip

  function StripLeft(s: string): (r: string)
    ensures |r| <= |s| && r == s[|s| - |r|..]
    ensures forall k :: 0 <= k < |s| - |r| ==> IsSpace(s[k])
    ensures r != [] ==> !IsSpace(r[0])
  {
    if s != [] && IsSpace(s[0]) then
      var r := StripLeft(s[1..]);
      assert forall k :: 1 <= k < |s| - |r| ==> s[k] == s[1..][k - 1];
      r
    else s
  }

  function StripRight(s: string): (r: string)
    ensures |r| <= |s| && r == s[..|r|]
    ensures forall k :: |r| <= k < |s| ==> IsSpace(s[k])
    ensures r != [] ==> !IsSpace(r[|r| - 1])
  {
    if s != [] && IsSpace(s[|s| - 1]) then
      var r := StripRight(s[..|s| - 1]);
      assert forall k :: |r| <= k < |s| - 1 ==> s[k] == s[..|s| - 1][k];
      r
    else s
  }

  /** `r` is the piece of `s` at position `i`, and everything of `s` before and after it is white space. */
  predicate StrippedAt(s: string, r: string, i: int) {
    && 0 <= i && i + |r| <= |s| && r == s[i..i + |r|]
    && (forall k :: 0 <= k < i ==> IsSpace(s[k]))
    && (forall k :: i + |r| <= k < |s| ==> IsSpace(s[k]))
  }

  /** Dropping white space first on the left and then on the right leaves the piece between the two. */
  lemma StripPieces(s: string, left: string, r: string)
    requires |left| <= |s| && left == s[|s| - |left|..]
    requires forall k :: 0 <= k < |s| - |left| ==> IsSpace(s[k])
    requires |r| <= |left| && r == left[..|r|]
    requires forall k :: |r| <= k < |left| ==> IsSpace(left[k])
    ensures StrippedAt(s, r, |s| - |left|)
  {
    var i := |s| - |left|;
    forall k | i + |r| <= k < |s|
      ensures IsSpace(s[k])
    {
      assert s[k] == left[k - i];
    }
  }

  /** The strip is empty exactly when every character is white space. */
  lemma StrippedEmpty(s: string, r: string, i: int)
    requires StrippedAt(s, r, i)
    requires r != [] ==> !IsSpace(r[0])
    ensures r == [] <==> AllSpace(s)
  {
    if r != [] {
      assert s[i] == r[0];
    }
  }

  /** `s.strip()`: drop the white space at both ends. */
  function Strip(s: string): (r: string)
    ensures r != [] ==> !IsSpace(r[0]) && !IsSpace(r[|r| - 1])
    ensures r == [] <==> AllSpace(s)
  {
    var left := StripLeft(s);
    StrippedEmpty(s, StripRight(left), |s| - |left|);
    StripRight(left)
  }

  /**
   * Strip removes white space at the two ends and nowhere else: the result
   * is a piece of the input with only white space around it, and it is empty
   * exactly when the input is all white space.
   */
  lemma StripOnlyEnds(s: string)
    ensures exists i :: StrippedAt(s, Strip(s), i)
    ensures Strip(s) == [] <==> AllSpace(s)
  {
    var left := StripLeft(s);
    StripPieces(s, left, Strip(s));
    StrippedEmpty(s, Strip(s), |s| - |left|);
  }

  /** A string with no white space at either end is its own strip. */
  lemma StripTrimmed(s: string)
    requires s != [] ==> !IsSpace(s[0]) && !IsSpace(s[|s| - 1])
    ensures Strip(s) == s
  {
  }

  // ---------------------------------------------------------------- join

  /** `sep.join(ws)`. */
  function Join(ws: seq<string>, sep: string): string {
    if |ws| == 0 then ""
    else if |ws| == 1 then ws[0]
    else ws[0] + sep + Join(ws[1..], sep)
  }

  // ---------------------------------------------------------------- split

  /** The longest prefix of `s` without white space. */
  function Word(s: string): (w: string)
    ensures w <= s && NoSpace(w)
    ensures |w| < |s| ==> IsSpace(s[|w|])
  {
    if s == [] || IsSpace(s[0]) then [] else [s[0]] + Word(s[1..])
  }

  /** `s.split()`: the maximal runs of non-space characters, in order. */
  function Split(s: string): (ws: seq<string>)
    ensures forall i :: 0 <= i < |ws| ==> ws[i] != [] && NoSpace(ws[i])
    decreases |s|
  {
    if s == [] then []
    else if IsSpace(s[0]) then Split(s[1..])
    else
      var w := Word(s);
      [w] + Split(s[|w|..])
  }

  // ---------------------------------------------------------------- lemmas

  lemma InfixAt(t: string, s: string, i: nat)
    requires i + |t| <= |s| && s[i..i + |t|] == t
    ensures IsInfix(t, s)
  {
    assert t <= s[i..];
  }

  lemma InfixLeft(t: string, a: string, b: string)
    requires IsInfix(t, a)
    ensures IsInfix(t, a + b)
  {
    var i :| 0 <= i <= |a| && t <= a[i..];
    assert (a + b)[i..] == a[i..] + b;
  }

  lemma InfixRight(t: string, a: string, b: string)
    requires IsInfix(t, b)
    ensures IsInfix(t, a + b)
  {
    var i :| 0 <= i <= |b| && t <= b[i..];
    assert (a + b)[|a| + i..] == b[i..];
  }

  lemma InfixMiddle(t: string, a: string, b: string)
    ensures IsInfix(t, a + t + b)
  {
    InfixAt(t, a + t + b, |a|);
  }

  /** Every piece of a join occurs in the joined string. */
  lemma {:induction false} JoinContainsEach(ws: seq<string>, sep: string, k: nat)
    requires k < |ws|
    ensures IsInfix(ws[k], Join(ws, sep))
  {
    if |ws| == 1 {
      InfixAt(ws[0], ws[0], 0);
    } else if k == 0 {
      InfixAt(ws[0], ws[0], 0);
      InfixLeft(ws[0], ws[0], sep + Join(ws[1..], sep));
      assert ws[0] + sep + Join(ws[1..], sep) == ws[0] + (sep + Join(ws[1..], sep));
    } else {
      JoinContainsEach(ws[1..], sep, k - 1);
      InfixRight(ws[k], ws[0] + sep, Join(ws[1..], sep));
    }
  }

  /** The first word of `w + t` is `w` when `w` has no space and `t` is empty or starts with one. */
  lemma {:induction false} WordOfPrefix(w: string, t: string)
    requires NoSpace(w)
    requires t != [] ==> IsSpace(t[0])
    ensures Word(w + t) == w
  {
    if w == [] {
      assert w + t == t;
    } else {
      assert (w + t)[1..] == w[1..] + t;
      WordOfPrefix(w[1..], t);
      assert w == [w[0]] + w[1..];
    }
  }

  /** The first word is not changed by what follows a space. */
  lemma {:induction false} WordBeforeSpace(u: string, t: string)
    requires t != [] && IsSpace(t[0])
    ensures Word(u + t) == Word(u)
  {
    if u == [] {
      assert u + t == t;
    } else if !IsSpace(u[0]) {
      assert (u + t)[1..] == u[1..] + t;
      WordBeforeSpace(u[1..], t);
    }
  }

  lemma SplitAfterWord(w: string, t: string)
    requires w != [] && NoSpace(w)
    requires t != [] ==> IsSpace(t[0])
    ensures Split(w + t) == [w] + Split(t)
  {
    WordOfPrefix(w, t);
    assert (w + t)[|w|..] == t;
  }

  /** Splitting words joined by single spaces gives the words back. */
  lemma {:induction false} SplitJoin(ws: seq<string>)
    requires forall i :: 0 <= i < |ws| ==> ws[i] != [] && NoSpace(ws[i])
    ensures Split(Join(ws, " ")) == ws
  {
    if |ws| == 0 {
    } else if |ws| == 1 {
      SplitAfterWord(ws[0], []);
      assert ws[0] + [] == ws[0];
    } else {
      var rest := Join(ws[1..], " ");
      SplitJoin(ws[1..]);
      assert (" " + rest)[1..] == rest;
      SplitAfterWord(ws[0], " " + rest);
      assert ws[0] + " " + rest == ws[0] + (" " + rest);
      assert ws == [ws[0]] + ws[1..];
    }
  }

  /** A single run of non-space characters splits into itself. */
  lemma SplitWord(w: string)
    requires w != [] && NoSpace(w)
    ensures Split(w) == [w]
  {
    SplitAfterWord(w, []);
    assert w + [] == w;
  }

  /** There are no tokens exactly when every character is white space. */
  lemma {:induction false} SplitEmpty(s: string)
    ensures Split(s) == [] <==> AllSpace(s)
    decreases |s|
  {
    if s != [] && IsSpace(s[0]) {
      SplitEmpty(s[1..]);
      assert forall k :: 1 <= k < |s| ==> s[k] == s[1..][k - 1];
    }
  }

  /** One step of `Split` on a string that starts with a word. */
  lemma SplitFirst(s: string)
    requires s != [] && !IsSpace(s[0])
    ensures Split(s) == [Word(s)] + Split(s[|Word(s)|..])
  {
  }

  /** One step of `Split` on a string that starts with white space. */
  lemma SplitSkip(s: string)
    requires s != [] && IsSpace(s[0])
    ensures Split(s) == Split(s[1..])
  {
  }

  /** Appending white space and more text keeps the first word, and what follows it. */
  lemma WordAtSpace(u: string, c: char, v: string)
    requires IsSpace(c) && u != [] && !IsSpace(u[0])
    ensures (u + [c] + v)[0] == u[0]
    ensures Word(u + [c] + v) == Word(u)
    ensures (u + [c] + v)[|Word(u)|..] == u[|Word(u)|..] + [c] + v
  {
    assert u + [c] + v == u + ([c] + v);
    WordBeforeSpace(u, [c] + v);
  }

  /** The inductive step of `SplitAtSpace` when `u` starts with a word. */
  lemma SplitAtSpaceWord(u: string, c: char, v: string)
    requires IsSpace(c) && u != [] && !IsSpace(u[0])
    requires Split(u[|Word(u)|..] + [c] + v) == Split(u[|Word(u)|..]) + Split(v)
    ensures Split(u + [c] + v) == Split(u) + Split(v)
  {
    WordAtSpace(u, c, v);
    SplitFirst(u);
    SplitFirst(u + [c] + v);
    var w, rest := Word(u), Split(u[|Word(u)|..]);
    assert [w] + rest + Split(v) == [w] + (rest + Split(v));
  }

  /** A white-space character separates: the tokens on its left come first, then those on its right. */
  lemma {:induction false} SplitAtSpace(u: string, c: char, v: string)
    requires IsSpace(c)
    ensures Split(u + [c] + v) == Split(u) + Split(v)
    decreases |u|
  {
    if u == [] {
      assert u + [c] + v == [c] + v && ([c] + v)[1..] == v;
      SplitSkip([c] + v);
    } else if IsSpace(u[0]) {
      var s := u + [c] + v;
      assert s[0] == u[0] && s[1..] == u[1..] + [c] + v;
      SplitAtSpace(u[1..], c, v);
      SplitSkip(u);
      SplitSkip(s);
    } else {
      SplitAtSpace(u[|Word(u)|..], c, v);
      SplitAtSpaceWord(u, c, v);
    }
  }
}
