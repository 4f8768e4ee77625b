/** The pieces of Python's `str` and builtins that the application relies on:
    `str.split()` with no separator, `" ".join`, `str.strip()`, `str.lower()`
    (on ASCII letters) and `min`/`max` on integers. */
module PyText {

  function Min(a: int, b: int): int { if a <= b then a else b }

  function Max(a: int, b: int): int { if a >= b then a else b }

  /** The characters Python's `str.isspace` accepts, which are the separators of
      `str.split()` and what `str.strip()` removes. */
  predicate IsSpace(c: char) {
    c == ' ' || ('\t' <= c <= '\r') || ('\U{1C}' <= c <= '\U{1F}')
    || c == '\U{85}' || c == '\U{A0}' || c == '\U{1680}'
    || ('\U{2000}' <= c <= '\U{200A}') || c == '\U{2028}' || c == '\U{2029}'
    || c == '\U{202F}' || c == '\U{205F}' || c == '\U{3000}'
  }

  /** A word as `str.split()` yields it: non-empty, without whitespace. */
  predicate IsWord(w: string) {
    w != [] && forall i :: 0 <= i < |w| ==> !IsSpace(w[i])
  }

  /** The characters of `s` that are not whitespace, in order. */
  function NonSpace(s: string): string {
    if s == [] then []
    else if IsSpace(s[0]) then NonSpace(s[1..])
    else [s[0]] + NonSpace(s[1..])
  }

  /** The words one after the other, with nothing between them. */
  function Concat(words: seq<string>): string {
    if words == [] then [] else words[0] + Concat(words[1..])
  }

  /** The longest prefix of `s` that holds no whitespace. */
  function LeadingWord(s: string): (w: string)
    ensures w <= s
    ensures forall i :: 0 <= i < |w| ==> !IsSpace(w[i])
    ensures |w| < |s| ==> IsSpace(s[|w|])
  {
    if s == [] || IsSpace(s[0]) then [] else [s[0]] + LeadingWord(s[1..])
  }

  /** A whitespace-free prefix that stops at whitespace or at the end of `s` is
      the leading word of `s`. */
  lemma LeadingWordIs(s: string, w: string)
    requires w <= s
    requires forall i :: 0 <= i < |w| ==> !IsSpace(w[i])
    requires |w| == |s| || IsSpace(s[|w|])
    ensures LeadingWord(s) == w
  {
  }

  lemma {:induction false} NonSpaceAppend(a: string, b: string)
    ensures NonSpace(a + b) == NonSpace(a) + NonSpace(b)
  {
    if a == [] {
      assert a + b == b;
    } else {
      assert (a + b)[0] == a[0] && (a + b)[1..] == a[1..] + b;
      NonSpaceAppend(a[1..], b);
      if !IsSpace(a[0]) {
        assert [a[0]] + (NonSpace(a[1..]) + NonSpace(b)) == ([a[0]] + NonSpace(a[1..])) + NonSpace(b);
      }
    }
  }

  lemma {:induction false} NonSpaceOfSpaceFree(w: string)
    requires forall i :: 0 <= i < |w| ==> !IsSpace(w[i])
    ensures NonSpace(w) == w
  {
    if w != [] {
      NonSpaceOfSpaceFree(w[1..]);
    }
  }

  /** Python's `s.split()`: the maximal runs of non-whitespace characters, in
      order. Every piece is a word, and together they hold exactly the
      non-whitespace characters of `s`. */
  function Split(s: string): (words: seq<string>)
    ensures forall i :: 0 <= i < |words| ==> IsWord(words[i])
    ensures Concat(words) == NonSpace(s)
    decreases |s|
  {
    if s == [] then []
    else if IsSpace(s[0]) then Split(s[1..])
    else
      var w := LeadingWord(s);
      assert s == w + s[|w|..];
      NonSpaceAppend(w, s[|w|..]);
      NonSpaceOfSpaceFree(w);
      [w] + Split(s[|w|..])
  }

  /** A single word splits into itself. */
  lemma SplitWord(w: string)
    requires IsWord(w)
    ensures Split(w) == [w]
  {
    LeadingWordIs(w, w);
    assert w[|w|..] == [];
  }

  /** A whitespace character separates: the words on its left come first, then
      those on its right. With `SplitWord` this pins down `Split` completely,
      and so the word count `len(text.split())`. */
  lemma {:induction false} SplitAtSpace(a: string, c: char, b: string)
    requires IsSpace(c)
    ensures Split(a + [c] + b) == Split(a) + Split(b)
    decreases |a|
  {
    var s := a + [c] + b;
    if a == [] {
      assert s == [c] + b && s[1..] == b;
    } else if IsSpace(a[0]) {
      assert s[0] == a[0] && s[1..] == a[1..] + [c] + b;
      SplitAtSpace(a[1..], c, b);
    } else {
      SplitAtSpace(a[|LeadingWord(a)|..], c, b);
      SplitAtSpaceAfterWord(a, c, b);
    }
  }

  /** The step of `SplitAtSpace` for a text that starts with a word: the word
      comes first on both sides, and the rest is the shorter case. */
  lemma SplitAtSpaceAfterWord(a: string, c: char, b: string)
    requires IsSpace(c) && a != [] && !IsSpace(a[0])
    requires var rest := a[|LeadingWord(a)|..];
      Split(rest + [c] + b) == Split(rest) + Split(b)
    ensures Split(a + [c] + b) == Split(a) + Split(b)
  {
    var s := a + [c] + b;
    var w := LeadingWord(a);
    assert s[0] == a[0];
    assert |w| < |a| ==> s[|w|] == a[|w|];
    assert |w| == |a| ==> s[|w|] == c;
    LeadingWordIs(s, w);
    DropAppend(a, [c] + b, |w|);
    AppendAssoc(a, [c], b);
    AppendAssoc(a[|w|..], [c], b);
    AppendAssoc([w], Split(a[|w|..]), Split(b));
  }

  lemma DropAppend<T>(p: seq<T>, q: seq<T>, k: nat)
    requires k <= |p|
    ensures (p + q)[k..] == p[k..] + q
  {
  }

  lemma AppendAssoc<T>(p: seq<T>, q: seq<T>, r: seq<T>)
    ensures p + (q + r) == (p + q) + r
  {
  }

  /** Python's `" ".join(words)`. */
  function Join(words: seq<string>): string {
    if words == [] then []
    else if |words| == 1 then words[0]
    else words[0] + " " + Join(words[1..])
  }

  /** Splitting words joined by single spaces gives the words back. */
  lemma {:induction false} SplitJoin(words: seq<string>)
    requires forall i :: 0 <= i < |words| ==> IsWord(words[i])
    ensures Split(Join(words)) == words
  {
    if words == [] {
    } else {
      var w := words[0];
      assert IsWord(w);
      if |words| == 1 {
        LeadingWordIs(w, w);
        assert w[|w|..] == [];
      } else {
        var rest := Join(words[1..]);
        var s := w + " " + rest;
        assert s[0] == w[0];
        LeadingWordIs(s, w);
        assert s[|w|..] == [' '] + rest;
        assert (s[|w|..])[1..] == rest;
        SplitJoin(words[1..]);
        assert [w] + words[1..] == words;
      }
    }
  }

  /** A whitespace character added at the end does not change the words. */
  lemma {:induction false} SplitTrailingSpace(t: string, c: char)
    requires IsSpace(c)
    ensures Split(t + [c]) == Split(t)
    decreases |t|
  {
    var s := t + [c];
    if t == [] {
      assert s[1..] == [];
    } else if IsSpace(t[0]) {
      assert s[1..] == t[1..] + [c];
      SplitTrailingSpace(t[1..], c);
    } else {
      var w := LeadingWord(t);
      LeadingWordIs(s, w);
      assert s[|w|..] == t[|w|..] + [c];
      SplitTrailingSpace(t[|w|..], c);
    }
  }

  /** `s` with its leading whitespace removed (Python's `s.lstrip()`). */
  function TrimStart(s: string): (r: string)
    ensures |r| <= |s| && r == s[|s| - |r|..]
    ensures forall i :: 0 <= i < |s| - |r| ==> IsSpace(s[i])
    ensures r == [] || !IsSpace(r[0])
  {
    if s != [] && IsSpace(s[0]) then TrimStart(s[1..]) else s
  }

  /** `s` with its trailing whitespace removed (Python's `s.rstrip()`). */
  function TrimEnd(s: string): (r: string)
    ensures |r| <= |s| && r == s[..|r|]
    ensures forall i :: |r| <= i < |s| ==> IsSpace(s[i])
    ensures r == [] || !IsSpace(r[|r| - 1])
  {
    if s != [] && IsSpace(s[|s| - 1]) then TrimEnd(s[..|s| - 1]) else s
  }

  lemma {:induction false} SplitTrimStart(s: string)
    ensures Split(TrimStart(s)) == Split(s)
  {
    if s != [] && IsSpace(s[0]) {
      SplitTrimStart(s[1..]);
    }
  }

  lemma {:induction false} SplitTrimEnd(s: string)
    ensures Split(TrimEnd(s)) == Split(s)
  {
    if s != [] && IsSpace(s[|s| - 1]) {
      var t := s[..|s| - 1];
      assert s == t + [s[|s| - 1]];
      SplitTrailingSpace(t, s[|s| - 1]);
      SplitTrimEnd(t);
    }
  }

  /** `r` is the slice of `s` starting at `k`, and every character of `s`
      outside that slice is whitespace. */
  predicate IsCoreOf(s: string, k: nat, r: string) {
    && k + |r| <= |s|
    && r == s[k..k + |r|]
    && (forall i :: 0 <= i < k ==> IsSpace(s[i]))
    && (forall i :: k + |r| <= i < |s| ==> IsSpace(s[i]))
  }

  /** The `i`th character of a core is the `k + i`th character of `s`. */
  lemma CoreAt(s: string, k: nat, r: string, i: nat)
    requires IsCoreOf(s, k, r) && i < |r|
    ensures r[i] == s[k + i]
  {
  }

  /** Neither end of `s` is whitespace. */
  predicate IsStripped(s: string) {
    s == [] || (!IsSpace(s[0]) && !IsSpace(s[|s| - 1]))
  }

  /** Python's `s.strip()`: a slice of `s` with whitespace on either side of
      it and none at its own ends, so only whitespace at the ends is removed;
      the words of `s` are left as they were. */
  function Strip(s: string): (r: string)
    ensures IsStripped(r)
    ensures exists k: nat :: IsCoreOf(s, k, r)
    ensures Split(r) == Split(s)
  {
    var t := TrimStart(s);
    SplitTrimStart(s);
    SplitTrimEnd(t);
    var r := TrimEnd(t);
    assert r != [] ==> r[0] == t[0];
    TrimBothCore(s);
    r
  }

  /** Trimming both ends leaves a slice of `s` with only whitespace around it. */
  lemma TrimBothCore(s: string)
    ensures IsCoreOf(s, |s| - |TrimStart(s)|, TrimEnd(TrimStart(s)))
  {
    CoreOfTrims(s, TrimStart(s), TrimEnd(TrimStart(s)));
  }

  /** A suffix `t` of `s` after whitespace, then a prefix `r` of `t` before
      whitespace: `r` is a core of `s`. */
  lemma CoreOfTrims(s: string, t: string, r: string)
    requires |t| <= |s| && t == s[|s| - |t|..]
    requires forall i :: 0 <= i < |s| - |t| ==> IsSpace(s[i])
    requires |r| <= |t| && r == t[..|r|]
    requires forall i :: |r| <= i < |t| ==> IsSpace(t[i])
    ensures IsCoreOf(s, |s| - |t|, r)
  {
    var k := |s| - |t|;
    assert r == s[k..k + |r|];
    forall i | k + |r| <= i < |s|
      ensures IsSpace(s[i])
    {
      assert s[i] == t[i - k];
    }
  }

  /** Stripping a string that is already stripped changes nothing. */
  lemma StripStripped(s: string)
    requires IsStripped(s)
    ensures Strip(s) == s
  {
  }

  function LowerChar(c: char): (l: char)
    ensures IsSpace(l) == IsSpace(c)
  {
    if 'A' <= c <= 'Z' then (c as int + ('a' as int - 'A' as int)) as char else c
  }

  /** Python's `s.lower()` restricted to ASCII letters: `A`-`Z` become `a`-`z`,
      every other character is kept. */
  function Lower(s: string): (r: string)
    ensures |r| == |s|
    ensures forall i :: 0 <= i < |s| ==> r[i] == LowerChar(s[i])
    ensures forall i :: 0 <= i < |r| ==> !('A' <= r[i] <= 'Z')
    ensures IsStripped(s) ==> IsStripped(r)
  {
    seq(|s|, i requires 0 <= i < |s| => LowerChar(s[i]))
  }

  /** Lower-casing a string without ASCII capitals changes nothing. */
  lemma LowerUncapitalized(s: string)
    requires forall i :: 0 <= i < |s| ==> !('A' <= s[i] <= 'Z')
    ensures Lower(s) == s
  {
    assert forall i :: 0 <= i < |s| ==> Lower(s)[i] == s[i];
  }
}
