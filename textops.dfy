/**
 * The handful of Python `str` operations the API relies on: `strip()`,
 * `split()`, `startswith()`, `count()`, `lower()`, `upper()` and the
 * substring test `a in b`. Strings are sequences of Unicode scalar values,
 * like Python's `str`.
 */
module TextOps {
  import opened Wrappers

  /** The characters Python's `str.isspace()` accepts; `strip()` and `split()` use this set. */
  predicate IsSpace(c: char) {
    c == ' ' || ('\t' <= c <= '\r') || ('\U{1C}' <= c <= '\U{1F}') ||
    c == '\U{85}' || c == '\U{A0}' || c == '\U{1680}' ||
    ('\U{2000}' <= c <= '\U{200A}') || c == '\U{2028}' || c == '\U{2029}' ||
    c == '\U{202F}' || c == '\U{205F}' || c == '\U{3000}'
  }

  predicate AllSpace(s: string) {
    forall i :: 0 <= i < |s| ==> IsSpace(s[i])
  }

  predicate NoSpace(s: string) {
    forall i :: 0 <= i < |s| ==> !IsSpace(s[i])
  }

  /** Python's `s.startswith(p)`. */
  predicate StartsWith(s: string, p: string) {
    p <= s
  }

  /** The number of whitespace characters at the front of `s`. */
  function LeadingSpaces(s: string): (n: nat)
    ensures n <= |s|
    ensures AllSpace(s[..n])
    ensures n == |s| || !IsSpace(s[n])
  {
    if s != [] && IsSpace(s[0]) then
      var m := LeadingSpaces(s[1..]);
      assert s[..1 + m] == [s[0]] + s[1..][..m];
      1 + m
    else 0
  }

  /** The number of whitespace characters at the back of `s`. */
  function TrailingSpaces(s: string): (n: nat)
    ensures n <= |s|
    ensures AllSpace(s[|s| - n..])
    ensures n == |s| || !IsSpace(s[|s| - n - 1])
  {
    if s != [] && IsSpace(s[|s| - 1]) then
      var t := s[..|s| - 1];
      var m := TrailingSpaces(t);
      assert s[|s| - (1 + m)..] == t[|t| - m..] + [s[|s| - 1]];
      1 + m
    else 0
  }

  /**
   * Python's `s.strip()`: the contiguous middle of `s` that starts after its
   * leading whitespace, is followed in `s` only by whitespace, and has no
   * whitespace at either of its ends.
   */
  function Trim(s: string): (r: string)
    ensures LeadingSpaces(s) + |r| <= |s|
    ensures r == s[LeadingSpaces(s)..LeadingSpaces(s) + |r|]
    ensures AllSpace(s[LeadingSpaces(s) + |r|..])
    ensures r == [] || (!IsSpace(r[0]) && !IsSpace(r[|r| - 1]))
  {
    var a := LeadingSpaces(s);
    var t := s[a..];
    var b := TrailingSpaces(t);
    var r := t[..|t| - b];
    assert r == s[a..a + |r|];
    assert s[a + |r|..] == t[|t| - b..];
    assert r != [] ==> a != |s| && b != |t| && r[0] == s[a] && r[|r| - 1] == t[|t| - b - 1];
    r
  }

  /** The length of the run of non-whitespace characters at the front of `s`. */
  function WordLength(s: string): (n: nat)
    ensures n <= |s|
    ensures NoSpace(s[..n])
    ensures n == |s| || IsSpace(s[n])
  {
    if s != [] && !IsSpace(s[0]) then
      var m := WordLength(s[1..]);
      assert s[..1 + m] == [s[0]] + s[1..][..m];
      1 + m
    else 0
  }

  /**
   * Python's `s.split()` with no separator: the maximal runs of
   * non-whitespace characters, in order.
   */
  function Tokens(s: string): (r: seq<string>)
    ensures forall k :: 0 <= k < |r| ==> r[k] != [] && NoSpace(r[k])
    ensures r == [] <==> AllSpace(s)
    decreases |s|
  {
    var t := s[LeadingSpaces(s)..];
    if t == [] then
      assert s[..LeadingSpaces(s)] == s;
      []
    else
      var n := WordLength(t);
      [t[..n]] + Tokens(t[n..])
  }

  /**
   * `s.split()[1]`: the second whitespace-separated token, or `None`
   * where Python raises IndexError.
   */
  function SecondToken(s: string): (r: Option<string>)
    ensures r.Some? <==> |Tokens(s)| >= 2
    ensures r.Some? ==> r.value == Tokens(s)[1] && r.value != [] && NoSpace(r.value)
  {
    var ts := Tokens(s);
    if |ts| >= 2 then Some(ts[1]) else None
  }

  /** Python's `s.count(c)` for a one-character `c`. */
  function Count(s: string, c: char): (n: nat)
    ensures n <= |s|
  {
    if s == [] then 0 else (if s[0] == c then 1 else 0) + Count(s[1..], c)
  }

  function LowerChar(c: char): char {
    if 'A' <= c <= 'Z' then (c as int + 32) as char else c
  }

  function UpperChar(c: char): char {
    if 'a' <= c <= 'z' then (c as int - 32) as char else c
  }

  /** Python's `s.lower()`, on the ASCII letters. */
  function Lower(s: string): string {
    if s == [] then [] else [LowerChar(s[0])] + Lower(s[1..])
  }

  /** Python's `s.upper()`, on the ASCII letters. */
  function Upper(s: string): string {
    if s == [] then [] else [UpperChar(s[0])] + Upper(s[1..])
  }

  /** `p` occurs in `s` starting at index `i`. */
  ghost predicate OccursAt(s: string, p: string, i: int) {
    0 <= i && i + |p| <= |s| && s[i..i + |p|] == p
  }

  /** Python's `p in s`: plain substring containment, scanning from the left. */
  function Contains(s: string, p: string): bool
    decreases |s|
  {
    if StartsWith(s, p) then true
    else if s == [] then false
    else Contains(s[1..], p)
  }

  // ---- lemmas ----

  /** `Count` agrees with the multiplicity of `c` in the multiset of `s`. */
  lemma {:induction false} CountIsMultiplicity(s: string, c: char)
    ensures Count(s, c) == multiset(s)[c]
  {
    if s != [] {
      CountIsMultiplicity(s[1..], c);
      assert s == [s[0]] + s[1..];
    }
  }

  lemma OccursAtZero(s: string, p: string)
    ensures OccursAt(s, p, 0) <==> StartsWith(s, p)
  {
    if |p| <= |s| {
      assert s[0..|p|] == s[..|p|];
    }
  }

  /** `Contains` is exactly "some index at which `p` occurs". */
  lemma {:induction false} ContainsIff(s: string, p: string)
    ensures Contains(s, p) <==> exists i :: OccursAt(s, p, i)
    decreases |s|
  {
    OccursAtZero(s, p);
    if StartsWith(s, p) {
      assert OccursAt(s, p, 0);
    } else if s != [] {
      ContainsIff(s[1..], p);
      forall i | OccursAt(s[1..], p, i)
        ensures OccursAt(s, p, i + 1)
      {
        assert s[i + 1..i + 1 + |p|] == s[1..][i..i + |p|];
      }
      forall i | OccursAt(s, p, i) && i > 0
        ensures OccursAt(s[1..], p, i - 1)
      {
        assert s[1..][i - 1..i - 1 + |p|] == s[i..i + |p|];
      }
    }
  }

  /** Stripping twice is stripping once. */
  lemma TrimIdempotent(s: string)
    ensures Trim(Trim(s)) == Trim(s)
  {
    var r := Trim(s);
    assert LeadingSpaces(r) == 0;
    assert TrailingSpaces(r) == 0;
  }

  /** Padding whitespace around a string with no whitespace at its ends is stripped away exactly. */
  lemma {:induction false} TrimPadded(pre: string, w: string, post: string)
    requires AllSpace(pre) && AllSpace(post)
    requires w == [] || (!IsSpace(w[0]) && !IsSpace(w[|w| - 1]))
    requires w != [] || post == []
    ensures Trim(pre + w + post) == w
  {
    var s := pre + w + post;
    LeadingOfPadded(pre, w + post);
    assert (pre + (w + post)) == s;
    assert s[|pre|..] == w + post;
    TrailingOfPadded(w, post);
  }

  lemma {:induction false} LeadingOfPadded(pre: string, rest: string)
    requires AllSpace(pre)
    requires rest == [] || !IsSpace(rest[0])
    ensures LeadingSpaces(pre + rest) == |pre|
    decreases |pre|
  {
    if pre != [] {
      assert (pre + rest)[1..] == pre[1..] + rest;
      LeadingOfPadded(pre[1..], rest);
    } else {
      assert pre + rest == rest;
    }
  }

  lemma {:induction false} TrailingOfPadded(w: string, post: string)
    requires AllSpace(post)
    requires w == [] || !IsSpace(w[|w| - 1])
    requires w != [] || post == []
    ensures TrailingSpaces(w + post) == |post|
    decreases |post|
  {
    if post != [] {
      var t := w + post;
      assert t[..|t| - 1] == w + post[..|post| - 1];
      TrailingOfPadded(w, post[..|post| - 1]);
    } else {
      assert w + post == w;
    }
  }

  /** A non-empty word followed by whitespace splits into that word and the split of the rest. */
  lemma TokensOfWord(w: string, rest: string)
    requires w != [] && NoSpace(w)
    requires rest == [] || IsSpace(rest[0])
    ensures Tokens(w + rest) == [w] + Tokens(rest)
  {
    var s := w + rest;
    assert LeadingSpaces(s) == 0;
    assert s[0..] == s;
    WordOfPadded(w, rest);
    assert s[..|w|] == w;
    assert s[|w|..] == rest;
  }

  /** `split()` skips leading whitespace. */
  lemma TokensAfterSpace(pre: string, t: string)
    requires AllSpace(pre)
    ensures Tokens(pre + t) == Tokens(t)
  {
    var s := pre + t;
    LeadingAppend(pre, t);
    assert s[LeadingSpaces(s)..] == t[LeadingSpaces(t)..];
  }

  lemma {:induction false} LeadingAppend(pre: string, t: string)
    requires AllSpace(pre)
    ensures LeadingSpaces(pre + t) == |pre| + LeadingSpaces(t)
    decreases |pre|
  {
    if pre != [] {
      assert (pre + t)[1..] == pre[1..] + t;
      LeadingAppend(pre[1..], t);
    } else {
      assert pre + t == t;
    }
  }

  /**
   * `split()[1]` of a line made of optional whitespace, a word, whitespace,
   * a second word and then nothing or whitespace is that second word.
   */
  lemma SecondTokenOfLine(pre: string, w: string, sep: string, v: string, rest: string)
    requires AllSpace(pre) && AllSpace(sep) && sep != []
    requires w != [] && NoSpace(w) && v != [] && NoSpace(v)
    requires rest == [] || IsSpace(rest[0])
    ensures SecondToken(pre + w + sep + v + rest) == Some(v)
  {
    assert pre + w + sep + v + rest == pre + (w + (sep + (v + rest)));
    TokensAfterSpace(pre, w + (sep + (v + rest)));
    TokensOfWord(w, sep + (v + rest));
    TokensAfterSpace(sep, v + rest);
    TokensOfWord(v, rest);
  }

  lemma {:induction false} WordOfPadded(w: string, rest: string)
    requires NoSpace(w)
    requires rest == [] || IsSpace(rest[0])
    ensures WordLength(w + rest) == |w|
    decreases |w|
  {
    if w != [] {
      assert (w + rest)[1..] == w[1..] + rest;
      WordOfPadded(w[1..], rest);
    } else {
      assert w + rest == rest;
    }
  }

  /**
   * A line whose first `n` characters are a keyword without whitespace,
   * followed by whitespace and then by some non-whitespace character, has a
   * second token: `split()[1]` cannot fail on it.
   */
  lemma KeywordLineHasSecondToken(s: string, n: nat, j: int)
    requires 0 < n < |s| && NoSpace(s[..n]) && IsSpace(s[n])
    requires n < j < |s| && !IsSpace(s[j])
    ensures SecondToken(s).Some?
  {
    assert s == s[..n] + s[n..];
    TokensOfWord(s[..n], s[n..]);
    assert !IsSpace(s[n..][j - n]);
  }

  /** `lower()` keeps the length and maps each character on its own. */
  lemma {:induction false} LowerAt(s: string)
    ensures |Lower(s)| == |s|
    ensures forall i :: 0 <= i < |s| ==> Lower(s)[i] == LowerChar(s[i])
  {
    if s != [] {
      LowerAt(s[1..]);
    }
  }

  /** `upper()` keeps the length and maps each character on its own. */
  lemma {:induction false} UpperAt(s: string)
    ensures |Upper(s)| == |s|
    ensures forall i :: 0 <= i < |s| ==> Upper(s)[i] == UpperChar(s[i])
  {
    if s != [] {
      UpperAt(s[1..]);
    }
  }

  /** Lower-casing neither creates nor removes whitespace. */
  lemma LowerCharSpace(c: char)
    ensures IsSpace(LowerChar(c)) <==> IsSpace(c)
  {
  }
}
