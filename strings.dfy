/** The string operations the tools use: `+=` accumulation, `"=" * 70`,
    `lower()`/`upper()`/`isalpha()`/`split()`/`strip()`/`title()`, `in` on
    strings, slicing and integer printing. Case mapping and letter tests cover
    ASCII. */
module Strings {

  /** The text an `output += c` sequence builds from its chunks. */
  function Concat(chunks: seq<string>): string {
    if chunks == [] then "" else Concat(chunks[..|chunks| - 1]) + chunks[|chunks| - 1]
  }

  lemma {:induction false} ConcatAppend(a: seq<string>, b: seq<string>)
    ensures Concat(a + b) == Concat(a) + Concat(b)
    decreases |b|
  {
    if b == [] {
      assert a + b == a;
    } else {
      var b' := b[..|b| - 1];
      assert (a + b)[..|a + b| - 1] == a + b';
      ConcatAppend(a, b');
      AppendAssoc(Concat(a), Concat(b'), b[|b| - 1]);
    }
  }

  /** Regrouping appends; stated once so that texts with long literal parts
      need not be compared character by character. */
  lemma AppendAssoc<T>(a: seq<T>, b: seq<T>, c: seq<T>)
    ensures a + b + c == a + (b + c)
  {
  }

  /** `for c in chunks: output += c`. */
  method AppendEach(output: string, chunks: seq<string>) returns (out: string)
    ensures out == output + Concat(chunks)
  {
    out := output;
    for k := 0 to |chunks|
      invariant out == output + Concat(chunks[..k])
    {
      assert chunks[..k + 1][..k] == chunks[..k];
      AppendAssoc(output, Concat(chunks[..k]), chunks[k]);
      out := out + chunks[k];
    }
    assert chunks[..|chunks|] == chunks;
  }

  /** `c * n` for a one-character string `c`. */
  function Repeat(c: char, n: nat): (s: string)
    ensures |s| == n && forall i :: 0 <= i < n ==> s[i] == c
  {
    if n == 0 then "" else Repeat(c, n - 1) + [c]
  }

  predicate IsUpperLetter(c: char) { 'A' <= c <= 'Z' }
  predicate IsLowerLetter(c: char) { 'a' <= c <= 'z' }
  predicate IsLetter(c: char) { IsUpperLetter(c) || IsLowerLetter(c) }

  function LowerChar(c: char): char {
    if IsUpperLetter(c) then (c as int + 32) as char else c
  }

  function UpperChar(c: char): char {
    if IsLowerLetter(c) then (c as int - 32) as char else c
  }

  /** `s.lower()`. */
  function Lower(s: string): (r: string)
    ensures |r| == |s| && forall i :: 0 <= i < |s| ==> r[i] == LowerChar(s[i])
  {
    seq(|s|, i requires 0 <= i < |s| => LowerChar(s[i]))
  }

  /** `s.upper()`. */
  function Upper(s: string): (r: string)
    ensures |r| == |s| && forall i :: 0 <= i < |s| ==> r[i] == UpperChar(s[i])
  {
    seq(|s|, i requires 0 <= i < |s| => UpperChar(s[i]))
  }

  /** Upper-casing twice is upper-casing once. */
  lemma UpperIdempotent(s: string)
    ensures Upper(Upper(s)) == Upper(s)
  {
    assert forall i :: 0 <= i < |s| ==> UpperChar(UpperChar(s[i])) == UpperChar(s[i]);
  }

  /** `s.isalpha()`: non-empty and made of letters only. */
  predicate IsAlpha(s: string) {
    |s| > 0 && forall i :: 0 <= i < |s| ==> IsLetter(s[i])
  }

  predicate IsSpace(c: char) {
    c == ' ' || c == '\t' || c == '\n' || c == '\r' || c == '\U{000B}' || c == '\U{000C}'
  }

  /** `s.split()`: the maximal runs of non-whitespace characters. */
  function Split(s: string): seq<string> {
    SplitFrom(s, "")
  }

  /** Splitting `s` when the word `word` is already under way. */
  function SplitFrom(s: string, word: string): seq<string>
    decreases |s|
  {
    if s == [] then (if word == "" then [] else [word])
    else if IsSpace(s[0]) then (if word == "" then [] else [word]) + SplitFrom(s[1..], "")
    else SplitFrom(s[1..], word + [s[0]])
  }

  /** No word that `split()` returns is empty or holds whitespace. */
  lemma {:induction false} SplitWords(s: string, word: string)
    requires forall k :: 0 <= k < |word| ==> !IsSpace(word[k])
    ensures forall w :: w in SplitFrom(s, word) ==> w != "" && forall k :: 0 <= k < |w| ==> !IsSpace(w[k])
    decreases |s|
  {
    if s == [] {
    } else if IsSpace(s[0]) {
      SplitWords(s[1..], "");
    } else {
      SplitWords(s[1..], word + [s[0]]);
    }
  }

  /** A text that opens with a word and a blank splits into that word
      followed by the words of the rest. */
  lemma {:induction false} SplitFirstWord(w: string, rest: string, acc: string)
    requires acc + w != "" && forall k :: 0 <= k < |w| ==> !IsSpace(w[k])
    ensures SplitFrom(w + " " + rest, acc) == [acc + w] + SplitFrom(rest, "")
    decreases |w|
  {
    var s := w + " " + rest;
    if w == [] {
      assert s[0] == ' ' && s[1..] == rest;
      assert acc + w == acc;
    } else {
      assert s[0] == w[0] && s[1..] == w[1..] + " " + rest;
      SplitFirstWord(w[1..], rest, acc + [w[0]]);
      assert acc + [w[0]] + w[1..] == acc + w;
    }
  }

  /** Every character of every word `split()` returns satisfies `p` when
      every character of the text does. */
  lemma {:induction false} SplitKeeps(s: string, word: string, p: char -> bool)
    requires forall k :: 0 <= k < |word| ==> p(word[k])
    requires forall k :: 0 <= k < |s| ==> p(s[k])
    ensures forall w :: w in SplitFrom(s, word) ==> forall k :: 0 <= k < |w| ==> p(w[k])
    decreases |s|
  {
    if s == [] {
    } else if IsSpace(s[0]) {
      SplitKeeps(s[1..], "", p);
    } else {
      SplitKeeps(s[1..], word + [s[0]], p);
    }
  }

  function StripLeft(s: string, cs: set<char>): (r: string)
    ensures |r| <= |s| && r == s[|s| - |r|..]
    decreases |s|
  {
    if |s| > 0 && s[0] in cs then StripLeft(s[1..], cs) else s
  }

  function StripRight(s: string, cs: set<char>): (r: string)
    ensures |r| <= |s| && r == s[..|r|]
    decreases |s|
  {
    if |s| > 0 && s[|s| - 1] in cs then StripRight(s[..|s| - 1], cs) else s
  }

  /** `s.strip(chars)`: drops leading and trailing characters of `cs`. */
  function Strip(s: string, cs: set<char>): string {
    StripRight(StripLeft(s, cs), cs)
  }

  /** What `strip` leaves is made of characters of `s`, so it keeps any
      property all of them have. */
  lemma StripKeeps(s: string, cs: set<char>, p: char -> bool)
    requires forall k :: 0 <= k < |s| ==> p(s[k])
    ensures forall k :: 0 <= k < |Strip(s, cs)| ==> p(Strip(s, cs)[k])
  {
    var left := StripLeft(s, cs);
    assert forall k :: 0 <= k < |Strip(s, cs)| ==> Strip(s, cs)[k] == s[|s| - |left| + k];
  }

  /** A string none of whose characters is in `cs` is left alone by `strip`. */
  lemma StripUntouched(s: string, cs: set<char>)
    requires forall i :: 0 <= i < |s| ==> s[i] !in cs
    ensures Strip(s, cs) == s
  {
    assert StripLeft(s, cs) == s;
  }

  predicate StartsWith(s: string, prefix: string) {
    |prefix| <= |s| && s[..|prefix|] == prefix
  }

  lemma StartsWithJoin(a: string, b: string)
    ensures StartsWith(a + b, a)
  {
    assert (a + b)[..|a|] == a;
  }

  /** A non-empty text keeps its first character when extended. */
  lemma PrefixFirst(a: string, b: string)
    requires |a| > 0
    ensures (a + b)[0] == a[0]
  {
  }

  lemma JoinDiffers(h: string, a: string, b: string)
    requires |a| > 0 && |b| > 0 && a[0] != b[0]
    ensures h + a != h + b
  {
    assert (h + a)[|h|] == a[0] && (h + b)[|h|] == b[0];
  }

  lemma StartsWithExtend(s: string, prefix: string, more: string)
    requires StartsWith(s, prefix)
    ensures StartsWith(s + more, prefix)
  {
    assert (s + more)[..|prefix|] == s[..|prefix|];
  }

  lemma FirstCharDiffers(s: string, prefix: string)
    requires |s| > 0 && |prefix| > 0 && s[0] != prefix[0]
    ensures !StartsWith(s, prefix)
  {
    if |prefix| <= |s| {
      assert s[..|prefix|][0] == s[0];
    }
  }

  /** `pat in text` for strings. */
  predicate Contains(text: string, pat: string)
    decreases |text|
  {
    StartsWith(text, pat) || (|text| > 0 && Contains(text[1..], pat))
  }

  /** `any(k in text for k in keywords)`. */
  predicate AnyIn(keywords: seq<string>, text: string)
    decreases |keywords|
  {
    |keywords| > 0 && (Contains(text, keywords[0]) || AnyIn(keywords[1..], text))
  }

  lemma {:induction false} AnyInMeans(keywords: seq<string>, text: string)
    ensures AnyIn(keywords, text) <==> exists i :: 0 <= i < |keywords| && Contains(text, keywords[i])
    decreases |keywords|
  {
    if |keywords| > 0 {
      AnyInMeans(keywords[1..], text);
      if Contains(text, keywords[0]) {
      } else if AnyIn(keywords[1..], text) {
        var i :| 0 <= i < |keywords[1..]| && Contains(text, keywords[1..][i]);
        assert Contains(text, keywords[i + 1]);
      } else {
        forall i | 0 <= i < |keywords| ensures !Contains(text, keywords[i]) {
          if i > 0 {
            assert keywords[i] == keywords[1..][i - 1];
          }
        }
      }
    }
  }

  /** `s[:n]` for a string or a list. */
  function Take<T>(s: seq<T>, n: nat): (r: seq<T>)
    ensures |r| <= n && |r| <= |s| && r == s[..|r|]
    ensures |s| <= n ==> r == s
  {
    if |s| <= n then s else s[..n]
  }

  /** `a` is `b` with some elements left out, the rest kept in order. */
  predicate Subsequence<T(==)>(a: seq<T>, b: seq<T>)
    decreases |b|
  {
    a == [] ||
    (b != [] &&
     (Subsequence(a, b[..|b| - 1]) ||
      (a[|a| - 1] == b[|b| - 1] && Subsequence(a[..|a| - 1], b[..|b| - 1]))))
  }

  lemma {:induction false} SubsequenceShorter<T>(a: seq<T>, b: seq<T>)
    requires Subsequence(a, b)
    ensures |a| <= |b|
    decreases |b|
  {
    if a != [] {
      if Subsequence(a, b[..|b| - 1]) {
        SubsequenceShorter(a, b[..|b| - 1]);
      } else {
        SubsequenceShorter(a[..|a| - 1], b[..|b| - 1]);
      }
    }
  }

  /** The elements of `xs` that satisfy `keep`, in order. */
  function Filter<T>(xs: seq<T>, keep: T -> bool): (ys: seq<T>)
    ensures forall i :: 0 <= i < |ys| ==> keep(ys[i])
    decreases |xs|
  {
    if xs == [] then []
    else Filter(xs[..|xs| - 1], keep) + (if keep(xs[|xs| - 1]) then [xs[|xs| - 1]] else [])
  }

  lemma {:induction false} FilterIsFilter<T>(xs: seq<T>, keep: T -> bool)
    ensures Subsequence(Filter(xs, keep), xs)
    ensures forall x :: x in Filter(xs, keep) <==> x in xs && keep(x)
    decreases |xs|
  {
    if xs != [] {
      var init, last := xs[..|xs| - 1], xs[|xs| - 1];
      FilterIsFilter(init, keep);
      assert xs == init + [last];
      var f := Filter(init, keep);
      if keep(last) {
        assert Filter(xs, keep) == f + [last];
        assert (f + [last])[..|f|] == f;
        assert Subsequence(f, init);
      } else {
        assert Filter(xs, keep) == f;
      }
    }
  }

  /** An element that is kept and comes first stays first. */
  lemma {:induction false} FilterHead<T>(xs: seq<T>, keep: T -> bool)
    requires xs != [] && keep(xs[0])
    ensures Filter(xs, keep) != [] && Filter(xs, keep)[0] == xs[0]
    decreases |xs|
  {
    if |xs| > 1 {
      var init := xs[..|xs| - 1];
      FilterHead(init, keep);
    }
  }

  /** `s.replace(a, b)` for single characters. */
  function ReplaceChar(s: string, a: char, b: char): (r: string)
    ensures |r| == |s|
  {
    seq(|s|, i requires 0 <= i < |s| => if s[i] == a then b else s[i])
  }

  /** `s.title()`: a letter is upper-cased when the character before it is
      not a letter, and lower-cased otherwise. */
  function Title(s: string): (r: string)
    ensures |r| == |s|
  {
    TitleAfter(s, false)
  }

  function TitleAfter(s: string, afterLetter: bool): (r: string)
    ensures |r| == |s|
    decreases |s|
  {
    if s == [] then ""
    else
      var c := s[0];
      var d := if !IsLetter(c) then c else if afterLetter then LowerChar(c) else UpperChar(c);
      [d] + TitleAfter(s[1..], IsLetter(c))
  }

  function Digit(d: nat): char
    requires d < 10
  {
    "0123456789"[d]
  }

  /** `str(n)` for a natural number. */
  function NatStr(n: nat): (s: string)
    ensures |s| > 0
  {
    if n < 10 then [Digit(n)] else NatStr(n / 10) + [Digit(n % 10)]
  }
}
