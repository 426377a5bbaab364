/** Shared vocabulary: optional values, first-match search, and the text rules
    every deterministic key of the system is built from. */
module Basics {

  datatype Option<+T> = None | Some(value: T)

  type Id = string

  /** `SELECT ... LIMIT 1`: the first position whose element satisfies `p`. */
  function Find<T>(s: seq<T>, p: T -> bool): (r: Option<nat>)
    ensures r.Some? ==> r.value < |s| && p(s[r.value]) && forall i :: 0 <= i < r.value ==> !p(s[i])
    ensures r.None? ==> forall i :: 0 <= i < |s| ==> !p(s[i])
  {
    FindFrom(s, p, 0)
  }

  function FindFrom<T>(s: seq<T>, p: T -> bool, from: nat): (r: Option<nat>)
    requires from <= |s|
    ensures r.Some? ==> from <= r.value < |s| && p(s[r.value]) && forall i :: from <= i < r.value ==> !p(s[i])
    ensures r.None? ==> forall i :: from <= i < |s| ==> !p(s[i])
    decreases |s| - from
  {
    if from == |s| then None
    else if p(s[from]) then Some(from)
    else FindFrom(s, p, from + 1)
  }

  function FilterSeq<T(!new)>(s: seq<T>, p: T -> bool): (r: seq<T>)
    ensures forall x :: x in r <==> x in s && p(x)
    ensures |r| <= |s|
  {
    if s == [] then []
    else if p(s[0]) then [s[0]] + FilterSeq(s[1..], p)
    else FilterSeq(s[1..], p)
  }

  lemma {:induction false} FilterAppend<T(!new)>(s: seq<T>, x: T, p: T -> bool)
    ensures FilterSeq(s + [x], p) == if p(x) then FilterSeq(s, p) + [x] else FilterSeq(s, p)
  {
    if s == [] {
      assert (s + [x])[1..] == [];
    } else {
      FilterAppend(s[1..], x, p);
      assert (s + [x])[1..] == s[1..] + [x];
    }
  }

  // ------------------------------------------------------------------
  // Python's string order (used by the last-write-wins tie-break)
  // ------------------------------------------------------------------

  /** Code-point order on strings: `a < b`. */
  predicate StrLess(a: string, b: string) {
    b != [] && (a == [] || a[0] < b[0] || (a[0] == b[0] && StrLess(a[1..], b[1..])))
  }

  lemma {:induction false} StrTrichotomy(a: string, b: string)
    ensures a == b || StrLess(a, b) || StrLess(b, a)
    ensures !(StrLess(a, b) && StrLess(b, a))
    ensures a == b ==> !StrLess(a, b)
  {
    if a != [] && b != [] && a[0] == b[0] {
      StrTrichotomy(a[1..], b[1..]);
      assert a == [a[0]] + a[1..] && b == [b[0]] + b[1..];
    }
  }

  /** The texts agree up to `n`, where `a` ends first or has the lesser character. */
  predicate LessAt(a: string, b: string, n: nat) {
    && n <= |a| && n < |b| && (forall i :: 0 <= i < n ==> a[i] == b[i])
    && (n == |a| || a[n] < b[n])
  }

  /** The first character that differs decides, and a proper prefix comes first. */
  lemma {:induction false} StrLessMeaning(a: string, b: string)
    ensures StrLess(a, b) <==> exists n: nat :: LessAt(a, b, n)
  {
    if a != [] && b != [] && a[0] == b[0] {
      var x, y := a[1..], b[1..];
      StrLessMeaning(x, y);
      if StrLess(x, y) {
        var n: nat :| LessAt(x, y, n);
        assert n < |x| ==> a[n + 1] == x[n] && b[n + 1] == y[n];
        assert forall i :: 1 <= i < n + 1 ==> a[i] == x[i - 1] && b[i] == y[i - 1];
        assert LessAt(a, b, n + 1);
      }
      if n: nat :| LessAt(a, b, n) {
        assert n > 0 && (n < |a| ==> a[n] == x[n - 1]) && b[n] == y[n - 1];
        assert forall i :: 0 <= i < n - 1 ==> x[i] == a[i + 1] && y[i] == b[i + 1];
        assert LessAt(x, y, n - 1);
      }
    } else if StrLess(a, b) {
      assert LessAt(a, b, 0);
    }
  }

  lemma {:induction false} StrLessTransitive(a: string, b: string, c: string)
    requires StrLess(a, b) && StrLess(b, c)
    ensures StrLess(a, c)
  {
    if a != [] && a[0] == b[0] && b[0] == c[0] {
      StrLessTransitive(a[1..], b[1..], c[1..]);
    }
  }

  // ------------------------------------------------------------------
  // Normalised text: lower-cased, trimmed, whitespace runs collapsed
  // ------------------------------------------------------------------

  predicate IsSpace(c: char) {
    c == ' ' || c == '\t' || c == '\n' || c == '\r' || c == '\U{b}' || c == '\U{c}'
  }

  function Lower(c: char): char {
    if 'A' <= c <= 'Z' then c - 'A' + 'a' else c
  }

  /** The lower-cased words of `s`; `word` is the word being read. */
  function Words(s: string, word: string := ""): seq<string> {
    if s == [] then (if word == [] then [] else [word])
    else if IsSpace(s[0]) then (if word == [] then [] else [word]) + Words(s[1..])
    else Words(s[1..], word + [Lower(s[0])])
  }

  function JoinWith(sep: string, parts: seq<string>): string {
    if parts == [] then []
    else if |parts| == 1 then parts[0]
    else parts[0] + sep + JoinWith(sep, parts[1..])
  }

  /** `slug` and `_norm_field` are the same rule; an absent value is empty. */
  function Slug(value: Option<string>): string {
    match value
    case None => ""
    case Some(s) => JoinWith(" ", Words(s))
  }

  /** A usable, non-blank attribute value. */
  predicate IsPresent(value: Option<string>) {
    value.Some? && exists i :: 0 <= i < |value.value| && !IsSpace(value.value[i])
  }

  /** Free of the `|` separator the composite keys are joined with. */
  predicate Plain(s: string) {
    '|' !in s
  }

  lemma {:induction false} WordsPlain(s: string, word: string)
    requires Plain(s) && Plain(word)
    ensures forall w :: w in Words(s, word) ==> Plain(w)
  {
    if s != [] {
      if IsSpace(s[0]) {
        WordsPlain(s[1..], "");
      } else {
        WordsPlain(s[1..], word + [Lower(s[0])]);
      }
    }
  }

  lemma {:induction false} JoinPlain(sep: string, parts: seq<string>)
    requires Plain(sep) && forall p :: p in parts ==> Plain(p)
    ensures Plain(JoinWith(sep, parts))
  {
    if |parts| == 1 {
      assert parts[0] in parts;
    } else if |parts| > 1 {
      assert parts[0] in parts;
      JoinPlain(sep, parts[1..]);
    }
  }

  /** Normalising never introduces the separator. */
  lemma SlugPlain(value: Option<string>)
    requires value.Some? ==> Plain(value.value)
    ensures Plain(Slug(value))
  {
    if value.Some? {
      WordsPlain(value.value, "");
      JoinPlain(" ", Words(value.value));
    }
  }

  lemma {:induction false} WordsNonEmpty(s: string, word: string)
    ensures forall w :: w in Words(s, word) ==> w != []
    ensures Words(s, word) == [] <==> word == [] && forall i :: 0 <= i < |s| ==> IsSpace(s[i])
  {
    if s != [] {
      if IsSpace(s[0]) {
        WordsNonEmpty(s[1..], "");
        assert forall i :: 1 <= i < |s| ==> s[i] == s[1..][i - 1];
      } else {
        WordsNonEmpty(s[1..], word + [Lower(s[0])]);
      }
    }
  }

  /** A value is blank exactly when it normalises to nothing. */
  lemma SlugEmptyIffBlank(value: Option<string>)
    ensures Slug(value) == "" <==> !IsPresent(value)
  {
    if value.Some? {
      WordsNonEmpty(value.value, "");
      var ws := Words(value.value);
      if |ws| > 0 {
        assert ws[0] in ws;
      }
    }
  }

  // ------------------------------------------------------------------
  // Texts with and without the separator
  // ------------------------------------------------------------------

  /** Normalising leaves the text alone: no blanks and no capitals. */
  predicate Verbatim(s: string) {
    forall i :: 0 <= i < |s| ==> !IsSpace(s[i]) && Lower(s[i]) == s[i]
  }

  lemma {:induction false} VerbatimIsOneWord(s: string, word: string)
    requires Verbatim(s) && word + s != ""
    ensures Words(s, word) == [word + s]
  {
    if s == [] {
      assert word + s == word;
    } else {
      assert Verbatim(s[1..]) && (word + [Lower(s[0])]) + s[1..] == word + s;
      VerbatimIsOneWord(s[1..], word + [Lower(s[0])]);
    }
  }

  lemma VerbatimSlug(s: string)
    requires Verbatim(s)
    ensures Slug(Some(s)) == s
  {
    if s != "" {
      VerbatimIsOneWord(s, "");
      assert "" + s == s;
    }
  }

  /** The same letter but for its case. */
  predicate SameLetter(c: char, d: char) {
    c == d || ('A' <= c <= 'Z' && d == c - 'A' + 'a') || ('A' <= d <= 'Z' && c == d - 'A' + 'a')
  }

  lemma {:induction false} WordsIgnoreCase(s: string, t: string, word: string)
    requires |s| == |t| && forall i :: 0 <= i < |s| ==> SameLetter(s[i], t[i])
    ensures Words(s, word) == Words(t, word)
  {
    if s != [] {
      assert IsSpace(s[0]) <==> IsSpace(t[0]);
      if IsSpace(s[0]) {
        WordsIgnoreCase(s[1..], t[1..], "");
      } else {
        assert Lower(s[0]) == Lower(t[0]);
        WordsIgnoreCase(s[1..], t[1..], word + [Lower(s[0])]);
      }
    }
  }

  /** Texts that differ in the case of their letters only normalise alike. */
  lemma SlugIgnoresCase(s: string, t: string)
    requires |s| == |t| && forall i :: 0 <= i < |s| ==> SameLetter(s[i], t[i])
    ensures Slug(Some(s)) == Slug(Some(t))
  {
    WordsIgnoreCase(s, t, "");
  }

  predicate Blank(s: string) {
    forall i :: 0 <= i < |s| ==> s[i] in {' ', '\t', '\n', '\r', '\U{b}', '\U{c}'}
  }

  lemma {:induction false} WordsOfBlank(s: string, word: string, rest: string)
    requires Blank(s) && s != ""
    ensures Words(s + rest, word) == (if word == [] then [] else [word]) + Words(rest)
  {
    assert (s + rest)[0] == s[0] && (s + rest)[1..] == s[1..] + rest;
    if |s| > 1 {
      WordsOfBlank(s[1..], "", rest);
    } else {
      assert s[1..] + rest == rest;
    }
  }

  /** What is left of a text before a blank does not depend on what follows. */
  lemma {:induction false} WordsSplit(s: string, word: string, gap: string, rest: string)
    requires Blank(gap) && gap != ""
    ensures Words(s + gap + rest, word) == Words(s, word) + Words(rest)
  {
    if s == [] {
      assert s + gap + rest == gap + rest;
      WordsOfBlank(gap, word, rest);
    } else {
      assert (s + gap + rest)[0] == s[0] && (s + gap + rest)[1..] == s[1..] + gap + rest;
      if IsSpace(s[0]) {
        WordsSplit(s[1..], "", gap, rest);
      } else {
        WordsSplit(s[1..], word + [Lower(s[0])], gap, rest);
      }
    }
  }

  /** Any run of blanks between two texts counts as one space, and blanks at either
      end count for nothing. */
  lemma SlugIgnoresBlanks(s: string, gap: string, t: string)
    requires Blank(gap) && gap != ""
    ensures Slug(Some(s + gap + t)) == Slug(Some(s + " " + t))
    ensures Slug(Some(s + gap)) == Slug(Some(s)) == Slug(Some(gap + s))
  {
    WordsSplit(s, "", gap, t);
    WordsSplit(s, "", " ", t);
    WordsSplit(s, "", gap, "");
    WordsSplit("", "", gap, s);
    WordsSplit("", "", gap, s);
    assert s + gap + "" == s + gap && "" + gap + s == gap + s;
    assert Words("") == [] && Words(s) + [] == Words(s) && [] + Words(s) == Words(s);
  }

  lemma {:induction false} WordsOfWords(words: seq<string>)
    requires forall w :: w in words ==> w != "" && Verbatim(w)
    ensures Words(JoinWith(" ", words)) == words
  {
    if words != [] {
      var first, rest := words[0], words[1..];
      VerbatimIsOneWord(first, "");
      assert "" + first == first;
      assert first in words && forall w :: w in rest ==> w in words;
      if rest != [] {
        WordsOfWords(rest);
        WordsSplit(first, "", " ", JoinWith(" ", rest));
      }
    }
  }

  /** Words in small letters with single spaces between them are left as they are. */
  lemma SlugKeepsWords(words: seq<string>)
    requires forall w :: w in words ==> w != "" && Verbatim(w)
    ensures Slug(Some(JoinWith(" ", words))) == JoinWith(" ", words)
  {
    WordsOfWords(words);
  }

  lemma SeparatorSlugs()
    ensures Slug(Some("a")) == "a" && Slug(Some("b")) == "b" && Slug(Some("c")) == "c"
    ensures Slug(Some("a|b")) == "a|b" && Slug(Some("b|c")) == "b|c"
  {
    hide Slug;
    VerbatimSlug("a");
    VerbatimSlug("b");
    VerbatimSlug("c");
    VerbatimSlug("a|b");
    VerbatimSlug("b|c");
  }

  /** The first separator of a key ends its first part. */
  lemma FirstPart(f: string, x: string, g: string, y: string)
    requires Plain(f) && Plain(g)
    requires f + "|" + x <= g + "|" + y
    ensures f == g && x <= y
  {
    var a, b := f + "|" + x, g + "|" + y;
    assert forall i :: 0 <= i < |f| ==> a[i] == f[i] != '|';
    assert forall i :: 0 <= i < |g| ==> b[i] == g[i] != '|';
    assert a[|f|] == b[|f|] == '|' && b[|g|] == '|';
    assert a[..|a|] == b[..|a|];
    assert |f| == |g|;
    assert f == a[..|f|] == b[..|f|] == g;
    assert x == a[|f| + 1..] && y == b[|f| + 1..];
  }

  /** `dedup_key ^@ (name_key || '|')` finds exactly the keys of that name. */
  lemma NamePrefixExact(f: string, l: string, g: string, m: string, b: string)
    requires Plain(f) && Plain(l) && Plain(g) && Plain(m)
    ensures f + "|" + l + "|" <= g + "|" + m + "|" + b <==> f == g && l == m
  {
    var lhs, rhs := f + "|" + l + "|", g + "|" + m + "|" + b;
    assert lhs == f + "|" + (l + "|" + "") && rhs == g + "|" + (m + "|" + b);
    if lhs <= rhs {
      FirstPart(f, l + "|" + "", g, m + "|" + b);
      FirstPart(l, "", m, b);
    }
  }
}
