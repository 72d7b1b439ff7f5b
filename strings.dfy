/**
 * The ASCII view of Python's `str` and `re` that the pipeline relies on:
 * whitespace (`str.isspace()` and `\s`), word characters (`\w`), `lower()`,
 * `strip()`, `rstrip(c)`, substring search, and `re.sub(r"\s+", " ", s)`.
 * Non-ASCII whitespace, word characters and case mappings are not modelled.
 */
module Strings {
  import opened Wrappers

  // ---------------------------------------------------------------- characters

  /** Python's whitespace for ASCII: space, \t \n \v \f \r and the separators 0x1C-0x1F. */
  predicate IsSpace(c: char) {
    c == ' ' || (9 <= c as int <= 13) || (28 <= c as int <= 31)
  }

  /** `\w` for ASCII input. */
  predicate IsWordChar(c: char) {
    ('a' <= c <= 'z') || ('A' <= c <= 'Z') || ('0' <= c <= '9') || c == '_'
  }

  predicate IsUpper(c: char) {
    'A' <= c <= 'Z'
  }

  predicate IsDigit(c: char) {
    '0' <= c <= '9'
  }

  function LowerChar(c: char): (d: char)
    ensures !IsUpper(d)
    ensures IsWordChar(d) == IsWordChar(c) && IsSpace(d) == IsSpace(c)
    ensures !IsUpper(c) ==> d == c
  {
    if IsUpper(c) then (c as int + 32) as char else c
  }

  /** `s.lower()` */
  function Lower(s: string): (r: string)
    ensures |r| == |s|
    ensures forall i :: 0 <= i < |s| ==> r[i] == LowerChar(s[i])
  {
    seq(|s|, i requires 0 <= i < |s| => LowerChar(s[i]))
  }

  predicate NoUpper(s: string) {
    forall i :: 0 <= i < |s| ==> !IsUpper(s[i])
  }

  lemma LowerNoUpper(s: string)
    requires NoUpper(s)
    ensures Lower(s) == s
  {
  }

  predicate NoSpace(s: string) {
    forall i :: 0 <= i < |s| ==> !IsSpace(s[i])
  }

  /** No whitespace other than ' ', and never two whitespace characters in a row. */
  predicate SingleSpaced(s: string) {
    (forall i :: 0 <= i < |s| && IsSpace(s[i]) ==> s[i] == ' ') &&
    (forall i :: 0 <= i < |s| - 1 && IsSpace(s[i]) ==> !IsSpace(s[i + 1]))
  }

  /** Neither a leading nor a trailing whitespace character. */
  predicate Trimmed(s: string) {
    s == [] || (!IsSpace(s[0]) && !IsSpace(s[|s| - 1]))
  }

  // ---------------------------------------------------------------- slicing helpers

  function Min(a: int, b: int): int { if a <= b then a else b }
  function Max(a: int, b: int): int { if a <= b then b else a }

  /** Python's `s[:n]` for any integer `n` (a negative `n` counts from the end). */
  function SliceTo<T>(s: seq<T>, n: int): (r: seq<T>)
    ensures n >= 0 ==> r == s[..Min(n, |s|)]
    ensures n < 0 ==> r == s[..Max(0, |s| + n)]
  {
    if n >= 0 then s[..Min(n, |s|)] else s[..Max(0, |s| + n)]
  }

  predicate StartsWith(s: string, prefix: string) {
    |prefix| <= |s| && s[..|prefix|] == prefix
  }

  predicate EndsWith(s: string, suffix: string) {
    |suffix| <= |s| && s[|s| - |suffix|..] == suffix
  }

  /** `s.rstrip(c)`: drop every trailing `c`. */
  function RStripChar(s: string, c: char): (r: string)
    ensures |r| <= |s| && r == s[..|r|]
    ensures forall i :: |r| <= i < |s| ==> s[i] == c
    ensures r == [] || r[|r| - 1] != c
    decreases |s|
  {
    if s != [] && s[|s| - 1] == c then RStripChar(s[..|s| - 1], c) else s
  }

  // ---------------------------------------------------------------- substring search

  predicate OccursAt(s: string, sub: string, j: int) {
    0 <= j && j + |sub| <= |s| && s[j..j + |sub|] == sub
  }

  /** The first index at or after `from` where `sub` occurs in `s`. */
  function FindFrom(s: string, sub: string, from: nat): (r: Option<nat>)
    ensures r.Some? ==> from <= r.value && OccursAt(s, sub, r.value)
    ensures r.Some? ==> forall j :: from <= j < r.value ==> !OccursAt(s, sub, j)
    ensures r.None? ==> forall j :: from <= j ==> !OccursAt(s, sub, j)
    decreases |s| - from
  {
    if from + |sub| > |s| then None
    else if s[from..from + |sub|] == sub then Some(from)
    else FindFrom(s, sub, from + 1)
  }

  /** `s.find(sub)`, with `None` for Python's -1; `sub in s` is `Find(s, sub).Some?`. */
  function Find(s: string, sub: string): (r: Option<nat>)
    ensures r.Some? ==> OccursAt(s, sub, r.value) && forall j :: 0 <= j < r.value ==> !OccursAt(s, sub, j)
    ensures r.None? ==> forall j :: !OccursAt(s, sub, j)
  {
    FindFrom(s, sub, 0)
  }

  predicate Contains(s: string, sub: string) {
    Find(s, sub).Some?
  }

  // ---------------------------------------------------------------- strip

  /** The index of the first non-whitespace character of `s` at or after `i`, or `|s|`. */
  function SkipSpaces(s: string, i: nat): (n: nat)
    requires i <= |s|
    ensures i <= n <= |s|
    ensures forall k :: i <= k < n ==> IsSpace(s[k])
    ensures n < |s| ==> !IsSpace(s[n])
    decreases |s| - i
  {
    if i < |s| && IsSpace(s[i]) then SkipSpaces(s, i + 1) else i
  }

  /** The index just past the last non-whitespace character of `s` before `j`, or 0. */
  function SkipSpacesBack(s: string, j: nat): (n: nat)
    requires j <= |s|
    ensures n <= j
    ensures forall k :: n <= k < j ==> IsSpace(s[k])
    ensures n > 0 ==> !IsSpace(s[n - 1])
    decreases j
  {
    if j > 0 && IsSpace(s[j - 1]) then SkipSpacesBack(s, j - 1) else j
  }
  /** `s.lstrip()`. */
  function TrimLeft(s: string): (r: string)
    ensures |r| <= |s| && r == s[|s| - |r|..]
    ensures forall i :: 0 <= i < |s| - |r| ==> IsSpace(s[i])
    ensures r != [] ==> !IsSpace(r[0])
  {
    s[SkipSpaces(s, 0)..]
  }

  /** `s.rstrip()`. */
  function TrimRight(s: string): (r: string)
    ensures |r| <= |s| && r == s[..|r|]
    ensures forall i :: |r| <= i < |s| ==> IsSpace(s[i])
    ensures r != [] ==> !IsSpace(r[|r| - 1])
  {
    s[..SkipSpacesBack(s, |s|)]
  }
  /** `s.strip()`: the slice of `s` left once the whitespace at both ends is removed. */
  function Strip(s: string): (r: string)
    ensures Trimmed(r)
    ensures var lo := |s| - |TrimLeft(s)|; lo + |r| <= |s| && r == s[lo..lo + |r|]
    ensures forall i :: 0 <= i < |s| - |TrimLeft(s)| ==> IsSpace(s[i])
    ensures forall i :: |s| - |TrimLeft(s)| + |r| <= i < |s| ==> IsSpace(s[i])
    ensures Trimmed(s) ==> r == s
  {
    var t := TrimLeft(s);
    var r := TrimRight(t);
    assert r != [] ==> r[0] == t[0];
    r
  }

  lemma TrimLeftStep(s: string)
    requires s != []
    ensures TrimLeft(s) == if IsSpace(s[0]) then TrimLeft(s[1..]) else s
  {
    if IsSpace(s[0]) {
      assert SkipSpaces(s, 1) == SkipSpaces(s, 0);
      SkipSpacesShift(s, 1);
    }
  }
  lemma {:induction false} SkipSpacesShift(s: string, i: nat)
    requires 1 <= i <= |s|
    ensures SkipSpaces(s[1..], i - 1) == SkipSpaces(s, i) - 1
    decreases |s| - i
  {
    if i < |s| && IsSpace(s[i]) {
      assert s[1..][i - 1] == s[i];
      SkipSpacesShift(s, i + 1);
    } else if i < |s| {
      assert s[1..][i - 1] == s[i];
    }
  }
  lemma TrimRightStep(s: string)
    requires s != []
    ensures TrimRight(s) == if IsSpace(s[|s| - 1]) then TrimRight(s[..|s| - 1]) else s
  {
    if IsSpace(s[|s| - 1]) {
      SkipSpacesBackPrefix(s, |s| - 1);
    }
  }
  lemma {:induction false} SkipSpacesBackPrefix(s: string, j: nat)
    requires j < |s|
    ensures SkipSpacesBack(s[..|s| - 1], j) == SkipSpacesBack(s, j)
    decreases j
  {
    if j > 0 {
      assert s[..|s| - 1][j - 1] == s[j - 1];
      SkipSpacesBackPrefix(s, j - 1);
    }
  }

  // ---------------------------------------------------------------- whitespace runs

  /** `re.sub(r"\s+", " ", s)`: every maximal whitespace run becomes a single ' '. */
  function Collapse(s: string): (r: string)
    ensures |r| <= |s|
    ensures (r == []) == (s == [])
    ensures s != [] ==> r[0] == (if IsSpace(s[0]) then ' ' else s[0])
    decreases |s|
  {
    if s == [] then []
    else if IsSpace(s[0]) then [' '] + Collapse(TrimLeft(s[1..]))
    else [s[0]] + Collapse(s[1..])
  }

  /** Putting `c` in front of a single-spaced `t` keeps it single-spaced when `c` is a plain character or a lone ' '. */
  lemma SingleSpacedCons(c: char, t: string)
    requires SingleSpaced(t)
    requires IsSpace(c) ==> c == ' ' && (t == [] || !IsSpace(t[0]))
    ensures SingleSpaced([c] + t)
  {
    var u := [c] + t;
    forall i | 0 <= i < |u| && IsSpace(u[i]) ensures u[i] == ' ' {
      if i > 0 { assert u[i] == t[i - 1]; }
    }
    forall i | 0 <= i < |u| - 1 && IsSpace(u[i]) ensures !IsSpace(u[i + 1]) {
      if i > 0 { assert u[i] == t[i - 1] && u[i + 1] == t[i]; }
    }
  }

  /** The result of `Collapse` is single-spaced. */
  lemma {:induction false} CollapseSingleSpacedResult(s: string)
    ensures SingleSpaced(Collapse(s))
    decreases |s|
  {
    if s != [] {
      if IsSpace(s[0]) {
        var t := TrimLeft(s[1..]);
        CollapseSingleSpacedResult(t);
        SingleSpacedCons(' ', Collapse(t));
      } else {
        CollapseSingleSpacedResult(s[1..]);
        SingleSpacedCons(s[0], Collapse(s[1..]));
      }
    }
  }

  /** `Collapse` ends in whitespace iff its input does. */
  lemma {:induction false} CollapseLast(s: string)
    requires s != []
    ensures IsSpace(Collapse(s)[|Collapse(s)| - 1]) == IsSpace(s[|s| - 1])
    decreases |s|
  {
    var c := Collapse(s);
    if IsSpace(s[0]) {
      var t := TrimLeft(s[1..]);
      assert c == [' '] + Collapse(t);
      if t == [] {
        assert IsSpace(s[|s| - 1]) by {
          if |s| > 1 { assert s[|s| - 1] == s[1..][|s| - 2]; }
        }
      } else {
        CollapseLast(t);
        assert t[|t| - 1] == s[|s| - 1];
        assert c[|c| - 1] == Collapse(t)[|Collapse(t)| - 1];
      }
    } else if |s| > 1 {
      CollapseLast(s[1..]);
      assert c == [s[0]] + Collapse(s[1..]);
      assert c[|c| - 1] == Collapse(s[1..])[|Collapse(s[1..])| - 1];
    } else {
      assert c == [s[0]] + Collapse([]);
    }
  }

  /** Collapsing a string without whitespace at its ends leaves none there. */
  lemma CollapseTrimmed(s: string)
    requires Trimmed(s)
    ensures Trimmed(Collapse(s))
  {
    if s != [] {
      CollapseLast(s);
    }
  }

  /** `Collapse` only introduces ' ', so it keeps every character class that admits ' '. */
  lemma {:induction false} CollapseKeeps(p: char -> bool, s: string)
    requires p(' ')
    requires forall i :: 0 <= i < |s| ==> p(s[i])
    ensures forall i :: 0 <= i < |Collapse(s)| ==> p(Collapse(s)[i])
    decreases |s|
  {
    if s != [] {
      if IsSpace(s[0]) {
        var t := TrimLeft(s[1..]);
        assert forall i :: 0 <= i < |t| ==> t[i] == s[|s| - |t| + i];
        CollapseKeeps(p, t);
        assert Collapse(s) == [' '] + Collapse(t);
      } else {
        assert forall i :: 0 <= i < |s| - 1 ==> s[1..][i] == s[i + 1];
        CollapseKeeps(p, s[1..]);
        assert Collapse(s) == [s[0]] + Collapse(s[1..]);
      }
    }
  }

  /** `Strip` returns a slice, so single spacing survives it. */
  lemma SingleSpacedStrip(s: string)
    requires SingleSpaced(s)
    ensures SingleSpaced(Strip(s))
  {
    var lo := |s| - |TrimLeft(s)|;
    SingleSpacedSlice(s, lo, lo + |Strip(s)|);
  }

  /** `Strip` returns a slice, so every character class survives it. */
  lemma StripKeeps(p: char -> bool, s: string)
    requires forall i :: 0 <= i < |s| ==> p(s[i])
    ensures forall i :: 0 <= i < |Strip(s)| ==> p(Strip(s)[i])
  {
    var lo := |s| - |TrimLeft(s)|;
    var r := Strip(s);
    forall i | 0 <= i < |r| ensures p(r[i]) {
      assert r[i] == s[lo + i];
    }
  }

  /** The non-whitespace characters of `s`, in order. */
  function Visible(s: string): (r: string)
    decreases |s|
  {
    if s == [] then [] else (if IsSpace(s[0]) then [] else [s[0]]) + Visible(s[1..])
  }

  lemma {:induction false} VisibleConcat(a: string, b: string)
    ensures Visible(a + b) == Visible(a) + Visible(b)
    decreases |a|
  {
    if a != [] {
      assert (a + b)[0] == a[0];
      assert (a + b)[1..] == a[1..] + b;
      VisibleConcat(a[1..], b);
    } else {
      assert a + b == b;
    }
  }

  lemma {:induction false} VisibleTrimLeft(s: string)
    ensures Visible(TrimLeft(s)) == Visible(s)
    decreases |s|
  {
    if s != [] {
      TrimLeftStep(s);
    }
    if s != [] && IsSpace(s[0]) {
      VisibleTrimLeft(s[1..]);
    }
  }

  lemma {:induction false} VisibleTrimRight(s: string)
    ensures Visible(TrimRight(s)) == Visible(s)
    decreases |s|
  {
    if s != [] {
      TrimRightStep(s);
    }
    if s != [] && IsSpace(s[|s| - 1]) {
      var init := s[..|s| - 1];
      VisibleTrimRight(init);
      assert s == init + [s[|s| - 1]];
      VisibleConcat(init, [s[|s| - 1]]);
      assert Visible([s[|s| - 1]]) == [];
    }
  }

  /** Stripping removes whitespace only. */
  lemma VisibleStrip(s: string)
    ensures Visible(Strip(s)) == Visible(s)
  {
    VisibleTrimLeft(s);
    VisibleTrimRight(TrimLeft(s));
  }

  /** Collapsing whitespace runs keeps every other character, in order. */
  lemma {:induction false} VisibleCollapse(s: string)
    ensures Visible(Collapse(s)) == Visible(s)
    decreases |s|
  {
    if s == [] {
    } else if IsSpace(s[0]) {
      var t := TrimLeft(s[1..]);
      VisibleCollapse(t);
      VisibleTrimLeft(s[1..]);
      assert Collapse(s) == [' '] + Collapse(t);
      assert Visible([' '] + Collapse(t)) == Visible(Collapse(t));
    } else {
      VisibleCollapse(s[1..]);
      assert Visible([s[0]] + Collapse(s[1..])) == [s[0]] + Visible(Collapse(s[1..]));
    }
  }

  /** A string that is already single-spaced is left alone by `Collapse`. */
  lemma {:induction false} CollapseSingleSpaced(s: string)
    requires SingleSpaced(s)
    ensures Collapse(s) == s
    decreases |s|
  {
    if s != [] {
      assert SingleSpaced(s[1..]);
      if IsSpace(s[0]) {
        assert s[1..] == [] || !IsSpace(s[1]);
        assert TrimLeft(s[1..]) == s[1..];
      }
      CollapseSingleSpaced(s[1..]);
    }
  }

  /** Single spacing survives taking a slice. */
  lemma SingleSpacedSlice(s: string, lo: int, hi: int)
    requires SingleSpaced(s) && 0 <= lo <= hi <= |s|
    ensures SingleSpaced(s[lo..hi])
  {
    var t := s[lo..hi];
    forall i | 0 <= i < |t| - 1 && IsSpace(t[i]) ensures !IsSpace(t[i + 1]) {
      assert t[i] == s[lo + i] && t[i + 1] == s[lo + i + 1];
    }
  }

  lemma SingleSpacedLower(s: string)
    requires SingleSpaced(s)
    ensures SingleSpaced(Lower(s))
  {
    var t := Lower(s);
    forall i | 0 <= i < |t| - 1 && IsSpace(t[i]) ensures !IsSpace(t[i + 1]) {
      assert IsSpace(s[i]);
    }
  }

  // ---------------------------------------------------------------- word runs

  /** The length of the run of word characters that `s` starts with. */
  function WordRunLength(s: string): (n: nat)
    ensures n <= |s|
    ensures forall i :: 0 <= i < n ==> IsWordChar(s[i])
    ensures n < |s| ==> !IsWordChar(s[n])
    ensures s != [] && IsWordChar(s[0]) ==> n >= 1
    decreases |s|
  {
    if s != [] && IsWordChar(s[0]) then 1 + WordRunLength(s[1..]) else 0
  }

  /** The maximal runs of word characters of `s`, left to right: the words that `\b...\b` delimits. */
  function Words(s: string): seq<string>
    decreases |s|
  {
    if s == [] then []
    else if !IsWordChar(s[0]) then Words(s[1..])
    else var n := WordRunLength(s); [s[..n]] + Words(s[n..])
  }

  predicate AllWord(w: string) {
    forall i :: 0 <= i < |w| ==> IsWordChar(w[i])
  }

  /** `a + b` has a word boundary at the join. */
  predicate Separated(a: string, b: string) {
    a == [] || b == [] || !IsWordChar(a[|a| - 1]) || !IsWordChar(b[0])
  }

  lemma {:induction false} WordRunLengthOf(s: string, n: nat)
    requires n <= |s| && (forall i :: 0 <= i < n ==> IsWordChar(s[i]))
    requires n == |s| || !IsWordChar(s[n])
    ensures WordRunLength(s) == n
    decreases n
  {
    if n > 0 {
      WordRunLengthOf(s[1..], n - 1);
    }
  }

  lemma WordsSkip(c: char, t: string)
    requires !IsWordChar(c)
    ensures Words([c] + t) == Words(t)
  {
    assert ([c] + t)[1..] == t;
  }

  lemma WordsOfNonWords(s: string)
    requires forall i :: 0 <= i < |s| ==> !IsWordChar(s[i])
    ensures Words(s) == []
    decreases |s|
  {
    if s != [] {
      WordsOfNonWords(s[1..]);
    }
  }

  /** Words split at a boundary: the words of a concatenation are the words of each part. */
  lemma {:induction false} WordsConcat(a: string, b: string)
    requires Separated(a, b)
    ensures Words(a + b) == Words(a) + Words(b)
    decreases |a|
  {
    var s := a + b;
    if a == [] {
      assert s == b;
    } else if !IsWordChar(a[0]) {
      assert s[1..] == a[1..] + b;
      WordsConcat(a[1..], b);
    } else {
      var n := WordRunLength(a);
      WordsConcatRun(a, b);
      WordsConcat(a[n..], b);
      assert Words(s) == [a[..n]] + Words(a[n..] + b);
    }
  }

  /** The first word of `a + b` lies inside `a` when `a` starts with a word character and ends at a boundary. */
  lemma WordsConcatRun(a: string, b: string)
    requires a != [] && IsWordChar(a[0]) && Separated(a, b)
    ensures var n := WordRunLength(a);
      WordRunLength(a + b) == n && (a + b)[..n] == a[..n] && (a + b)[n..] == a[n..] + b
  {
    var s := a + b;
    var n := WordRunLength(a);
    assert n < |a| ==> !IsWordChar(s[n]);
    WordRunLengthOf(s, n);
  }

  lemma WordsOfWordThen(w: string, t: string)
    requires w != [] && AllWord(w) && (t == [] || !IsWordChar(t[0]))
    ensures Words(w + t) == [w] + Words(t)
  {
    WordsConcat(w, t);
    WordRunLengthOf(w, |w|);
    assert w[|w|..] == [];
    assert Words(w) == [w[..|w|]] + Words(w[|w|..]);
    assert w[..|w|] == w;
  }

  lemma {:induction false} WordsTrimLeft(s: string)
    ensures Words(TrimLeft(s)) == Words(s)
    decreases |s|
  {
    if s != [] && IsSpace(s[0]) {
      WordsTrimLeft(s[1..]);
    }
  }

  lemma WordsTrimRight(s: string)
    ensures Words(TrimRight(s)) == Words(s)
  {
    var r := TrimRight(s);
    var rest := s[|r|..];
    assert s == r + rest;
    WordsOfNonWords(rest);
    WordsConcat(r, rest);
  }

  /** Stripping never changes the words of a string. */
  lemma WordsStrip(s: string)
    ensures Words(Strip(s)) == Words(s)
  {
    WordsTrimLeft(s);
    WordsTrimRight(TrimLeft(s));
  }

  lemma CollapseUnfoldVisible(s: string)
    requires s != [] && !IsSpace(s[0])
    ensures Collapse(s) == [s[0]] + Collapse(s[1..])
  {
  }

  /** `Collapse` passes a leading run of word characters through unchanged. */
  lemma {:induction false} CollapseAfterWord(w: string, rest: string)
    requires AllWord(w)
    ensures Collapse(w + rest) == w + Collapse(rest)
    decreases |w|
  {
    if w != [] {
      var s := w + rest;
      assert s[0] == w[0];
      assert s[1..] == w[1..] + rest;
      CollapseAfterWord(w[1..], rest);
      CollapseUnfoldVisible(s);
      assert w == [w[0]] + w[1..];
    } else {
      assert w + rest == rest;
    }
  }

  /** Collapsing whitespace never changes the words of a string. */
  lemma {:induction false} WordsCollapse(s: string)
    ensures Words(Collapse(s)) == Words(s)
    decreases |s|
  {
    if s == [] {
    } else if IsSpace(s[0]) {
      WordsCollapse(TrimLeft(s[1..]));
      WordsCollapseSpaceStep(s);
    } else if !IsWordChar(s[0]) {
      WordsCollapse(s[1..]);
      WordsCollapseOtherStep(s);
    } else {
      WordsCollapse(s[WordRunLength(s)..]);
      WordsCollapseWordStep(s);
    }
  }

  lemma WordsCollapseSpaceStep(s: string)
    requires s != [] && IsSpace(s[0])
    requires Words(Collapse(TrimLeft(s[1..]))) == Words(TrimLeft(s[1..]))
    ensures Words(Collapse(s)) == Words(s)
  {
    var t := TrimLeft(s[1..]);
    WordsTrimLeft(s[1..]);
    WordsSkip(' ', Collapse(t));
  }

  lemma WordsCollapseOtherStep(s: string)
    requires s != [] && !IsSpace(s[0]) && !IsWordChar(s[0])
    requires Words(Collapse(s[1..])) == Words(s[1..])
    ensures Words(Collapse(s)) == Words(s)
  {
    WordsSkip(s[0], Collapse(s[1..]));
  }

  lemma WordsCollapseWordStep(s: string)
    requires s != [] && IsWordChar(s[0])
    requires Words(Collapse(s[WordRunLength(s)..])) == Words(s[WordRunLength(s)..])
    ensures Words(Collapse(s)) == Words(s)
  {
    var n := WordRunLength(s);
    var w, rest := s[..n], s[n..];
    var c := Collapse(rest);
    CollapseAtWord(s);
    WordsOfWordThen(w, c);
    WordsAtWord(s);
  }

  /** The words of a string that starts with a word character: its first run, then the words of the rest. */
  lemma WordsAtWord(s: string)
    requires s != [] && IsWordChar(s[0])
    ensures Words(s) == [s[..WordRunLength(s)]] + Words(s[WordRunLength(s)..])
  {
  }

  /** Collapsing keeps a leading word run and what follows starts at a boundary. */
  lemma CollapseAtWord(s: string)
    requires s != [] && IsWordChar(s[0])
    ensures var n := WordRunLength(s); var c := Collapse(s[n..]);
      AllWord(s[..n]) && s[..n] != [] && Collapse(s) == s[..n] + c && (c == [] || !IsWordChar(c[0]))
  {
    var n := WordRunLength(s);
    var w, rest := s[..n], s[n..];
    assert AllWord(w) by {
      forall i | 0 <= i < |w| ensures IsWordChar(w[i]) { assert w[i] == s[i]; }
    }
    assert rest == [] || !IsWordChar(rest[0]) by {
      if rest != [] { assert rest[0] == s[n]; }
    }
    assert s == w + rest;
    CollapseAfterWord(w, rest);
  }

  function LowerAll(ws: seq<string>): (r: seq<string>)
    ensures |r| == |ws| && forall i :: 0 <= i < |ws| ==> r[i] == Lower(ws[i])
  {
    seq(|ws|, i requires 0 <= i < |ws| => Lower(ws[i]))
  }

  /** Lower-casing lower-cases each word and keeps the word boundaries. */
  lemma {:induction false} WordsLower(s: string)
    ensures Words(Lower(s)) == LowerAll(Words(s))
    decreases |s|
  {
    var l := Lower(s);
    if s == [] {
    } else if !IsWordChar(s[0]) {
      assert l[1..] == Lower(s[1..]);
      WordsLower(s[1..]);
    } else {
      var n := WordRunLength(s);
      WordRunLengthOf(l, n);
      assert l[..n] == Lower(s[..n]);
      assert l[n..] == Lower(s[n..]);
      WordsLower(s[n..]);
      assert LowerAll([s[..n]] + Words(s[n..])) == [Lower(s[..n])] + LowerAll(Words(s[n..]));
    }
  }

  /** Applying `f` to every character: `Map(f, s)`. */
  function MapChars(f: char -> char, s: string): (r: string)
    ensures |r| == |s| && forall i :: 0 <= i < |s| ==> r[i] == f(s[i])
  {
    seq(|s|, i requires 0 <= i < |s| => f(s[i]))
  }

  /** A character map that fixes word characters and sends the others to non-word characters keeps the words. */
  lemma {:induction false} WordsMapChars(f: char -> char, s: string)
    requires forall c :: IsWordChar(c) ==> f(c) == c
    requires forall c :: !IsWordChar(c) ==> !IsWordChar(f(c))
    ensures Words(MapChars(f, s)) == Words(s)
    decreases |s|
  {
    var m := MapChars(f, s);
    if s == [] {
    } else if !IsWordChar(s[0]) {
      assert m[1..] == MapChars(f, s[1..]);
      WordsMapChars(f, s[1..]);
    } else {
      var n := WordRunLength(s);
      WordRunLengthOf(m, n);
      assert m[..n] == s[..n];
      assert m[n..] == MapChars(f, s[n..]);
      WordsMapChars(f, s[n..]);
    }
  }
}
