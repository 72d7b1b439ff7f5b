/**
 * The two text utilities of the scraper: `compact` (collapse whitespace,
 * then cut with an ellipsis) and `normalize_company_name` (drop punctuation
 * and legal-form suffixes, then lower-case).
 */
module Text {
  import opened Strings

  // ---------------------------------------------------------------- compact

  /** `compact(s, max_len)`. */
  function Compact(s: string, maxLen: int): string
  {
    var c := Collapse(Strip(s));
    if |c| <= maxLen then c else SliceTo(c, maxLen - 3) + "..."
  }

  /** The whitespace-collapsed form that `compact` starts from is trimmed and single-spaced. */
  lemma CollapsedStripShape(s: string)
    ensures Trimmed(Collapse(Strip(s))) && SingleSpaced(Collapse(Strip(s)))
    ensures Visible(Collapse(Strip(s))) == Visible(s)
  {
    CollapseTrimmed(Strip(s));
    CollapseSingleSpacedResult(Strip(s));
    VisibleCollapse(Strip(s));
    VisibleStrip(s);
  }

  /** Appending "..." to a single-spaced text that does not start with whitespace leaves it trimmed and single-spaced. */
  lemma EllipsisShape(p: string)
    requires SingleSpaced(p) && (p == [] || !IsSpace(p[0]))
    ensures Trimmed(p + "...") && SingleSpaced(p + "...")
  {
    var r := p + "...";
    assert r[|r| - 1] == '.';
    assert r[0] == (if p == [] then '.' else p[0]);
    forall i | 0 <= i < |r| && IsSpace(r[i]) ensures r[i] == ' ' {
      assert i < |p| && r[i] == p[i];
    }
    forall i | 0 <= i < |r| - 1 && IsSpace(r[i]) ensures !IsSpace(r[i + 1]) {
      assert i < |p| && r[i] == p[i];
      if i + 1 < |p| { assert r[i + 1] == p[i + 1]; }
    }
  }

  /** Whatever `max_len` is, the result has no whitespace at its ends and no whitespace run longer than one ' '. */
  lemma CompactShape(s: string, maxLen: int)
    ensures Trimmed(Compact(s, maxLen)) && SingleSpaced(Compact(s, maxLen))
  {
    var c := Collapse(Strip(s));
    CollapsedStripShape(s);
    if |c| > maxLen {
      var p := SliceTo(c, maxLen - 3);
      SingleSpacedSlice(c, 0, |p|);
      assert p == [] || p[0] == c[0];
      EllipsisShape(p);
    }
  }

  /** A collapsed text that fits is returned whole, with every non-whitespace character of the input in order. */
  lemma CompactFits(s: string, maxLen: int)
    requires |Collapse(Strip(s))| <= maxLen
    ensures Compact(s, maxLen) == Collapse(Strip(s))
    ensures Visible(Compact(s, maxLen)) == Visible(s)
  {
    CollapsedStripShape(s);
  }

  /** A collapsed text that does not fit keeps its first `max_len - 3` characters and gets "...", exactly `max_len` in all. */
  lemma CompactTruncates(s: string, maxLen: int)
    requires maxLen >= 3 && |Collapse(Strip(s))| > maxLen
    ensures |Compact(s, maxLen)| == maxLen
    ensures Compact(s, maxLen) == Collapse(Strip(s))[..maxLen - 3] + "..."
  {
  }

  /** With `max_len >= 3` the result never exceeds `max_len`. */
  lemma CompactBound(s: string, maxLen: int)
    requires maxLen >= 3
    ensures |Compact(s, maxLen) | <= maxLen
  {
  }

  /** Below 3, Python's negative slice end counts from the back of the collapsed text. */
  lemma CompactSmallLimit(s: string, maxLen: int)
    requires maxLen < 3 && |Collapse(Strip(s))| > maxLen
    ensures Compact(s, maxLen) == Collapse(Strip(s))[..Max(0, |Collapse(Strip(s))| + maxLen - 3)] + "..."
  {
  }

  /** Compacting a compacted text again with the same limit changes nothing. */
  lemma CompactIdempotent(s: string, maxLen: int)
    requires maxLen >= 3
    ensures Compact(Compact(s, maxLen), maxLen) == Compact(s, maxLen)
  {
    var r := Compact(s, maxLen);
    CompactShape(s, maxLen);
    assert Strip(r) == r;
    CollapseSingleSpaced(r);
  }

  // ---------------------------------------------------------------- normalize_company_name

  /** The legal-form suffixes, lower case. The dotted spellings of the suffix pattern are never chosen:
      each is listed after its undotted form, which matches first, and dots are gone by then anyway. */
  const Suffixes: seq<string> := ["inc", "llc", "ltd", "corp", "corporation", "co", "plc", "gmbh", "ag", "sa"]

  /** A whole word that the suffix pattern matches, ignoring case. */
  predicate IsSuffix(w: string) {
    Lower(w) in Suffixes
  }

  /** Characters that survive the punctuation pass: `[\w\s&-]`. */
  predicate NameChar(c: char) {
    IsWordChar(c) || IsSpace(c) || c == '&' || c == '-'
  }

  function PunctToSpaceChar(c: char): char {
    if NameChar(c) then c else ' '
  }

  /** The punctuation pass: every character outside `[\w\s&-]` becomes ' '. */
  function PunctToSpace(s: string): (r: string)
    ensures |r| == |s|
    ensures forall i :: 0 <= i < |s| ==> r[i] == if NameChar(s[i]) then s[i] else ' '
  {
    MapChars(PunctToSpaceChar, s)
  }

  /** The suffix pass: each whole word that is a suffix, in any case, becomes ' '. */
  function RemoveSuffixes(s: string): (r: string)
    ensures s != [] && !IsWordChar(s[0]) ==> r != [] && r[0] == s[0]
    decreases |s|
  {
    if s == [] then []
    else if !IsWordChar(s[0]) then [s[0]] + RemoveSuffixes(s[1..])
    else
      var n := WordRunLength(s);
      (if IsSuffix(s[..n]) then " " else s[..n]) + RemoveSuffixes(s[n..])
  }

  /** `normalize_company_name(name)`. */
  function NormalizeCompanyName(name: string): string
  {
    Lower(Strip(Collapse(RemoveSuffixes(PunctToSpace(Strip(name))))))
  }

  /** The words that are not suffixes, in order. */
  function NonSuffixWords(ws: seq<string>): (r: seq<string>)
    decreases |ws|
  {
    if ws == [] then []
    else (if IsSuffix(ws[0]) then [] else [ws[0]]) + NonSuffixWords(ws[1..])
  }

  /** The suffix pass removes exactly the suffix words: the words left are the input's other words, in order. */
  lemma {:induction false} WordsRemoveSuffixes(s: string)
    ensures Words(RemoveSuffixes(s)) == NonSuffixWords(Words(s))
    decreases |s|
  {
    if s == [] {
    } else if !IsWordChar(s[0]) {
      WordsRemoveSuffixes(s[1..]);
      WordsSkip(s[0], RemoveSuffixes(s[1..]));
    } else {
      var n := WordRunLength(s);
      var w, rest := s[..n], s[n..];
      var r := RemoveSuffixes(rest);
      WordsRemoveSuffixes(rest);
      assert Words(s) == [w] + Words(rest);
      assert NonSuffixWords([w] + Words(rest)) == (if IsSuffix(w) then [] else [w]) + NonSuffixWords(Words(rest));
      if IsSuffix(w) {
        WordsSkip(' ', r);
      } else {
        WordsOfWordThen(w, r);
      }
    }
  }

  /** No word that survives the suffix pass is a suffix. */
  lemma {:induction false} NonSuffixWordsClean(ws: seq<string>)
    ensures forall k :: 0 <= k < |NonSuffixWords(ws)| ==> !IsSuffix(NonSuffixWords(ws)[k])
    decreases |ws|
  {
    if ws != [] {
      NonSuffixWordsClean(ws[1..]);
    }
  }

  /** A text none of whose words is a suffix passes through the suffix pass unchanged, character for character. */
  lemma {:induction false} RemoveSuffixesKeepsClean(s: string)
    requires forall k :: 0 <= k < |Words(s)| ==> !IsSuffix(Words(s)[k])
    ensures RemoveSuffixes(s) == s
    decreases |s|
  {
    if s == [] {
    } else if !IsWordChar(s[0]) {
      assert Words(s) == Words(s[1..]);
      RemoveSuffixesKeepsClean(s[1..]);
      assert [s[0]] + s[1..] == s;
    } else {
      var n := WordRunLength(s);
      WordsAtWord(s);
      assert Words(s)[0] == s[..n];
      assert forall k :: 0 <= k < |Words(s[n..])| ==> Words(s[n..])[k] == Words(s)[k + 1];
      RemoveSuffixesKeepsClean(s[n..]);
      assert s[..n] + s[n..] == s;
    }
  }

  /** Removing suffixes twice is removing them once. */
  lemma RemoveSuffixesIdempotent(s: string)
    ensures RemoveSuffixes(RemoveSuffixes(s)) == RemoveSuffixes(s)
  {
    WordsRemoveSuffixes(s);
    NonSuffixWordsClean(Words(s));
    RemoveSuffixesKeepsClean(RemoveSuffixes(s));
  }

  lemma WordsPunctToSpace(s: string)
    ensures Words(PunctToSpace(s)) == Words(s)
  {
    WordsMapChars(PunctToSpaceChar, s);
  }

  /** The words of the normalized name are the input's words that are not suffixes, lower-cased. */
  lemma WordsNormalizeCompanyName(name: string)
    ensures Words(NormalizeCompanyName(name)) == LowerAll(NonSuffixWords(Words(name)))
  {
    var a := Strip(name);
    var b := PunctToSpace(a);
    var c := RemoveSuffixes(b);
    var d := Collapse(c);
    var e := Strip(d);
    WordsStrip(name);
    WordsPunctToSpace(a);
    WordsRemoveSuffixes(b);
    WordsCollapse(c);
    WordsStrip(d);
    WordsLower(e);
  }

  lemma LowerIdempotent(w: string)
    ensures Lower(Lower(w)) == Lower(w)
  {
  }

  lemma {:induction false} LowerAllNonSuffix(ws: seq<string>, k: int)
    requires 0 <= k < |LowerAll(NonSuffixWords(ws))|
    ensures !IsSuffix(LowerAll(NonSuffixWords(ws))[k])
    decreases |ws|
  {
    var rest := NonSuffixWords(ws[1..]);
    assert NonSuffixWords(ws) == (if IsSuffix(ws[0]) then [] else [ws[0]]) + rest;
    if IsSuffix(ws[0]) {
      LowerAllNonSuffix(ws[1..], k);
    } else if k == 0 {
      LowerIdempotent(ws[0]);
    } else {
      LowerAllNonSuffix(ws[1..], k - 1);
    }
  }

  /** No whole word of the normalized name is a suffix, in any case. */
  lemma NormalizedHasNoSuffix(name: string, k: int)
    requires 0 <= k < |Words(NormalizeCompanyName(name))|
    ensures !IsSuffix(Words(NormalizeCompanyName(name))[k])
  {
    WordsNormalizeCompanyName(name);
    LowerAllNonSuffix(Words(name), k);
  }

  lemma {:induction false} RemoveSuffixesKeeps(s: string)
    requires forall i :: 0 <= i < |s| ==> NameChar(s[i])
    ensures forall i :: 0 <= i < |RemoveSuffixes(s)| ==> NameChar(RemoveSuffixes(s)[i])
    decreases |s|
  {
    if s != [] {
      if !IsWordChar(s[0]) {
        assert forall i :: 0 <= i < |s| - 1 ==> s[1..][i] == s[i + 1];
        RemoveSuffixesKeeps(s[1..]);
        assert RemoveSuffixes(s) == [s[0]] + RemoveSuffixes(s[1..]);
      } else {
        var n := WordRunLength(s);
        assert forall i :: 0 <= i < |s| - n ==> s[n..][i] == s[n + i];
        RemoveSuffixesKeeps(s[n..]);
        var h := if IsSuffix(s[..n]) then " " else s[..n];
        assert RemoveSuffixes(s) == h + RemoveSuffixes(s[n..]);
      }
    }
  }

  /** The normalized name is lower case, trimmed and single-spaced. */
  lemma NormalizeCompanyNameShape(name: string)
    ensures var r := NormalizeCompanyName(name); NoUpper(r) && Trimmed(r) && SingleSpaced(r)
  {
    var d := Collapse(RemoveSuffixes(PunctToSpace(Strip(name))));
    CollapseSingleSpacedResult(RemoveSuffixes(PunctToSpace(Strip(name))));
    SingleSpacedStrip(d);
    SingleSpacedLower(Strip(d));
  }

  predicate AllNameChars(s: string) {
    forall i :: 0 <= i < |s| ==> NameChar(s[i])
  }

  lemma LowerKeepsNameChars(s: string)
    requires AllNameChars(s)
    ensures AllNameChars(Lower(s))
  {
    forall i | 0 <= i < |s| ensures NameChar(Lower(s)[i]) {
      assert NameChar(s[i]);
    }
  }

  lemma NormalizedNameChars(name: string)
    ensures AllNameChars(NormalizeCompanyName(name))
  {
    var c := RemoveSuffixes(PunctToSpace(Strip(name)));
    RemoveSuffixesKeeps(PunctToSpace(Strip(name)));
    CollapseKeeps(NameChar, c);
    StripKeeps(NameChar, Collapse(c));
    LowerKeepsNameChars(Strip(Collapse(c)));
  }

  /** The normalized name has only word characters, ' ', '&' and '-': unlike the merge key, no '.'. */
  lemma NormalizeCompanyNameChars(name: string)
    ensures var r := NormalizeCompanyName(name);
      forall i :: 0 <= i < |r| ==> IsWordChar(r[i]) || r[i] == ' ' || r[i] == '&' || r[i] == '-'
  {
    var r := NormalizeCompanyName(name);
    NormalizedNameChars(name);
    NormalizeCompanyNameShape(name);
    forall i | 0 <= i < |r| ensures IsWordChar(r[i]) || r[i] == ' ' || r[i] == '&' || r[i] == '-' {
      assert NameChar(r[i]);
    }
  }
}
