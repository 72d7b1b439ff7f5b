/**
 * The deterministic helpers of the LLM client: the brace-depth JSON object
 * scanner, the three-stage extraction of JSON text from a model reply, the
 * "retry in Ns" parser, the quota test and the two back-off formulas.
 * The rate limiter and the retry loop are in `llm_retry.dfy`.
 */
module LlmClient {
  import opened Wrappers
  import opened Strings

  // ---------------------------------------------------------------- the balanced-object scanner

  /** The scanner's state between characters: brace depth, inside a string literal, just after a backslash in one. */
  datatype ScanState = ScanState(depth: int, inStr: bool, esc: bool)

  const Start := ScanState(0, false, false)

  /** The state after one character that does not close the object. */
  function Step(st: ScanState, ch: char): (r: ScanState)
    ensures st.inStr ==> r.depth == st.depth
    ensures !st.inStr ==> r.depth == st.depth + (if ch == '{' then 1 else if ch == '}' then -1 else 0)
  {
    if st.inStr then
      if st.esc then st.(esc := false)
      else if ch == '\\' then st.(esc := true)
      else if ch == '"' then st.(inStr := false)
      else st
    else if ch == '"' then st.(inStr := true)
    else if ch == '{' then st.(depth := st.depth + 1)
    else if ch == '}' then st.(depth := st.depth - 1)
    else st
  }

  /** The character ends the scan: a '}' outside any string that brings the depth back to 0. */
  predicate Closes(st: ScanState, ch: char) {
    !st.inStr && ch == '}' && st.depth == 1
  }

  /** Scanning `text` from index `i` in state `st`: the index just past the closing '}', if there is one. */
  function ScanFrom(text: string, i: nat, st: ScanState): (r: Option<nat>)
    requires i <= |text|
    ensures r.Some? ==> i < r.value <= |text| && text[r.value - 1] == '}'
    decreases |text| - i
  {
    if i == |text| then None
    else if Closes(st, text[i]) then Some(i + 1)
    else ScanFrom(text, i + 1, Step(st, text[i]))
  }

  /** What `_extract_balanced_json_object` returns: from the first '{' to the '}' that rebalances it. */
  function BalancedObject(text: string): (r: Option<string>)
    ensures r.Some? ==> |r.value| >= 2 && r.value[0] == '{' && r.value[|r.value| - 1] == '}'
    ensures r.Some? ==>
      Find(text, "{").Some? && OccursAt(text, r.value, Find(text, "{").value)
    ensures Find(text, "{").None? ==> r.None?
  {
    if text == [] then None
    else
      match Find(text, "{")
      case None => None
      case Some(start) =>
        assert text[start] == "{"[0];
        match ScanFrom(text, start, Start)
        case None => None
        case Some(e) => Some(text[start..e])
  }

  /** `_extract_balanced_json_object`. */
  method ExtractBalancedJsonObject(text: string) returns (r: Option<string>)
    ensures r == BalancedObject(text)
  {
    if |text| == 0 {
      return None;
    }
    var found := Find(text, "{");
    if found.None? {
      return None;
    }
    var start := found.value;
    var depth, inStr, esc := 0, false, false;
    var i := start;
    while i < |text|
      invariant start <= i <= |text|
      invariant ScanFrom(text, start, Start) == ScanFrom(text, i, ScanState(depth, inStr, esc))
    {
      var ch := text[i];
      if inStr {
        if esc {
          esc := false;
        } else if ch == '\\' {
          esc := true;
        } else if ch == '"' {
          inStr := false;
        }
      } else if ch == '"' {
        inStr := true;
      } else if ch == '{' {
        depth := depth + 1;
      } else if ch == '}' {
        depth := depth - 1;
        if depth == 0 {
          return Some(text[start..i + 1]);
        }
      }
      i := i + 1;
    }
    return None;
  }

  /** The body of a JSON string literal: no bare '"', and every '\\' escapes the character after it. */
  predicate StringBody(s: string)
    decreases |s|
  {
    if s == [] then true
    else if s[0] == '\\' then |s| >= 2 && StringBody(s[2..])
    else s[0] != '"' && StringBody(s[1..])
  }

  /** Scanning `s` from `st` without the scan ending inside it. */
  predicate RunsThrough(st: ScanState, s: string)
    decreases |s|
  {
    s == [] || (!Closes(st, s[0]) && RunsThrough(Step(st, s[0]), s[1..]))
  }

  /** The state after scanning all of `s` from `st`. */
  function Run(st: ScanState, s: string): ScanState
    decreases |s|
  {
    if s == [] then st else Run(Step(st, s[0]), s[1..])
  }

  lemma {:induction false} StringBodyTransparent(d: int, body: string)
    requires StringBody(body)
    ensures RunsThrough(ScanState(d, true, false), body)
    ensures Run(ScanState(d, true, false), body) == ScanState(d, true, false)
    decreases |body|
  {
    if body != [] {
      var st := ScanState(d, true, false);
      if body[0] == '\\' {
        var st1 := Step(st, body[0]);
        assert st1 == ScanState(d, true, true);
        assert Step(st1, body[1]) == st;
        assert body[1..][1..] == body[2..];
        StringBodyTransparent(d, body[2..]);
      } else {
        assert Step(st, body[0]) == st;
        StringBodyTransparent(d, body[1..]);
      }
    }
  }

  /**
   * The scan from `i` ends just past index `e - 1` exactly when it runs through `text[i..e - 1]` and the
   * state it reaches closes on `text[e - 1]`; it finds nothing exactly when it runs through the rest of the text.
   */
  lemma {:induction false} ScanFromExactly(text: string, i: nat, st: ScanState, e: nat)
    requires i <= |text|
    ensures ScanFrom(text, i, st) == Some(e) <==>
      i < e <= |text| && RunsThrough(st, text[i..e - 1]) && Closes(Run(st, text[i..e - 1]), text[e - 1])
    ensures ScanFrom(text, i, st).None? <==> RunsThrough(st, text[i..])
    decreases |text| - i
  {
    if i == |text| {
      assert text[i..] == [];
    } else {
      var ch := text[i];
      assert text[i..][0] == ch && text[i..][1..] == text[i + 1..];
      assert text[i..i] == [];
      if i + 1 < e <= |text| {
        assert text[i..e - 1][0] == ch && text[i..e - 1][1..] == text[i + 1..e - 1];
      }
      if !Closes(st, ch) {
        ScanFromExactly(text, i + 1, Step(st, ch), e);
      }
    }
  }

  /**
   * With `s` the first '{': the object is `text[s..e]` exactly when the scan from `s` runs through
   * `text[s..e - 1]` and closes on `text[e - 1]`, and there is none exactly when it runs through `text[s..]`.
   */
  lemma BalancedObjectExactly(text: string, e: nat)
    requires Find(text, "{").Some?
    ensures var s := Find(text, "{").value; s < e <= |text| ==>
      (BalancedObject(text) == Some(text[s..e]) <==>
       RunsThrough(Start, text[s..e - 1]) && Closes(Run(Start, text[s..e - 1]), text[e - 1]))
    ensures var s := Find(text, "{").value;
      s < |text| && (BalancedObject(text).None? <==> RunsThrough(Start, text[s..]))
  {
    var s := Find(text, "{").value;
    assert text[s] == "{"[0];
    ScanFromExactly(text, s, Start, e);
    if ScanFrom(text, s, Start).Some? {
      var e' := ScanFrom(text, s, Start).value;
      assert BalancedObject(text) == Some(text[s..e']);
      assert |text[s..e']| == e' - s;
    }
  }

  lemma {:induction false} RunConcat(st: ScanState, a: string, b: string)
    ensures Run(st, a + b) == Run(Run(st, a), b)
    ensures RunsThrough(st, a + b) <== RunsThrough(st, a) && RunsThrough(Run(st, a), b)
    decreases |a|
  {
    if a == [] {
      assert a + b == b;
    } else {
      assert (a + b)[0] == a[0] && (a + b)[1..] == a[1..] + b;
      RunConcat(Step(st, a[0]), a[1..], b);
    }
  }

  /**
   * A string literal leaves the scan as it found it: braces, quotes and backslashes inside it never change the
   * depth and never end the scan.
   */
  lemma StringLiteralTransparent(st: ScanState, body: string)
    requires !st.inStr && !st.esc && StringBody(body)
    ensures RunsThrough(st, "\"" + body + "\"")
    ensures Run(st, "\"" + body + "\"") == st
  {
    var open := Step(st, '"');
    assert open == ScanState(st.depth, true, false);
    StringBodyTransparent(st.depth, body);
    var lit := "\"" + body + "\"";
    assert lit == "\"" + (body + "\"");
    RunConcat(open, body, "\"");
    assert Run(open, "\"") == Run(Step(open, '"'), []);
    assert RunsThrough(open, "\"");
    assert lit[0] == '"' && lit[1..] == body + "\"";
  }

  /** A stretch of the text that the scan runs through can be skipped. */
  lemma {:induction false} ScanSkip(text: string, i: nat, st: ScanState, s: string)
    requires i + |s| <= |text| && text[i..i + |s|] == s && RunsThrough(st, s)
    ensures ScanFrom(text, i, st) == ScanFrom(text, i + |s|, Run(st, s))
    decreases |s|
  {
    if s != [] {
      assert text[i] == s[0];
      assert text[i + 1..i + 1 + |s[1..]|] == s[1..];
      ScanSkip(text, i + 1, Step(st, s[0]), s[1..]);
    }
  }

  /** Without a '{' there is no object, and an object that never rebalances gives none. */
  lemma BalancedNone(body: string)
    requires forall i :: 0 <= i < |body| ==> body[i] != '}' && body[i] != '"'
    ensures BalancedObject("{" + body) == None
  {
    var text := "{" + body;
    assert OccursAt(text, "{", 0);
    assert Find(text, "{") == Some(0);
    forall st: ScanState, i: nat | 1 <= i <= |text| && !st.inStr ensures ScanFrom(text, i, st) == None {
      NoCloseAhead(text, i, st);
    }
    assert ScanFrom(text, 0, Start) == ScanFrom(text, 1, Step(Start, '{'));
  }

  lemma {:induction false} NoCloseAhead(text: string, i: nat, st: ScanState)
    requires 1 <= i <= |text| && !st.inStr
    requires forall j :: 1 <= j < |text| ==> text[j] != '}' && text[j] != '"'
    ensures ScanFrom(text, i, st) == None
    decreases |text| - i
  {
    if i < |text| {
      NoCloseAhead(text, i + 1, Step(st, text[i]));
    }
  }

  lemma FindFirstBrace(pre: string, rest: string)
    requires forall i :: 0 <= i < |pre| ==> pre[i] != '{'
    requires rest != [] && rest[0] == '{'
    ensures Find(pre + rest, "{") == Some(|pre|)
  {
    var text := pre + rest;
    var n := |pre|;
    assert text[n..n + 1] == "{";
    assert OccursAt(text, "{", n);
    forall j | 0 <= j < n ensures !OccursAt(text, "{", j) {
      assert text[j] == pre[j];
    }
  }

  /** `"` + body + `"`. */
  function Quoted(body: string): string { ['"'] + body + ['"'] }

  /** `{` + inner + `}`. */
  function Braces(inner: string): string { ['{'] + inner + ['}'] }

  lemma ScanObject(text: string, n: nat, inner: string)
    requires n + |inner| + 2 <= |text| && text[n] == '{' && text[n + |inner| + 1] == '}'
    requires text[n + 1..n + 1 + |inner|] == inner
    requires RunsThrough(ScanState(1, false, false), inner) && Run(ScanState(1, false, false), inner) == ScanState(1, false, false)
    ensures ScanFrom(text, n, Start) == Some(n + |inner| + 2)
  {
    var s1 := ScanState(1, false, false);
    assert ScanFrom(text, n, Start) == ScanFrom(text, n + 1, s1);
    ScanSkip(text, n + 1, s1, inner);
  }

  lemma PlaceObject(pre: string, inner: string, post: string)
    ensures var text := pre + Braces(inner) + post; var n := |pre|;
      n + |inner| + 2 <= |text| && text[n] == '{' && text[n + |inner| + 1] == '}' &&
      text[n + 1..n + 1 + |inner|] == inner && text[n..n + |inner| + 2] == Braces(inner)
  {
  }

  /**
   * An object holding one string literal is found whole, whatever braces and quotes the literal escapes or
   * contains: the scanner skips string literals.
   */
  lemma BalancedObjectSkipsString(pre: string, body: string, post: string)
    requires forall i :: 0 <= i < |pre| ==> pre[i] != '{'
    requires StringBody(body)
    ensures BalancedObject(pre + Braces(Quoted(body)) + post) == Some(Braces(Quoted(body)))
  {
    var lit := Quoted(body);
    var obj := Braces(lit);
    var text := pre + obj + post;
    assert text == pre + (obj + post);
    FindFirstBrace(pre, obj + post);
    assert "\"" + body + "\"" == lit;
    StringLiteralTransparent(ScanState(1, false, false), body);
    PlaceObject(pre, lit, post);
    ScanObject(text, |pre|, lit);
  }

  lemma MiddleOf<T>(a: seq<T>, b: seq<T>, c: seq<T>)
    ensures (a + b + c)[|a|..|a| + |b|] == b
  {
  }

  // ---------------------------------------------------------------- JSON text extraction

  /** The length of the maximal run of whitespace starting at `i`. */
  function SpaceRun(s: string, i: nat): (n: nat)
    ensures i + n <= |s| || (i > |s| && n == 0)
    ensures forall j :: i <= j < i + n ==> IsSpace(s[j])
    ensures i + n < |s| ==> !IsSpace(s[i + n])
    decreases |s| - i
  {
    if i < |s| && IsSpace(s[i]) then 1 + SpaceRun(s, i + 1) else 0
  }

  /** A `}` at `e` that `\s*```` can follow. */
  predicate FenceCloseAt(s: string, e: nat) {
    e < |s| && s[e] == '}' && OccursAt(s, "```", e + 1 + SpaceRun(s, e + 1))
  }

  /** The lazy `.*?\}`: the first `e >= from` where the fence can close. */
  function FenceClose(s: string, from: nat): (r: Option<nat>)
    ensures r.Some? ==> from <= r.value && FenceCloseAt(s, r.value)
    ensures r.Some? ==> forall e :: from <= e < r.value ==> !FenceCloseAt(s, e)
    ensures r.None? ==> forall e :: from <= e ==> !FenceCloseAt(s, e)
    decreases |s| - from
  {
    if from >= |s| then None
    else if FenceCloseAt(s, from) then Some(from)
    else FenceClose(s, from + 1)
  }

  /** Where the group of the fence pattern begins for a match attempted at `p`: past "```", an optional "json" and whitespace. */
  function FenceOpen(s: string, p: nat): nat {
    var b := if OccursAt(s, "json", p + 3) then p + 7 else p + 3;
    b + SpaceRun(s, b)
  }

  /**
   * ```` ```(?:json)?\s*(\{.*?\})\s*``` ```` (dot matching newlines) attempted at `p`: the span `[q, e]` of the
   * group. Backtracking into `(?:json)?` or `\s*` cannot help, since the group must begin with '{'.
   */
  function FenceAt(s: string, p: nat): (r: Option<(nat, nat)>)
    ensures r.Some? ==> var (q, e) := r.value; q == FenceOpen(s, p) && q < e < |s| && s[q] == '{' && FenceCloseAt(s, e)
    ensures r.Some? ==> forall e :: FenceOpen(s, p) < e < r.value.1 ==> !FenceCloseAt(s, e)
  {
    var q := FenceOpen(s, p);
    if !OccursAt(s, "```", p) || q >= |s| || s[q] != '{' then None
    else
      match FenceClose(s, q + 1)
      case None => None
      case Some(e) => Some((q, e))
  }

  /** `_JSON_FENCE_RE.search(s)` from `from`: the leftmost start `p` with a match, and the group's span. */
  function FenceSearch(s: string, from: nat): (r: Option<(nat, nat, nat)>)
    ensures r.Some? ==> var (p, q, e) := r.value; from <= p && FenceAt(s, p) == Some((q, e))
    ensures r.Some? ==> forall p :: from <= p < r.value.0 ==> FenceAt(s, p).None?
    ensures r.None? ==> forall p :: from <= p ==> FenceAt(s, p).None?
    decreases |s| - from
  {
    if from >= |s| then
      forall p | from <= p ensures FenceAt(s, p).None? {
        FenceAtBeyond(s, p);
      }
      None
    else if FenceAt(s, from).Some? then
      var (q, e) := FenceAt(s, from).value;
      Some((from, q, e))
    else FenceSearch(s, from + 1)
  }

  lemma FenceAtBeyond(s: string, p: nat)
    requires p >= |s|
    ensures FenceAt(s, p).None?
  {
    assert !OccursAt(s, "```", p);
  }

  /** The group of the leftmost fence match in `s`, if there is one. */
  function FenceGroup(s: string): (r: Option<string>)
    ensures r.Some? ==> Braced(r.value) && Contains(s, r.value)
  {
    match FenceSearch(s, 0)
    case None => None
    case Some((_, q, e)) =>
      var g := s[q..e + 1];
      assert OccursAt(s, g, q);
      Some(g)
  }

  /** A text with '{' first and '}' last. */
  predicate Braced(s: string) {
    |s| >= 2 && s[0] == '{' && s[|s| - 1] == '}'
  }

  lemma BracedStrip(s: string)
    requires Braced(s)
    ensures Strip(s) == s
  {
    assert Trimmed(s);
  }

  lemma ContainsAt(s: string, sub: string, q: int)
    requires OccursAt(s, sub, q)
    ensures Contains(s, sub)
  {
  }

  lemma {:induction false} ContainsTrans(s: string, t: string, u: string)
    requires Contains(s, t) && Contains(t, u)
    ensures Contains(s, u)
  {
    var i := Find(s, t).value;
    var j := Find(t, u).value;
    assert s[i + j..i + j + |u|] == t[j..j + |u|];
    ContainsAt(s, u, i + j);
  }

  /** The balanced object of `s`, as text of `s`. */
  lemma BalancedContained(s: string)
    requires BalancedObject(s).Some?
    ensures Contains(s, BalancedObject(s).value)
  {
    var start := Find(s, "{").value;
    ContainsAt(s, BalancedObject(s).value, start);
  }

  /** `_extract_json_text` after the reply has been stripped to `s`. */
  function JsonTextOf(s: string): (r: string)
    ensures Braced(r)
  {
    if s == [] then "{}"
    else if StartsWith(s, "{") && EndsWith(s, "}") then
      assert s[0] == s[..1][0] && s[|s| - 1] == s[|s| - 1..][0];
      s
    else if FenceGroup(s).Some? then BracedStrip(FenceGroup(s).value); Strip(FenceGroup(s).value)
    else if BalancedObject(s).Some? then BracedStrip(BalancedObject(s).value); Strip(BalancedObject(s).value)
    else "{}"
  }

  /** `_extract_json_text`: the reply itself when it is braced, else a fenced object, else the balanced object, else "{}". */
  function ExtractJsonText(raw: Option<string>): (r: string)
    ensures Braced(r)
  {
    JsonTextOf(Strip(raw.GetOr("")))
  }

  lemma JsonTextOfBraced(s: string)
    requires Braced(s)
    ensures JsonTextOf(s) == s
  {
    assert s[..1] == "{" && s[|s| - 1..] == "}";
  }

  /** Extracting from an extracted text changes nothing. */
  lemma ExtractJsonTextIdempotent(raw: Option<string>)
    ensures ExtractJsonText(Some(ExtractJsonText(raw))) == ExtractJsonText(raw)
  {
    var r := ExtractJsonText(raw);
    BracedStrip(r);
    JsonTextOfBraced(r);
  }

  /** Unless it is "{}", the text chosen from a stripped reply lies inside it. */
  lemma JsonTextOfContained(t: string)
    ensures JsonTextOf(t) == "{}" || Contains(t, JsonTextOf(t))
  {
    if t != [] && !(StartsWith(t, "{") && EndsWith(t, "}")) {
      if FenceGroup(t).Some? {
        BracedStrip(FenceGroup(t).value);
      } else if BalancedObject(t).Some? {
        BracedStrip(BalancedObject(t).value);
        BalancedContained(t);
      }
    }
  }

  /** Unless it is "{}", the result is text of the reply. */
  lemma ExtractJsonTextFromReply(raw: Option<string>)
    ensures ExtractJsonText(raw) == "{}" || Contains(raw.GetOr(""), ExtractJsonText(raw))
  {
    var s := raw.GetOr("");
    var t := Strip(s);
    var lo := |s| - |TrimLeft(s)|;
    ContainsAt(s, t, lo);
    var r := JsonTextOf(t);
    JsonTextOfContained(t);
    if r != "{}" {
      ContainsTrans(s, t, r);
    }
  }

  /** A reply that is already a braced object, once stripped, is returned as it is. */
  lemma ExtractJsonTextBraced(raw: string)
    requires Braced(Strip(raw))
    ensures ExtractJsonText(Some(raw)) == Strip(raw)
  {
    JsonTextOfBraced(Strip(raw));
  }

  // ---------------------------------------------------------------- the server's retry hint

  function DigitRun(s: string, i: nat): (n: nat)
    ensures i + n <= |s| || (i > |s| && n == 0)
    ensures forall j :: i <= j < i + n ==> IsDigit(s[j])
    ensures i + n < |s| ==> !IsDigit(s[i + n])
    decreases |s| - i
  {
    if i < |s| && IsDigit(s[i]) then 1 + DigitRun(s, i + 1) else 0
  }

  /** The value of a string of decimal digits. */
  function DigitsValue(ds: string): nat
    decreases |ds|
  {
    if ds == [] then 0
    else DigitsValue(ds[..|ds| - 1]) * 10 + (if IsDigit(ds[|ds| - 1]) then ds[|ds| - 1] as int - '0' as int else 0)
  }

  predicate IsS(c: char) { c == 's' || c == 'S' }

  /** `retry in\s+([0-9]+(?:\.[0-9]+)?)s`, ignoring case, matched at `p`: the whole and fractional digits. */
  function RetryAt(s: string, p: nat): (r: Option<(string, string)>)
    ensures r.Some? ==> r.value.0 != [] && forall j :: 0 <= j < |r.value.0| ==> IsDigit(r.value.0[j])
    ensures r.Some? ==> forall j :: 0 <= j < |r.value.1| ==> IsDigit(r.value.1[j])
  {
    if p + 8 > |s| || Lower(s[p..p + 8]) != "retry in" then None
    else
      var a := p + 8;
      var w := SpaceRun(s, a);
      var b := a + w;
      var n := DigitRun(s, b);
      var c := b + n;
      if w == 0 || n == 0 || c >= |s| then None
      else if IsS(s[c]) then Some((s[b..c], ""))
      else if s[c] == '.' then
        var f := DigitRun(s, c + 1);
        if f > 0 && c + 1 + f < |s| && IsS(s[c + 1 + f]) then Some((s[b..c], s[c + 1..c + 1 + f])) else None
      else None
  }

  /** `re.search`: the leftmost match at or after `from`. */
  function RetrySearch(s: string, from: nat): (r: Option<(string, string)>)
    ensures r.Some? ==> exists p :: from <= p && RetryAt(s, p) == r && forall q :: from <= q < p ==> RetryAt(s, q).None?
    ensures r.None? ==> forall p :: from <= p ==> RetryAt(s, p).None?
    decreases |s| - from
  {
    if from >= |s| then None
    else if RetryAt(s, from).Some? then RetryAt(s, from)
    else RetrySearch(s, from + 1)
  }

  function Pow10(n: nat): (r: nat)
    ensures r >= 1
  {
    if n == 0 then 1 else 10 * Pow10(n - 1)
  }

  /** The exact value of the decimal number `whole.frac`. */
  function Decimal(whole: string, frac: string): real {
    DigitsValue(whole) as real + DigitsValue(frac) as real / Pow10(|frac|) as real
  }

  /**
   * The least decimal that a double-precision `float` rounds to infinity: halfway between the largest
   * finite double, 2^1024 - 2^971, and 2^1024 (the tie rounds to the even neighbour, infinity).
   */
  const FloatOverflow: int :=
    179769313486231580793728971405303415079934132710037826936173778980444968292764750946649017977587207096330286416692887910946555547851940402630657488671505820681908902000708383676273854845817711531764475730270069855571366959622842914819860834936475292719074168444365510704342711559699508093042880177904174497792

  /** The leftmost "retry in N s" of `s` starts at `p`. */
  predicate FirstRetryAt(s: string, p: nat) {
    RetryAt(s, p).Some? && forall q :: 0 <= q < p ==> RetryAt(s, q).None?
  }

  /**
   * `_parse_retry_delay_seconds`: one more than the whole seconds of the first "retry in N s"; nothing when
   * there is none, or when `float` of the number overflows and `int` of the infinity raises.
   */
  function ParseRetryDelaySeconds(msg: string): (r: Option<int>)
    ensures r.Some? ==> 1 <= r.value <= FloatOverflow
    ensures (forall p :: RetryAt(msg, p).None?) ==> r.None?
  {
    match RetrySearch(msg, 0)
    case None => None
    case Some((whole, _)) => if DigitsValue(whole) >= FloatOverflow then None else Some(DigitsValue(whole) + 1)
  }

  /** The hint is missing exactly when no "retry in N s" occurs or the first one is too large for a float. */
  lemma ParseRetryNone(msg: string)
    ensures ParseRetryDelaySeconds(msg).None? <==>
      (forall p :: RetryAt(msg, p).None?) ||
      exists p :: FirstRetryAt(msg, p) && DigitsValue(RetryAt(msg, p).value.0) >= FloatOverflow
  {
    if RetrySearch(msg, 0).Some? {
      var p :| 0 <= p && RetryAt(msg, p) == RetrySearch(msg, 0) && forall q :: 0 <= q < p ==> RetryAt(msg, q).None?;
      assert FirstRetryAt(msg, p);
      forall p': nat | FirstRetryAt(msg, p') ensures p' == p {
        assert !(p' < p) && !(p < p');
      }
    }
  }

  lemma {:induction false} DigitsValueBound(ds: string)
    requires forall j :: 0 <= j < |ds| ==> IsDigit(ds[j])
    ensures DigitsValue(ds) < Pow10(|ds|)
    decreases |ds|
  {
    if ds != [] {
      DigitsValueBound(ds[..|ds| - 1]);
    }
  }

  lemma FractionBelowOne(a: nat, b: nat)
    requires a < b
    ensures 0.0 <= a as real / b as real < 1.0
  {
  }

  lemma FloorPlusOne(w: int, x: real)
    requires 0.0 <= x < 1.0
    ensures (w as real + x + 1.0).Floor == w + 1
  {
  }

  /** The result is `int(N + 1.0)` computed exactly: the floor of the decimal plus one. */
  lemma ParseRetryIsFloorPlusOne(msg: string)
    requires ParseRetryDelaySeconds(msg).Some?
    ensures var (whole, frac) := RetrySearch(msg, 0).value;
      ParseRetryDelaySeconds(msg).value == (Decimal(whole, frac) + 1.0).Floor
  {
    var (whole, frac) := RetrySearch(msg, 0).value;
    assert forall j :: 0 <= j < |frac| ==> IsDigit(frac[j]) by {
      var p :| 0 <= p && RetryAt(msg, p) == RetrySearch(msg, 0) && forall q :: 0 <= q < p ==> RetryAt(msg, q).None?;
    }
    DigitsValueBound(frac);
    FractionBelowOne(DigitsValue(frac), Pow10(|frac|));
    FloorPlusOne(DigitsValue(whole), DigitsValue(frac) as real / Pow10(|frac|) as real);
  }

  // ---------------------------------------------------------------- quota errors and back-off

  /** A quota error mentions 429 or RESOURCE_EXHAUSTED, or "quota" in any case. */
  predicate IsQuotaError(msg: string) {
    Contains(msg, "429") || Contains(msg, "RESOURCE_EXHAUSTED") || Contains(Lower(msg), "quota")
  }

  function Pow2(n: nat): (r: nat)
    ensures r >= 1
  {
    if n == 0 then 1 else 2 * Pow2(n - 1)
  }

  /** The default wait after a quota error on attempt `attempt` (attempts count from 1). */
  function QuotaDelay(attempt: nat): (d: int)
    requires attempt >= 1
    ensures 5 <= d <= 60
  {
    Min(60, 5 * Pow2(attempt - 1))
  }

  lemma QuotaDelayValues()
    ensures QuotaDelay(1) == 5 && QuotaDelay(2) == 10 && QuotaDelay(3) == 20 && QuotaDelay(4) == 40 && QuotaDelay(5) == 60
  {
  }

  lemma {:induction false} Pow2Grows(n: nat)
    ensures Pow2(n) >= n + 1
    decreases n
  {
    if n > 0 {
      Pow2Grows(n - 1);
    }
  }

  /** From the fifth attempt on, the default quota wait is the 60-second cap. */
  lemma QuotaDelayCapped(attempt: nat)
    requires attempt >= 5
    ensures QuotaDelay(attempt) == 60
  {
    Pow2Grows(attempt - 1);
    assert Pow2(attempt - 1) == 2 * Pow2(attempt - 2) == 4 * Pow2(attempt - 3) == 8 * Pow2(attempt - 4);
    assert Pow2(attempt - 4) >= 1;
  }

  /** The default quota wait never shrinks from one attempt to the next. */
  lemma QuotaDelayMonotone(attempt: nat)
    requires attempt >= 1
    ensures QuotaDelay(attempt) <= QuotaDelay(attempt + 1)
  {
    assert Pow2(attempt) == 2 * Pow2(attempt - 1);
  }

  /** The wait after any other error, with the jitter drawn for this attempt. */
  function Backoff(attempt: nat, jitter: real): (b: real)
    ensures b <= 45.0
    ensures jitter >= 0.0 && attempt >= 6 ==> b == 45.0
  {
    var base := Pow2(Min(attempt, 6)) as real + jitter;
    if base <= 45.0 then base else 45.0
  }

  /** With jitter in [0.1, 0.8], the non-quota wait lies between 2.1 and 45 seconds. */
  lemma BackoffBounds(attempt: nat, jitter: real)
    requires attempt >= 1 && 0.1 <= jitter <= 0.8
    ensures 2.1 <= Backoff(attempt, jitter) <= 45.0
  {
    var m := Min(attempt, 6);
    assert Pow2(m) == 2 * Pow2(m - 1);
  }
}
