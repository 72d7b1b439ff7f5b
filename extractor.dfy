/**
 * The extractor node: company names from the logo grid (image file names)
 * and from the speaker cards (`strong` texts), gathered per page into an
 * insertion-ordered dictionary keyed by the cleaned name.
 *
 * HTML parsing is not modelled: a `Parser` supplies, for a page's HTML, the
 * `src` of every `img`, the `strong` texts of every speaker card, and the
 * name group of the logo-file pattern for an image source.
 */
module Extractor {
  import opened Wrappers
  import opened Strings
  import opened Seqs
  import opened Types
  import Text
  import opened Normalizer

  datatype Parser = Parser(
    imgSrcs: string -> seq<string>,
    strongTexts: string -> seq<seq<string>>,
    logoName: string -> Option<string>)

  /** `_clean_company_name`: a missing name is "", then strip and collapse whitespace runs. */
  function CleanCompanyName(name: Option<string>): (r: string)
    ensures Trimmed(r) && SingleSpaced(r)
    ensures Visible(r) == Visible(name.GetOr(""))
    ensures name.None? ==> r == ""
  {
    var s := name.GetOr("");
    Text.CollapsedStripShape(s);
    Collapse(Strip(s))
  }

  /** The dictionary key of a name is the name itself. */
  function Id(s: string): string { s }

  function UnderscoreToSpace(c: char): char {
    if c == '_' then ' ' else c
  }

  // ---------------------------------------------------------------- logos

  /** The cleaned company name an image source yields, if any: the pattern's group with '_' read as ' '. */
  function LogoName(logoName: string -> Option<string>, src: string): (r: Option<string>)
    ensures r.Some? ==> r.value != [] && Trimmed(r.value) && SingleSpaced(r.value)
    ensures logoName(src).None? ==> r.None?
  {
    match logoName(src)
    case None => None
    case Some(raw) =>
      var name := CleanCompanyName(Some(MapChars(UnderscoreToSpace, raw)));
      if name == [] then None else Some(name)
  }

  /** One matching image: the record it contributes to its name's entry. */
  function LogoHit(url: string, src: string, name: string): CompanyRecord {
    CompanyRecord(name, {url}, [Evidence(url, "Logo image src: " + src)], 0)
  }

  /** The contributions of the matching images, in document order. */
  function LogoHits(url: string, logoName: string -> Option<string>, srcs: seq<string>): (hits: seq<CompanyRecord>)
    ensures |hits| <= |srcs|
    ensures forall i :: 0 <= i < |hits| ==>
      hits[i].sources == {url} && hits[i].speakersCount == 0 && |hits[i].evidence| == 1 && hits[i].companyName != []
    decreases |srcs|
  {
    if srcs == [] then []
    else
      var src := srcs[|srcs| - 1];
      LogoHits(url, logoName, srcs[..|srcs| - 1]) +
        match LogoName(logoName, src)
        case None => []
        case Some(name) => [LogoHit(url, src, name)]
  }

  lemma LogoHitsTake(url: string, logoName: string -> Option<string>, srcs: seq<string>, i: int)
    requires 0 <= i < |srcs|
    ensures LogoName(logoName, srcs[i]).None? ==> LogoHits(url, logoName, srcs[..i + 1]) == LogoHits(url, logoName, srcs[..i])
    ensures LogoName(logoName, srcs[i]).Some? ==>
      LogoHits(url, logoName, srcs[..i + 1]) == LogoHits(url, logoName, srcs[..i]) + [LogoHit(url, srcs[i], LogoName(logoName, srcs[i]).value)]
  {
    assert srcs[..i + 1][..i] == srcs[..i];
    AppendNil(LogoHits(url, logoName, srcs[..i]));
  }

  /** What `_extract_from_logos` returns. */
  function LogoRecords(url: string, logoName: string -> Option<string>, srcs: seq<string>): seq<CompanyRecord> {
    MergedBy(Id, LogoHits(url, logoName, srcs))
  }

  /** `_extract_from_logos`, over the image sources of the page. */
  method ExtractFromLogos(url: string, srcs: seq<string>, logoName: string -> Option<string>) returns (recs: seq<CompanyRecord>)
    ensures recs == LogoRecords(url, logoName, srcs)
  {
    var order: seq<string> := [];
    var out: map<string, CompanyRecord> := map[];
    ghost var seen: seq<CompanyRecord> := [];
    var i := 0;
    while i < |srcs|
      invariant 0 <= i <= |srcs| && seen == LogoHits(url, logoName, srcs[..i])
      invariant MergeInv(Id, seen, order, out)
    {
      var src := srcs[i];
      LogoHitsTake(url, logoName, srcs, i);
      // No match, or a name that cleans to "": the image is skipped.
      var name := LogoName(logoName, src);
      if name.Some? {
        // Creating the entry on first sight, adding the url and appending the evidence.
        var hit := LogoHit(url, src, name.value);
        order, out := MergeOne(Id, seen, hit, order, out);
        seen := seen + [hit];
      }
      i := i + 1;
    }
    assert srcs[..i] == srcs;
    recs := DictValues(Id, seen, order, out);
  }

  // ---------------------------------------------------------------- speakers

  /** The `strong` texts of all cards, card after card. */
  function Flatten(cards: seq<seq<string>>): (frags: seq<string>)
    decreases |cards|
  {
    if cards == [] then [] else Flatten(cards[..|cards| - 1]) + cards[|cards| - 1]
  }

  lemma FlattenTake(cards: seq<seq<string>>, c: int)
    requires 0 <= c < |cards|
    ensures Flatten(cards[..c + 1]) == Flatten(cards[..c]) + cards[c]
  {
    assert cards[..c + 1][..c] == cards[..c];
  }

  /** One accepted `strong` text: its cleaned form has at least two characters. */
  function SpeakerHit(url: string, company: string): CompanyRecord {
    CompanyRecord(company, {url}, [Evidence(url, "Speakers page company: " + company)], 1)
  }

  /** The contributions of the accepted `strong` texts, in document order. */
  function SpeakerHits(url: string, frags: seq<string>): (hits: seq<CompanyRecord>)
    ensures |hits| <= |frags|
    ensures forall i :: 0 <= i < |hits| ==>
      hits[i].sources == {url} && hits[i].speakersCount == 1 && |hits[i].evidence| == 1 &&
      |hits[i].companyName| >= 2 && Trimmed(hits[i].companyName) && SingleSpaced(hits[i].companyName)
    decreases |frags|
  {
    if frags == [] then []
    else
      var company := CleanCompanyName(Some(frags[|frags| - 1]));
      SpeakerHits(url, frags[..|frags| - 1]) + (if |company| < 2 then [] else [SpeakerHit(url, company)])
  }

  /** What `_extract_from_speakers` returns as its list of records. */
  function SpeakerRecords(url: string, cards: seq<seq<string>>): seq<CompanyRecord> {
    MergedBy(Id, SpeakerHits(url, Flatten(cards)))
  }

  lemma SpeakerHitsSnoc(url: string, frags: seq<string>, text: string)
    ensures var company := CleanCompanyName(Some(text));
      |company| >= 2 ==> SpeakerHits(url, frags + [text]) == SpeakerHits(url, frags) + [SpeakerHit(url, company)]
    ensures |CleanCompanyName(Some(text))| < 2 ==> SpeakerHits(url, frags + [text]) == SpeakerHits(url, frags)
  {
    assert (frags + [text])[..|frags|] == frags;
    AppendNil(SpeakerHits(url, frags));
  }

  /**
   * After the `strong` texts `frags`: `seen` are their hits, `order` and `out` the merge of those hits,
   * and `speakerCount` the number of hits.
   */
  ghost predicate Scanned(url: string, frags: seq<string>, seen: seq<CompanyRecord>,
                          order: seq<string>, out: map<string, CompanyRecord>, speakerCount: int) {
    seen == SpeakerHits(url, frags) && MergeInv(Id, seen, order, out) && speakerCount == |seen|
  }

  /** The inner loop of `_extract_from_speakers` over the `strong` texts of one card. */
  method ScanCard(url: string, ghost before: seq<string>, strongs: seq<string>, ghost seen: seq<CompanyRecord>,
                  order: seq<string>, out: map<string, CompanyRecord>, speakerCount: int)
    returns (ghost seen': seq<CompanyRecord>, order': seq<string>, out': map<string, CompanyRecord>, speakerCount': int)
    requires Scanned(url, before, seen, order, out, speakerCount)
    ensures Scanned(url, before + strongs, seen', order', out', speakerCount')
  {
    seen', order', out', speakerCount' := seen, order, out, speakerCount;
    ghost var frags := before;
    var j := 0;
    while j < |strongs|
      invariant 0 <= j <= |strongs| && frags == before + strongs[..j]
      invariant Scanned(url, frags, seen', order', out', speakerCount')
    {
      AppendTakeSnoc(before, strongs, j);
      seen', order', out', speakerCount' := ScanStrong(url, frags, strongs[j], seen', order', out', speakerCount');
      frags := frags + [strongs[j]];
      j := j + 1;
    }
    assert strongs[..j] == strongs;
  }

  /** One `strong` text: a cleaned name of two or more characters is counted and merged into `out`. */
  method ScanStrong(url: string, ghost before: seq<string>, text: string, ghost seen: seq<CompanyRecord>,
                    order: seq<string>, out: map<string, CompanyRecord>, speakerCount: int)
    returns (ghost seen': seq<CompanyRecord>, order': seq<string>, out': map<string, CompanyRecord>, speakerCount': int)
    requires Scanned(url, before, seen, order, out, speakerCount)
    ensures Scanned(url, before + [text], seen', order', out', speakerCount')
  {
    seen', order', out', speakerCount' := seen, order, out, speakerCount;
    var company := CleanCompanyName(Some(text));
    SpeakerHitsSnoc(url, before, text);
    if |company| >= 2 {
      speakerCount' := speakerCount' + 1;
      var hit := SpeakerHit(url, company);
      order', out' := MergeOne(Id, seen', hit, order', out');
      seen' := seen' + [hit];
    }
  }

  /** `_extract_from_speakers`, over the `strong` texts of each card: the records and the number of speakers. */
  method ExtractFromSpeakers(url: string, cards: seq<seq<string>>) returns (recs: seq<CompanyRecord>, speakerCount: int)
    ensures recs == SpeakerRecords(url, cards)
    ensures speakerCount == |SpeakerHits(url, Flatten(cards))|
  {
    var order: seq<string> := [];
    var out: map<string, CompanyRecord> := map[];
    ghost var seen: seq<CompanyRecord> := [];
    speakerCount := 0;
    var c := 0;
    while c < |cards|
      invariant 0 <= c <= |cards| && Scanned(url, Flatten(cards[..c]), seen, order, out, speakerCount)
    {
      seen, order, out, speakerCount := ScanCard(url, Flatten(cards[..c]), cards[c], seen, order, out, speakerCount);
      FlattenTake(cards, c);
      c := c + 1;
    }
    assert cards[..c] == cards;
    recs := DictValues(Id, seen, order, out);
  }

  // ---------------------------------------------------------------- the node

  /** Root and logo pages are scanned for logos. */
  predicate RunsLogos(rp: RawPage) {
    rp.pageType == Root || rp.pageType == Logos
  }

  /** Speaker pages, and pages whose URL ends in "/speakers" after trailing slashes are dropped, are scanned for speakers. */
  predicate RunsSpeakers(url: string, rp: RawPage) {
    rp.pageType == Speakers || EndsWith(RStripChar(url, '/'), "/speakers")
  }

  function PageLogos(p: Parser, url: string, rp: RawPage): seq<CompanyRecord> {
    if RunsLogos(rp) then LogoRecords(url, p.logoName, p.imgSrcs(rp.html)) else []
  }

  function PageSpeakers(p: Parser, url: string, rp: RawPage): seq<CompanyRecord> {
    if RunsSpeakers(url, rp) then SpeakerRecords(url, p.strongTexts(rp.html)) else []
  }

  /** The records one page contributes: logos first, then speakers; both can run on one page. */
  function PageRecords(p: Parser, normalizeUrl: string -> string, rp: RawPage): seq<CompanyRecord> {
    var url := normalizeUrl(rp.url);
    PageLogos(p, url, rp) + PageSpeakers(p, url, rp)
  }

  /** The records of each page in turn, in page order. */
  function ConcatPages(f: RawPage -> seq<CompanyRecord>, pages: seq<RawPage>): seq<CompanyRecord>
    decreases |pages|
  {
    if pages == [] then [] else ConcatPages(f, pages[..|pages| - 1]) + f(pages[|pages| - 1])
  }

  function PageFn(p: Parser, normalizeUrl: string -> string): RawPage -> seq<CompanyRecord> {
    rp => PageRecords(p, normalizeUrl, rp)
  }

  /** What `extractor_node` leaves in `company_records`. */
  function Extracted(p: Parser, normalizeUrl: string -> string, pages: seq<RawPage>): seq<CompanyRecord> {
    ConcatPages(PageFn(p, normalizeUrl), pages)
  }

  lemma ConcatPagesTake(f: RawPage -> seq<CompanyRecord>, pages: seq<RawPage>, i: int)
    requires 0 <= i < |pages|
    ensures ConcatPages(f, pages[..i + 1]) == ConcatPages(f, pages[..i]) + f(pages[i])
  {
    assert pages[..i + 1][..i] == pages[..i];
  }

  /** The loop body of `extractor_node` for one page. */
  method ExtractPage(p: Parser, normalizeUrl: string -> string, rp: RawPage) returns (recs: seq<CompanyRecord>)
    ensures recs == PageRecords(p, normalizeUrl, rp)
  {
    var url := normalizeUrl(rp.url);
    // Extending by an empty list changes nothing, so the `if recs:` guards are left implicit.
    var logos: seq<CompanyRecord> := [];
    if rp.pageType in {Root, Logos} {
      logos := ExtractFromLogos(url, p.imgSrcs(rp.html), p.logoName);
    }
    var speakers: seq<CompanyRecord> := [];
    if rp.pageType == Speakers || EndsWith(RStripChar(url, '/'), "/speakers") {
      var count;
      speakers, count := ExtractFromSpeakers(url, p.strongTexts(rp.html));
    }
    recs := logos + speakers;
  }

  /** `extractor_node`: extracts page by page and replaces `company_records`, touching nothing else. */
  method ExtractorNode(state: GraphState, p: Parser, normalizeUrl: string -> string)
    modifies state`companyRecords
    ensures state.companyRecords == Extracted(p, normalizeUrl, state.rawPages)
  {
    var all: seq<CompanyRecord> := [];
    var pages := state.rawPages;
    var i := 0;
    while i < |pages|
      invariant 0 <= i <= |pages| && all == ConcatPages(PageFn(p, normalizeUrl), pages[..i])
    {
      var recs := ExtractPage(p, normalizeUrl, pages[i]);
      ConcatPagesTake(PageFn(p, normalizeUrl), pages, i);
      all := all + recs;
      i := i + 1;
    }
    assert pages[..i] == pages;
    state.companyRecords := all;
  }

  // ---------------------------------------------------------------- properties

  /** Cleaning a cleaned name changes nothing. */
  lemma CleanIdempotent(name: Option<string>)
    ensures CleanCompanyName(Some(CleanCompanyName(name))) == CleanCompanyName(name)
  {
    var r := CleanCompanyName(name);
    assert Strip(r) == r;
    CollapseSingleSpaced(r);
  }

  /** The cleaned names of the matching images, in document order. */
  function LogoNames(logoName: string -> Option<string>, srcs: seq<string>): seq<string>
    decreases |srcs|
  {
    if srcs == [] then []
    else
      var name := LogoName(logoName, srcs[|srcs| - 1]);
      LogoNames(logoName, srcs[..|srcs| - 1]) + (if name.Some? then [name.value] else [])
  }

  lemma {:induction false} KeysLogoHits(url: string, logoName: string -> Option<string>, srcs: seq<string>)
    ensures Keys(Id, LogoHits(url, logoName, srcs)) == LogoNames(logoName, srcs)
    decreases |srcs|
  {
    if srcs != [] {
      var init := srcs[..|srcs| - 1];
      var src := srcs[|srcs| - 1];
      KeysLogoHits(url, logoName, init);
      var hits := LogoHits(url, logoName, init);
      match LogoName(logoName, src)
      case None =>
        assert LogoHits(url, logoName, srcs) == hits + [];
        assert hits + [] == hits;
        assert LogoNames(logoName, init) + [] == LogoNames(logoName, init);
      case Some(name) =>
        KeysSnoc(Id, hits, LogoHit(url, src, name));
    }
  }

  lemma {:induction false} UnionSourcesSingle(ms: seq<CompanyRecord>, u: string)
    requires ms != [] && forall i :: 0 <= i < |ms| ==> ms[i].sources == {u}
    ensures UnionSources(ms) == {u}
    decreases |ms|
  {
    if |ms| > 1 {
      UnionSourcesSingle(ms[..|ms| - 1], u);
    } else {
      assert ms[..0] == [];
    }
  }

  lemma {:induction false} SumSpeakersSame(ms: seq<CompanyRecord>, c: int)
    requires c == 0 || c == 1
    requires forall i :: 0 <= i < |ms| ==> ms[i].speakersCount == c
    ensures SumSpeakers(ms) == c * |ms|
    decreases |ms|
  {
    if ms != [] {
      SumSpeakersSame(ms[..|ms| - 1], c);
    }
  }

  lemma {:induction false} ConcatEvidenceSingles(ms: seq<CompanyRecord>)
    requires forall i :: 0 <= i < |ms| ==> |ms[i].evidence| == 1
    ensures |ConcatEvidence(ms)| == |ms|
    decreases |ms|
  {
    if ms != [] {
      ConcatEvidenceSingles(ms[..|ms| - 1]);
    }
  }

  /**
   * The logo records come one per distinct cleaned name, in order of first occurrence; each has the page as its only
   * source, no speakers, and one Evidence per matching image.
   */
  lemma LogoRecordsShape(url: string, logoName: string -> Option<string>, srcs: seq<string>, j: int)
    requires 0 <= j < |LogoRecords(url, logoName, srcs)|
    ensures var out := LogoRecords(url, logoName, srcs); var names := LogoNames(logoName, srcs);
      |out| == |Distinct(names)| &&
      out[j].companyName == Distinct(names)[j] &&
      out[j].sources == {url} && out[j].speakersCount == 0 &&
      |out[j].evidence| == Count(names, out[j].companyName)
  {
    var hits := LogoHits(url, logoName, srcs);
    var d := Distinct(Keys(Id, hits));
    KeysLogoHits(url, logoName, srcs);
    MergedKey(Id, hits, j);
    var ms := Members(Id, hits, d[j]);
    forall i | 0 <= i < |ms| ensures ms[i].sources == {url} && ms[i].speakersCount == 0 && |ms[i].evidence| == 1 {
      MembersIn(Id, hits, d[j], i);
    }
    UnionSourcesSingle(ms, url);
    SumSpeakersSame(ms, 0);
    ConcatEvidenceSingles(ms);
    assert d[j] in Keys(Id, hits);
    MembersCount(Id, hits, d[j]);
  }

  /** Distinct logo records have distinct names. */
  lemma LogoNamesDistinct(url: string, logoName: string -> Option<string>, srcs: seq<string>, i: int, j: int)
    requires 0 <= i < j < |LogoRecords(url, logoName, srcs)|
    ensures LogoRecords(url, logoName, srcs)[i].companyName != LogoRecords(url, logoName, srcs)[j].companyName
  {
    MergedKeysDistinct(Id, LogoHits(url, logoName, srcs), i, j);
  }

  /** A one-character logo name is kept, unlike a one-character speaker company. */
  lemma LogoKeepsOneChar(url: string, logoName: string -> Option<string>, src: string, c: char)
    requires logoName(src) == Some([c]) && !IsSpace(c) && c != '_'
    ensures LogoRecords(url, logoName, [src]) == [CompanyRecord([c], {url}, [Evidence(url, "Logo image src: " + src)], 0)]
  {
    assert MapChars(UnderscoreToSpace, [c]) == [c];
    assert Strip([c]) == [c];
    assert Collapse([c]) == [c] by {
      assert Collapse([c]) == [c] + Collapse([]);
    }
    assert LogoName(logoName, src) == Some([c]);
    var hit := LogoHit(url, src, [c]);
    assert [src][..0] == [];
    assert LogoHits(url, logoName, [src]) == [hit];
    assert Keys(Id, [hit]) == [[c]] by {
      KeysSnoc(Id, [], hit);
      assert [] + [hit] == [hit];
    }
    assert Distinct([[c]]) == [[c]] by {
      DistinctSnoc([], [c]);
      assert [] + [[c]] == [[c]];
    }
    assert Members(Id, [hit], [c]) == [hit] by {
      MembersSnoc(Id, [], hit, [c]);
      assert [] + [hit] == [hit];
    }
    MergeGroupSingle(hit);
    var out := MergedBy(Id, [hit]);
    assert |out| == 1 && out[0] == MergeGroup([hit]);
    assert {} + {url} == {url};
    assert [] + hit.evidence == hit.evidence;
    assert out == [out[0]];
  }

  /** A `strong` text that cleans to fewer than two characters adds no hit and no record, whatever came before. */
  lemma SpeakersDropShort(url: string, cards: seq<seq<string>>, text: string)
    requires |CleanCompanyName(Some(text))| < 2
    ensures SpeakerHits(url, Flatten(cards + [[text]])) == SpeakerHits(url, Flatten(cards))
    ensures SpeakerRecords(url, cards + [[text]]) == SpeakerRecords(url, cards)
  {
    assert (cards + [[text]])[..|cards|] == cards;
    assert Flatten(cards + [[text]]) == Flatten(cards) + [text];
    SpeakerHitsSnoc(url, Flatten(cards), text);
  }

  /** For example, a one-character speaker company is not counted. */
  lemma SpeakersDropOneChar(url: string, c: char)
    ensures SpeakerHits(url, [[c]]) == [] && SpeakerRecords(url, [[[c]]]) == []
  {
    var t := CleanCompanyName(Some([c]));
    assert |t| <= 1 by {
      assert |Strip([c])| <= 1;
    }
    SpeakerHitsSnoc(url, [], [c]);
    assert [] + [[c]] == [[c]];
    assert [[[c]]][..0] == [];
    assert Flatten([[[c]]]) == [] + [[c]];
  }

  lemma {:induction false} KeptAllNamed(recs: seq<CompanyRecord>)
    requires forall i :: 0 <= i < |recs| ==> recs[i].companyName != []
    ensures Kept(Id, recs) == recs
    decreases |recs|
  {
    if recs != [] {
      KeptAllNamed(recs[..|recs| - 1]);
      assert recs == recs[..|recs| - 1] + [recs[|recs| - 1]];
    }
  }

  /**
   * The speaker count returned is the number of accepted `strong` texts, and it equals the sum of
   * `speakers_count` over the returned records.
   */
  lemma SpeakerTotal(url: string, cards: seq<seq<string>>)
    ensures SumSpeakers(SpeakerRecords(url, cards)) == |SpeakerHits(url, Flatten(cards))|
  {
    var hits := SpeakerHits(url, Flatten(cards));
    MergedSpeakers(Id, hits);
    KeptAllNamed(hits);
    SumSpeakersSame(hits, 1);
  }

  /** Every speaker record's name has at least two characters and is cleaned: trimmed and single-spaced. */
  lemma SpeakerNameEach(url: string, cards: seq<seq<string>>, k: int)
    requires 0 <= k < |SpeakerRecords(url, cards)|
    ensures var name := SpeakerRecords(url, cards)[k].companyName;
      |name| >= 2 && Trimmed(name) && SingleSpaced(name)
  {
    var hits := SpeakerHits(url, Flatten(cards));
    MergedKey(Id, hits, k);
    MembersIn(Id, hits, Distinct(Keys(Id, hits))[k], 0);
  }

  /** The speaker records have pairwise distinct names of at least two characters, each cleaned. */
  lemma SpeakerNames(url: string, cards: seq<seq<string>>, i: int, j: int)
    requires 0 <= i < j < |SpeakerRecords(url, cards)|
    ensures var out := SpeakerRecords(url, cards);
      out[i].companyName != out[j].companyName &&
      |out[i].companyName| >= 2 && Trimmed(out[i].companyName) && SingleSpaced(out[i].companyName)
  {
    var hits := SpeakerHits(url, Flatten(cards));
    MergedKeysDistinct(Id, hits, i, j);
    MergedKey(Id, hits, i);
    var ms := Members(Id, hits, Distinct(Keys(Id, hits))[i]);
    MembersIn(Id, hits, Distinct(Keys(Id, hits))[i], 0);
  }

  lemma ConcatPagesSnoc(f: RawPage -> seq<CompanyRecord>, pages: seq<RawPage>, rp: RawPage)
    ensures ConcatPages(f, pages + [rp]) == ConcatPages(f, pages) + f(rp)
  {
    assert (pages + [rp])[..|pages|] == pages;
  }

  lemma {:induction false} ConcatPagesAppend(f: RawPage -> seq<CompanyRecord>, a: seq<RawPage>, b: seq<RawPage>)
    ensures ConcatPages(f, a + b) == ConcatPages(f, a) + ConcatPages(f, b)
    decreases |b|
  {
    if b == [] {
      assert a + b == a;
    } else {
      var init, last := b[..|b| - 1], b[|b| - 1];
      ConcatPagesAppend(f, a, init);
      assert b == init + [last];
      assert a + b == (a + init) + [last];
      ConcatPagesSnoc(f, a + init, last);
      ConcatPagesSnoc(f, init, last);
    }
  }

  /** Extraction over consecutive runs of pages is the concatenation, in page order. */
  lemma ExtractedAppend(p: Parser, normalizeUrl: string -> string, a: seq<RawPage>, b: seq<RawPage>)
    ensures Extracted(p, normalizeUrl, a + b) == Extracted(p, normalizeUrl, a) + Extracted(p, normalizeUrl, b)
  {
    ConcatPagesAppend(PageFn(p, normalizeUrl), a, b);
  }

  /** A single page contributes its logo records, then its speaker records. */
  lemma ExtractedOne(p: Parser, normalizeUrl: string -> string, rp: RawPage)
    ensures Extracted(p, normalizeUrl, [rp]) ==
      PageLogos(p, normalizeUrl(rp.url), rp) + PageSpeakers(p, normalizeUrl(rp.url), rp)
  {
    ConcatPagesSnoc(PageFn(p, normalizeUrl), [], rp);
    assert [] + [rp] == [rp];
  }

  /** A page that is neither a root, logos nor speakers page, at a URL not ending in "/speakers", contributes nothing. */
  lemma NoExtraction(p: Parser, normalizeUrl: string -> string, rp: RawPage)
    requires rp.pageType == Agenda || rp.pageType == Unknown
    requires !EndsWith(RStripChar(normalizeUrl(rp.url), '/'), "/speakers")
    ensures PageRecords(p, normalizeUrl, rp) == []
  {
  }
}
