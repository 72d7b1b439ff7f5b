/**
 * The three agents of the conversation that are more than a pipeline node:
 * the fit agent scores every company and flags borderline ones, the
 * enrichment agent looks for more evidence on those in pages already
 * fetched, and the rescore agent scores the enriched companies again.
 * The language model is consulted through `rowsFor`, a function from a
 * batch of cards to the rows the model returned for it; `listSet` is
 * Python's `list(set)`, whose order is left open.
 */
module Agents {
  import opened Wrappers
  import opened Strings
  import opened Types

  // ---------------------------------------------------------------- messages

  /** A message payload: the empty dictionary, or one of the two lists the agents pass on. */
  datatype Payload = NoPayload | BorderlinePayload(borderline: seq<string>) | EnrichedPayload(enriched: seq<string>)

  datatype Message = Message(sender: string, recipient: string, content: string, payload: Payload)

  /** `list(payload.keys())`, and `[]` for an empty payload. */
  function PayloadKeys(p: Payload): (ks: seq<string>)
    ensures |ks| <= 1
    ensures ks == [] <==> p.NoPayload?
  {
    match p
    case NoPayload => []
    case BorderlinePayload(_) => ["borderline_companies"]
    case EnrichedPayload(_) => ["enriched_companies"]
  }

  /** `payload.get("borderline_companies", [])` */
  function BorderlineOf(p: Payload): seq<string> {
    if p.BorderlinePayload? then p.borderline else []
  }

  /** `payload.get("enriched_companies", [])` */
  function EnrichedOf(p: Payload): seq<string> {
    if p.EnrichedPayload? then p.enriched else []
  }

  // ---------------------------------------------------------------- cards

  /** What the model is shown about one company. */
  datatype Card = Card(companyName: string, sources: seq<string>, speakersCount: int, evidenceSnippets: seq<string>)

  const MaxSources := 5
  const FitSnippets := 3
  const RescoreSnippets := 5

  function Snippets(evs: seq<Evidence>): (r: seq<string>)
    ensures |r| == |evs|
    ensures forall i :: 0 <= i < |r| ==> r[i] == evs[i].snippet
  {
    seq(|evs|, i requires 0 <= i < |evs| => evs[i].snippet)
  }

  /** The card of one record, showing the snippets of its first `n` pieces of evidence. */
  function CardOf(listSet: set<string> -> seq<string>, rec: CompanyRecord, n: nat): (c: Card)
    ensures c.companyName == rec.companyName && c.speakersCount == rec.speakersCount
    ensures |c.sources| <= MaxSources
    ensures |c.evidenceSnippets| == Min(n, |rec.evidence|)
    ensures forall i :: 0 <= i < |c.evidenceSnippets| ==> c.evidenceSnippets[i] == rec.evidence[i].snippet
  {
    Card(rec.companyName, SliceTo(listSet(rec.sources), MaxSources), rec.speakersCount, Snippets(SliceTo(rec.evidence, n)))
  }

  /** The fit agent's cards: one per record, in order, with three snippets each. */
  function FitCards(listSet: set<string> -> seq<string>, records: seq<CompanyRecord>): (cs: seq<Card>)
    ensures |cs| == |records|
    ensures forall i :: 0 <= i < |cs| ==> cs[i] == CardOf(listSet, records[i], FitSnippets)
  {
    seq(|records|, i requires 0 <= i < |records| => CardOf(listSet, records[i], FitSnippets))
  }

  method BuildFitCards(listSet: set<string> -> seq<string>, records: seq<CompanyRecord>) returns (cards: seq<Card>)
    ensures cards == FitCards(listSet, records)
  {
    cards := [];
    var i := 0;
    while i < |records|
      invariant 0 <= i <= |records|
      invariant cards == FitCards(listSet, records)[..i]
    {
      var rec := records[i];
      var snips := Snippets(SliceTo(rec.evidence, FitSnippets));
      cards := cards + [Card(rec.companyName, SliceTo(listSet(rec.sources), MaxSources), rec.speakersCount, snips)];
      i := i + 1;
    }
  }

  /** The rescore agent's cards: the records whose name is in `names`, in record order, with five snippets each. */
  function RescoreCards(listSet: set<string> -> seq<string>, records: seq<CompanyRecord>, names: seq<string>): seq<Card>
    decreases |records|
  {
    if records == [] then []
    else
      var last := records[|records| - 1];
      RescoreCards(listSet, records[..|records| - 1], names)
        + (if last.companyName in names then [CardOf(listSet, last, RescoreSnippets)] else [])
  }

  method BuildRescoreCards(listSet: set<string> -> seq<string>, records: seq<CompanyRecord>, names: seq<string>)
    returns (cards: seq<Card>)
    ensures cards == RescoreCards(listSet, records, names)
  {
    cards := [];
    var i := 0;
    while i < |records|
      invariant 0 <= i <= |records|
      invariant cards == RescoreCards(listSet, records[..i], names)
    {
      var rec := records[i];
      assert records[..i + 1][..i] == records[..i];
      if rec.companyName in names {
        var snips := Snippets(SliceTo(rec.evidence, RescoreSnippets));
        cards := cards + [Card(rec.companyName, SliceTo(listSet(rec.sources), MaxSources), rec.speakersCount, snips)];
      }
      i := i + 1;
    }
    assert records[..i] == records;
  }

  /** A rescore card exists exactly for each record whose name was asked for. */
  lemma {:induction false} RescoreCardsSelect(listSet: set<string> -> seq<string>, records: seq<CompanyRecord>, names: seq<string>)
    ensures var cs := RescoreCards(listSet, records, names);
      |cs| <= |records| &&
      (forall c :: c in cs ==> c.companyName in names) &&
      (forall i :: 0 <= i < |records| && records[i].companyName in names ==> CardOf(listSet, records[i], RescoreSnippets) in cs)
    decreases |records|
  {
    if records != [] {
      var init := records[..|records| - 1];
      RescoreCardsSelect(listSet, init, names);
      forall i | 0 <= i < |records| && records[i].companyName in names
        ensures CardOf(listSet, records[i], RescoreSnippets) in RescoreCards(listSet, records, names)
      {
        if i < |records| - 1 {
          assert records[i] == init[i];
        }
      }
    }
  }

  // ---------------------------------------------------------------- batches

  const BatchSize := 20

  /** `cards[i : i + 20]` for `i` in `range(0, len(cards), 20)`. */
  function Batches<T>(xs: seq<T>): (bs: seq<seq<T>>)
    decreases |xs|
  {
    if xs == [] then [] else [xs[..Min(BatchSize, |xs|)]] + Batches(xs[Min(BatchSize, |xs|)..])
  }

  function Concat<T>(bs: seq<seq<T>>): seq<T>
    decreases |bs|
  {
    if bs == [] then [] else bs[0] + Concat(bs[1..])
  }

  /** The batches cut the cards into consecutive runs of twenty, the last one possibly shorter, and none empty. */
  lemma {:induction false} BatchesPartition<T>(xs: seq<T>)
    ensures var bs := Batches(xs);
      Concat(bs) == xs &&
      |bs| == (|xs| + BatchSize - 1) / BatchSize &&
      (forall i :: 0 <= i < |bs| ==> 1 <= |bs[i]| <= BatchSize) &&
      (forall i :: 0 <= i < |bs| - 1 ==> |bs[i]| == BatchSize)
    decreases |xs|
  {
    if xs != [] {
      var k := Min(BatchSize, |xs|);
      var rest := Batches(xs[k..]);
      BatchesPartition(xs[k..]);
      var bs := Batches(xs);
      assert bs == [xs[..k]] + rest;
      assert bs[1..] == rest;
      assert xs == xs[..k] + xs[k..];
      forall i | 0 <= i < |bs| ensures 1 <= |bs[i]| <= BatchSize {
        if i > 0 { assert bs[i] == rest[i - 1]; }
      }
      forall i | 0 <= i < |bs| - 1 ensures |bs[i]| == BatchSize {
        if i > 0 { assert bs[i] == rest[i - 1]; }
      }
    }
  }

  // ---------------------------------------------------------------- model rows

  /** One entry of the model's `results` list; a missing or null field is `None`. */
  datatype Row = Row(companyName: Option<string>, icpFit: Option<string>, confidence: Option<string>, rationale: Option<string>)

  const RationaleLimit := 220

  /** `icp_fit`, when it is one of the three verdicts. */
  function VerdictOf(s: Option<string>): Option<Verdict> {
    if s == Some("Yes") then Some(Yes)
    else if s == Some("Maybe") then Some(Maybe)
    else if s == Some("No") then Some(No)
    else None
  }

  /** `confidence`, with "low" for anything that is not one of the three levels. */
  function ConfidenceOf(s: Option<string>): Confidence {
    if s == Some("med") then Med
    else if s == Some("high") then High
    else Low
  }

  /** The fit result a row yields, or `None` when the row is skipped. */
  function Accept(row: Row): Option<FitResult> {
    var name := Strip(row.companyName.GetOr(""));
    if name == [] then None
    else
      match VerdictOf(row.icpFit)
      case None => None
      case Some(v) =>
        Some(FitResult(name, v, ConfidenceOf(row.confidence), SliceTo(Strip(row.rationale.GetOr("")), RationaleLimit)))
  }

  /** A row is skipped exactly when its stripped name is blank or its verdict is not one of "Yes", "Maybe", "No". */
  lemma AcceptSkips(row: Row)
    ensures Accept(row).None? <==>
      Strip(row.companyName.GetOr("")) == [] ||
      (row.icpFit != Some("Yes") && row.icpFit != Some("Maybe") && row.icpFit != Some("No"))
  {
  }

  /** What an accepted row holds: its stripped name, its verdict, a known confidence or "low", and at most 220 characters of stripped rationale. */
  lemma AcceptFields(row: Row)
    requires Accept(row).Some?
    ensures var f := Accept(row).value;
      f.companyName == Strip(row.companyName.GetOr("")) && f.companyName != [] && Trimmed(f.companyName) &&
      Some(f.icpFit) == VerdictOf(row.icpFit) &&
      (f.confidence == Low <==> row.confidence != Some("med") && row.confidence != Some("high")) &&
      (row.confidence == Some("med") ==> f.confidence == Med) &&
      (row.confidence == Some("high") ==> f.confidence == High) &&
      |f.rationale| <= RationaleLimit &&
      StartsWith(Strip(row.rationale.GetOr("")), f.rationale)
  {
  }

  /** `name` is what `row` is accepted under. */
  predicate AcceptedAs(row: Row, name: string) {
    Accept(row).Some? && Accept(row).value.companyName == name
  }

  /** Every entry of a map from names to results is filed under its own name. */
  predicate Keyed(m: map<string, FitResult>) {
    forall k :: k in m ==> m[k].companyName == k
  }

  /** `llm_map[name] = FitResult(...)` for one row. */
  function Put(m: map<string, FitResult>, row: Row): map<string, FitResult> {
    match Accept(row)
    case None => m
    case Some(f) => m[f.companyName := f]
  }

  /** The rows applied in order. */
  function Apply(m: map<string, FitResult>, rows: seq<Row>): map<string, FitResult>
    decreases |rows|
  {
    if rows == [] then m else Apply(Put(m, rows[0]), rows[1..])
  }

  lemma {:induction false} ApplyAppend(m: map<string, FitResult>, a: seq<Row>, b: seq<Row>)
    ensures Apply(m, a + b) == Apply(Apply(m, a), b)
    decreases |a|
  {
    if a != [] {
      assert (a + b)[0] == a[0];
      assert (a + b)[1..] == a[1..] + b;
      ApplyAppend(Put(m, a[0]), a[1..], b);
    } else {
      assert a + b == b;
    }
  }

  /** Applying rows keeps every result filed under its own name. */
  lemma {:induction false} ApplyKeyed(m: map<string, FitResult>, rows: seq<Row>)
    requires Keyed(m)
    ensures Keyed(Apply(m, rows))
    decreases |rows|
  {
    if rows != [] {
      ApplyKeyed(Put(m, rows[0]), rows[1..]);
    }
  }

  /** A name ends up in the map exactly when it was there before or some row is accepted under it. */
  lemma {:induction false} ApplyDomain(m: map<string, FitResult>, rows: seq<Row>, k: string)
    ensures k in Apply(m, rows) <==> k in m || exists j :: 0 <= j < |rows| && AcceptedAs(rows[j], k)
    decreases |rows|
  {
    if rows != [] {
      ApplyDomain(Put(m, rows[0]), rows[1..], k);
      if exists j :: 0 <= j < |rows| - 1 && AcceptedAs(rows[1..][j], k) {
        var j :| 0 <= j < |rows| - 1 && AcceptedAs(rows[1..][j], k);
        assert AcceptedAs(rows[j + 1], k);
      }
      if exists j :: 0 <= j < |rows| && AcceptedAs(rows[j], k) {
        var j :| 0 <= j < |rows| && AcceptedAs(rows[j], k);
        if j > 0 {
          assert AcceptedAs(rows[1..][j - 1], k);
        }
      }
    }
  }

  /** A name that no row is accepted under keeps its old entry, or stays absent. */
  lemma {:induction false} ApplyUntouched(m: map<string, FitResult>, rows: seq<Row>, k: string)
    requires forall j :: 0 <= j < |rows| ==> !AcceptedAs(rows[j], k)
    ensures k in Apply(m, rows) <==> k in m
    ensures k in m ==> Apply(m, rows)[k] == m[k]
    decreases |rows|
  {
    if rows != [] {
      assert !AcceptedAs(rows[0], k);
      forall j | 0 <= j < |rows| - 1 ensures !AcceptedAs(rows[1..][j], k) {
        assert rows[1..][j] == rows[j + 1];
      }
      ApplyUntouched(Put(m, rows[0]), rows[1..], k);
    }
  }

  /** The last row accepted under a name decides its entry. */
  lemma {:induction false} ApplyLastWins(m: map<string, FitResult>, rows: seq<Row>, j: int, k: string)
    requires 0 <= j < |rows| && AcceptedAs(rows[j], k)
    requires forall l :: j < l < |rows| ==> !AcceptedAs(rows[l], k)
    ensures k in Apply(m, rows) && Apply(m, rows)[k] == Accept(rows[j]).value
    decreases |rows|
  {
    if j == 0 {
      forall l | 0 <= l < |rows| - 1 ensures !AcceptedAs(rows[1..][l], k) {
        assert rows[1..][l] == rows[l + 1];
      }
      ApplyUntouched(Put(m, rows[0]), rows[1..], k);
    } else {
      forall l | j - 1 < l < |rows| - 1 ensures !AcceptedAs(rows[1..][l], k) {
        assert rows[1..][l] == rows[l + 1];
      }
      ApplyLastWins(Put(m, rows[0]), rows[1..], j - 1, k);
    }
  }

  /** The rows the model returns for each batch, concatenated in batch order. */
  function RowsOf(rowsFor: seq<Card> -> seq<Row>, bs: seq<seq<Card>>): seq<Row>
    decreases |bs|
  {
    if bs == [] then [] else rowsFor(bs[0]) + RowsOf(rowsFor, bs[1..])
  }

  /** `llm_map` (and `rescore_map`): every batch's rows applied in order to an empty map. */
  function ScoreMap(rowsFor: seq<Card> -> seq<Row>, cards: seq<Card>): map<string, FitResult> {
    Apply(map[], RowsOf(rowsFor, Batches(cards)))
  }

  /** Every result the model is believed for is filed under its name, and no cards means no results. */
  lemma ScoreMapKeyed(rowsFor: seq<Card> -> seq<Row>, cards: seq<Card>)
    ensures Keyed(ScoreMap(rowsFor, cards))
    ensures cards == [] ==> ScoreMap(rowsFor, cards) == map[]
  {
    ApplyKeyed(map[], RowsOf(rowsFor, Batches(cards)));
  }

  /** The inner loop over the rows of one batch. */
  method ApplyRows(m0: map<string, FitResult>, rows: seq<Row>) returns (m: map<string, FitResult>)
    ensures m == Apply(m0, rows)
  {
    m := m0;
    var j := 0;
    while j < |rows|
      invariant 0 <= j <= |rows|
      invariant Apply(m, rows[j..]) == Apply(m0, rows)
    {
      var r := rows[j];
      assert rows[j..][1..] == rows[j + 1..];
      var name := Strip(r.companyName.GetOr(""));
      if name != [] {
        var icpFit := VerdictOf(r.icpFit);
        if icpFit.Some? {
          var conf := ConfidenceOf(r.confidence);
          var rationale := Strip(r.rationale.GetOr(""));
          m := m[name := FitResult(name, icpFit.value, conf, SliceTo(rationale, RationaleLimit))];
        }
      }
      j := j + 1;
    }
  }

  /** The batch loop: one model call per batch of twenty cards. */
  method ScoreBatches(rowsFor: seq<Card> -> seq<Row>, cards: seq<Card>) returns (m: map<string, FitResult>)
    ensures m == ScoreMap(rowsFor, cards)
  {
    m := map[];
    var i := 0;
    while i < |cards|
      invariant 0 <= i
      invariant Apply(m, RowsOf(rowsFor, Batches(cards[Min(i, |cards|)..]))) == ScoreMap(rowsFor, cards)
      decreases |cards| - i
    {
      var batch := cards[i..Min(i + BatchSize, |cards|)];
      var rest := cards[i..];
      var k := Min(BatchSize, |rest|);
      assert rest[..k] == batch;
      assert rest[k..] == cards[Min(i + BatchSize, |cards|)..];
      var bs := Batches(rest);
      assert bs[0] == batch && bs[1..] == Batches(cards[Min(i + BatchSize, |cards|)..]);
      ApplyAppend(m, rowsFor(batch), RowsOf(rowsFor, bs[1..]));
      var data := rowsFor(batch);
      m := ApplyRows(m, data);
      i := i + BatchSize;
    }
  }

  // ---------------------------------------------------------------- fit results

  function NoRowResult(rec: CompanyRecord): FitResult {
    FitResult(rec.companyName, Maybe, Low, "No LLM row returned.")
  }

  function DisabledResult(rec: CompanyRecord): FitResult {
    FitResult(rec.companyName, Maybe, Low, "LLM disabled.")
  }

  /** One result per record, in record order: the model's result for its name, or the "no row" default. */
  function MergeResults(records: seq<CompanyRecord>, m: map<string, FitResult>): seq<FitResult> {
    seq(|records|, i requires 0 <= i < |records| =>
      if records[i].companyName in m then m[records[i].companyName] else NoRowResult(records[i]))
  }

  function DisabledResults(records: seq<CompanyRecord>): seq<FitResult> {
    seq(|records|, i requires 0 <= i < |records| => DisabledResult(records[i]))
  }

  /** The merged results line up with the records: same length, same names, and a default exactly where the model gave no result. */
  lemma MergeAligned(records: seq<CompanyRecord>, m: map<string, FitResult>)
    requires Keyed(m)
    ensures var out := MergeResults(records, m);
      |out| == |records| &&
      (forall i :: 0 <= i < |out| ==> out[i].companyName == records[i].companyName) &&
      (forall i :: 0 <= i < |out| ==> (records[i].companyName !in m <==> out[i] == NoRowResult(records[i]) && out[i] !in m.Values))
  {
    var out := MergeResults(records, m);
    forall i | 0 <= i < |out|
      ensures records[i].companyName !in m <==> out[i] == NoRowResult(records[i]) && out[i] !in m.Values
    {
      if records[i].companyName in m {
        assert out[i] in m.Values;
      }
    }
  }

  method Merge(records: seq<CompanyRecord>, m: map<string, FitResult>) returns (out: seq<FitResult>)
    ensures out == MergeResults(records, m)
  {
    out := [];
    var i := 0;
    while i < |records|
      invariant 0 <= i <= |records|
      invariant out == MergeResults(records, m)[..i]
    {
      var rec := records[i];
      var r := if rec.companyName in m then m[rec.companyName] else NoRowResult(rec);
      out := out + [r];
      i := i + 1;
    }
  }

  predicate IsBorderline(r: FitResult) {
    r.icpFit == Maybe && (r.confidence == Low || r.confidence == Med)
  }

  /** The names of the "Maybe" results with low or medium confidence, in order. */
  function Borderline(rs: seq<FitResult>): seq<string>
    decreases |rs|
  {
    if rs == [] then []
    else (if IsBorderline(rs[0]) then [rs[0].companyName] else []) + Borderline(rs[1..])
  }

  /** The borderline list names exactly the borderline results. */
  lemma {:induction false} BorderlineExactly(rs: seq<FitResult>)
    ensures forall n :: n in Borderline(rs) <==> exists i :: 0 <= i < |rs| && IsBorderline(rs[i]) && rs[i].companyName == n
    ensures |Borderline(rs)| <= |rs|
    decreases |rs|
  {
    if rs != [] {
      BorderlineExactly(rs[1..]);
      forall n ensures n in Borderline(rs) <==> exists i :: 0 <= i < |rs| && IsBorderline(rs[i]) && rs[i].companyName == n {
        if n in Borderline(rs[1..]) {
          var i :| 0 <= i < |rs| - 1 && IsBorderline(rs[1..][i]) && rs[1..][i].companyName == n;
          assert rs[i + 1] == rs[1..][i];
        }
        if exists i :: 0 <= i < |rs| && IsBorderline(rs[i]) && rs[i].companyName == n {
          var i :| 0 <= i < |rs| && IsBorderline(rs[i]) && rs[i].companyName == n;
          if i > 0 {
            assert rs[1..][i - 1] == rs[i];
          }
        }
      }
    }
  }

  /** With the model off every result is a low-confidence "Maybe", so every company would be borderline. */
  lemma DisabledAllBorderline(records: seq<CompanyRecord>)
    ensures var rs := DisabledResults(records);
      |rs| == |records| && forall i :: 0 <= i < |rs| ==> IsBorderline(rs[i]) && rs[i].companyName == records[i].companyName
  {
  }

  // ---------------------------------------------------------------- fit counts

  function Tally(c: FitCounts, v: Verdict): FitCounts {
    match v
    case Yes => c.(yes := c.yes + 1)
    case Maybe => c.(maybe := c.maybe + 1)
    case No => c.(no := c.no + 1)
  }

  /** The counts per verdict, tallied in order. */
  function CountVerdicts(rs: seq<FitResult>): (c: FitCounts)
    ensures c.yes + c.maybe + c.no == |rs|
    decreases |rs|
  {
    if rs == [] then FitCounts(0, 0, 0) else Tally(CountVerdicts(rs[..|rs| - 1]), rs[|rs| - 1].icpFit)
  }

  /** The number of results with verdict `v`. */
  function WithVerdict(rs: seq<FitResult>, v: Verdict): nat
    decreases |rs|
  {
    if rs == [] then 0 else (if rs[0].icpFit == v then 1 else 0) + WithVerdict(rs[1..], v)
  }

  lemma {:induction false} WithVerdictSnoc(rs: seq<FitResult>, r: FitResult, v: Verdict)
    ensures WithVerdict(rs + [r], v) == WithVerdict(rs, v) + (if r.icpFit == v then 1 else 0)
    decreases |rs|
  {
    if rs != [] {
      assert (rs + [r])[1..] == rs[1..] + [r];
      WithVerdictSnoc(rs[1..], r, v);
    }
  }

  /** Each count is the number of results with that verdict. */
  lemma {:induction false} CountVerdictsCounts(rs: seq<FitResult>)
    ensures CountVerdicts(rs) == FitCounts(WithVerdict(rs, Yes), WithVerdict(rs, Maybe), WithVerdict(rs, No))
    decreases |rs|
  {
    if rs != [] {
      var init := rs[..|rs| - 1];
      CountVerdictsCounts(init);
      assert rs == init + [rs[|rs| - 1]];
      WithVerdictSnoc(init, rs[|rs| - 1], Yes);
      WithVerdictSnoc(init, rs[|rs| - 1], Maybe);
      WithVerdictSnoc(init, rs[|rs| - 1], No);
    }
  }

  /** `_update_fit_counts`: the counts of the current results become the `fit_counts` note. */
  method UpdateFitCounts(state: GraphState)
    modifies state`notes
    ensures state.notes == old(state.notes).(fitCounts := Some(CountVerdicts(state.fitResults)))
  {
    var counts := FitCounts(0, 0, 0);
    var i := 0;
    while i < |state.fitResults|
      invariant 0 <= i <= |state.fitResults|
      invariant counts == CountVerdicts(state.fitResults[..i])
    {
      assert state.fitResults[..i + 1][..i] == state.fitResults[..i];
      counts := Tally(counts, state.fitResults[i].icpFit);
      i := i + 1;
    }
    assert state.fitResults[..i] == state.fitResults;
    state.notes := state.notes.(fitCounts := Some(counts));
  }

  // ---------------------------------------------------------------- the fit agent

  const BorderlineLimit := 10

  /** The fit results the fit agent computes when the model is on. */
  function Fitted(listSet: set<string> -> seq<string>, rowsFor: seq<Card> -> seq<Row>, records: seq<CompanyRecord>): seq<FitResult> {
    MergeResults(records, ScoreMap(rowsFor, FitCards(listSet, records)))
  }

  /** `FitAgent.handle`. */
  method FitHandle(state: GraphState, listSet: set<string> -> seq<string>, rowsFor: seq<Card> -> seq<Row>) returns (reply: Message)
    modifies state`fitResults, state`notes
    ensures state.disableLlm ==>
      state.fitResults == DisabledResults(state.companyRecords) && state.notes == old(state.notes) &&
      reply == Message("fit", "export", "complete", NoPayload)
    ensures !state.disableLlm ==> state.fitResults == Fitted(listSet, rowsFor, state.companyRecords)
    ensures !state.disableLlm && Borderline(state.fitResults) == [] ==>
      state.notes == old(state.notes).(fitCounts := Some(CountVerdicts(state.fitResults))) &&
      reply == Message("fit", "export", "complete", NoPayload)
    ensures !state.disableLlm && Borderline(state.fitResults) != [] ==>
      state.notes == old(state.notes) &&
      reply == Message("fit", "enrichment", "enrich_request", BorderlinePayload(SliceTo(Borderline(state.fitResults), BorderlineLimit)))
  {
    if state.disableLlm {
      state.fitResults := DisabledResults(state.companyRecords);
      return Message("fit", "export", "complete", NoPayload);
    }
    var cards := BuildFitCards(listSet, state.companyRecords);
    var llmMap := map[];
    ScoreMapKeyed(rowsFor, cards);
    if cards != [] {
      llmMap := ScoreBatches(rowsFor, cards);
    }
    var out := Merge(state.companyRecords, llmMap);
    state.fitResults := out;
    var borderline := Borderline(state.fitResults);
    if borderline == [] {
      UpdateFitCounts(state);
      return Message("fit", "export", "complete", NoPayload);
    }
    return Message("fit", "enrichment", "enrich_request", BorderlinePayload(SliceTo(borderline, BorderlineLimit)));
  }

  /** At most ten borderline names are passed on, each of them a borderline result. */
  lemma ForwardedBorderline(rs: seq<FitResult>)
    ensures var fwd := SliceTo(Borderline(rs), BorderlineLimit);
      |fwd| <= BorderlineLimit &&
      (Borderline(rs) != [] ==> fwd != []) &&
      forall n :: n in fwd ==> exists i :: 0 <= i < |rs| && IsBorderline(rs[i]) && rs[i].companyName == n
  {
    BorderlineExactly(rs);
    var fwd := SliceTo(Borderline(rs), BorderlineLimit);
    forall n | n in fwd ensures n in Borderline(rs) {
      var j :| 0 <= j < |fwd| && fwd[j] == n;
      assert Borderline(rs)[j] == n;
    }
  }

  // ---------------------------------------------------------------- the enrichment agent

  const SearchTargets: seq<string> := ["/sponsors", "/mediapartners", "/partners", "/exhibitors"]
  const SnippetRadius := 100
  const EvidencePerCompany := 2

  /** The URLs searched for a seed with its trailing slashes removed. */
  function TargetUrls(seed: string): (us: seq<string>)
    ensures |us| == |SearchTargets|
  {
    seq(|SearchTargets|, i requires 0 <= i < |SearchTargets| => seed + SearchTargets[i])
  }

  /** `html[max(0, idx - 100):idx + 100]` */
  function SnippetAround(html: string, idx: nat): (s: string)
    requires idx <= |html|
    ensures |s| <= 2 * SnippetRadius
  {
    html[Max(0, idx - SnippetRadius)..Min(idx + SnippetRadius, |html|)]
  }

  /** The page is the one at `url`, is not empty, and mentions `name`, ignoring case. */
  predicate Mentions(rp: RawPage, url: string, name: string) {
    rp.url == url && rp.html != [] && Contains(Lower(rp.html), Lower(name))
  }

  /** The evidence a page yields: 100 characters either side of the first mention. */
  function MentionEvidence(rp: RawPage, name: string): (e: Evidence)
    requires Contains(Lower(rp.html), Lower(name))
    ensures e.url == rp.url && |e.snippet| <= 2 * SnippetRadius
  {
    var idx := Find(Lower(rp.html), Lower(name)).value;
    Evidence(rp.url, SnippetAround(rp.html, idx))
  }

  /** The first page at `url` that mentions `name`, as evidence. */
  function FirstMention(pages: seq<RawPage>, url: string, name: string): (r: Option<Evidence>)
    ensures r.Some? ==> r.value.url == url && |r.value.snippet| <= 2 * SnippetRadius
    decreases |pages|
  {
    if pages == [] then None
    else if Mentions(pages[0], url, name) then Some(MentionEvidence(pages[0], name))
    else FirstMention(pages[1..], url, name)
  }

  /** Evidence is found at a URL exactly when some page there mentions the name, and then from the first such page. */
  lemma {:induction false} FirstMentionExactly(pages: seq<RawPage>, url: string, name: string)
    ensures FirstMention(pages, url, name).None? <==> forall i :: 0 <= i < |pages| ==> !Mentions(pages[i], url, name)
    ensures FirstMention(pages, url, name).Some? ==>
      exists i :: 0 <= i < |pages| && Mentions(pages[i], url, name) &&
        FirstMention(pages, url, name).value == MentionEvidence(pages[i], name) &&
        forall j :: 0 <= j < i ==> !Mentions(pages[j], url, name)
    decreases |pages|
  {
    if pages != [] && !Mentions(pages[0], url, name) {
      FirstMentionExactly(pages[1..], url, name);
      forall i | 0 <= i < |pages| - 1 ensures pages[1..][i] == pages[i + 1] { }
      if FirstMention(pages, url, name).Some? {
        var i :| 0 <= i < |pages| - 1 && Mentions(pages[1..][i], url, name) &&
          FirstMention(pages[1..], url, name).value == MentionEvidence(pages[1..][i], name) &&
          forall j :: 0 <= j < i ==> !Mentions(pages[1..][j], url, name);
        assert Mentions(pages[i + 1], url, name);
      } else {
        forall i | 0 <= i < |pages| ensures !Mentions(pages[i], url, name) {
          if i > 0 { assert pages[i] == pages[1..][i - 1]; }
        }
      }
    }
  }

  /** The evidence found for `name` over the URLs `urls`, at most one piece per URL, in URL order. */
  function EvidenceFor(pages: seq<RawPage>, urls: seq<string>, name: string): seq<Evidence>
    decreases |urls|
  {
    if urls == [] then []
    else
      EvidenceFor(pages, urls[..|urls| - 1], name)
        + (match FirstMention(pages, urls[|urls| - 1], name) case None => [] case Some(e) => [e])
  }

  /** Evidence collected for a company came from one of the searched URLs and is at most 200 characters long. */
  predicate FoundAt(urls: seq<string>, e: Evidence) {
    e.url in urls && |e.snippet| <= 2 * SnippetRadius
  }

  lemma {:induction false} EvidenceForFound(pages: seq<RawPage>, urls: seq<string>, name: string)
    ensures |EvidenceFor(pages, urls, name)| <= |urls|
    ensures forall e :: e in EvidenceFor(pages, urls, name) ==> FoundAt(urls, e)
    decreases |urls|
  {
    if urls != [] {
      var init := urls[..|urls| - 1];
      EvidenceForFound(pages, init, name);
      forall e | e in EvidenceFor(pages, init, name) ensures FoundAt(urls, e) {
        assert e.url in init;
      }
    }
  }

  /** The search over one URL: the first matching page, then `break`. */
  method SearchPages(pages: seq<RawPage>, url: string, name: string) returns (r: Option<Evidence>)
    ensures r == FirstMention(pages, url, name)
  {
    var i := 0;
    while i < |pages|
      invariant 0 <= i <= |pages|
      invariant FirstMention(pages[i..], url, name) == FirstMention(pages, url, name)
    {
      var rp := pages[i];
      assert pages[i..][0] == rp && pages[i..][1..] == pages[i + 1..];
      if rp.url == url && rp.html != [] && Contains(Lower(rp.html), Lower(name)) {
        var idx := Find(Lower(rp.html), Lower(name)).value;
        return Some(Evidence(url, SnippetAround(rp.html, idx)));
      }
      i := i + 1;
    }
    return None;
  }

  /** The loop over the search targets for one company. */
  method SearchEvidence(pages: seq<RawPage>, seed: string, name: string) returns (found: seq<Evidence>)
    ensures found == EvidenceFor(pages, TargetUrls(seed), name)
  {
    var urls := TargetUrls(seed);
    found := [];
    var k := 0;
    while k < |SearchTargets|
      invariant 0 <= k <= |SearchTargets|
      invariant found == EvidenceFor(pages, urls[..k], name)
    {
      var fullUrl := seed + SearchTargets[k];
      assert urls[..k + 1][..k] == urls[..k] && urls[k] == fullUrl;
      var hit := SearchPages(pages, fullUrl, name);
      if hit.Some? {
        found := found + [hit.value];
      }
      k := k + 1;
    }
    assert urls[..k] == urls;
  }

  /** The index of the first record named exactly `name`. */
  function FirstNamed(records: seq<CompanyRecord>, name: string): (r: Option<nat>)
    ensures r.Some? ==> r.value < |records| && records[r.value].companyName == name
    ensures r.Some? ==> forall j :: 0 <= j < r.value ==> records[j].companyName != name
    ensures r.None? ==> forall j :: 0 <= j < |records| ==> records[j].companyName != name
    decreases |records|
  {
    if records == [] then None
    else if records[0].companyName == name then Some(0)
    else match FirstNamed(records[1..], name)
      case None => None
      case Some(j) => Some(j + 1)
  }

  /** The enrichment of one company: the first two pieces found go to the first record with its name. */
  function EnrichOne(pages: seq<RawPage>, seed: string, records: seq<CompanyRecord>, name: string): (seq<CompanyRecord>, bool) {
    var found := EvidenceFor(pages, TargetUrls(seed), name);
    if found == [] then (records, false) else Attach(records, name, found)
  }

  /** The loop over the borderline names: the records afterwards, and the names enriched, in order. */
  function Enrich(pages: seq<RawPage>, seed: string, records: seq<CompanyRecord>, names: seq<string>): (seq<CompanyRecord>, seq<string>)
    decreases |names|
  {
    if names == [] then (records, [])
    else
      var before := Enrich(pages, seed, records, names[..|names| - 1]);
      var name := names[|names| - 1];
      var after := EnrichOne(pages, seed, before.0, name);
      (after.0, before.1 + (if after.1 then [name] else []))
  }

  /** `b` is `a` with at most `extra` more pieces of evidence appended, each found at one of `urls`. */
  predicate Extends(urls: seq<string>, a: CompanyRecord, b: CompanyRecord, extra: nat) {
    b.companyName == a.companyName && b.sources == a.sources && b.speakersCount == a.speakersCount &&
    |a.evidence| <= |b.evidence| <= |a.evidence| + extra &&
    b.evidence[..|a.evidence|] == a.evidence &&
    forall k :: |a.evidence| <= k < |b.evidence| ==> FoundAt(urls, b.evidence[k])
  }

  lemma ExtendsTrans(urls: seq<string>, a: CompanyRecord, b: CompanyRecord, c: CompanyRecord, x: nat, y: nat)
    requires Extends(urls, a, b, x) && Extends(urls, b, c, y)
    ensures Extends(urls, a, c, x + y)
  {
    assert c.evidence[..|a.evidence|] == c.evidence[..|b.evidence|][..|a.evidence|];
    forall k | |a.evidence| <= k < |c.evidence| ensures FoundAt(urls, c.evidence[k]) {
      if k < |b.evidence| {
        assert c.evidence[k] == b.evidence[k];
      }
    }
  }

  lemma ExtendsRefl(urls: seq<string>, a: CompanyRecord)
    ensures Extends(urls, a, a, 0)
  {
  }

  /** One enrichment step changes at most the first record with the name, by at most two pieces of found evidence, and reports a hit exactly when it did. */
  lemma EnrichOneEffect(pages: seq<RawPage>, seed: string, records: seq<CompanyRecord>, name: string)
    ensures var (after, hit) := EnrichOne(pages, seed, records, name);
      |after| == |records| &&
      (forall i :: 0 <= i < |records| ==> Extends(TargetUrls(seed), records[i], after[i], EvidencePerCompany)) &&
      (forall i :: 0 <= i < |records| && after[i] != records[i] ==> FirstNamed(records, name) == Some(i)) &&
      (hit <==> EvidenceFor(pages, TargetUrls(seed), name) != [] && FirstNamed(records, name).Some?) &&
      (hit ==> |after[FirstNamed(records, name).value].evidence| > |records[FirstNamed(records, name).value].evidence|)
  {
    var urls := TargetUrls(seed);
    var found := EvidenceFor(pages, urls, name);
    EvidenceForFound(pages, urls, name);
    var (after, hit) := EnrichOne(pages, seed, records, name);
    forall i | 0 <= i < |records| ensures Extends(urls, records[i], after[i], EvidencePerCompany) {
      if after[i] != records[i] {
        var add := SliceTo(found, EvidencePerCompany);
        assert after[i].evidence == records[i].evidence + add;
        forall k | |records[i].evidence| <= k < |after[i].evidence| ensures FoundAt(urls, after[i].evidence[k]) {
          assert after[i].evidence[k] == add[k - |records[i].evidence|];
          assert add[k - |records[i].evidence|] in found;
        }
      }
    }
  }

  /** `xs` can be obtained from `ys` by deleting elements. */
  predicate IsSubseq<T(==)>(xs: seq<T>, ys: seq<T>)
    decreases |ys|
  {
    if ys == [] then xs == []
    else
      (xs != [] && xs[|xs| - 1] == ys[|ys| - 1] && IsSubseq(xs[..|xs| - 1], ys[..|ys| - 1])) ||
      IsSubseq(xs, ys[..|ys| - 1])
  }

  /** The enrichment agent's loop leaves every record with its name, sources and speaker count, only appends found evidence (at most two pieces per name asked for), and reports the enriched names as a subsequence of the names asked for, each naming a record. */
  lemma {:induction false} EnrichEffect(pages: seq<RawPage>, seed: string, records: seq<CompanyRecord>, names: seq<string>)
    ensures var (after, enriched) := Enrich(pages, seed, records, names);
      |after| == |records| &&
      (forall i :: 0 <= i < |records| ==> Extends(TargetUrls(seed), records[i], after[i], EvidencePerCompany * |names|)) &&
      IsSubseq(enriched, names) &&
      (forall n :: n in enriched ==> exists i :: 0 <= i < |records| && records[i].companyName == n)
    decreases |names|
  {
    var urls := TargetUrls(seed);
    if names == [] {
      forall i | 0 <= i < |records| ensures Extends(urls, records[i], records[i], 0) {
        ExtendsRefl(urls, records[i]);
      }
    } else {
      var init := names[..|names| - 1];
      var name := names[|names| - 1];
      var before := Enrich(pages, seed, records, init);
      EnrichEffect(pages, seed, records, init);
      EnrichOneEffect(pages, seed, before.0, name);
      var after := EnrichOne(pages, seed, before.0, name);
      forall i | 0 <= i < |records| ensures Extends(urls, records[i], after.0[i], EvidencePerCompany * |names|) {
        ExtendsTrans(urls, records[i], before.0[i], after.0[i], EvidencePerCompany * |init|, EvidencePerCompany);
      }
      var enriched := before.1 + (if after.1 then [name] else []);
      assert names[..|names| - 1] == init;
      if after.1 {
        assert enriched[..|enriched| - 1] == before.1;
        var j := FirstNamed(before.0, name).value;
        assert records[j].companyName == before.0[j].companyName;
      } else {
        assert enriched == before.1;
      }
      assert IsSubseq(enriched, names);
    }
  }

  /** The evidence a record had before enrichment is still its evidence, in front. */
  lemma EnrichKeepsEvidence(pages: seq<RawPage>, seed: string, records: seq<CompanyRecord>, names: seq<string>, i: int)
    requires 0 <= i < |records|
    ensures var after := Enrich(pages, seed, records, names).0;
      i < |after| && StartsEvidence(records[i].evidence, after[i].evidence)
  {
    EnrichEffect(pages, seed, records, names);
  }

  predicate StartsEvidence(a: seq<Evidence>, b: seq<Evidence>) {
    |a| <= |b| && b[..|a|] == a
  }

  /** The inner loop over the records: the first one with the name gets the evidence, then `break`. */
  method AttachEvidence(state: GraphState, name: string, found: seq<Evidence>) returns (hit: bool)
    requires found != []
    modifies state`companyRecords
    ensures (state.companyRecords, hit) == Attach(old(state.companyRecords), name, found)
  {
    var i := 0;
    while i < |state.companyRecords|
      invariant 0 <= i <= |state.companyRecords|
      invariant state.companyRecords == old(state.companyRecords)
      invariant forall j :: 0 <= j < i ==> state.companyRecords[j].companyName != name
    {
      var rec := state.companyRecords[i];
      if rec.companyName == name {
        state.companyRecords := state.companyRecords[i := rec.(evidence := rec.evidence + SliceTo(found, EvidencePerCompany))];
        return true;
      }
      i := i + 1;
    }
    return false;
  }

  /** The first record named `name` gets the first two pieces of `found`; reports whether there was one. */
  function Attach(records: seq<CompanyRecord>, name: string, found: seq<Evidence>): (seq<CompanyRecord>, bool) {
    match FirstNamed(records, name)
    case None => (records, false)
    case Some(j) => (records[j := records[j].(evidence := records[j].evidence + SliceTo(found, EvidencePerCompany))], true)
  }

  /** `EnrichmentAgent.handle`. */
  method EnrichmentHandle(state: GraphState, msg: Message) returns (reply: Message)
    modifies state`companyRecords
    ensures BorderlineOf(msg.payload) == [] ==>
      state.companyRecords == old(state.companyRecords) && reply == Message("enrichment", "export", "skip", NoPayload)
    ensures BorderlineOf(msg.payload) != [] ==>
      var (after, enriched) := Enrich(state.rawPages, RStripChar(state.seedUrl, '/'), old(state.companyRecords), BorderlineOf(msg.payload));
      state.companyRecords == after &&
      reply == Message("enrichment", "fit_rescore", "rescore_request", EnrichedPayload(enriched))
  {
    var names := BorderlineOf(msg.payload);
    if names == [] {
      return Message("enrichment", "export", "skip", NoPayload);
    }
    var enriched := [];
    var seed := RStripChar(state.seedUrl, '/');
    var k := 0;
    while k < |names|
      invariant 0 <= k <= |names|
      invariant (state.companyRecords, enriched) == Enrich(state.rawPages, seed, old(state.companyRecords), names[..k])
    {
      var name := names[k];
      assert names[..k + 1][..k] == names[..k] && names[..k + 1][k] == name;
      ghost var step := EnrichOne(state.rawPages, seed, state.companyRecords, name);
      ghost var before := enriched;
      assert Enrich(state.rawPages, seed, old(state.companyRecords), names[..k + 1])
        == (step.0, before + (if step.1 then [name] else []));
      var found := SearchEvidence(state.rawPages, seed, name);
      if found != [] {
        var hit := AttachEvidence(state, name, found);
        assert (state.companyRecords, hit) == step;
        if hit {
          enriched := enriched + [name];
        }
      } else {
        assert step == (state.companyRecords, false);
      }
      assert state.companyRecords == step.0;
      assert enriched == before + (if step.1 then [name] else []);
      k := k + 1;
    }
    assert names[..k] == names;
    return Message("enrichment", "fit_rescore", "rescore_request", EnrichedPayload(enriched));
  }

  // ---------------------------------------------------------------- the rescore agent

  /** Every result whose name the model answered for is replaced by that answer. */
  function Rescored(results: seq<FitResult>, m: map<string, FitResult>): seq<FitResult> {
    seq(|results|, i requires 0 <= i < |results| =>
      if results[i].companyName in m then m[results[i].companyName] else results[i])
  }

  /** The number of results whose verdict the rescoring changes. */
  function Changes(results: seq<FitResult>, m: map<string, FitResult>): nat
    decreases |results|
  {
    if results == [] then 0
    else
      var r := results[|results| - 1];
      Changes(results[..|results| - 1], m) + (if r.companyName in m && m[r.companyName].icpFit != r.icpFit then 1 else 0)
  }

  /** Rescoring keeps the results aligned with the companies and touches exactly the results the model answered for. */
  lemma RescoredAligned(results: seq<FitResult>, m: map<string, FitResult>)
    requires Keyed(m)
    ensures var rs := Rescored(results, m);
      |rs| == |results| &&
      (forall i :: 0 <= i < |rs| ==> rs[i].companyName == results[i].companyName) &&
      (forall i :: 0 <= i < |rs| ==> (results[i].companyName in m <==> rs[i] in m.Values))
  {
    var rs := Rescored(results, m);
    forall i | 0 <= i < |rs| ensures results[i].companyName in m ==> rs[i] in m.Values {
    }
  }

  /** The change count is at most the number of results, and zero exactly when no verdict changed. */
  lemma {:induction false} ChangesExactly(results: seq<FitResult>, m: map<string, FitResult>)
    ensures Changes(results, m) <= |results|
    ensures Changes(results, m) == 0 <==> forall i :: 0 <= i < |results| ==> Rescored(results, m)[i].icpFit == results[i].icpFit
    decreases |results|
  {
    if results != [] {
      var init := results[..|results| - 1];
      ChangesExactly(init, m);
      forall i | 0 <= i < |init| ensures Rescored(init, m)[i] == Rescored(results, m)[i] { }
    }
  }

  /** The update loop over `fit_results`, in place. */
  method RescoreResults(state: GraphState, m: map<string, FitResult>) returns (changes: nat)
    modifies state`fitResults
    ensures state.fitResults == Rescored(old(state.fitResults), m)
    ensures changes == Changes(old(state.fitResults), m)
  {
    ghost var results := state.fitResults;
    ghost var rs := Rescored(results, m);
    changes := 0;
    var i := 0;
    while i < |state.fitResults|
      invariant 0 <= i <= |state.fitResults| == |results|
      invariant forall k :: 0 <= k < i ==> state.fitResults[k] == rs[k]
      invariant forall k :: i <= k < |results| ==> state.fitResults[k] == results[k]
      invariant changes == Changes(results[..i], m)
    {
      var result := state.fitResults[i];
      assert results[..i + 1][..i] == results[..i];
      if result.companyName in m {
        var oldFit := result.icpFit;
        var newResult := m[result.companyName];
        state.fitResults := state.fitResults[i := newResult];
        if oldFit != newResult.icpFit {
          changes := changes + 1;
        }
      }
      i := i + 1;
    }
    assert results[..i] == results;
    assert state.fitResults == rs;
  }

  /** `FitRescoreAgent.handle`; `changes` is the count it logs. */
  method RescoreHandle(state: GraphState, msg: Message, listSet: set<string> -> seq<string>, rowsFor: seq<Card> -> seq<Row>)
    returns (reply: Message, changes: nat)
    modifies state`fitResults, state`notes
    ensures reply == Message("fit_rescore", "export", "complete", NoPayload)
    ensures state.notes == old(state.notes).(fitCounts := Some(CountVerdicts(state.fitResults)))
    ensures EnrichedOf(msg.payload) == [] ==> state.fitResults == old(state.fitResults) && changes == 0
    ensures EnrichedOf(msg.payload) != [] ==>
      var m := ScoreMap(rowsFor, RescoreCards(listSet, state.companyRecords, EnrichedOf(msg.payload)));
      state.fitResults == Rescored(old(state.fitResults), m) && changes == Changes(old(state.fitResults), m)
  {
    var names := EnrichedOf(msg.payload);
    if names == [] {
      UpdateFitCounts(state);
      return Message("fit_rescore", "export", "complete", NoPayload), 0;
    }
    var cards := BuildRescoreCards(listSet, state.companyRecords, names);
    var rescoreMap := map[];
    ScoreMapKeyed(rowsFor, cards);
    if cards != [] {
      rescoreMap := ScoreBatches(rowsFor, cards);
    }
    changes := RescoreResults(state, rescoreMap);
    UpdateFitCounts(state);
    reply := Message("fit_rescore", "export", "complete", NoPayload);
  }
}
