/**
 * The records that flow through the conference pipeline, and the mutable
 * pipeline state that every node reads and updates.
 */
module Types {
  import opened Wrappers

  datatype PageType = Root | Speakers | Agenda | Logos | Unknown

  /** A page the planner wants fetched. */
  datatype TargetPage = TargetPage(url: string, pageType: PageType)

  /** A fetched page with its HTML text. */
  datatype RawPage = RawPage(url: string, pageType: PageType, html: string)

  /** Where a company was seen, with a short excerpt. */
  datatype Evidence = Evidence(url: string, snippet: string)

  datatype CompanyRecord = CompanyRecord(
    companyName: string,
    sources: set<string>,
    evidence: seq<Evidence>,
    speakersCount: int)

  /** A record that has only a name: the dataclass defaults for the other fields. */
  function NewRecord(name: string): CompanyRecord
  {
    CompanyRecord(name, {}, [], 0)
  }

  datatype Verdict = Yes | Maybe | No
  datatype Confidence = Low | Med | High

  datatype FitResult = FitResult(
    companyName: string,
    icpFit: Verdict,
    confidence: Confidence,
    rationale: string)

  /** The `fit_counts` note: how many results carry each verdict. */
  datatype FitCounts = FitCounts(yes: nat, maybe: nat, no: nat)

  /** One entry of the `conversation_log` note. */
  datatype LogEntry = LogEntry(
    iteration: nat,
    sender: string,
    recipient: string,
    content: string,
    payloadKeys: seq<string>)

  /** The three notes the conversation writes; `None` while a note is unset. */
  datatype Notes = Notes(
    fitCounts: Option<FitCounts>,
    conversationRounds: Option<nat>,
    conversationLog: Option<seq<LogEntry>>)

  /** The pipeline state, updated in place by every node. */
  class GraphState {
    var seedUrl: string
    var headless: bool
    var maxPages: int
    var disableLlm: bool
    var targets: seq<TargetPage>
    var rawPages: seq<RawPage>
    var companyRecords: seq<CompanyRecord>
    var fitResults: seq<FitResult>
    var notes: Notes

    constructor (seedUrl: string, headless: bool := true, maxPages: int := 15, disableLlm: bool := false)
      ensures this.seedUrl == seedUrl && this.headless == headless
      ensures this.maxPages == maxPages && this.disableLlm == disableLlm
      ensures targets == [] && rawPages == [] && companyRecords == [] && fitResults == []
      ensures notes == Notes(None, None, None)
    {
      this.seedUrl := seedUrl;
      this.headless := headless;
      this.maxPages := maxPages;
      this.disableLlm := disableLlm;
      targets := [];
      rawPages := [];
      companyRecords := [];
      fitResults := [];
      notes := Notes(None, None, None);
    }
  }
}
