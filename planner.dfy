/**
 * The planner node: the root page of the conference site first, then a
 * fixed list of forced paths, cut to the page budget. `normalize_url` and
 * `absolutize` are left uninterpreted and passed in as functions.
 */
module Planner {
  import opened Strings
  import opened Types

  /** The forced paths and the page type each is fetched as. */
  const Forced: seq<(string, PageType)> := [
    ("/speakers", Speakers),
    ("/agenda-page/full-agenda", Agenda),
    ("/agenda-mc", Agenda),
    ("/sponsors", Logos),
    ("/mediapartners", Logos),
    ("/opportunities", Logos)]

  /** The normalized seed URL with a trailing '/'. */
  function Seed(normalizeUrl: string -> string, seedUrl: string): (seed: string)
    ensures seed != [] && seed[|seed| - 1] == '/'
    ensures EndsWith(normalizeUrl(seedUrl), "/") ==> seed == normalizeUrl(seedUrl)
    ensures !EndsWith(normalizeUrl(seedUrl), "/") ==> seed == normalizeUrl(seedUrl) + "/"
  {
    var s := normalizeUrl(seedUrl);
    if EndsWith(s, "/") then s else s + "/"
  }

  /** The full target list before the page budget is applied: the root, then every forced path. */
  function AllTargets(absolutize: (string, string) -> string, seed: string): (ts: seq<TargetPage>)
    ensures |ts| == 1 + |Forced|
    ensures ts[0] == TargetPage(seed, Root)
    ensures forall i :: 1 <= i < |ts| ==> ts[i] == TargetPage(absolutize(seed, Forced[i - 1].0), Forced[i - 1].1)
  {
    [TargetPage(seed, Root)] + seq(|Forced|, i requires 0 <= i < |Forced| => TargetPage(absolutize(seed, Forced[i].0), Forced[i].1))
  }

  /** What `planner_node` leaves in `targets`. */
  function Planned(normalizeUrl: string -> string, absolutize: (string, string) -> string,
                   seedUrl: string, maxPages: int): seq<TargetPage>
  {
    SliceTo(AllTargets(absolutize, Seed(normalizeUrl, seedUrl)), Max(1, maxPages))
  }

  /** `planner_node`: builds the list in a loop and assigns it to `targets`, touching nothing else. */
  method PlannerNode(state: GraphState, normalizeUrl: string -> string, absolutize: (string, string) -> string)
    modifies state`targets
    ensures state.targets == Planned(normalizeUrl, absolutize, state.seedUrl, state.maxPages)
  {
    var seed := normalizeUrl(state.seedUrl);
    if !EndsWith(seed, "/") {
      seed := seed + "/";
    }
    var targets := [TargetPage(seed, Root)];
    var i := 0;
    while i < |Forced|
      invariant 0 <= i <= |Forced|
      invariant seed == Seed(normalizeUrl, state.seedUrl)
      invariant targets == AllTargets(absolutize, seed)[..i + 1]
    {
      var (path, ptype) := Forced[i];
      targets := targets + [TargetPage(absolutize(seed, path), ptype)];
      i := i + 1;
    }
    targets := targets[..Min(Max(1, state.maxPages), |targets|)];
    state.targets := targets;
  }

  /** The number of targets is the budget, at least one and at most the seven known pages. */
  lemma PlannedLength(normalizeUrl: string -> string, absolutize: (string, string) -> string, seedUrl: string, maxPages: int)
    ensures |Planned(normalizeUrl, absolutize, seedUrl, maxPages)| == Min(7, Max(1, maxPages))
  {
  }

  /** The first target is always the seed as a root page, and the seed ends in '/'. */
  lemma PlannedRootFirst(normalizeUrl: string -> string, absolutize: (string, string) -> string, seedUrl: string, maxPages: int)
    ensures var ts := Planned(normalizeUrl, absolutize, seedUrl, maxPages); var seed := Seed(normalizeUrl, seedUrl);
      ts != [] && ts[0] == TargetPage(seed, Root) && EndsWith(seed, "/")
  {
  }

  /** Every later target is the seed joined with the forced path of the same rank, with its page type. */
  lemma PlannedForced(normalizeUrl: string -> string, absolutize: (string, string) -> string, seedUrl: string, maxPages: int, i: int)
    requires 1 <= i < |Planned(normalizeUrl, absolutize, seedUrl, maxPages)|
    ensures var seed := Seed(normalizeUrl, seedUrl);
      Planned(normalizeUrl, absolutize, seedUrl, maxPages)[i] == TargetPage(absolutize(seed, Forced[i - 1].0), Forced[i - 1].1)
  {
  }

  /** The page types run root, speakers, agenda, agenda, logos, logos, logos. */
  lemma PlannedTypes(normalizeUrl: string -> string, absolutize: (string, string) -> string, seedUrl: string)
    ensures var ts := Planned(normalizeUrl, absolutize, seedUrl, 7);
      |ts| == 7 &&
      ts[0].pageType == Root && ts[1].pageType == Speakers && ts[2].pageType == Agenda && ts[3].pageType == Agenda &&
      ts[4].pageType == Logos && ts[5].pageType == Logos && ts[6].pageType == Logos
  {
  }

  /** A budget of one or less, zero and negative included, plans the root page alone. */
  lemma PlannedRootOnly(normalizeUrl: string -> string, absolutize: (string, string) -> string, seedUrl: string, maxPages: int)
    requires maxPages <= 1
    ensures Planned(normalizeUrl, absolutize, seedUrl, maxPages) == [TargetPage(Seed(normalizeUrl, seedUrl), Root)]
  {
  }
}
