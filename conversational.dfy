/**
 * The message-passing orchestrator: a queue of messages, each handed to the
 * agent it names, whose reply (if any) joins the queue, for at most 100
 * rounds. The pipeline nodes run as chained agents; the fit, enrichment and
 * rescore agents are in module Agents. The page fetch is the oracle `fetch`
 * of the environment.
 */
module Conversational {
  import opened Wrappers
  import opened Strings
  import opened Types
  import opened Planner
  import opened Extractor
  import opened Normalizer
  import opened Agents

  /** Everything the run consults that lies outside the model. */
  datatype Env = Env(
    normalizeUrl: string -> string,
    absolutize: (string, string) -> string,
    fetch: (string, bool) -> string,
    parser: Parser,
    listSet: set<string> -> seq<string>,
    fitRows: seq<Card> -> seq<Row>,
    rescoreRows: seq<Card> -> seq<Row>)

  // ---------------------------------------------------------------- the fetcher node

  /** The pages `fetcher_node` leaves in `raw_pages`: one per target, in order. */
  function Fetched(fetch: (string, bool) -> string, targets: seq<TargetPage>, headless: bool): (pages: seq<RawPage>)
    ensures |pages| == |targets|
    ensures forall i :: 0 <= i < |pages| ==> pages[i].url == targets[i].url && pages[i].pageType == targets[i].pageType
  {
    seq(|targets|, i requires 0 <= i < |targets| => RawPage(targets[i].url, targets[i].pageType, fetch(targets[i].url, headless)))
  }

  method FetcherNode(state: GraphState, fetch: (string, bool) -> string)
    modifies state`rawPages
    ensures state.rawPages == Fetched(fetch, state.targets, state.headless)
  {
    var rawPages := [];
    var i := 0;
    while i < |state.targets|
      invariant 0 <= i <= |state.targets|
      invariant rawPages == Fetched(fetch, state.targets, state.headless)[..i]
    {
      var t := state.targets[i];
      var html := fetch(t.url, state.headless);
      rawPages := rawPages + [RawPage(t.url, t.pageType, html)];
      i := i + 1;
    }
    state.rawPages := rawPages;
  }

  // ---------------------------------------------------------------- agents

  /** The node a chained agent runs, `NoStep` for `fn=None`. */
  datatype Step = NoStep | PlannerStep | FetcherStep | ExtractorStep | NormalizerStep | ExportStep

  datatype Agent =
    | Chained(name: string, step: Step, nextAgent: Option<string>)
    | FitAgent
    | EnrichmentAgent
    | FitRescoreAgent

  /** A chained agent's reply: "next" to its successor, when it has a non-empty one. */
  function FollowUp(name: string, nextAgent: Option<string>): (reply: Option<Message>)
    ensures reply.Some? <==> nextAgent.Some? && nextAgent.value != []
    ensures reply.Some? ==> reply.value == Message(name, nextAgent.value, "next", NoPayload)
  {
    if nextAgent.Some? && nextAgent.value != [] then Some(Message(name, nextAgent.value, "next", NoPayload)) else None
  }

  /** Who an agent answers, and with what. */
  predicate Routes(agent: Agent, msg: Message, reply: Option<Message>) {
    match agent
    case Chained(name, _, nextAgent) => reply == FollowUp(name, nextAgent)
    case FitAgent =>
      reply == Some(Message("fit", "export", "complete", NoPayload)) ||
      (reply.Some? && reply.value.sender == "fit" && reply.value.recipient == "enrichment" &&
       reply.value.content == "enrich_request" && BorderlineOf(reply.value.payload) != [])
    case EnrichmentAgent =>
      if BorderlineOf(msg.payload) == [] then reply == Some(Message("enrichment", "export", "skip", NoPayload))
      else (reply.Some? && reply.value.sender == "enrichment" && reply.value.recipient == "fit_rescore" &&
            reply.value.content == "rescore_request" && reply.value.payload.EnrichedPayload?)
    case FitRescoreAgent => reply == Some(Message("fit_rescore", "export", "complete", NoPayload))
  }

  /** The graph node a chained agent runs: each node sets its own field of the state and nothing else. */
  method RunStep(step: Step, state: GraphState, env: Env)
    modifies state
    ensures state.seedUrl == old(state.seedUrl) && state.headless == old(state.headless)
    ensures state.maxPages == old(state.maxPages) && state.disableLlm == old(state.disableLlm)
    ensures step == NoStep || step == ExportStep ==> unchanged(state)
    ensures step == PlannerStep ==>
      state.targets == Planned(env.normalizeUrl, env.absolutize, state.seedUrl, state.maxPages) &&
      state.rawPages == old(state.rawPages) && state.companyRecords == old(state.companyRecords) &&
      state.fitResults == old(state.fitResults) && state.notes == old(state.notes)
    ensures step == FetcherStep ==>
      state.rawPages == Fetched(env.fetch, state.targets, state.headless) &&
      state.targets == old(state.targets) && state.companyRecords == old(state.companyRecords) &&
      state.fitResults == old(state.fitResults) && state.notes == old(state.notes)
    ensures step == ExtractorStep ==>
      state.companyRecords == Extracted(env.parser, env.normalizeUrl, state.rawPages) &&
      state.targets == old(state.targets) && state.rawPages == old(state.rawPages) &&
      state.fitResults == old(state.fitResults) && state.notes == old(state.notes)
    ensures step == NormalizerStep ==>
      state.companyRecords == Merged(old(state.companyRecords)) &&
      state.targets == old(state.targets) && state.rawPages == old(state.rawPages) &&
      state.fitResults == old(state.fitResults) && state.notes == old(state.notes)
  {
    match step {
      case NoStep =>
      case PlannerStep => PlannerNode(state, env.normalizeUrl, env.absolutize);
      case FetcherStep => FetcherNode(state, env.fetch);
      case ExtractorStep => ExtractorNode(state, env.parser, env.normalizeUrl);
      case NormalizerStep => NormalizerNode(state);
      case ExportStep =>
    }
  }

  /** The fit agent's turn: it scores the records and writes the counts when nothing is borderline. */
  method RunFit(state: GraphState, msg: Message, env: Env) returns (reply: Option<Message>)
    modifies state
    ensures Routes(FitAgent, msg, reply)
    ensures state.seedUrl == old(state.seedUrl) && state.headless == old(state.headless)
    ensures state.maxPages == old(state.maxPages) && state.disableLlm == old(state.disableLlm)
    ensures state.targets == old(state.targets) && state.rawPages == old(state.rawPages) &&
      state.companyRecords == old(state.companyRecords) &&
      state.fitResults == (if state.disableLlm then DisabledResults(state.companyRecords)
                           else Fitted(env.listSet, env.fitRows, state.companyRecords)) &&
      state.notes == (if !state.disableLlm && Borderline(state.fitResults) == []
                      then old(state.notes).(fitCounts := Some(CountVerdicts(state.fitResults)))
                      else old(state.notes))
    // Enrichment is asked about the first ten borderline names; otherwise the run goes to export.
    ensures reply == (if !state.disableLlm && Borderline(state.fitResults) != []
                      then Some(Message("fit", "enrichment", "enrich_request",
                                        BorderlinePayload(SliceTo(Borderline(state.fitResults), BorderlineLimit))))
                      else Some(Message("fit", "export", "complete", NoPayload)))
  {
    var m := FitHandle(state, env.listSet, env.fitRows);
    if m.recipient == "enrichment" {
      ForwardedBorderline(state.fitResults);
    }
    reply := Some(m);
  }

  /** `handle` of the agent, whichever kind it is. */
  method Handle(agent: Agent, state: GraphState, msg: Message, env: Env) returns (reply: Option<Message>)
    modifies state
    ensures Routes(agent, msg, reply)
    ensures state.seedUrl == old(state.seedUrl) && state.headless == old(state.headless)
    ensures state.maxPages == old(state.maxPages) && state.disableLlm == old(state.disableLlm)
    ensures agent.Chained? && (agent.step == NoStep || agent.step == ExportStep) ==> unchanged(state)
    ensures agent.Chained? && agent.step == PlannerStep ==>
      state.targets == Planned(env.normalizeUrl, env.absolutize, state.seedUrl, state.maxPages) &&
      state.rawPages == old(state.rawPages) && state.companyRecords == old(state.companyRecords) &&
      state.fitResults == old(state.fitResults) && state.notes == old(state.notes)
    ensures agent.Chained? && agent.step == FetcherStep ==>
      state.rawPages == Fetched(env.fetch, state.targets, state.headless) &&
      state.targets == old(state.targets) && state.companyRecords == old(state.companyRecords) &&
      state.fitResults == old(state.fitResults) && state.notes == old(state.notes)
    ensures agent.Chained? && agent.step == ExtractorStep ==>
      state.companyRecords == Extracted(env.parser, env.normalizeUrl, state.rawPages) &&
      state.targets == old(state.targets) && state.rawPages == old(state.rawPages) &&
      state.fitResults == old(state.fitResults) && state.notes == old(state.notes)
    ensures agent.Chained? && agent.step == NormalizerStep ==>
      state.companyRecords == Merged(old(state.companyRecords)) &&
      state.targets == old(state.targets) && state.rawPages == old(state.rawPages) &&
      state.fitResults == old(state.fitResults) && state.notes == old(state.notes)
    ensures agent.FitAgent? ==>
      state.targets == old(state.targets) && state.rawPages == old(state.rawPages) &&
      state.companyRecords == old(state.companyRecords) &&
      state.fitResults == (if state.disableLlm then DisabledResults(state.companyRecords)
                           else Fitted(env.listSet, env.fitRows, state.companyRecords)) &&
      state.notes == (if !state.disableLlm && Borderline(state.fitResults) == []
                      then old(state.notes).(fitCounts := Some(CountVerdicts(state.fitResults)))
                      else old(state.notes)) &&
      reply == (if !state.disableLlm && Borderline(state.fitResults) != []
                then Some(Message("fit", "enrichment", "enrich_request",
                                  BorderlinePayload(SliceTo(Borderline(state.fitResults), BorderlineLimit))))
                else Some(Message("fit", "export", "complete", NoPayload)))
    ensures agent.EnrichmentAgent? ==>
      state.targets == old(state.targets) && state.rawPages == old(state.rawPages) &&
      state.fitResults == old(state.fitResults) && state.notes == old(state.notes) &&
      state.companyRecords == (if BorderlineOf(msg.payload) == [] then old(state.companyRecords)
        else Enrich(state.rawPages, RStripChar(state.seedUrl, '/'), old(state.companyRecords), BorderlineOf(msg.payload)).0) &&
      reply == (if BorderlineOf(msg.payload) == [] then Some(Message("enrichment", "export", "skip", NoPayload))
        else Some(Message("enrichment", "fit_rescore", "rescore_request",
          EnrichedPayload(Enrich(state.rawPages, RStripChar(state.seedUrl, '/'), old(state.companyRecords), BorderlineOf(msg.payload)).1))))
    ensures agent.FitRescoreAgent? ==>
      state.targets == old(state.targets) && state.rawPages == old(state.rawPages) &&
      state.companyRecords == old(state.companyRecords) &&
      state.notes == old(state.notes).(fitCounts := Some(CountVerdicts(state.fitResults))) &&
      state.fitResults == (if EnrichedOf(msg.payload) == [] then old(state.fitResults)
        else Rescored(old(state.fitResults), ScoreMap(env.rescoreRows, RescoreCards(env.listSet, state.companyRecords, EnrichedOf(msg.payload)))))
  {
    match agent {
      case Chained(name, step, nextAgent) =>
        RunStep(step, state, env);
        reply := FollowUp(name, nextAgent);
      case FitAgent =>
        reply := RunFit(state, msg, env);
      case EnrichmentAgent =>
        var m := EnrichmentHandle(state, msg);
        reply := Some(m);
      case FitRescoreAgent =>
        var m, changes := RescoreHandle(state, msg, env.listSet, env.rescoreRows);
        reply := Some(m);
    }
  }

  // ---------------------------------------------------------------- the orchestrator

  const MaxIterations := 100

  /** One round after the message is logged: the agent it names handles it, or it is dropped. */
  method Dispatch(agents: map<string, Agent>, state: GraphState, msg: Message, env: Env) returns (reply: Option<Message>)
    modifies state
    ensures msg.recipient !in agents ==> reply == None && unchanged(state)
    ensures Routed(agents, msg, reply)
  {
    if msg.recipient !in agents {
      return None;
    }
    reply := Handle(agents[msg.recipient], state, msg, env);
  }

  function LogOf(iteration: nat, msg: Message): LogEntry {
    LogEntry(iteration, msg.sender, msg.recipient, msg.content, PayloadKeys(msg.payload))
  }

  /** What `Dispatch` answers: the reply of the agent `msg` names, or nothing when no agent has that name. */
  predicate Routed(agents: map<string, Agent>, msg: Message, reply: Option<Message>) {
    if msg.recipient in agents then Routes(agents[msg.recipient], msg, reply) else reply == None
  }

  function StartMessage(start: string): Message {
    Message("cli", start, "start", NoPayload)
  }

  /** `log` records the messages `delivered`, in order, entry i in round i + 1. */
  ghost predicate Logged(log: seq<LogEntry>, delivered: seq<Message>) {
    |delivered| == |log| && forall i :: 0 <= i < |log| ==> log[i] == LogOf(i + 1, delivered[i])
  }

  /** Each delivered message after the first is the reply of the round before it. */
  ghost predicate RepliesDelivered(delivered: seq<Message>, replies: seq<Option<Message>>) {
    |replies| == |delivered| && forall i :: 0 <= i < |delivered| - 1 ==> replies[i] == Some(delivered[i + 1])
  }

  /** Each delivered message got the reply `Dispatch` gives it. */
  ghost predicate AllRouted(agents: map<string, Agent>, delivered: seq<Message>, replies: seq<Option<Message>>) {
    |replies| == |delivered| && forall i :: 0 <= i < |delivered| ==> Routed(agents, delivered[i], replies[i])
  }

  /**
   * The conversation after `|log|` rounds: the log records the delivered messages in order, the start
   * message first, each later message is the reply of the round before it, and the queue holds the last
   * round's reply, if any.
   */
  ghost predicate Conversation(agents: map<string, Agent>, start: string, log: seq<LogEntry>,
                               delivered: seq<Message>, replies: seq<Option<Message>>, queue: seq<Message>) {
    Logged(log, delivered) && RepliesDelivered(delivered, replies) && AllRouted(agents, delivered, replies) &&
    (|log| == 0 ==> queue == [StartMessage(start)]) &&
    (|log| > 0 ==> delivered[0] == StartMessage(start) &&
                   queue == (if replies[|log| - 1].Some? then [replies[|log| - 1].value] else []))
  }

  lemma LoggedSnoc(log: seq<LogEntry>, delivered: seq<Message>, msg: Message)
    requires Logged(log, delivered)
    ensures Logged(log + [LogOf(|log| + 1, msg)], delivered + [msg])
  {
    var log', delivered' := log + [LogOf(|log| + 1, msg)], delivered + [msg];
    forall i | 0 <= i < |log'| ensures log'[i] == LogOf(i + 1, delivered'[i]) {
      if i < |log| {
        assert log'[i] == log[i] && delivered'[i] == delivered[i];
      }
    }
  }

  lemma RepliesDeliveredSnoc(delivered: seq<Message>, replies: seq<Option<Message>>, msg: Message, reply: Option<Message>)
    requires RepliesDelivered(delivered, replies)
    requires delivered != [] ==> replies[|delivered| - 1] == Some(msg)
    ensures RepliesDelivered(delivered + [msg], replies + [reply])
  {
    var delivered', replies' := delivered + [msg], replies + [reply];
    forall i | 0 <= i < |delivered'| - 1 ensures replies'[i] == Some(delivered'[i + 1]) {
      assert replies'[i] == replies[i];
      if i < |delivered| - 1 {
        assert delivered'[i + 1] == delivered[i + 1];
      }
    }
  }

  lemma AllRoutedSnoc(agents: map<string, Agent>, delivered: seq<Message>, replies: seq<Option<Message>>,
                      msg: Message, reply: Option<Message>)
    requires AllRouted(agents, delivered, replies) && Routed(agents, msg, reply)
    ensures AllRouted(agents, delivered + [msg], replies + [reply])
  {
    var delivered', replies' := delivered + [msg], replies + [reply];
    forall i | 0 <= i < |delivered'| ensures Routed(agents, delivered'[i], replies'[i]) {
      if i < |delivered| {
        assert delivered'[i] == delivered[i] && replies'[i] == replies[i];
      }
    }
  }

  /** One round of `Invoke` keeps the conversation: the head of the queue is logged and its reply queued. */
  lemma ConversationRound(agents: map<string, Agent>, start: string, log: seq<LogEntry>,
                          delivered: seq<Message>, replies: seq<Option<Message>>, queue: seq<Message>,
                          reply: Option<Message>)
    requires Conversation(agents, start, log, delivered, replies, queue) && queue != []
    requires Routed(agents, queue[0], reply)
    ensures |queue| == 1
    ensures Conversation(agents, start, log + [LogOf(|log| + 1, queue[0])], delivered + [queue[0]],
                         replies + [reply], queue[1..] + (if reply.Some? then [reply.value] else []))
  {
    LoggedSnoc(log, delivered, queue[0]);
    RepliesDeliveredSnoc(delivered, replies, queue[0], reply);
    AllRoutedSnoc(agents, delivered, replies, queue[0], reply);
    assert delivered != [] ==> (delivered + [queue[0]])[0] == delivered[0];
  }

  /**
   * The facts `Invoke`'s loop keeps: the conversation so far, an unknown start ends after its first round,
   * and the built graph's queue is at the stage for the round count.
   */
  ghost predicate Progress(agents: map<string, Agent>, start: string, log: seq<LogEntry>,
                           delivered: seq<Message>, replies: seq<Option<Message>>, queue: seq<Message>) {
    Conversation(agents, start, log, delivered, replies, queue) &&
    (start !in agents && |log| > 0 ==> |log| == 1 && queue == []) &&
    (agents == BuiltAgents() && start == "planner" ==> BuiltStage(|log|, queue))
  }

  lemma ProgressRound(agents: map<string, Agent>, start: string, log: seq<LogEntry>,
                      delivered: seq<Message>, replies: seq<Option<Message>>, queue: seq<Message>,
                      reply: Option<Message>)
    requires Progress(agents, start, log, delivered, replies, queue) && queue != []
    requires Routed(agents, queue[0], reply)
    ensures Progress(agents, start, log + [LogOf(|log| + 1, queue[0])], delivered + [queue[0]],
                     replies + [reply], queue[1..] + (if reply.Some? then [reply.value] else []))
  {
    ConversationRound(agents, start, log, delivered, replies, queue, reply);
    if agents == BuiltAgents() && start == "planner" {
      BuiltRound(|log|, queue, reply);
    }
  }

  /** A finished conversation: what `Invoke` reports about its log, its messages and their replies. */
  lemma ConversationDone(agents: map<string, Agent>, start: string, log: seq<LogEntry>,
                         delivered: seq<Message>, replies: seq<Option<Message>>, queue: seq<Message>)
    requires Progress(agents, start, log, delivered, replies, queue)
    requires |log| <= MaxIterations && (queue == [] || |log| == MaxIterations)
    ensures |log| >= 1
    ensures (forall i :: 0 <= i < |log| ==> log[i].iteration == i + 1) && log[0] == LogEntry(1, "cli", start, "start", [])
    ensures |delivered| == |log| && |replies| == |log| && delivered[0] == StartMessage(start) &&
      (forall i :: 0 <= i < |log| ==> log[i] == LogOf(i + 1, delivered[i])) &&
      (forall i :: 0 <= i < |log| - 1 ==> replies[i] == Some(delivered[i + 1])) &&
      (|log| < MaxIterations ==> replies[|log| - 1] == None)
    ensures forall i :: 0 <= i < |delivered| ==> Routed(agents, delivered[i], replies[i])
    ensures start !in agents ==> log == [LogEntry(1, "cli", start, "start", [])]
    ensures agents == BuiltAgents() && start == "planner" ==> |log| == 6 || |log| == 8
  {
    assert log[0] == LogOf(1, StartMessage(start));
    if start !in agents {
      assert |log| == 1;
    }
    if agents == BuiltAgents() && start == "planner" {
      BuiltDone(|log|, queue);
    }
  }

  /** `Orchestrator.invoke`. */
  method Invoke(agents: map<string, Agent>, start: string, state: GraphState, env: Env)
    returns (ghost delivered: seq<Message>, ghost replies: seq<Option<Message>>)
    modifies state
    ensures state.notes.conversationRounds.Some? && state.notes.conversationLog.Some?
    ensures var rounds := state.notes.conversationRounds.value; var log := state.notes.conversationLog.value;
      1 <= rounds <= MaxIterations && |log| == rounds &&
      (forall i :: 0 <= i < |log| ==> log[i].iteration == i + 1) &&
      log[0] == LogEntry(1, "cli", start, "start", [])
    // The log records, in order, every message taken off the queue: the start message first,
    // then each reply in the round after the one that produced it (first in, first out).
    ensures var rounds := state.notes.conversationRounds.value; var log := state.notes.conversationLog.value;
      |delivered| == rounds && |replies| == rounds &&
      delivered[0] == StartMessage(start) &&
      (forall i :: 0 <= i < rounds ==> log[i] == LogOf(i + 1, delivered[i])) &&
      (forall i :: 0 <= i < rounds - 1 ==> replies[i] == Some(delivered[i + 1])) &&
      (rounds < MaxIterations ==> replies[rounds - 1] == None)
    // Each delivered message went to the agent it names, or was dropped when no agent has that name.
    ensures forall i :: 0 <= i < |delivered| ==> Routed(agents, delivered[i], replies[i])
    ensures start !in agents ==>
      state.notes == old(state.notes).(conversationRounds := Some(1), conversationLog := Some([LogEntry(1, "cli", start, "start", [])])) &&
      state.targets == old(state.targets) && state.rawPages == old(state.rawPages) &&
      state.companyRecords == old(state.companyRecords) && state.fitResults == old(state.fitResults)
    ensures agents == BuiltAgents() && start == "planner" ==>
      state.notes.conversationRounds == Some(6) || state.notes.conversationRounds == Some(8)
  {
    var convoLog: seq<LogEntry> := [];
    var queue := [StartMessage(start)];
    var iteration: nat := 0;
    delivered, replies := [], [];
    while queue != [] && iteration < MaxIterations
      invariant iteration <= MaxIterations && |convoLog| == iteration
      invariant Progress(agents, start, convoLog, delivered, replies, queue)
      invariant start !in agents ==> unchanged(state)
      decreases MaxIterations - iteration
    {
      var msg := queue[0];
      var reply := Dispatch(agents, state, msg, env);
      ProgressRound(agents, start, convoLog, delivered, replies, queue, reply);
      iteration := iteration + 1;
      convoLog := convoLog + [LogOf(iteration, msg)];
      delivered, replies := delivered + [msg], replies + [reply];
      queue := queue[1..] + (if reply.Some? then [reply.value] else []);
    }
    ConversationDone(agents, start, convoLog, delivered, replies, queue);
    state.notes := state.notes.(conversationLog := Some(convoLog), conversationRounds := Some(iteration));
  }

  // ---------------------------------------------------------------- the built graph

  /** `build_conversational_orchestrator`'s agents. */
  function BuiltAgents(): map<string, Agent> {
    map[
      "planner" := Chained("planner", PlannerStep, Some("fetcher")),
      "fetcher" := Chained("fetcher", FetcherStep, Some("extractor")),
      "extractor" := Chained("extractor", ExtractorStep, Some("normalizer")),
      "normalizer" := Chained("normalizer", NormalizerStep, Some("fit")),
      "fit" := FitAgent,
      "enrichment" := EnrichmentAgent,
      "fit_rescore" := FitRescoreAgent,
      "export" := Chained("export", ExportStep, None)]
  }

  function Next(sender: string, recipient: string): Message {
    Message(sender, recipient, "next", NoPayload)
  }

  /** The queue of the built graph after `n` rounds: the chain to the fit agent, then either export at once or enrichment, rescore and export. */
  predicate BuiltStage(n: nat, queue: seq<Message>) {
    if n == 0 then queue == [Message("cli", "planner", "start", NoPayload)]
    else if n == 1 then queue == [Next("planner", "fetcher")]
    else if n == 2 then queue == [Next("fetcher", "extractor")]
    else if n == 3 then queue == [Next("extractor", "normalizer")]
    else if n == 4 then queue == [Next("normalizer", "fit")]
    else if n == 5 then
      queue == [Message("fit", "export", "complete", NoPayload)] ||
      (|queue| == 1 && queue[0].recipient == "enrichment" && BorderlineOf(queue[0].payload) != [])
    else if n == 6 then
      queue == [] ||
      (|queue| == 1 && queue[0].recipient == "fit_rescore")
    else if n == 7 then queue == [Message("fit_rescore", "export", "complete", NoPayload)]
    else n == 8 && queue == []
  }

  /** One round of the built graph moves the queue from one stage to the next. */
  lemma BuiltRound(n: nat, queue: seq<Message>, reply: Option<Message>)
    requires BuiltStage(n, queue) && queue != []
    requires Routed(BuiltAgents(), queue[0], reply)
    ensures BuiltStage(n + 1, queue[1..] + (if reply.Some? then [reply.value] else []))
  {
  }

  /** The built graph stops only with an empty queue, after 6 or 8 rounds. */
  lemma BuiltDone(n: nat, queue: seq<Message>)
    requires BuiltStage(n, queue) && (queue == [] || n == MaxIterations)
    ensures n == 6 || n == 8
  {
  }
}
