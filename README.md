# ascendo_conf_agent, modelled in Dafny

`ascendo_conf_agent` turns a conference web site into a scored list of
companies. The stages are:

- a planner lists the pages to fetch;
- a fetcher downloads them;
- an extractor pulls company names from logo images and speaker cards;
- a normalizer merges records that name the same company;
- a fit agent asks a language model whether each company is a prospect;
- an enrichment agent looks for more evidence on the borderline ones in the pages already fetched;
- a rescore agent asks the model again about those.

A message-passing orchestrator runs the stages as agents. The language-model
client rate-limits its calls, pulls a JSON object out of the model's reply and
retries on errors.

This project models that core and proves properties of it:

- `types.dfy` (module `Types`): the records, and the mutable `GraphState` class that every node updates.
- `text.dfy` (`Text`): `compact` and `normalize_company_name`.
- `normalizer.dfy` (`Normalizer`): the merge key and the merge loop.
- `planner.dfy` (`Planner`): the target list.
- `extractor.dfy` (`Extractor`): logo and speaker extraction over already-parsed inputs, and the per-page dispatch.
- `llm_client.dfy` (`LlmClient`): the pure helpers of the model client. These are the brace scanner, the JSON-text extraction, the "retry in N s" hint and the back-off formulas.
- `llm_retry.dfy` (`LlmRetry`): the two rate limiters, as a class over explicit time, and the `json_chat` retry loop with its trace of events.
- `agents.dfy` (`Agents`): the fit, enrichment and rescore agents.
- `conversational.dfy` (`Conversational`): chained agents, the orchestrator loop, and the built agent graph.
- `strings.dfy`, `seqs.dfy`, `wrappers.dfy`: helpers for Python string and sequence operations, and Option/Result types.

Loops in the source are methods with loop invariants. Each method is proved
equal to a specification function, and lemmas state the properties of that
function.

Everything outside the model is a function-valued parameter:

- URL normalisation;
- the page fetch;
- the HTML parse;
- the order of `list(set)`;
- the rows the model returns for a batch of cards;
- the model's reply to each attempt;
- the clock's overshoot after a sleep;
- the random jitter.

## Model

| member | source | states |
|---|---|---|
| Types.GraphState.constructor | src/ascendo_conf_agent/types.py:44-57 | a new state has the given settings (by default headless, 15 pages, LLM enabled), empty lists and no notes |
| Text.CollapsedStripShape | src/ascendo_conf_agent/utils/text.py:24 | stripping and collapsing whitespace gives a trimmed, single-spaced text with the same non-whitespace characters in order |
| Text.CompactShape | src/ascendo_conf_agent/utils/text.py:23-25 | `compact` output has no whitespace at either end and single spaces inside, whatever the limit |
| Text.CompactFits | src/ascendo_conf_agent/utils/text.py:25 | a collapsed text within the limit is returned whole |
| Text.CompactTruncates | src/ascendo_conf_agent/utils/text.py:25 | with limit ≥ 3, a longer text becomes its first limit−3 characters plus "...", exactly the limit long |
| Text.CompactBound | src/ascendo_conf_agent/utils/text.py:25 | with limit ≥ 3 the result is never longer than the limit |
| Text.CompactSmallLimit | src/ascendo_conf_agent/utils/text.py:25 | below 3, the negative slice end counts from the back |
| Text.CompactIdempotent | src/ascendo_conf_agent/utils/text.py:23-25 | with limit ≥ 3, compacting twice with the same limit is compacting once |
| Text.PunctToSpace | src/ascendo_conf_agent/utils/text.py:12-17 | every character outside `[\w\s&-]` becomes a space, the others stay |
| Text.WordsRemoveSuffixes | src/ascendo_conf_agent/utils/text.py:4-18 | the suffix pass removes exactly the words that are legal-form suffixes in any case; the other words stay, in order |
| Text.RemoveSuffixesKeepsClean | src/ascendo_conf_agent/utils/text.py:4-18 | a text with no suffix word passes through unchanged, character for character |
| Text.RemoveSuffixesIdempotent | src/ascendo_conf_agent/utils/text.py:4-18 | removing suffixes twice is removing them once |
| Text.WordsNormalizeCompanyName | src/ascendo_conf_agent/utils/text.py:15-20 | the words of the normalized name are the input's non-suffix words, lower-cased |
| Text.NormalizedHasNoSuffix | src/ascendo_conf_agent/utils/text.py:4-19 | no whole word of the result is a suffix in any case |
| Text.NormalizeCompanyNameShape | src/ascendo_conf_agent/utils/text.py:19 | the result is lower case, trimmed and single-spaced |
| Text.NormalizeCompanyNameChars | src/ascendo_conf_agent/utils/text.py:12-17 | the result has only word characters, spaces, '&' and '-'; no '.' survives |
| Normalizer.RemoveDisallowed | src/ascendo_conf_agent/graph/nodes/normalizer.py:13 | deletes exactly the characters outside `[\w\s&\-\.]` and is the identity on a string with none |
| Normalizer.NormKeyShape | src/ascendo_conf_agent/graph/nodes/normalizer.py:11-15 | a key is lower case, single-spaced, and made of word characters, ' ', '&', '-' and '.' |
| Normalizer.NormKeyNotIdempotent | src/ascendo_conf_agent/graph/nodes/normalizer.py:12-13 | "! x" keys to " x" and " x" keys to "x": strip before deletion is not idempotent |
| Normalizer.KeyFixed | src/ascendo_conf_agent/graph/nodes/normalizer.py:11-15 | a lower-case, trimmed, single-spaced string of key characters is its own key |
| Normalizer.NormKeyStable | src/ascendo_conf_agent/graph/nodes/normalizer.py:11-15 | re-keying a key with no whitespace at its ends gives the key back |
| Normalizer.Keys | src/ascendo_conf_agent/graph/nodes/normalizer.py:21-24 | the keys kept are exactly the non-empty ones |
| Normalizer.Members | src/ascendo_conf_agent/graph/nodes/normalizer.py:25-30 | a group holds only records with its key |
| Normalizer.MembersNonEmpty | src/ascendo_conf_agent/graph/nodes/normalizer.py:25-27 | every key seen has at least one member |
| Normalizer.MembersEmpty | src/ascendo_conf_agent/graph/nodes/normalizer.py:22-24 | a non-empty key no record has has no group |
| Normalizer.MergeGroupSingle | src/ascendo_conf_agent/graph/nodes/normalizer.py:26-30 | merging one record into a fresh record yields the record under its own name |
| Normalizer.MergeByKey | src/ascendo_conf_agent/graph/nodes/normalizer.py:19-32 | the dictionary loop yields one merged record per distinct key, in insertion order |
| Normalizer.NormalizerNode | src/ascendo_conf_agent/graph/nodes/normalizer.py:18-34 | `company_records` is replaced by the merge under `_norm_key`, and nothing else changes |
| Normalizer.MergedKey | src/ascendo_conf_agent/graph/nodes/normalizer.py:25-30 | merged record j merges the group of the j-th distinct key: first member's name, union of sources, sum of counts, evidence concatenated in order |
| Normalizer.MergedKeysDistinct | src/ascendo_conf_agent/graph/nodes/normalizer.py:19-32 | merged records have pairwise distinct, non-empty keys |
| Normalizer.MergedCovers | src/ascendo_conf_agent/graph/nodes/normalizer.py:21-30 | every record with a non-empty key is in the group of a merged record |
| Normalizer.MergedOrder | src/ascendo_conf_agent/graph/nodes/normalizer.py:25-32 | merged records come in order of first appearance of their keys |
| Normalizer.MembersIn | src/ascendo_conf_agent/graph/nodes/normalizer.py:25-30 | every group member is an input record, so the inputs are not altered |
| Normalizer.MembersCount | src/ascendo_conf_agent/graph/nodes/normalizer.py:25-30 | a group has as many members as its key has occurrences |
| Normalizer.GroupSpeakersDistinct | src/ascendo_conf_agent/graph/nodes/normalizer.py:29 | over all distinct keys, the groups' speaker counts add up to those of the kept records |
| Normalizer.MergedSpeakers | src/ascendo_conf_agent/graph/nodes/normalizer.py:29 | merging keeps the total speaker count of the kept records |
| Planner.Seed | src/ascendo_conf_agent/graph/nodes/planner.py:22-24 | the seed is the normalized URL, with '/' appended only when missing |
| Planner.AllTargets | src/ascendo_conf_agent/graph/nodes/planner.py:26-29 | root target first, then one target per forced path with its page type |
| Planner.PlannerNode | src/ascendo_conf_agent/graph/nodes/planner.py:21-38 | the loop sets `targets` to the planned list and changes nothing else |
| Planner.PlannedLength | src/ascendo_conf_agent/graph/nodes/planner.py:32 | there are min(7, max(1, max_pages)) targets |
| Planner.PlannedRootFirst | src/ascendo_conf_agent/graph/nodes/planner.py:22-26 | the first target is the seed as root, and the seed ends in '/' |
| Planner.PlannedForced | src/ascendo_conf_agent/graph/nodes/planner.py:11-29 | target i ≥ 1 is the seed joined with forced path i−1, with its type |
| Planner.PlannedTypes | src/ascendo_conf_agent/graph/nodes/planner.py:11-18 | with a budget of 7 pages, the types run root, speakers, agenda, agenda, logos, logos, logos (any budget: `PlannedForced`) |
| Planner.PlannedRootOnly | src/ascendo_conf_agent/graph/nodes/planner.py:32 | a budget ≤ 1, zero and negative included, plans the root alone |
| Extractor.CleanCompanyName | src/ascendo_conf_agent/graph/nodes/extractor.py:16-19 | None becomes "", then the name is stripped and its whitespace runs collapsed |
| Extractor.CleanIdempotent | src/ascendo_conf_agent/graph/nodes/extractor.py:16-19 | cleaning a cleaned name changes nothing |
| Extractor.LogoName | src/ascendo_conf_agent/graph/nodes/extractor.py:28-34 | a matching source yields the cleaned group with '_' as ' ', and only when non-empty |
| Extractor.LogoHits | src/ascendo_conf_agent/graph/nodes/extractor.py:26-34 | each matching image gives one candidate with source {url}, no speakers, one piece of evidence and a non-empty name |
| Extractor.ExtractFromLogos | src/ascendo_conf_agent/graph/nodes/extractor.py:22-43 | the image loop yields the logo records specified from the image sources |
| Extractor.SpeakerHits | src/ascendo_conf_agent/graph/nodes/extractor.py:64-76 | each accepted fragment gives one candidate with source {url}, one speaker, one piece of evidence and a cleaned name of at least two characters |
| Extractor.ExtractFromSpeakers | src/ascendo_conf_agent/graph/nodes/extractor.py:46-78 | the card loop yields the speaker records, and the count of accepted fragments |
| Extractor.ExtractPage | src/ascendo_conf_agent/graph/nodes/extractor.py:85-100 | one page contributes its logo records, if a root or logos page, then its speaker records, if it is a speakers page or its URL ends in "/speakers" |
| Extractor.ExtractorNode | src/ascendo_conf_agent/graph/nodes/extractor.py:81-105 | `company_records` becomes the per-page records concatenated in page order |
| Extractor.LogoRecordsShape | src/ascendo_conf_agent/graph/nodes/extractor.py:31-43 | one record per distinct cleaned name in first-occurrence order, source {url}, no speakers, one Evidence per matching image |
| Extractor.LogoNamesDistinct | src/ascendo_conf_agent/graph/nodes/extractor.py:36-39 | logo record names are pairwise distinct |
| Extractor.LogoKeepsOneChar | src/ascendo_conf_agent/graph/nodes/extractor.py:32-34 | a one-character logo name is kept |
| Extractor.SpeakersDropShort | src/ascendo_conf_agent/graph/nodes/extractor.py:65-67 | a `strong` text cleaning to fewer than two characters adds no hit and no speaker record, whatever cards came before |
| Extractor.SpeakerHitsSnoc | src/ascendo_conf_agent/graph/nodes/extractor.py:65-75 | a text cleaning to at least two characters adds one hit with that cleaned name; a shorter one adds nothing |
| Extractor.SpeakersDropOneChar | src/ascendo_conf_agent/graph/nodes/extractor.py:65-67 | example: a lone one-character fragment yields no hit and no record |
| Extractor.SpeakerTotal | src/ascendo_conf_agent/graph/nodes/extractor.py:68-78 | the returned count equals the sum of `speakers_count` over the records |
| Extractor.SpeakerNameEach | src/ascendo_conf_agent/graph/nodes/extractor.py:64-73 | every speaker record, the last and a sole one included, has a cleaned name of at least two characters |
| Extractor.SpeakerNames | src/ascendo_conf_agent/graph/nodes/extractor.py:64-73 | any two speaker records have distinct names (the per-record facts for every record are `SpeakerNameEach`'s) |
| Extractor.ExtractedAppend | src/ascendo_conf_agent/graph/nodes/extractor.py:84-104 | extraction over consecutive page runs concatenates |
| Extractor.ExtractedOne | src/ascendo_conf_agent/graph/nodes/extractor.py:88-100 | a single page yields its logo records then its speaker records |
| Extractor.NoExtraction | src/ascendo_conf_agent/graph/nodes/extractor.py:88-94 | agenda/unknown pages not at a "/speakers" URL contribute nothing |
| LlmClient.Step | src/ascendo_conf_agent/llm/client.py:44-61 | one scanner step: escapes and quotes inside strings, depth outside |
| LlmClient.ScanFrom | src/ascendo_conf_agent/llm/client.py:43-64 | the scan's result is just past a '}' that closes depth 1 outside strings |
| LlmClient.ScanFromExactly | src/ascendo_conf_agent/llm/client.py:43-64 | the scan from i ends at e iff it runs through text[i..e-1] without closing and the state it reaches closes on text[e-1]; it finds nothing iff it runs through the rest of the text |
| LlmClient.BalancedObject | src/ascendo_conf_agent/llm/client.py:32-64 | None without '{'; otherwise a text starting at the first '{' and ending in '}' |
| LlmClient.BalancedObjectExactly | src/ascendo_conf_agent/llm/client.py:35-64 | with s the first '{': the object is text[s..e] iff the scan from s runs through text[s..e-1] and closes on text[e-1]; None iff the scan runs through all of text[s..] |
| LlmClient.ExtractBalancedJsonObject | src/ascendo_conf_agent/llm/client.py:32-64 | the depth/in_str/esc loop computes the balanced object |
| LlmClient.StringLiteralTransparent | src/ascendo_conf_agent/llm/client.py:45-56 | a quoted string never changes depth or ends the scan, whatever braces or escapes it holds |
| LlmClient.ScanSkip | src/ascendo_conf_agent/llm/client.py:43-64 | a stretch the scan runs through can be skipped |
| LlmClient.BalancedNone | src/ascendo_conf_agent/llm/client.py:35-64 | example: '{' followed by text with no '}' and no '"' gives None |
| LlmClient.BalancedObjectSkipsString | src/ascendo_conf_agent/llm/client.py:35-63 | an object holding one string literal is found whole, whatever the literal contains |
| LlmClient.FenceClose | src/ascendo_conf_agent/llm/client.py:17 | the first position from which optional whitespace and a closing "```" follow, or None if there is none |
| LlmClient.FenceAt | src/ascendo_conf_agent/llm/client.py:17 | a fence match at p: its group starts with '{' after "```", optional "json" and whitespace, and ends at the first '}' a closing fence can follow |
| LlmClient.FenceSearch | src/ascendo_conf_agent/llm/client.py:17-146 | the leftmost start at which the fence pattern matches |
| LlmClient.FenceGroup | src/ascendo_conf_agent/llm/client.py:146-148 | a fenced group is braced and is text of the reply |
| LlmClient.JsonTextOf | src/ascendo_conf_agent/llm/client.py:142-152 | the stage cascade always yields a braced text |
| LlmClient.ExtractJsonText | src/ascendo_conf_agent/llm/client.py:140-152 | `_extract_json_text` always yields a text with '{' first and '}' last, so never empty |
| LlmClient.ExtractJsonTextIdempotent | src/ascendo_conf_agent/llm/client.py:140-152 | extracting from an extracted text changes nothing |
| LlmClient.ExtractJsonTextFromReply | src/ascendo_conf_agent/llm/client.py:140-152 | the result is "{}" or text taken from the reply |
| LlmClient.ExtractJsonTextBraced | src/ascendo_conf_agent/llm/client.py:144-145 | a reply braced after stripping is returned as stripped |
| LlmClient.RetryAt | src/ascendo_conf_agent/llm/client.py:68 | a case-insensitive "retry in", whitespace, digits, optional fraction and 's' matched at p |
| LlmClient.RetrySearch | src/ascendo_conf_agent/llm/client.py:68 | a match at some p ≥ from with no match between from and p (the leftmost), or None when there is no match at or after from |
| LlmClient.ParseRetryDelaySeconds | src/ascendo_conf_agent/llm/client.py:67-74 | no match gives None; a result is at least 1 and at most the float overflow bound |
| LlmClient.ParseRetryNone | src/ascendo_conf_agent/llm/client.py:67-74 | None iff there is no match anywhere, or the leftmost match's whole part is at least 2^1024 − 2^970, where `float` gives infinity and `int` raises |
| LlmClient.ParseRetryIsFloorPlusOne | src/ascendo_conf_agent/llm/client.py:72 | the value is floor(N + 1.0) for the first match's decimal N |
| LlmClient.QuotaDelay | src/ascendo_conf_agent/llm/client.py:184 | the default quota wait lies in [5, 60] |
| LlmClient.QuotaDelayValues | src/ascendo_conf_agent/llm/client.py:184 | attempts 1..5 wait 5, 10, 20, 40, 60 |
| LlmClient.QuotaDelayCapped | src/ascendo_conf_agent/llm/client.py:184 | from attempt 5 on the wait is 60 |
| LlmClient.QuotaDelayMonotone | src/ascendo_conf_agent/llm/client.py:184 | the quota wait never shrinks |
| LlmClient.Backoff | src/ascendo_conf_agent/llm/client.py:190 | the non-quota wait is at most 45, and exactly 45 from attempt 6 |
| LlmClient.BackoffBounds | src/ascendo_conf_agent/llm/client.py:190 | with jitter in [0.1, 0.8] the wait lies in [2.1, 45] |
| LlmRetry.MinIntervalSlot | src/ascendo_conf_agent/llm/client.py:132-138 | the live limiter grants no earlier than the clock and the previous next-allowed time, and leaves next-allowed between grant+interval+0.05 and grant+interval+0.25 |
| LlmRetry.LiveRun | src/ascendo_conf_agent/llm/client.py:132-138 | a run of calls gets one grant each, the first no earlier than next-allowed |
| LlmRetry.LiveRunSpaced | src/ascendo_conf_agent/llm/client.py:136-138 | consecutive grants are at least interval + 0.05 apart |
| LlmRetry.DefaultSpacing | src/ascendo_conf_agent/config.py:25 | with the default 3.0 s interval, consecutive grants are at least 3.05 s apart |
| LlmRetry.Evict | src/ascendo_conf_agent/llm/client.py:104-106 | eviction never grows the history and leaves its head at or after the cutoff |
| LlmRetry.EvictSuffix | src/ascendo_conf_agent/llm/client.py:105-106 | eviction only removes from the front |
| LlmRetry.EvictWithin | src/ascendo_conf_agent/llm/client.py:104-106 | after evicting a sorted history every entry is ≥ the cutoff |
| LlmRetry.EvictExactly | src/ascendo_conf_agent/llm/client.py:104-106 | on a sorted history eviction leaves h[k..], where the first k entries are exactly those below the cutoff: every entry at or after the cutoff stays |
| LlmRetry.EvictKeepsBoundary | src/ascendo_conf_agent/llm/client.py:105-120 | the strict `<` keeps an entry exactly at the cutoff |
| LlmRetry.AppendBounded | src/ascendo_conf_agent/llm/client.py:22-129 | appending to the 100-entry deque keeps at most 100 entries and ends with the new one |
| LlmRetry.AppendBoundedSuffix | src/ascendo_conf_agent/llm/client.py:22-129 | the bounded append is the newest entries of history + [t] |
| LlmRetry.WindowWait | src/ascendo_conf_agent/llm/client.py:101-121 | the window check never moves the clock back; with ≥ 15 calls left it waits until oldest + 60 |
| LlmRetry.WindowWaitSuffix | src/ascendo_conf_agent/llm/client.py:103-121 | the window check only drops entries from the front |
| LlmRetry.WindowWaitWithin | src/ascendo_conf_agent/llm/client.py:103-121 | after the window check every entry is within 60 s of the clock |
| LlmRetry.RollingWindowSlot | src/ascendo_conf_agent/llm/client.py:93-130 | the rolling-window limiter waits for both window and interval, records the grant, and sets next-allowed as the live one does |
| LlmRetry.RollingWindowWaits | src/ascendo_conf_agent/llm/client.py:109-117 | with a full window the grant is no earlier than the oldest call + 60 |
| LlmRetry.RollingWindowSorted | src/ascendo_conf_agent/llm/client.py:103-129 | the history stays non-decreasing |
| LlmRetry.RateLimiter.constructor | src/ascendo_conf_agent/llm/client.py:20-90 | the limiter at module load (the shared globals: empty history, next-allowed 0), with the configured interval; later clients reuse that state rather than restart it |
| LlmRetry.RateLimiter.AcquireSlot | src/ascendo_conf_agent/llm/client.py:132-138 | the live method updates next-allowed as `MinIntervalSlot` says, history untouched |
| LlmRetry.RateLimiter.EvictBefore | src/ascendo_conf_agent/llm/client.py:105-106 | the popleft loop leaves the evicted history |
| LlmRetry.RateLimiter.WaitForWindow | src/ascendo_conf_agent/llm/client.py:101-121 | the clock and history after the window check are those of `WindowWait` |
| LlmRetry.RateLimiter.AcquireSlotRollingWindow | src/ascendo_conf_agent/llm/client.py:93-130 | the shadowed method updates history and next-allowed as `RollingWindowSlot` says and keeps the history sorted and bounded |
| LlmRetry.RetryDelay | src/ascendo_conf_agent/llm/client.py:176-192 | quota errors wait the parsed hint when there is one, else the default quota delay (≥ 1 s in both cases); other errors wait the back-off |
| LlmRetry.ChatFrom | src/ascendo_conf_agent/llm/client.py:162-194 | from attempt a, at most max − a + 1 model calls |
| LlmRetry.Chat | src/ascendo_conf_agent/llm/client.py:161-194 | a call of `json_chat` makes at most max(0, max_attempts) model calls |
| LlmRetry.JsonChat | src/ascendo_conf_agent/llm/client.py:161-194 | the retry loop's outcome and trace of slot/call/sleep events are `Chat`'s |
| LlmRetry.ChatNoAttempts | src/ascendo_conf_agent/llm/client.py:162-194 | with max_attempts ≤ 0 the model is never called and the error carries nothing |
| LlmRetry.ChatCallsAfterSlot | src/ascendo_conf_agent/llm/client.py:162-165 | every model call comes right after its own slot acquisition |
| LlmRetry.ChatFirstSuccess | src/ascendo_conf_agent/llm/client.py:170-171 | the first successful attempt k returns its value after exactly k calls |
| LlmRetry.ChatAllFail | src/ascendo_conf_agent/llm/client.py:172-194 | if every attempt fails: exactly max_attempts calls, a wait after each, give up with the last error |
| LlmRetry.DefaultAllFail | src/ascendo_conf_agent/config.py:26 | with the default 3 attempts all failing: 3 model calls, and the third error is raised |
| LlmRetry.ChatOutcomeExplained | src/ascendo_conf_agent/llm/client.py:161-194 | a give-up means every attempt failed; a parsed value is some attempt's success |
| Agents.PayloadKeys | src/ascendo_conf_agent/conversational.py:78 | the logged payload keys are empty exactly for an empty payload |
| Agents.CardOf | src/ascendo_conf_agent/conversational.py:122-128 | a card has the record's name and speaker count, at most 5 sources, and the snippets of its first n pieces of evidence |
| Agents.FitCards | src/ascendo_conf_agent/conversational.py:120-128 | one card per record, in order, with 3 snippets |
| Agents.BuildFitCards | src/ascendo_conf_agent/conversational.py:120-128 | the card loop builds `FitCards` |
| Agents.BuildRescoreCards | src/ascendo_conf_agent/conversational.py:295-304 | the rescore card loop builds `RescoreCards` |
| Agents.RescoreCardsSelect | src/ascendo_conf_agent/conversational.py:296-304 | cards are for asked-for names only, and every record whose name was asked for has its 5-snippet card |
| Agents.BatchesPartition | src/ascendo_conf_agent/conversational.py:141-142 | the batches concatenate back to the cards; there are ⌈n/20⌉ of them, each 1..20 long, all but the last exactly 20 |
| Agents.AcceptSkips | src/ascendo_conf_agent/conversational.py:149-157 | a row is skipped iff its stripped name is blank or its verdict is not Yes/Maybe/No |
| Agents.AcceptFields | src/ascendo_conf_agent/conversational.py:149-166 | an accepted row has its stripped, non-empty name, its verdict, confidence Med for "med", High for "high" and Low otherwise, and ≤ 220 characters from the start of the stripped rationale |
| Agents.ApplyAppend | src/ascendo_conf_agent/conversational.py:141-166 | applying the rows of two batches is applying one after the other |
| Agents.ApplyKeyed | src/ascendo_conf_agent/conversational.py:161-166 | every map entry is filed under its own name |
| Agents.ApplyDomain | src/ascendo_conf_agent/conversational.py:148-166 | a name is in the map iff it was before or some row is accepted under it |
| Agents.ApplyUntouched | src/ascendo_conf_agent/conversational.py:148-166 | a name no row is accepted under keeps its entry or stays absent |
| Agents.ApplyLastWins | src/ascendo_conf_agent/conversational.py:161-166 | the last accepted row for a name decides its entry |
| Agents.ScoreMapKeyed | src/ascendo_conf_agent/conversational.py:131-166 | the score map is keyed by name, and empty without cards |
| Agents.ApplyRows | src/ascendo_conf_agent/conversational.py:148-166 | the row loop applies the rows in order |
| Agents.ScoreBatches | src/ascendo_conf_agent/conversational.py:141-166 | the batch loop, one model call per 20 cards, yields `ScoreMap` |
| Agents.MergeAligned | src/ascendo_conf_agent/conversational.py:169-178 | one result per record, in order, same name; the "No LLM row returned." default exactly where the map has no entry |
| Agents.Merge | src/ascendo_conf_agent/conversational.py:169-176 | the merge loop builds `MergeResults` |
| Agents.BorderlineExactly | src/ascendo_conf_agent/conversational.py:181-184 | a name is listed iff some result with it is Maybe with low or med confidence |
| Agents.DisabledAllBorderline | src/ascendo_conf_agent/conversational.py:112-116 | with the model off there is one Maybe/low result per record, same name |
| Agents.CountVerdicts | src/ascendo_conf_agent/conversational.py:200-203 | the three counts add up to the number of results |
| Agents.CountVerdictsCounts | src/ascendo_conf_agent/conversational.py:200-203 | each count is the number of results with that verdict |
| Agents.UpdateFitCounts | src/ascendo_conf_agent/conversational.py:200-214 | `fit_counts` becomes the counts of the results; nothing else changes |
| Agents.FitHandle | src/ascendo_conf_agent/conversational.py:106-198 | disabled: "LLM disabled." results, route to export, counts not written; else merged results, then export with counts if none is borderline, else enrichment with the first 10 borderline names |
| Agents.ForwardedBorderline | src/ascendo_conf_agent/conversational.py:193-198 | at most 10 names are forwarded, at least one if any is borderline, each borderline |
| Agents.SnippetAround | src/ascendo_conf_agent/conversational.py:246 | the snippet is at most 200 characters |
| Agents.MentionEvidence | src/ascendo_conf_agent/conversational.py:244-250 | evidence has the page URL and a snippet of at most 200 characters |
| Agents.FirstMention | src/ascendo_conf_agent/conversational.py:243-252 | found evidence has the searched URL and a snippet ≤ 200 |
| Agents.FirstMentionExactly | src/ascendo_conf_agent/conversational.py:243-252 | evidence is found iff some page at the URL is non-empty and mentions the name ignoring case; it comes from the first such page |
| Agents.EvidenceForFound | src/ascendo_conf_agent/conversational.py:238-252 | at most one piece per search path, each from one of the four URLs, snippet ≤ 200 |
| Agents.SearchPages | src/ascendo_conf_agent/conversational.py:243-252 | the page loop with `break` finds `FirstMention` |
| Agents.SearchEvidence | src/ascendo_conf_agent/conversational.py:233-252 | the path loop scans all four paths, the `break` leaving only the page loop |
| Agents.FirstNamed | src/ascendo_conf_agent/conversational.py:256-257 | the index of the first record with exactly that name |
| Agents.EnrichOneEffect | src/ascendo_conf_agent/conversational.py:254-260 | only the first record with the name changes, by ≤ 2 found pieces appended; a hit is reported iff evidence was found and such a record exists |
| Agents.EnrichEffect | src/ascendo_conf_agent/conversational.py:232-262 | records keep name, sources and counts and only gain appended evidence; the enriched names are a subsequence of the borderline names, each naming a record |
| Agents.EnrichKeepsEvidence | src/ascendo_conf_agent/conversational.py:258 | old evidence stays in front |
| Agents.AttachEvidence | src/ascendo_conf_agent/conversational.py:255-260 | the record loop with `break` extends the first record with that name |
| Agents.EnrichmentHandle | src/ascendo_conf_agent/conversational.py:223-270 | no names: "skip" to export, nothing changes; otherwise records enriched as `Enrich` says and "rescore_request" to fit_rescore with the enriched names |
| Agents.RescoredAligned | src/ascendo_conf_agent/conversational.py:343-352 | length and names unchanged; position i takes a map result iff its name is in the map |
| Agents.ChangesExactly | src/ascendo_conf_agent/conversational.py:343-352 | changes ≤ the number of results, and 0 iff no verdict changes |
| Agents.RescoreResults | src/ascendo_conf_agent/conversational.py:343-352 | the in-place update loop gives `Rescored` and counts `Changes` |
| Agents.RescoreHandle | src/ascendo_conf_agent/conversational.py:280-357 | empty list: results unchanged; else rescored from the model's rows for the enriched records' cards; always counts written and "complete" to export |
| Conversational.Fetched | src/ascendo_conf_agent/graph/nodes/fetcher.py:11-19 | one raw page per target, in order, with its URL and type |
| Conversational.FetcherNode | src/ascendo_conf_agent/graph/nodes/fetcher.py:11-19 | the fetch loop sets `raw_pages` to `Fetched` |
| Conversational.FollowUp | src/ascendo_conf_agent/conversational.py:42-44 | a reply exists iff `next_agent` is set and non-empty, a "next" message to it |
| Conversational.Handle | src/ascendo_conf_agent/conversational.py:36-44 | replies as `Routes` says; each node sets only its own field (planner targets, fetcher raw pages, extractor and normalizer records) and leaves the others and the notes alone; fit, enrichment and rescore change the fields and notes their handlers state and no others; fit's reply carries the first ten borderline names and enrichment's the enriched names; no node, or export, changes nothing |
| Conversational.RunStep | src/ascendo_conf_agent/conversational.py:36-44 | each chained node sets only its own field: planner the targets, fetcher the raw pages, extractor and normalizer the records; no node, or export, changes nothing |
| Conversational.RunFit | src/ascendo_conf_agent/conversational.py:106-198 | the fit agent sets the results, writes the counts only when enabled and nothing is borderline, and changes no other field; its reply asks enrichment about the first ten borderline names, and otherwise tells export it is complete |
| Conversational.Dispatch | src/ascendo_conf_agent/conversational.py:81-89 | an unknown recipient: no reply, state unchanged |
| Conversational.Invoke | src/ascendo_conf_agent/conversational.py:54-96 | 1..100 rounds; log entry i is message i delivered, in round i+1; the start message is delivered first and each later one is the reply of the round before (first in, first out); each message went to the agent it names or was dropped; fewer than 100 rounds means the last round gave no reply; an unknown start gives one round and no change; the built graph from "planner" ends after 6 or 8 rounds |
| Conversational.ProgressRound | src/ascendo_conf_agent/conversational.py:64-89 | one round keeps the conversation facts, ends a run with an unknown start after its first round, and moves the built graph to its next stage |
| Conversational.ConversationDone | src/ascendo_conf_agent/conversational.py:64-96 | a finished loop has logged at least one round, in delivery order, starting cli→start; an unknown start gives exactly that one entry; the built graph gives 6 or 8 rounds |
| Conversational.BuiltDone | src/ascendo_conf_agent/conversational.py:36-96 | the built graph stops only with an empty queue, after 6 or 8 rounds |
| Conversational.ConversationRound | src/ascendo_conf_agent/conversational.py:64-89 | one round logs the head of the queue and queues its reply, keeping the log in delivery order |
| Conversational.BuiltRound | src/ascendo_conf_agent/conversational.py:36-96 | one round of the built graph moves the queue to the next stage |

## Left out

- Browser fetching. `fetch_html_sync` is the function `fetch` of `Conversational.Env`.
- The spreadsheet export. `export_node` is a step that changes no field the model tracks; its `output_path` note and the file are not modelled.
- The command line, logging, and settings from the environment. The defaults min interval 3.0 and max attempts 3 (src/ascendo_conf_agent/config.py:25-26) are constants.
- BeautifulSoup selection and `LOGO_NAME_RE`. Image sources, `strong` texts and the logo-name match are inputs, the `Parser` of `Extractor`. The double counting that nested `div` cards can cause is not modelled.
- URL normalisation and joining are uninterpreted functions.
- `list(set)` order is the function `listSet`. The model does not say that it lists the set.
- The model call and `json.loads` are functions from an attempt to a reply, and from text to a parse result.
- The agents' LLM batches are a function from a card batch to rows. The JSON serialisation of cards, and `load_prompt` with its file read, are not modelled.
- Rows whose fields are not strings make Python raise. That case is not modelled.
- Exceptions that escape an agent, such as `json_chat`'s RuntimeError, are not modelled. They end `invoke` in the source; the model has no exception path there.
- `LlmRetry.ChatAllFail`, `LlmRetry.JsonChat` and `LlmRetry.RetryDelay` assume every delay can be slept. A quota hint above about 9.2e9 s (e.g. "429 RESOURCE_EXHAUSTED, retry in 10000000000s") makes `time.sleep` raise OverflowError inside the handler at client.py:186. That error leaves `json_chat` after the one call; the model sleeps and retries instead, so "exactly max_attempts calls" holds only when every delay is sleepable.
- Threads and `_LOCK` are not modelled; the model is single-threaded.
- Time is explicit. A sleep wakes at the target plus a non-negative overshoot. The jitter is a parameter within the `uniform` bounds.
- Only the min-interval `_acquire_slot` (lines 132-138) is live. Python keeps the later `def` in a class body. The rolling-window version (93-130) is modelled as `AcquireSlotRollingWindow`, which nothing calls.
- `LlmClient.ParseRetryDelaySeconds`: a finite N is taken exactly. The rounding of `float(N)` is not modelled: neither long fractions at any size nor whole parts from 2^52 up. Overflow to infinity is modelled.
- `LlmClient.ParseRetryIsFloorPlusOne`: states floor(N + 1) on the exact decimal N. Rounding in `float(N)` can make the source's value one more, e.g. "retry in 2.99999999999999999s" gives 4 there and 3 here.
- Character classes are ASCII. `lower()`, `\s`, `\w` and `re.IGNORECASE` have their ASCII meaning, and Unicode case mapping is out.
- In-place updates of a record in a list are element replacement in a `seq`. For example, `rec.evidence.extend` in the enrichment agent and the merged record of the normalizer. No two list slots share a record in the source, so nothing is lost.
- `Conversational.Invoke`: a seven-round run, in which enrichment receives an empty list and skips to export, cannot happen with the built graph. The fit agent only forwards a non-empty list, so the run takes 6 or 8 rounds.
- `Agents.RescoreHandle`: `changes` is only logged in the source; the model returns it.
- `Extractor.LogoKeepsOneChar`: a one-character logo name is kept, not dropped as noise. The code only drops empty names, and the model follows the code.
- `Normalizer.NormKeyNotIdempotent`: the grouping key is not canonical, because normalizing a key again can change it. The model follows the code.
