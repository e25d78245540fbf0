# Exact token-cost accounting, verified

A Dafny model of the repository's token-cost pipeline and of three small tools around
it, with proofs of what they promise.

- **Streams.** A strict event-stream parser (a subset of sections 9.2.5 and 9.2.6 of the
  HTML Living Standard) feeds three protocol machines (Chat, Responses, Anthropic
  Messages). Each reduces a recorded stream to one final response with cumulative usage
  (`Sse`, `SseGrammar`, `StreamFields`, `ChatReplay`, `ResponsesReplay`, `AnthropicReplay`).
  What they read and answer is told in the members of the wire (`EventFields`,
  `ChatEvents`, `ResponsesEvents`, `AnthropicEvents`).
- **Usage.** Provider counters with gaps are checked and mapped to four disjoint buckets,
  alone (`ProviderUsage`, `OpenAiSnapshots`, `Derivation`, `AnthropicDerivation`) and
  against everything reported before (`UsageHistory`, `OpenAiHistory`, `AnthropicHistory`).
- **Import.** Responses and recorded streams become calls of a cost input
  (`UsageImport`, `RecordMapping`, `StreamImport`, `StreamCalls`), in one go or in byte-capped batches (`Batching`).
- **Pricing.** Overflow-checked 64-bit fixed-point costs by call, stage, rate card and in
  total (`Decimals`, `Totals`, `TokenCost`, `CostReports`).
- **Comparison and decision.** Two ledgers, divided among tasks and a shared remainder,
  are compared exactly (`Changes`, `CostComparison`, `ComparisonLaws`, `ArmAcceptance`,
  `Telescoping`, `ComparisonTheorems`, `ComparisonInputs`), and a case-by-case quality rule decides (`Evaluation`).
- **Search command line.** The option grammar (`SearchArguments`).

Code that loops and updates is written as methods proved equal to a specification
function; running totals are objects of the class `TokenCost.Aggregate`. The lemmas are
about the specification functions. Errors carry the program's own codes, in the
program's order of checking.

## Main results

- Exact feasibility: the inequality checks on usage are necessary and sufficient. One
  snapshot, a run of Responses snapshots, or a run of merged Anthropic updates is accepted
  if and only if the unknown counters can be filled in consistently and above every number
  reported before (`UsageIffCompletion`, `OpenAiHistory.RunIsFeasible`,
  `AnthropicHistory.ReplayIsFeasible`). A bucket is reported exactly when it is determined:
  always for Anthropic usage, up to an exactly listed set of missed cases for OpenAI usage
  (`ReportedIffDetermined` in `AnthropicDerivation` and `Derivation`).
- Exact acceptance: the event-stream parser accepts exactly the texts of a grammar
  (`SseGrammar.EventsIff`), and each stream machine accepts exactly the complete streams,
  stated over what the events say with no reference to the machine's state
  (`ChatAcceptsComplete`, `ResponsesAcceptsComplete`, `AnthropicAcceptsComplete`).
- From the wire to the call: the response of an accepted stream is fixed by the stream's
  own members (`ChatReply`, `ResponsesReply`, `AnthropicReply`), a record maps exactly on
  stated conditions to stated tokens (`MapsIff`, `MapsTo`), and so each bucket of an
  imported call is a counter of its stream (`ChatCall`, `ResponsesCall`, `AnthropicCall`).
- Replay refines import: after an accepted replay only record-level facts, size and
  overflow can stop an import (`ReplayRefinesImport`, `StreamsImportIff`).
- Exact money: overflow is reported if and only if the unbounded sum does not fit;
  otherwise every printed amount denotes the exact value, decimal point included, and
  stages, rate cards and rows each add up to the summary (`OverflowIsExact`,
  `RowsAreExact`, `ReportConserves`).
- An arm of a comparison is accepted exactly when its call lists divide a priced ledger
  (`ArmAcceptedIff`, `ArmIsPartition`), and which inputs are compared, and eligible, is
  decided by the inputs alone (`ComparedIff`, `NoPartialComparison`). Comparisons
  telescope, are never partial, and change sign when the arms are swapped
  (`DeltasTelescope`, `SwapNegates`).
- In a validated run batching never shows: the batched import of an arm succeeds exactly
  when the import in one go does, with the same calls and the same report
  (`BatchedIffUnbatched`, `ValidatedRunBatches`).
- The decision rule is case-by-case dominance with cost (`DecidesDominance`,
  `DecisionIsDominance`); the search grammar is a round trip in both directions
  (`SpellingsParse`, `AcceptedIsSpelling`).

## Where the documentation and the code differ

- The plan for stream import (docs/nodes/N48H-PLAN.md:29) says Responses sequence numbers
  start from 0; its amendment (docs/nodes/n48h-evidence/CONTINUATION-PLAN-REVIEW.md:7)
  allows 0 or 1. The code (stream_usage.hpp:126) accepts 0 or 1, and so does the model.

## What the proofs turned up

- Some buckets that an OpenAI snapshot determines are still reported as unknown: a cached
  count that equals the whole input leaves the uncached and the cache-write bucket unknown,
  for instance. `Derivation.Missed` lists exactly these cases, `MissedByReads`,
  `MissedByWrites` and `MissedByTotal` show a literal snapshot for each of the four buckets,
  `MissedIsDetermined` proves that such buckets are determined and `ReportedIffDetermined`
  that there are no others. Anthropic usage has no such case.

## Model

| member | source | states |
|---|---|---|
| OpenAiHistory.RunIsFeasible | include/qbrain/accounting/stream_usage.hpp:81-105 | A run of Responses snapshots is accepted if and only if each snapshot has a completion that agrees with it, keeps the partition equations, and is at least every number reported earlier; the recorded bounds are then the maxima of the whole run, null gaps included |
| OpenAiHistory.AcceptIffFeasible | include/qbrain/accounting/stream_usage.hpp:93-105 | For one snapshot against recorded bounds: the ad-hoc lower-bound checks pass if and only if such a completion exists |
| UsageHistory.HistoryGrows | include/qbrain/accounting/stream_usage.hpp:80-89 | Observing a snapshot keeps the invariant that each bound is the maximum of all numbers seen at its path; a null or absent counter erases nothing |
| UsageHistory.ObservedAt | include/qbrain/accounting/stream_usage.hpp:81-92 | After an accepted observation a bound is the number just reported there, or the old bound, and is never lower than before |
| UsageHistory.Monotonic | include/qbrain/accounting/stream_usage.hpp:81-89 | The recursive walk succeeds if and only if no integer leaf is out of range or below its bound, and then raises exactly the bounds of those leaves, whatever the visiting order |
| UsageHistory.WalkIsObserve | include/qbrain/accounting/stream_usage.hpp:81-89 | From the root, what the walk accepts and records is the specification `Observe` |
| OpenAiSnapshots.UsageIffCompletion | include/qbrain/accounting/provider_usage.hpp:39-64 | In either dialect, at its literal member names, `openai_usage` accepts a snapshot if and only if it is well-shaped and some assignment of all counters agrees with it and satisfies read+write <= input, details <= output, input+output = total |
| OpenAiSnapshots.BucketsAreForced | include/qbrain/accounting/provider_usage.hpp:58-63 | Every bucket that is reported has that value in every completion |
| OpenAiSnapshots.BucketsAreReported | include/qbrain/accounting/provider_usage.hpp:41-63 | The output bucket is the count at `completion_tokens` (`output_tokens`), the caches are the counts in `prompt_tokens_details` (`input_tokens_details`) unless the input is zero, and the uncached bucket is what they leave of `prompt_tokens` (`input_tokens`) |
| OpenAiSnapshots.BucketsAddUp | include/qbrain/accounting/provider_usage.hpp:39-64 | When all four buckets are known they add up to the input plus the output, and to the reported total if there is one |
| Derivation.ReportedIffDetermined | include/qbrain/accounting/provider_usage.hpp:58-63 | A bucket is reported exactly when all completions agree on it, except in the missed cases; an unknown bucket outside them really has two different completions |
| Derivation.MissedIsDetermined | include/qbrain/accounting/provider_usage.hpp:58-63 | In each missed case (known parts exhaust the largest possible input, or a total alone would give input or output) the bucket is determined but left unknown |
| Derivation.MissedByReads | include/qbrain/accounting/provider_usage.hpp:58-63 | On the accepted snapshot with input 5 and 5 cached tokens, the uncached and the cache-write bucket are 0 in every completion and reported as unknown |
| Derivation.MissedByWrites | include/qbrain/accounting/provider_usage.hpp:58-63 | On the accepted snapshot with input 5 and 5 cache-write tokens, the cache-read bucket is determined and reported as unknown |
| Derivation.MissedByTotal | include/qbrain/accounting/provider_usage.hpp:58-63 | On an accepted snapshot with a total but no output, the output bucket is determined and reported as unknown |
| AnthropicDerivation.UsageIffCompletion | include/qbrain/accounting/provider_usage.hpp:65-91 | `anthropic_usage` accepts a snapshot if and only if it is well-shaped and some assignment of all counters agrees with it, keeps the two cache lifetimes within the created total they sum to, and thinking within the output |
| AnthropicDerivation.ReportedIffDetermined | include/qbrain/accounting/provider_usage.hpp:65-91 | An accepted snapshot reports a bucket if and only if all completions give it the same value; no determined bucket is left unknown |
| AnthropicDerivation.BucketsAreReported | include/qbrain/accounting/provider_usage.hpp:65-81 | Each bucket is the count at its own member, and a cache write split by lifetime is the sum of the two |
| ProviderUsage.OpenAiWithinCap | include/qbrain/accounting/provider_usage.hpp:39-64 | Accepted OpenAI usage maps to buckets within the token cap |
| ProviderUsage.AnthropicWithinCap | include/qbrain/accounting/provider_usage.hpp:65-91 | Accepted Anthropic usage maps to buckets within the token cap, derived cache writes included |
| AnthropicHistory.ReplayIsFeasible | include/qbrain/accounting/stream_usage.hpp:106-116 | A run of usage updates is accepted if and only if after each one the merged snapshot has a completion with non-mixed cache lifetimes above every number reported before; the usage is then the last-writer fold and the bounds are the maxima |
| AnthropicHistory.UpdateIffFeasible | include/qbrain/accounting/stream_usage.hpp:199-206 | The same for a single update, including the null update that forgets the counters |
| AnthropicHistory.LastWriter | include/qbrain/accounting/stream_usage.hpp:156-162 | The merged value at a path is that of the last update that decides the path, or nothing; values are never added up |
| AnthropicHistory.UpdateMirrors | include/qbrain/accounting/stream_usage.hpp:199-206 | Every integer of the merged usage equals the bound recorded for its path, after every accepted update |
| Json.MergeAt | include/qbrain/accounting/stream_usage.hpp:156-162 | Merging replaces a path's value exactly when the update writes it, and leaves it otherwise |
| Json.MergeUsage | include/qbrain/accounting/stream_usage.hpp:156-162 | The in-place member-by-member merge computes the specification `Merge` |
| Json.MergeIntoNothing | include/qbrain/accounting/stream_usage.hpp:174 | Merging into an absent or empty value gives the update itself |
| AnthropicReplay.FirstUsageIsTaken | include/qbrain/accounting/stream_usage.hpp:174 | The opening message's usage becomes the running usage as it stands |
| Sse.RoundTrip | include/qbrain/accounting/stream_usage.hpp:7-28 | Any rendering of a non-empty list of legal events (uniform LF, CR or CRLF, optional byte order mark, comments anywhere), within the caps, parses back to exactly those events |
| Sse.AcceptedAreLegal | include/qbrain/accounting/stream_usage.hpp:7-28 | Whatever the parser accepts is a non-empty list of legal events within the limit |
| Sse.Normalizes | include/qbrain/accounting/stream_usage.hpp:7-28 | The canonical rendering of an accepted stream, if it fits, parses to the same events |
| SseGrammar.EventsIff | include/qbrain/accounting/stream_usage.hpp:7-28 | A text within the caps parses to given events if and only if it is an optional mark and terminated lines (any mix of LF, CR and CRLF) that spell blocks with exactly these events: at most one `event` line a block and only beside `data`, an optional space after a colon, bare `data` lines, comments anywhere, any number of empty blocks, and nothing but comments after the last blank line |
| Sse.ParseEvents | include/qbrain/accounting/stream_usage.hpp:7-28 | The whole parser, with its checks before the scan, equals the specification |
| Sse.ScanLines | include/qbrain/accounting/stream_usage.hpp:11-27 | The scanning loop terminates because its position strictly increases, and equals the recursive scan |
| Sse.Field | include/qbrain/accounting/stream_usage.hpp:18-25 | One field line changes the pending event, or fails, as specified |
| ChatReplay.ChatAcceptsComplete | include/qbrain/accounting/stream_usage.hpp:45-79 | A Chat stream is accepted if and only if it is chunks of one response, at most one usage chunk right before a single closing `[DONE]`, and every choice mentioned finishes exactly once with no later mention; the outcome is each index with its finishing reason and the usage chunk's usage |
| ChatReplay.ChoicesListedOnce | include/qbrain/accounting/stream_usage.hpp:76 | The response lists every index seen exactly once, in increasing order, with its finish reason |
| ChatEvents.ViewIs | include/qbrain/accounting/stream_usage.hpp:48-75 | Member by member, which events the Chat replay takes as the end, as choices and as usage, and which identity, choices, finish reasons and usage it reads in them |
| ChatEvents.ChatReply | include/qbrain/accounting/stream_usage.hpp:76-79 | Replaying an accepted Chat stream gives the id and model of its first chunk, the usage of the usage chunk right before the end (null without one), and each choice of the stream once, in index order, with the reason that finished it |
| ChatReplay.ReplayChat | include/qbrain/accounting/stream_usage.hpp:45-79 | The replay loop equals the step-by-step specification |
| ChatReplay.MarkChoices | include/qbrain/accounting/stream_usage.hpp:61-74 | Marking one chunk's choices in place equals the specification |
| ResponsesReplay.ResponsesAcceptsComplete | include/qbrain/accounting/stream_usage.hpp:117-155 | A Responses stream is accepted if and only if it is created once and first, numbered origin, origin+1, ... with origin 0 or 1, about one id and model, ended by its only terminal event, and its usage is feasible over history; the outcome is the terminal event's own status and usage |
| ResponsesEvents.ViewIs | include/qbrain/accounting/stream_usage.hpp:124-151 | Member by member, which events the Responses replay takes as a snapshot and as output, under which of the 21 types, and which number, phase, identity and usage it reads in them |
| ResponsesEvents.ResponsesReply | include/qbrain/accounting/stream_usage.hpp:136 | Replaying an accepted Responses stream gives id, model, object, status and usage of the last event's own snapshot, and that event is terminal |
| ResponsesReplay.ReplayResponses | include/qbrain/accounting/stream_usage.hpp:117-155 | The replay loop equals the step-by-step specification |
| AnthropicReplay.AnthropicAcceptsComplete | include/qbrain/accounting/stream_usage.hpp:163-215 | An Anthropic stream is accepted if and only if it starts once, blocks open as 0,1,2,... and each closes, deltas fit their open block, no block event follows a message delta, one stop reason is given, `message_stop` is last, and usage is feasible over history; final usage is the last-writer fold, with output forgotten unless a message delta reported it |
| AnthropicEvents.ViewIs | include/qbrain/accounting/stream_usage.hpp:167-209 | Member by member, which events the Anthropic replay takes as each of the seven kinds, and which identity, block, stop reason and usage it reads in them |
| AnthropicEvents.FitsIs | include/qbrain/accounting/stream_usage.hpp:191-192 | The four pairs of delta and block that go together, and no others |
| AnthropicEvents.AnthropicReply | include/qbrain/accounting/stream_usage.hpp:199-213 | Replaying an accepted Anthropic stream gives the id and model of its one opening message, the one stop reason given, and the updates of the opening message and the message deltas folded, the last writer of each counter winning, with the output count null unless a message delta settled it |
| AnthropicReplay.ClosesOnce | include/qbrain/accounting/stream_usage.hpp:187-189 | In such a stream no block is closed twice |
| AnthropicReplay.HistoryAccepted | include/qbrain/accounting/stream_usage.hpp:211-212 | An accepted history leaves a final usage that passes the usage check, whether or not the output count was final |
| AnthropicReplay.ReplayAnthropic | include/qbrain/accounting/stream_usage.hpp:163-215 | The replay loop equals the step-by-step specification |
| StreamImport.ReplayRefinesImport | include/qbrain/accounting/stream_usage.hpp:216-230 | The response of an accepted replay passes every identity, kind, terminality and usage check of the import: it maps if and only if the record's own facts (identifiers, rate card match, outcome, size) hold, and then to the call and audit of `RecordMapping` |
| StreamImport.StreamsImportIff | include/qbrain/accounting/stream_usage.hpp:216-230 | Importing streams succeeds if and only if there are at most 32, all replay under distinct call ids, the rate cards read, every record's facts and labels hold, no response is imported twice and the exact total fits |
| StreamImport.ConvertIff | include/qbrain/accounting/stream_usage.hpp:220-226 | A stream record becomes a response record if and only if its call id and format are valid, its stream parses and the events replay in that format; the record keeps every label |
| StreamCalls.ChatCall | include/qbrain/accounting/stream_usage.hpp:59-79 | The imported call of a Chat stream has in each bucket what its usage chunk reports at the literal Chat members |
| StreamCalls.ResponsesCall | include/qbrain/accounting/stream_usage.hpp:135-136 | The imported call of a Responses stream has in each bucket what its terminal snapshot reports, whatever was reported before |
| StreamCalls.AnthropicCall | include/qbrain/accounting/stream_usage.hpp:174-213 | The imported call of an Anthropic stream has in each bucket the last value its updates report, and an unknown output unless a message delta settled it |
| StreamImport.ImportStreamReport | include/qbrain/accounting/stream_usage.hpp:216-230 | The import loop over stream records equals the specification |
| StreamImport.ReplayStream | include/qbrain/accounting/stream_usage.hpp:223 | A stream is replayed by the machine its format names |
| UsageImport.ImportIff | include/qbrain/accounting/provider_usage.hpp:100-168 | With valid rate cards, importing responses succeeds if and only if every record maps, no call id or response identity repeats, labels are admissible and the exact total fits; overflow is then the only failure; the yielded cost input reads as the mapped records and is already canonical |
| RecordMapping.MapsIff | include/qbrain/accounting/provider_usage.hpp:112-150 | Over the record's own members: it maps if and only if its labels are valid and match its card, and it is a failed call without a response, a failed call with an error response without usage, or an identified response of the declared kind at its end with usage that is missing or reads |
| RecordMapping.MapsTo | include/qbrain/accounting/provider_usage.hpp:150-156 | The call has the record's labels and in each bucket the value `anthropic_usage` or `openai_usage` gives for the record's format, all unknown without usage; the audit names format, provider and response, and is complete exactly when every bucket is known |
| RecordMapping.ImportedIff | include/qbrain/accounting/provider_usage.hpp:100-161 | Over the whole input: an import succeeds if and only if there are at most 128 records, the rate cards read, every record maps under valid labels, no call id and no answer repeats, and the exact cost fits in 64 bits |
| RecordMapping.ImportHolds | include/qbrain/accounting/provider_usage.hpp:157-167 | An import yields one call and one audit for each record, in call-id order, and is complete exactly when every bucket of every call is known |
| UsageImport.RunIff | include/qbrain/accounting/provider_usage.hpp:112-157 | The record loop succeeds if and only if all records map with distinct call ids and response identities, and then holds exactly one call per record |
| UsageImport.StepMaps | include/qbrain/accounting/provider_usage.hpp:112-157 | What a record maps to depends on the record and the rate cards only; the loop state adds nothing but the two uniqueness checks |
| UsageImport.MappedReads | include/qbrain/accounting/provider_usage.hpp:151-161 | A mapped call can be stopped in the cost report only by the record's own stage, attempt or outcome, never by its usage |
| UsageImport.ImportReport | include/qbrain/accounting/provider_usage.hpp:100-168 | The whole import equals the specification |
| UsageImport.ImportRecords | include/qbrain/accounting/provider_usage.hpp:112-157 | The record loop equals the step-by-step specification |
| CostReports.OverflowIsExact | include/qbrain/accounting/token_cost.hpp:110-130 | A validated input fails with `cost_overflow` if and only if the unbounded sum of tokens times price over its calls exceeds 2^64-1; otherwise the printed total is digits, a point and twelve digits that denote exactly that sum |
| CostReports.LedgerReadsIff | include/qbrain/accounting/token_cost.hpp:90-107 | An input is read if and only if schema, currency, counts, labels, prices, attempts and tokens are within their limits and no id repeats |
| CostReports.LedgerHolds | include/qbrain/accounting/token_cost.hpp:97-107 | The ledger read holds exactly the listed cards and calls member by member: each price is the number its own text spells, each bucket its own count |
| CostReports.RowsAreExact | include/qbrain/accounting/token_cost.hpp:110-129 | There is one row for each call, in call-id order; bucket by bucket it shows the call's tokens, the price on the card of the call's rate id, and tokens times price; a component has a cost exactly when its tokens are known and are zero or priced, and otherwise says what is missing; the subtotal denotes the sum of the printed component costs and the gaps are the components without one |
| CostReports.GroupsAreExact | include/qbrain/accounting/token_cost.hpp:130-136 | Stages and rate cards appear once each, in key order, with the exact totals of exactly their own calls and their own card; the summary is complete, with an estimate, if and only if every component of every call could be priced |
| CostReports.ReportConserves | include/qbrain/accounting/token_cost.hpp:110-136 | Every printed amount is legible, every summary has an estimate exactly when nothing in it is unknown, and calls, failures, unknown outcomes, retries, known cost, unknown components and per-bucket tokens, as printed over stages, over rate cards and over rows, each equal the printed summary |
| CostReports.MakeReport | include/qbrain/accounting/token_cost.hpp:90-142 | Reading and pricing an input yields the exact report or the first error |
| CostReports.LoadRates | include/qbrain/accounting/token_cost.hpp:98-100 | The rate loop equals the specification |
| CostReports.LoadPrices | include/qbrain/accounting/token_cost.hpp:60-65 | The four prices of a card are parsed in bucket order |
| CostReports.LoadPrice | include/qbrain/accounting/token_cost.hpp:45-58 | An absent price stays unknown, a present one is parsed |
| CostReports.LoadCalls | include/qbrain/accounting/token_cost.hpp:102-107 | The call loop equals the specification |
| TokenCost.PriceLedger | include/qbrain/accounting/token_cost.hpp:108-136 | Pricing in checked arithmetic gives the report of exact arithmetic, and fails only when the exact total does not fit |
| TokenCost.PriceCalls | include/qbrain/accounting/token_cost.hpp:111-131 | The call loop keeps the total and both groupings equal to exact sums, and fails if and only if the whole does not fit |
| TokenCost.PriceCall | include/qbrain/accounting/token_cost.hpp:112-126 | One call's four buckets are priced exactly or overflow is reported |
| TokenCost.IncludeEverywhere | include/qbrain/accounting/token_cost.hpp:130 | A call is added to the total, its stage and its rate card together; the groups fit whenever the total does |
| TokenCost.IncludeInGroups | include/qbrain/accounting/token_cost.hpp:130 | The call enters its stage and its rate card and no other group; both fit because they are parts of a total that does |
| TokenCost.IncludeCall | include/qbrain/accounting/token_cost.hpp:130 | A group's total follows the exact total of its class |
| TokenCost.IncludeIn | include/qbrain/accounting/token_cost.hpp:130 | Only the call's own group changes, starting from zero |
| TokenCost.OpenBooks | include/qbrain/accounting/token_cost.hpp:110 | Fresh totals hold the exact sums over no calls |
| TokenCost.PrintGroups | include/qbrain/accounting/token_cost.hpp:131-136 | Groups are printed in key order |
| TokenCost.Aggregate.constructor | include/qbrain/accounting/token_cost.hpp:73-75 | A new aggregate is zero |
| TokenCost.Aggregate.Include | include/qbrain/accounting/token_cost.hpp:76-80 | Adding a call adds exactly its part, or reports an overflow exactly when the sum does not fit |
| TokenCost.Aggregate.IncludeTokens | include/qbrain/accounting/token_cost.hpp:79 | Known tokens are added and unknown ones counted, bucket by bucket |
| TokenCost.OrderDoesNotMatter | include/qbrain/accounting/token_cost.hpp:97-107 | Permuting rates and calls changes neither the ledger nor the report |
| TokenCost.CanonicalReports | include/qbrain/accounting/token_cost.hpp:108-113 | The canonical form reads back as the same ledger, and reporting it again gives the same report |
| TokenCost.ReadAllIs | include/qbrain/accounting/token_cost.hpp:98-107 | Reading succeeds if and only if every item reads and no id repeats, and the map then holds exactly the items |
| TokenCost.ReadIsWellFormed | include/qbrain/accounting/token_cost.hpp:90-107 | Reading only ever yields ledgers within all numeric and label limits |
| TokenCost.GroupFits | include/qbrain/accounting/token_cost.hpp:130 | A group never totals more than the whole, field by field, and so fits whenever the whole does |
| Totals.ClassesAddUp | include/qbrain/accounting/token_cost.hpp:130 | Totals by class add up to the overall total |
| Decimals.ParseRate | include/qbrain/accounting/token_cost.hpp:45-58 | The rate parser accepts the specified spellings, computes their value at six decimals and enforces the range; its checked arithmetic never trips |
| Decimals.ReadDigits | include/qbrain/accounting/token_cost.hpp:53-55 | The digit loop around the point computes the digits' value without overflow |
| Decimals.RateRoundTrip | include/qbrain/accounting/token_cost.hpp:41-58 | Every rate up to 10^12 reads back from its printed form |
| Decimals.RateIff | include/qbrain/accounting/token_cost.hpp:45-58 | A rate is accepted if and only if it is one to seven whole digits without a leading zero and up to six decimals, and it reads as the number these denote |
| Decimals.SpellingsNormalize | include/qbrain/accounting/token_cost.hpp:45-70 | Two accepted spellings print alike if and only if they denote the same number |
| Decimals.DecimalInjective | include/qbrain/accounting/token_cost.hpp:41-44 | Different amounts print differently |
| Decimals.DecimalDenotes | include/qbrain/accounting/token_cost.hpp:41-44 | A printed amount is its whole part, a point and a fixed number of digits, whose value at that scale is the amount |
| Decimals.DenotesIff | include/qbrain/accounting/token_cost.hpp:41-44 | A text denotes at most one number at a scale, and exactly when the amount reader of the theorems yields it |
| Decimals.Add | include/qbrain/accounting/token_cost.hpp:26 | The checked addition fails exactly when the sum exceeds 2^64-1 |
| Decimals.Multiply | include/qbrain/accounting/token_cost.hpp:27 | The division guard fails exactly when the product exceeds 2^64-1 |
| Decimals.UnitsRoundTrip | include/qbrain/accounting/cost_comparison.hpp:20-29 | Every 64-bit amount reads back from its 12-decimal form without tripping the checked arithmetic |
| Decimals.ReadUnits | include/qbrain/accounting/cost_comparison.hpp:20-29 | The reading loop equals the specification |
| Changes.DifferenceIsExact | include/qbrain/accounting/cost_comparison.hpp:31-47 | The printed delta is a sign and a twelve-decimal amount that denote candidate minus baseline; the relative change is (b-a)/a in lowest terms, absent exactly for a zero baseline |
| Changes.LowestTerms | include/qbrain/accounting/cost_comparison.hpp:42-44 | Dividing by the greatest common divisor leaves coprime parts |
| Changes.MakeChange | include/qbrain/accounting/cost_comparison.hpp:31-47 | The change of two summaries equals the specification |
| CostComparison.TakeCalls | include/qbrain/accounting/cost_comparison.hpp:64-82 | The ownership loop equals the specification |
| CostComparison.GatherCalls | include/qbrain/accounting/cost_comparison.hpp:102 | Calls are indexed by id |
| CostComparison.Summarize | include/qbrain/accounting/cost_comparison.hpp:84-89 | The summary of some calls is that of their own report |
| CostComparison.FindPrimary | include/qbrain/accounting/cost_comparison.hpp:121-130 | The loop collects the identities and price schedules of exactly the main calls |
| CostComparison.LoadArm | include/qbrain/accounting/cost_comparison.hpp:91-132 | Reading an arm equals the specification |
| CostComparison.MakePairs | include/qbrain/accounting/cost_comparison.hpp:169-184 | The pairing loop equals the specification |
| CostComparison.CompareArms | include/qbrain/accounting/cost_comparison.hpp:142-203 | The whole comparison equals the specification |
| ComparisonLaws.ArmIsPartition | include/qbrain/accounting/cost_comparison.hpp:64-120 | An accepted arm keeps the label, conditions and completeness flag of its input; every call belongs to exactly one task or to the shared remainder, each task holds a main call and the remainder none, and each shows the exact totals of its own calls |
| ArmAcceptance.ArmAcceptedIff | include/qbrain/accounting/cost_comparison.hpp:64-132 | An arm is accepted if and only if its label and digests are valid, its ledger is priced in the common currency, the task count is within limits, and the call lists name known calls, repeat none within or across lists, have a main call in each task and none in the shared list, and cover every call; pricing the parts cannot fail |
| ComparisonLaws.SubsetNeverOverflows | include/qbrain/accounting/cost_comparison.hpp:84-89 | Once the full ledger has been priced, pricing any part of it succeeds with that part's exact totals |
| Telescoping.ComparisonExplained | include/qbrain/accounting/cost_comparison.hpp:142-196 | An accepted comparison pairs the exact totals by task and by stage, with zero for a stage an arm lacks, and every change is the one between those totals |
| ComparisonTheorems.DeltasTelescope | include/qbrain/accounting/cost_comparison.hpp:150-196 | When eligible, the deltas by task plus the shared delta, and the deltas by stage, each sum to the total delta, whose printed twelve-decimal text denotes the exact difference of the ledgers |
| ComparisonInputs.NoPartialComparison | include/qbrain/accounting/cost_comparison.hpp:156-196 | Over the two inputs: eligible if and only if both declare complete ledgers, every component of every call has a cost, and all main calls of both share one card; then nothing compared has an unknown component; otherwise every change at every level is null and each reason stands for its own condition |
| ComparisonInputs.ArmHolds | include/qbrain/accounting/cost_comparison.hpp:91-119 | An accepted arm holds exactly the listed tasks with their digests and calls, and the listed shared calls |
| ComparisonInputs.ComparedIff | include/qbrain/accounting/cost_comparison.hpp:142-203 | An input is compared if and only if both arms are acceptable in its currency, their labels differ, and their conditions, task ids and task digests are the same; reading printed amounts back and forming changes cannot fail |
| ComparisonTheorems.SwapNegates | include/qbrain/accounting/cost_comparison.hpp:142-196 | Swapping the arms is accepted with the same verdict and reasons, exchanges the summaries and negates every delta |
| Batching.BatchesPartition | tools/acceptance/model_cost.py:329-334 | The flush loop loses, repeats and reorders no record, every batch of several records is within the cap, and no batch could have taken the next record |
| Batching.AnalysisIff | tools/acceptance/model_cost.py:320-336 | A batched run succeeds if and only if each batch is importable on its own, call ids are distinct overall and the exact total fits; its report is that of the records as they came |
| Batching.BatchedIffUnbatched | tools/acceptance/model_cost.py:320-336 | When response identities are distinct and no single record exceeds the cap, the batched run succeeds if and only if the unbatched import does, and yields the same calls and the same report |
| Batching.ValidatedRunBatches | tools/acceptance/model_cost.py:293-336 | The same for each arm of a run whose rows passed the identity check over both arms |
| Batching.ValidateIff | tools/acceptance/model_cost.py:229-231 | The identity check passes if and only if no two responses of the run share an identity |
| Batching.ValidateRun | tools/acceptance/model_cost.py:229-231 | The loop over the rows that remembers identities equals the specification |
| Batching.GroupRecords | tools/acceptance/model_cost.py:307-317 | The loop that collects the attempted records of an arm, in row order, equals the specification |
| Batching.GroupIs | tools/acceptance/model_cost.py:307-317 | An arm's group holds the record of every attempted row of that arm, once, in run order, and nothing else |
| Batching.AnalyzeArm | tools/acceptance/model_cost.py:321-336 | The batching loop with its flushes, the sort and the final report equal the specification |
| Batching.FlushBatch | tools/acceptance/model_cost.py:324-328 | A non-empty batch within the cap is imported and its calls appended |
| Batching.SortOrders | tools/acceptance/model_cost.py:335 | The collected calls end up in call-id order |
| Batching.SortKeeps | tools/acceptance/model_cost.py:335 | Sorting keeps every call exactly as often as before |
| Evaluation.TransitionsConserve | tools/acceptance/model_evaluation.py:37-44 | Each of the four counts is how often rows of its kind occur, so every row is counted once, and improved minus regressed is the difference in correct counts |
| Evaluation.CountTransitions | tools/acceptance/model_evaluation.py:37-44 | The counting loop equals the specification |
| Evaluation.Evaluate | tools/acceptance/model_evaluation.py:119-121 | Grounded marks are compared over all cases and resolved marks over the answerable ones |
| Evaluation.DecidesDominance | tools/acceptance/model_evaluation.py:92-103 | The count-based rule declares the candidate (baseline) dominant if and only if it is at least as good on every case, costs no more and is strictly better somewhere; no change means identical outcomes |
| Evaluation.DominanceIsStrictOrder | tools/acceptance/model_evaluation.py:92-103 | No arm beats itself, and wins chain |
| Evaluation.SwapOpposes | tools/acceptance/model_evaluation.py:92-103 | Swapping the arms swaps the verdict, and both never dominate |
| Evaluation.DecisionIsDominance | tools/acceptance/model_evaluation.py:79-103 | Case by case over a real comparison: the run is not comparable exactly when incomplete or ineligible, for exactly those reasons; otherwise an arm wins if and only if it loses no grounded or resolved answer, costs no more by the exact ledger totals, and gains an answer or costs less |
| Evaluation.UndecidedWithout | tools/acceptance/model_evaluation.py:82-91 | Without a comparison the run is never decided, and says so |
| SearchArguments.SpellingsParse | include/qbrain/cli/search_arguments.hpp:30-92 | Any order of well-formed option groups and words, no option twice, with or without a literal tail, parses to exactly what it means |
| SearchArguments.AcceptedIsSpelling | include/qbrain/cli/search_arguments.hpp:30-92 | Every accepted command line is such a spelling and parses to its meaning |
| SearchArguments.OrderIsFree | include/qbrain/cli/search_arguments.hpp:37-68 | Reordering groups among the words changes neither result nor error |
| SearchArguments.TailIsData | include/qbrain/cli/search_arguments.hpp:39-46 | What follows a bare `--` never changes a value or a flag |
| SearchArguments.JoinIs | include/qbrain/cli/search_arguments.hpp:42-44 | Words are joined by single spaces, and leading empty words leave no trace |
| SearchArguments.LimitIff | include/qbrain/cli/search_arguments.hpp:75-87 | A non-empty limit is accepted if and only if it is an optionally signed digit string that fits a 32-bit int |
| SearchArguments.ParseArguments | include/qbrain/cli/search_arguments.hpp:30-92 | The parsing loop and the final checks equal the specification |
| SearchArguments.TrimText | src/qbrain/util/string_util.cpp:7-12 | The two trimming loops equal the specification |
| SearchArguments.TrimIs | src/qbrain/util/string_util.cpp:7-12 | Trimming removes exactly the surrounding white space, and leaves nothing exactly when all is blank |

## Left out

- JSON text parsing and UTF-8 validation: the source of `util::parse_unique_json` is not part of this model. Parsing an event's text is a parameter that yields a value or its own error, UTF-8 validity a parameter predicate, and values have distinct member names by construction.
- JSON shape checks of cost, comparison and import records (`exact`, string and array types): inputs are typed records; every check on values is kept.
- Serialized-size limits: a response's size limit is the parameter `fits` and a batch's encoded size the parameter `size`; the limits on normalized inputs, ledgers and outputs are not modelled, so the results hold up to those limits.
- SHA-256 fingerprints: the canonical value (`Report.canonical`, the identity behind a response reference) stands for its digest, and a comparison's binding digest is not modelled.
- Notes, scope flags, disclaimers and stream observations of the reports, which are constants or copies.
- Standard input loops, error printing and command dispatch.
- Native process invocation, files and run directories around the batching and evaluation tools, and the building of records from responses; `planned` is a parameter.
- Rates of change and cost per resolved case of the evaluation, which are quotients of modelled counts and amounts.
- UsageHistory.Monotonic: when one snapshot both decreases a counter and holds an out-of-range integer, the code reports whichever its member order meets first; the method allows either, and the specification reports the range error. After the usage check no integer is out of range, so the replays cannot tell.
- TokenCost.Aggregate.Include: on an overflow the fields already updated are not described; the report is abandoned there.
- Bytes are modelled as characters, paths as sequences of member names; ordered maps are maps visited in sorted key order (`Ordered`).
