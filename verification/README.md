# Context compaction and the event store, verified

This project models two parts of the agent crate in Dafny and proves what they promise.

**The context-compaction engine** (`crates/rcode-agent/src/context.rs`). A model request carries a
transcript that must fit a token window. The engine splits the transcript into indivisible units, chooses
a range of old units, has it summarized by a model that may answer anything, or shortens old tool results
without a model, or, as a last resort, drops the oldest units. Every change is written down as a record
that must rebuild exactly the same transcript after a crash. A small state machine, the usage anchor,
replaces most of the token estimate by what the provider reported, as long as the transcript still begins
with the messages it reported on.

**The transactional event store of the collaboration tests**
(`crates/rcode-agent/src/collaboration_tests.rs`): an append-only log with idempotent batches, an atomic
checkpoint and injected faults, and beside it the execution port that starts each Turn once.

## How it is organised

Each loop of the program is a method with a loop, proved equal to a recursive function; the laws are lemmas
about those functions. `ContextManager`, `SummaryUsageAccumulator`, `RecordingStore` and
`RecordingExecution` are classes that update their fields in place.

| module | subject |
|---|---|
| Words, Text, Sums, Wrappers | saturating words, UTF-8 lengths and trimming, sums over sequences |
| Transcript, Units, Pairing, Rewriting | messages and their token estimate, unit parsing and range validation, tool texts |
| Estimates, Exchanges | the estimate in terms of the texts sent; units and identifiers in terms of blocks |
| Projection, Micro, MicroGains, Abridging | shortening tool results: the plan, its effect, the tokens it saves, what the texts still show |
| Usage, Errors | usage of summary calls; records, outcomes and nested errors |
| Planning, Mechanical | choosing the range to summarize; dropping the oldest units |
| Packing, Chunking, ChunkLaws | greedy chunking of the source and of generated summaries |
| Budget, Reserves | output reserve, triggers, admission, the search for the summary's output size |
| Summarizer, Tracing, Accounting | the bounded recursion around the summarizer, what it is sent, and its usage |
| Replay, Preservation | applying records; what no record can change |
| Compacting, CompactingLaws, Outcomes, Manager | one compaction, its guarantees, what its record and calls say, and the object that performs it |
| RecentWindow | what a whole compaction leaves of the most recent units |
| Sessions, Recovery | the steps of a session and the manager that performs them; whole runs |
| Inputs, RunInputs | concrete inputs and runs at which the program does less than its comments say |
| EventStore, Replies, Execution | the store, its replies, and the execution port of the collaboration tests |
| ReadHints, LastReads | the list of files to read again after a summary |

The outside world is a parameter: token estimators, the encoded cost of a message, the digest, the wording
of inserted messages (`Ports`), and the answers of the summarizer and the cancellation flag, one for each
tick (`World`). Lemmas hold for every such world; where a law needs the built-in estimator, absence of
saturation, or a collision-free digest, its precondition says so. A string is a sequence of Unicode scalar
values counted in UTF-8 bytes.

## Where the program's comments or intentions are stronger than its code

- A micro record that does not reduce the estimate is called unreachable (line 1354 of `context.rs`). It
  is reached, and then the whole compaction fails before any summarizer call:
  `Inputs.OldResultStopsCompaction` gives the input, `CompactStopsExactlyWhen` the exact condition.
- The search for the summary's output size (line 2084) does not end when its ceiling is the largest 32-bit
  number and that number fits: `SearchEndsExactlyWhen`. `Inputs.SearchNeverEnds` gives a valid policy and a
  window that lead there. The methods that call it require the other case.
- With a plugged-in estimator, admission and the fit of a request disagree for an empty window and an
  estimate of one, because the budget is raised to one token: `AdmissionAgreesExactlyWhen`, and
  `Inputs.AdmissionDisagrees` for such an estimator. With the built-in one they always agree:
  `BuiltInAdmissionAgrees`.
- The completeness test of a tool exchange (lines 2969-2983) accepts results that do not pair with the
  calls one to one when identifiers repeat: `MispairedExample`, `CompletePairsExactlyWhen`.
- The usage of summary calls is not always reported exactly once. It is lost when the last reply is an
  error of a kind that usage is not attached to (`Inputs.UsageIsLost`), and counted twice when the last
  reply wraps the usage it reports as well (`Inputs.UsageIsCountedTwice`). `CompactReportsExactlyWhen`
  says for every summarizer when the account is right; it always is where the summarizer's errors are of a
  kind that usage is attached to (`WrappableRepliesAreReported`), and any other error is miscounted after
  some call (`Inputs.UnwrappableIsMiscounted`).
- A summarizer that answers with the failure which only the manager should report is believed
  (`Inputs.ForgedFailureIsBelieved`). `ClearsExactlyUnlessForged` says for every summarizer that the anchor
  is wrong in exactly these compactions. Laws about runs assume `RunUnforged`: no compaction they
  perform is forged. That follows where no reply is that failure (`HonestRunsAreUnforged`).
- A compaction cancelled after its projection has its record persisted but not adopted (lines 1671-1692 of
  `crates/rcode-agent/src/runner.rs`), and so has one whose second record the journal refuses or whose
  failure cannot be reported. Recovery then gives another transcript than the live one:
  `RecoveryIsLiveExactlyWhen` has these steps as its exact condition, `RunInputs.CancelledRunDiverges` a run.
- A policy promises to keep its most recent units verbatim (line 810 of `context.rs`). A full compaction and
  a truncation do; a projection protects the last three rounds instead. So the promise holds with at most
  three recent units and history to compress (`CompactKeepsThreeRecent`), otherwise exactly where the plan
  has no target in the window (`CompactKeepsRecentExactlyWhen`), and fails with four at
  `RunInputs.FourRecentAreLost`.

## Model

| member | source | states |
|---|---|---|
| Transcript.ComputeRequestEstimate | crates/rcode-agent/src/context.rs:770-784 | the saturating estimate of a request is the saturation of one unbounded sum over messages, tools, structured output and overhead, so partial saturation never matters |
| Transcript.ComputeMessagesEstimate | crates/rcode-agent/src/context.rs:3108-3141 | the block-by-block loop computes the saturated sum of the per-message weights, references included as the last wire block |
| Words.PercentOfIsAShare | crates/rcode-agent/src/context.rs:3058-3063 | a share of at most 100 percent never exceeds the whole, even where the product saturates |
| Estimates.EstimateCountsTexts | crates/rcode-agent/src/context.rs:770-784 | whatever saturates on the way, the estimate is sixteen, four for each message, two thousand for each encoded image, and a quarter of the bytes, rounded up, of each text that is sent: call names and arguments, results, references, reasoning with its continuation and not without one, tools and schema |
| Text.TrimCuts | crates/rcode-agent/src/context.rs:1800-1822 | trimming takes whitespace off both ends, all of it, and nothing else |
| Units.ComputeTranscriptUnits | crates/rcode-agent/src/context.rs:2949-2996 | the parsing loop returns the units of the recursive definition; `Exchanges` says on blocks which messages they join and which are protected |
| Exchanges.IdsAreListed | crates/rcode-agent/src/context.rs:3025-3055 | the identifiers of calls and of results stand at the ascending positions of exactly the blocks that bear them, wherever among other blocks those stand |
| Exchanges.CallIdsAre | crates/rcode-agent/src/context.rs:3025-3040 | an identifier is one of the calls of a message if and only if an assistant wrote it and a call block bears it, as many times as there are such blocks |
| Exchanges.TogetherExactlyWhen | crates/rcode-agent/src/context.rs:2949-2996 | two messages lie in one unit if and only if the earlier is, or follows, an assistant message with any call block, with nothing but tool messages after that up to the later |
| Exchanges.ProtectedExactlyWhen | crates/rcode-agent/src/context.rs:2949-2996 | a unit is protected if and only if it is an instruction, a tool message that follows no call, or an exchange whose call and result blocks differ in number or in their identifiers |
| Units.UnitsTile | crates/rcode-agent/src/context.rs:2949-2996 | units are not empty, adjacent, and together cover the whole transcript |
| Units.ReplacedUnits | crates/rcode-agent/src/context.rs:2949-2996 | replacing a run of whole units by one user message leaves the units before as they were, puts one unprotected singleton, and shifts the units after |
| Units.ValidateReplacementRange | crates/rcode-agent/src/context.rs:2999-3022 | the validating loop decides the recursive acceptance predicate |
| Units.AcceptsExactlyOpenRuns | crates/rcode-agent/src/context.rs:2999-3022 | a non-empty range is accepted if and only if it is a union of consecutive unprotected units |
| Pairing.CompletePairsExactlyWhen | crates/rcode-agent/src/context.rs:2969-2983 | the completeness test on identifiers implies a one-to-one pairing of calls and results for every list of results exactly when the call identifiers are distinct or all equal |
| Pairing.PairedIsComplete | crates/rcode-agent/src/context.rs:2969-2983 | every exchange whose results are a permutation of its calls passes the completeness test |
| Pairing.ExchangeUnits | crates/rcode-agent/src/context.rs:2949-2996 | a call message and the result message after it are one unit, protected exactly if their identifiers fail the completeness test |
| Pairing.MispairedExample | crates/rcode-agent/src/context.rs:2969-2983 | a transcript whose calls a, a, b are answered a, b, b is one unit open to replacement although calls and results do not pair |
| Rewriting.SameShapeUnits | crates/rcode-agent/src/context.rs:2913-2928 | overwriting tool texts moves no unit boundary and changes no completeness verdict |
| Rewriting.SameTextsSameTranscript | crates/rcode-agent/src/context.rs:2913-2928 | a transcript is determined by its shape and its tool texts |
| Projection.CompactedIsStable | crates/rcode-agent/src/context.rs:2741-2790 | compacting a compacted text changes nothing, because the marker holds the sentinel |
| Projection.SavedIsOmittedLessMarker | crates/rcode-agent/src/context.rs:2836-2852 | the bytes saved are exactly the omitted bytes less the marker, whose length is 79 bytes and the decimal count |
| Projection.AsciiGainsFrom532 | crates/rcode-agent/src/context.rs:2836-2852 | one-byte texts longer than the minimum gain from projection exactly from 532 characters on |
| Abridging.ShortenAbridges | crates/rcode-agent/src/context.rs:2836-2852 | the shortened text begins with the kept head and ends with the kept tail, and the number read from the marker between them is that of the characters left out |
| Abridging.ForcedExactlyWhen | crates/rcode-agent/src/context.rs:2231-2250 | a unit is forced exactly when its longest tool text has more than 466 characters and some halving of the first length, not below 100, fits; the first such halving is taken, every longer text not cut before is abridged to it at both ends, and nothing else changes |
| Micro.ComputeStaleWindowStart | crates/rcode-agent/src/context.rs:2820-2831 | the backward scan finds the start of the protected window |
| Micro.StaleWindowIsThreeRounds | crates/rcode-agent/src/context.rs:2820-2831 | the window starts at an assistant message with exactly three assistant messages from it on; without a start there are fewer than three |
| Micro.ComputeMicroPlan | crates/rcode-agent/src/context.rs:2741-2790 | the three nested loops return the plan of the recursive definition, with saturated savings; `Abridging.PlanAbridges` says what its texts are |
| Micro.CandidatesAre | crates/rcode-agent/src/context.rs:2741-2790 | a projection is planned exactly for the eligible tool-result texts in scope, with their projected text |
| Micro.CandidatesAscend | crates/rcode-agent/src/context.rs:2741-2790 | targets are distinct and in lexicographic order |
| Micro.OverwriteProjections | crates/rcode-agent/src/context.rs:2913-2928 | the overwriting loop applies the projections one after another, skipping what holds no text |
| Micro.PlanCompactsTexts | crates/rcode-agent/src/context.rs:2913-2928 | overwriting the planned slots one by one equals compacting every tool text in scope at once |
| Abridging.PlanAbridges | crates/rcode-agent/src/context.rs:2741-2790 | each planned projection abridges, to 350 and 100 characters, a tool text before the last three rounds that is long, not cut before and worth it; and each such text is addressed |
| Abridging.PlanCutsTexts | crates/rcode-agent/src/context.rs:2913-2928 | applying a plan abridges every such text of the transcript and changes nothing else |
| Abridging.PlanExactlyWhen | crates/rcode-agent/src/context.rs:2741-2790 | there is a plan if and only if there is such a text |
| MicroGains.SavedTokensAre | crates/rcode-agent/src/context.rs:2741-2790 | the announced saving is a quarter, rounded down, of the bytes by which the planned texts get shorter |
| MicroGains.ReplanFindsNothing | crates/rcode-agent/src/context.rs:2741-2790 | planning again after applying a plan, with the same relaxation, finds nothing |
| MicroGains.PlanIsLocal | crates/rcode-agent/src/context.rs:2741-2790 | only tool-result texts before the protected window change; every other message stays equal |
| MicroGains.AppliedTokens | crates/rcode-agent/src/context.rs:2741-2790 | without saturation the estimate falls by exactly the sum of the per-text token drops |
| MicroGains.MicroReduction | crates/rcode-agent/src/context.rs:1342-1374 | the estimate falls by at least the announced saving less three quarters of a token for each projection, and never rises |
| MicroGains.MicroReducesExactlyWhen | crates/rcode-agent/src/context.rs:2836-2852 | applying a plan lowers the token sum if and only if some selected text saves more bytes than its last, partly filled token holds |
| MicroGains.FourBytesReduce | crates/rcode-agent/src/context.rs:1342-1374 | four bytes saved in one text are enough for a strict reduction |
| MicroGains.PlanWithoutReduction | crates/rcode-agent/src/context.rs:2741-2790 | one old result of 532 one-byte characters is planned although its projection leaves the token sum where it was |
| Usage.SummaryUsageAccumulator.Push | crates/rcode-agent/src/context.rs:946-956 | the accumulator holds the in-order merge of everything pushed |
| Usage.MergeAssociative | crates/rcode-agent/src/context.rs:2323-2360 | merging usages is associative |
| Usage.MergeAllConcat | crates/rcode-agent/src/context.rs:2323-2360 | merging a run of calls in parts gives the same usage as merging them one by one |
| Usage.MergedDetails | crates/rcode-agent/src/context.rs:2323-2360 | a merged usage has the stop reason of the last report, the last response and model that any report states, the time of all, and the duration of an answer only where there is one report |
| Usage.MergedCounter | crates/rcode-agent/src/context.rs:2344-2360 | a merged counter is known exactly when every report states it, and then it is the saturated sum: none is invented or lost |
| Errors.AttachIsTransparent | crates/rcode-agent/src/context.rs:2363-2460 | attaching a usage changes neither the cancelled verdict nor the error left after stripping, for every nested error |
| Errors.StripIsComplete | crates/rcode-agent/src/context.rs:2403-2460 | stripping keeps the verdict, removes every usage, and is idempotent |
| Errors.AttachReports | crates/rcode-agent/src/context.rs:2363-2440 | which usage is reported after attaching: the attached one exactly when the error is wrappable or there is none; merged into a usage already wrapped; the inner one of a failed full compaction |
| Planning.ComputePlan | crates/rcode-agent/src/context.rs:1876-1942 | the two nested loops return the plan of the recursive definition |
| Planning.PlanFailsExactlyWhen | crates/rcode-agent/src/context.rs:2935-2939 | planning succeeds if and only if there is compressible history |
| Planning.RefusalCounts | crates/rcode-agent/src/context.rs:1925-1942 | planning is refused for want of any unit, or with the estimate, the budget, and the numbers of protected and of other units |
| Planning.PlanIsChosen | crates/rcode-agent/src/context.rs:1876-1942 | the plan is the shortest prefix of the earliest run that reaches the desired reduction, else the whole run of largest estimate, earliest on ties; it lies before the recent window and the validator accepts it |
| Packing.PackFailsExactlyWhen | crates/rcode-agent/src/context.rs:2149-2228 | greedy packing that is not cancelled fails if and only if some item fits neither alone nor forced |
| Packing.GreedyIsMinimal | crates/rcode-agent/src/context.rs:2149-2228 | without forced items, no cover by fitting pieces has fewer pieces than the greedy one |
| Chunking.SummaryRequestFits | crates/rcode-agent/src/context.rs:2137-2146 | the fitting test is a bound on the constant request cost plus the sum of message costs, with the output beside it |
| Chunking.ComputeForcedProjection | crates/rcode-agent/src/context.rs:2231-2250 | halving the kept characters finds the first projection of a unit that fits, or none |
| Chunking.ComputeSplit | crates/rcode-agent/src/context.rs:2149-2228 | the packing loop over units returns the chunks of the functional packing |
| Chunking.ComputeGroups | crates/rcode-agent/src/context.rs:2255-2300 | the packing loop over summaries returns the groups of the functional packing |
| ChunkLaws.PlannedUnits | crates/rcode-agent/src/context.rs:2149-2165 | the units inside a planned range are exactly the planned run, and form a chain over the range |
| ChunkLaws.ChunksAreSound | crates/rcode-agent/src/context.rs:2149-2252 | chunks cover the run in order without gap or overlap, each is sendable, and only a unit too large alone is projected, keeping its shape |
| ChunkLaws.PiecesRestoreRange | crates/rcode-agent/src/context.rs:2149-2228 | what the chunks stand for, joined, is the planned range |
| ChunkLaws.EveryChunkFits | crates/rcode-agent/src/context.rs:2149-2228 | every chunk is non-empty and fits its budget, and there are at most as many as units |
| ChunkLaws.ChunkingFailsExactlyWhen | crates/rcode-agent/src/context.rs:2149-2252 | absent cancellation, splitting fails if and only if some unit fits neither as it is nor projected |
| ChunkLaws.ChunkingIsMinimal | crates/rcode-agent/src/context.rs:2149-2228 | without projection, no other split into fitting chunks has fewer of them |
| ChunkLaws.ChunkingStops | crates/rcode-agent/src/context.rs:2149-2228 | chunking looks at the signal once for each unit and fails when it is set, or with the size of a request for the first unit that fits neither as it is nor projected |
| ChunkLaws.GroupingIsMinimal | crates/rcode-agent/src/context.rs:2255-2300 | no division of the summaries into fitting groups has fewer of them |
| ChunkLaws.GroupingIsSound | crates/rcode-agent/src/context.rs:2255-2300 | groups of summaries are non-empty, fit, and joined give back the summaries in order |
| ChunkLaws.GroupingStops | crates/rcode-agent/src/context.rs:2255-2300 | grouping looks at the signal once for each summary and fails when it is set, or with the size of a request for the first summary that does not fit alone |
| ChunkLaws.GroupingFailsExactlyWhen | crates/rcode-agent/src/context.rs:2255-2300 | absent cancellation, grouping fails if and only if some single message alone does not fit |
| Reserves.FitsExactlyWhen | crates/rcode-agent/src/context.rs:1072-1084 | a request fits a window if and only if its estimate and its explicit output limit are within it; a limit above half of the window counts as half, and a request without one has the reserve of the policy |
| Reserves.AdmittedExactlyWhen | crates/rcode-agent/src/context.rs:1091-1122 | a request is admitted if and only if its estimate is within what that output leaves of the window, or the window is empty and the estimate is one |
| Reserves.BlockedReserve | crates/rcode-agent/src/context.rs:1105-1121 | a blocked request names what that output leaves of the window, what it takes, and by how much the estimate is above |
| Reserves.BlockedTools | crates/rcode-agent/src/context.rs:1105-1121 | of a blocked estimate the share of the tools is what their names, descriptions and schemas take, and the rest that of the messages |
| Reserves.TriggersExactlyWhen | crates/rcode-agent/src/context.rs:1127-1171 | the budget trigger fires if and only if the estimate has reached its percentage of what the output leaves; the predictive one if it has not but would with the expected growth fill that; either asks for the target percentage of it, and for at least one token |
| Reserves.SmallLimitIsHonoured | crates/rcode-agent/src/context.rs:1830-1848 | in a window of 8192 a request of 5000 tokens fits beside an explicit output of 2048, but not beside the default reserve of 4096 |
| Reserves.CeilingIsGreatest | crates/rcode-agent/src/context.rs:1623-1632 | the ceiling of a summary is the greatest output that the policy, the model and half of the window allow, or one |
| Reserves.SummaryOutputIsGreatest | crates/rcode-agent/src/context.rs:1635-1661 | a summary request gets the greatest allowed output that fits beside the template, and the rest of the window as input; there is none exactly for windows below 246 |
| Reserves.OneTestIsEnough | crates/rcode-agent/src/context.rs:2137-2146 | for every budget the engine makes, the second comparison of the fitting test follows from the first |
| Budget.UntriggeredFits | crates/rcode-agent/src/context.rs:1127-1137 | for a valid, enabled policy and a known window, an untriggered precompression implies that the request fits |
| Budget.TriggersEscalate | crates/rcode-agent/src/context.rs:1127-1171 | the two triggers never fire together, and with a larger estimate a fired trigger stays fired, at most turning from the predictive into the budget one, for the same target |
| Budget.TriggeredTargetBelowEstimate | crates/rcode-agent/src/context.rs:1127-1137 | a fired trigger asks for no more than the current estimate, unless that is zero |
| Budget.AdmissionAgreesExactlyWhen | crates/rcode-agent/src/context.rs:1091-1122 | without an anchor admission agrees with the fit of the request in all cases but an empty window with an estimate of one |
| Budget.BuiltInAdmissionAgrees | crates/rcode-agent/src/context.rs:1091-1122 | with the built-in estimator, which never estimates one, admission agrees with the fit of the request without exception |
| Inputs.AdmissionDisagrees | crates/rcode-agent/src/context.rs:1091-1122 | a plugged-in estimator of one token for each request: an empty window admits every request though none fits it |
| Budget.BlockedAddsUp | crates/rcode-agent/src/context.rs:1091-1122 | the breakdown of a blocked request adds up: window, budget, overflow, tools and messages |
| Budget.FindLargestFittingOutput | crates/rcode-agent/src/context.rs:2084-2106 | the saturating binary search returns the greatest output in the ceiling that fits beside the template, or none |
| Budget.SearchEndsExactlyWhen | crates/rcode-agent/src/context.rs:2084-2106 | the search ends if and only if its ceiling is below the 32-bit maximum or that maximum does not fit |
| Inputs.SearchNeverEnds | crates/rcode-agent/src/context.rs:2084-2106 | a valid policy whose summary output is the 32-bit maximum, and a window of four times that: the ceiling is reached and after any number of steps the search goes on |
| Budget.LargestIsLargest | crates/rcode-agent/src/context.rs:2084-2106 | an output within the ceiling fits if and only if it is at most the answer |
| Budget.SummaryInputIsHalf | crates/rcode-agent/src/context.rs:1623-1661 | whenever a summary budget exists, its input is at least half of the window and input and output fill it |
| Summarizer.SummarizeChunks | crates/rcode-agent/src/context.rs:1780-1827 | one call for each chunk, first failure ends it, as the functional definition that `Tracing` describes by its calls; the accumulator holds the merge of the calls made |
| Summarizer.ComputeSourceSummary | crates/rcode-agent/src/context.rs:1664-1770 | the bounded loop of layers returns the outcome of the recursive definition whose calls `Tracing.SummarizingReadsRange` describes |
| Tracing.SummarizingReadsRange | crates/rcode-agent/src/context.rs:1664-1827 | whatever the summarizer answers, the calls fall into at most nine layers: those of the first carry the planned range part by part in order, each part as it is unless it is a single unit too large for a request, which is abridged; those of a later layer carry the answers of the one before in order; a success carries all and returns the single answer of the last layer, and for want of progress it gives up only after a layer that made none |
| Tracing.RangeIsSentVerbatim | crates/rcode-agent/src/context.rs:1780-1827 | with an unknown window, or if every unit of the range fits by itself, the requests of the first layer of a success, joined, are the planned range |
| Tracing.RefineLooks | crates/rcode-agent/src/context.rs:1690-1727 | a recursion that returns a summary looked at the signal right before |
| Summarizer.CallsAreBounded | crates/rcode-agent/src/context.rs:1664-1770 | whatever the summarizer answers, at most nine calls are made for each planned unit |
| Summarizer.LayerCounts | crates/rcode-agent/src/context.rs:1725-1765 | no layer has more summaries than the one before it |
| Summarizer.NoOversizedRequest | crates/rcode-agent/src/context.rs:1664-1827 | with a known window no request beyond its budget is sent, in any layer |
| Summarizer.AcceptedSummaryFits | crates/rcode-agent/src/context.rs:1704-1727 | a summary returned under a known window makes the rebuilt request fit the strict input budget |
| Accounting.SummaryAccounts | crates/rcode-agent/src/context.rs:1664-1827 | for every summarizer: a failed summarizing is the last reply with the usage of all calls attached, or an own error that reports exactly that usage; a summary is returned only if no reply failed |
| Accounting.AttachKeepsExactlyWhen | crates/rcode-agent/src/context.rs:2363-2440 | attaching a usage to an error reports exactly that usage if and only if the error does not spoil it, spelled out for each kind of error |
| Accounting.AttachAlwaysKeepsExactlyWhen | crates/rcode-agent/src/context.rs:2363-2400 | the errors that report whatever is attached to them are exactly the wrappable kinds |
| Accounting.UnwrappableKinds | crates/rcode-agent/src/context.rs:2363-2400 | usage is not attached to exactly these kinds of error: what a policy, a request, a record or a projection is refused with, and the two that carry a nested error |
| Accounting.SummaryReportsExactlyWhen | crates/rcode-agent/src/context.rs:1664-1827 | a failed summarizing reports the usage of every call exactly once if and only if its last reply does not spoil the account |
| Replay.ComputeReplay | crates/rcode-agent/src/context.rs:292-351 | the overwriting loop of a replay, refusing any target that is not a tool text |
| Replay.SummaryReplays | crates/rcode-agent/src/context.rs:241-289 | a summary record made for a run of unprotected units rebuilds the live transcript |
| Replay.MicroReplays | crates/rcode-agent/src/context.rs:292-351 | a planner-made micro record rebuilds the live transcript |
| Replay.MechanicalReplays | crates/rcode-agent/src/context.rs:354-401 | a truncation record made for a run of unprotected units rebuilds the live transcript |
| Replay.MicroIdempotent | crates/rcode-agent/src/context.rs:292-351 | applying a planner-made micro record twice equals applying it once |
| Replay.TamperingIsRejected | crates/rcode-agent/src/context.rs:223-401 | with a collision-free digest a record applies only to the source it was made from, or where its targets already hold their texts |
| Replay.AppliedCountsAreTrue | crates/rcode-agent/src/context.rs:223-401 | a record that applies reduces, and its counts are true: a summary or truncation takes out and leaves as many messages as it says and puts its one message in their place, a projection leaves all; and it holds what its kind needs and nothing else |
| Replay.SummaryAppliesExactlyWhen | crates/rcode-agent/src/context.rs:241-289 | with a collision-free digest a summary record applies to another transcript if and only if that has the same length, the same range and the same range of open units |
| Preservation.SpliceReplaces | crates/rcode-agent/src/context.rs:218-222 | a replacement exchanges exactly the shapes of the replaced run for one user message |
| Preservation.AppliedRecordKeeps | crates/rcode-agent/src/context.rs:218-222 | any record that applies keeps every protected unit and removes whole exchanges only; survivors of a summary or truncation stay verbatim, those of a projection up to tool texts |
| Preservation.ProtectedDetermineInstructions | crates/rcode-agent/src/context.rs:2949-2996 | the protected units determine the System and Developer messages |
| Preservation.RunOfRecordsKeeps | crates/rcode-agent/src/context.rs:218-401 | over any run of records instructions and protected units stay, and the remaining exchanges are a subsequence of the original ones, verbatim where no record is a projection |
| Mechanical.ComputeTruncation | crates/rcode-agent/src/context.rs:1513-1590 | the two loops of the truncation return the outcome of the functional definition |
| Mechanical.IncrementIsEstimate | crates/rcode-agent/src/context.rs:1534-1562 | without saturation of the request, the incremental estimate equals the full estimate of the rebuilt request |
| Mechanical.TruncationIsExact | crates/rcode-agent/src/context.rs:1513-1614 | the dropped range is the shortest prefix of the first unprotected run that reaches the target; refusals say exactly why; a truncation that stops always reduces |
| Mechanical.TruncationReplays | crates/rcode-agent/src/context.rs:1513-1614 | for any estimator, replaying the truncation record rebuilds the live transcript |
| Mechanical.RecentUnitsSurvive | crates/rcode-agent/src/context.rs:1520-1526 | the last units of the recent window survive verbatim, as the last units of the new transcript |
| Outcomes.CompactionSummarizesItsRange | crates/rcode-agent/src/context.rs:1259-1496 | any compaction that asks the summarizer: old tool texts are abridged first; the calls read the range that the planner chooses for the reduction still wanted, before the recent units; a request with an empty summary there would fit; and a summary that lowers the estimate is recorded for that range and inserted there, unless the Turn is cancelled |
| Outcomes.SummaryRangeIsChosen | crates/rcode-agent/src/context.rs:1378-1403 | the range of a summary record is the run chosen for the reduction from the record's own estimate down to the target, with room for the largest summary, before the recent units |
| Outcomes.ProjectionAloneExactlyWhen | crates/rcode-agent/src/context.rs:1274-1282 | a compaction that is not cancelled succeeds by a projection alone if and only if a quarter of the bytes that abridging saves covers the wanted reduction and the estimate does fall; then every text worth it is abridged |
| Outcomes.SummaryNeedsCalls | crates/rcode-agent/src/context.rs:1378-1496 | no compaction ends with a summary that no call returned |
| Outcomes.TooLargeIsRefused | crates/rcode-agent/src/context.rs:1404-1420 | a range whose replacement by an empty summary would not fit is refused before any call, with the size of that request and its output, and the window |
| Outcomes.BillIsSumOfStatements | crates/rcode-agent/src/context.rs:1780-1827 | unless the last reply spoils the account, each counter reported is the saturated sum of what the calls state, a reply's own usage before that of its summary |
| Outcomes.CompactIsWellFormed | crates/rcode-agent/src/context.rs:1259-1496 | each record of a compaction names its trigger, and the form of the outcome follows from the kinds of its records |
| Outcomes.TruncationIsWellFormed | crates/rcode-agent/src/context.rs:1590-1614 | the record of a truncation names its trigger and kind |
| Outcomes.CancelledIsNotCompacted | crates/rcode-agent/src/context.rs:1259-1272 | a Turn cancelled already is not compacted and asks nobody; one cancelled when the summary is there does not use it |
| Compacting.PlannedRun | crates/rcode-agent/src/context.rs:1378-1403 | the plan of a compaction covers a run of unprotected units before the recent window that the validator accepts; `Outcomes.SummaryRangeIsChosen` says which |
| CompactingLaws.CompactReplays | crates/rcode-agent/src/context.rs:1259-1496 | applying the emitted records in order to the original transcript gives the live one; each record reduces, and a summary record begins where the projection before it ended |
| CompactingLaws.FailureReplays | crates/rcode-agent/src/context.rs:1288-1312 | a failure after an applied projection, unless forged, hands over a record that rebuilds the messages it hands over |
| CompactingLaws.CompactReportsExactlyWhen | crates/rcode-agent/src/context.rs:1259-1496 | for every summarizer, success or failure: a compaction reports the usage of all its calls, each once, if and only if the last reply does not spoil the account |
| CompactingLaws.WrappableRepliesAreReported | crates/rcode-agent/src/context.rs:1259-1496 | with a summarizer whose errors are all of a kind that usage is attached to, every compaction reports the usage of all its calls, each once |
| Inputs.UnwrappableIsMiscounted | crates/rcode-agent/src/context.rs:2363-2400 | for every error of another kind there is a call whose usage a compaction miscounts |
| Inputs.UsageIsLost | crates/rcode-agent/src/context.rs:1800-1822 | an error that usage is not attached to loses the five tokens its call spent |
| Inputs.UsageIsCountedTwice | crates/rcode-agent/src/context.rs:1800-1822 | an error that wraps the usage its call also reports has five tokens counted as ten |
| CompactingLaws.ClearsExactlyUnlessForged | crates/rcode-agent/src/context.rs:1285-1331 | for every summarizer: that the anchor is cleared if and only if the transcript is about to be rewritten holds exactly for the compactions that are not forged |
| CompactingLaws.RecordBuiltExactlyWhen | crates/rcode-agent/src/context.rs:1342-1374 | without saturation a micro record is built if and only if some planned text saves more bytes than its last, partly filled token holds |
| CompactingLaws.CompactStopsExactlyWhen | crates/rcode-agent/src/context.rs:1279-1287 | a compaction with a micro plan stops before any call, for want of reduction, if and only if no planned text saves a token |
| Inputs.OldResultStopsCompaction | crates/rcode-agent/src/context.rs:1353-1361 | one old result of 532 one-byte characters stops every compaction before any call although there is history to summarize; the branch called unreachable is reached |
| CompactingLaws.LateCheckNeverFires | crates/rcode-agent/src/context.rs:1450-1462 | a summary returned by the summarizer passes the later check against the strict budget |
| CompactingLaws.FullFits | crates/rcode-agent/src/context.rs:1445-1475 | a full compaction under a known window produces a request that fits it |
| CompactingLaws.MicroOnlyMeetsTarget | crates/rcode-agent/src/context.rs:1274-1282 | a projection alone ends at most the rounding loss less the output ceiling above the target |
| CompactingLaws.FullKeepsRecent | crates/rcode-agent/src/context.rs:1876-1942 | a full compaction keeps the recent window verbatim |
| RecentWindow.ProjectionSparesExactlyWhen | crates/rcode-agent/src/context.rs:2741-2790 | a projection leaves the recent window verbatim if and only if no planned target lies in it |
| RecentWindow.RoundsCoverWindow | crates/rcode-agent/src/context.rs:2820-2831 | with at most three recent units the three protected rounds begin at or before the recent window |
| RecentWindow.CompactKeepsRecentExactlyWhen | crates/rcode-agent/src/context.rs:810-811 | any successful compaction keeps the recent window verbatim as its last units if and only if its micro plan, if it has one, has no target in it |
| RecentWindow.CompactKeepsThreeRecent | crates/rcode-agent/src/context.rs:428-429 | with at most three recent units and compressible history, every successful compaction keeps the recent window verbatim |
| RunInputs.FourRecentAreLost | crates/rcode-agent/src/context.rs:810-811 | five exchanges, the second with a result of 600 one-byte characters: compacting under a valid policy of four recent units succeeds and changes one of the four |
| CompactingLaws.NoHistoryNoCall | crates/rcode-agent/src/context.rs:1276-1283 | without compressible history the summarizer is never called, and only a projection can succeed |
| CompactingLaws.CompactCallsBounded | crates/rcode-agent/src/context.rs:1259-1496 | a whole compaction makes at most nine calls for each unit of its transcript |
| Manager.ComputeSummaryBudget | crates/rcode-agent/src/context.rs:1635-1661 | the budget of a summary request |
| Manager.SummarizeRange | crates/rcode-agent/src/context.rs:1404-1496 | the summarizing half of a full compaction returns the outcome of the functional definition |
| Manager.ContextManager.constructor | crates/rcode-agent/src/context.rs:960-972 | a new manager has no anchor |
| Manager.ContextManager.Create | crates/rcode-agent/src/context.rs:960-972 | a manager is made if and only if its policy is valid |
| Manager.ContextManager.EstimateRequest | crates/rcode-agent/src/context.rs:1009-1020 | the anchored estimate, or the full one |
| Manager.ContextManager.NoteModelRoundUsage | crates/rcode-agent/src/context.rs:1026-1051 | a positive input size replaces the anchor; anything else changes nothing |
| Manager.ContextManager.ClearUsageAnchor | crates/rcode-agent/src/context.rs:1058-1060 | the anchor is dropped |
| Manager.ContextManager.Compact | crates/rcode-agent/src/context.rs:1234-1316 | the compaction and its effect on the anchor are those of the functional definition |
| Manager.ContextManager.CompactRange | crates/rcode-agent/src/context.rs:1378-1496 | a full compaction as the functional definition, with the range of `Outcomes.SummaryRangeIsChosen`, which clears the anchor only on success |
| Manager.ContextManager.ProjectAndCompactRange | crates/rcode-agent/src/context.rs:1283-1312 | the projection is kept and the anchor cleared even where the summary then fails |
| Manager.ContextManager.ApplyMicroCompaction | crates/rcode-agent/src/context.rs:1320-1339 | a projection alone, also the one that gives up the protected rounds |
| Manager.ContextManager.MechanicalTruncation | crates/rcode-agent/src/context.rs:1513-1614 | a truncation, which clears the anchor only on success |
| Sessions.Perform | crates/rcode-agent/src/runner.rs:1642-1862 | a manager performs each step of a session as the run machine says: records are persisted one by one and then adopted; a failing journal, a compaction cancelled after its projection, or a report of its failure that cannot be delivered, ends the run without adoption |
| Sessions.PerformAll | crates/rcode-agent/src/runner.rs:1642-1862 | a manager carries out a whole run of the run machine, its anchor and what it was noted for included |
| Recovery.RecoveryIsLiveExactlyWhen | crates/rcode-agent/src/context.rs:223-401 | after any run, replaying the journal on the original transcript succeeds; it gives the live transcript if and only if no performed step is a compaction whose record is persisted and then held back by the journal, a cancellation or an undelivered report; otherwise it gives what those records make of it |
| Recovery.RunEndsAhead | crates/rcode-agent/src/runner.rs:1664-1775 | a run ends with records persisted and not adopted if and only if some step it performs is a compaction of which the journal takes a first record but not the second, or whose failure after a projection is a cancellation or cannot be reported |
| Recovery.ProjectedAndMoreExactlyWhen | crates/rcode-agent/src/context.rs:1279-1312 | a compaction that is not forged hands over two records, or a record with a failure, exactly when it goes on after a projection: there is a plan, the plan does not save enough, its record reduces, and no cancellation came before |
| Recovery.CancelledAfterProjection | crates/rcode-agent/src/context.rs:1283-1312 | a cancellation right after such a projection hands over its record and messages in a cancelled failure |
| Recovery.HonestRunsAreUnforged | crates/rcode-agent/src/context.rs:1378-1496 | a run whose summarizers never answer with a failure only the manager should report performs no forged compaction |
| Recovery.CancelledRunRecovers | crates/rcode-agent/src/runner.rs:1671-1692 | in any session, where a compaction goes on after its projection and is cancelled right then, recovery gives the projected transcript, which differs from the live one |
| RunInputs.CancelledRunDiverges | crates/rcode-agent/src/runner.rs:1671-1692 | one old result of 533 one-byte characters and a Turn cancelled at one point: the run ends with its journal ahead, and recovery gives another transcript than the live one |
| Recovery.AnchorAfterStep | crates/rcode-agent/src/context.rs:1026-1060 | a note with a positive input size sets the anchor, a correction or clearing drops it, appending keeps it, and no compaction keeps it for a transcript it rewrote, unless it is forged |
| Recovery.AnchorIsSound | crates/rcode-agent/src/context.rs:900-909 | after any run a present anchor describes a prefix of the transcript, and the anchored estimate is its input plus the estimate of the rest |
| Recovery.RunKeepsInstructions | crates/rcode-agent/src/context.rs:218-222 | no run loses, changes, duplicates or reorders a System or Developer message, neither live nor recovered |
| Recovery.CompactionsKeepExchanges | crates/rcode-agent/src/context.rs:218-222 | between two appends, however the transcript is compacted, protected units stay and no tool exchange is split; those that remain are original ones, in order |
| Inputs.ForgedFailureIsBelieved | crates/rcode-agent/src/context.rs:1378-1496 | a summarizer that answers with the failure only the manager should report is believed: nothing was projected, the anchor stays, and the record does not apply |
| EventStore.RecordingStore.CommitTransition | crates/rcode-agent/src/collaboration_tests.rs:172-310 | the commit is that of the functional definition: reply, data and remaining faults |
| EventStore.RecordingStore.Append | crates/rcode-agent/src/collaboration_tests.rs:265-309 | the checks on the batch and the append |
| EventStore.RecordingStore.AdvanceSequence | crates/rcode-agent/src/collaboration_tests.rs:140-144 | another coordinator moves the watermark |
| EventStore.PerformAll | crates/rcode-agent/src/collaboration_tests.rs:44-310 | a store carries out a whole run of commits, faults and moves of the watermark as the run machine says |
| EventStore.CommitIsAtomic | crates/rcode-agent/src/collaboration_tests.rs:172-310 | a commit changes nothing or appends the whole batch; every refusal leaves log, batches and checkpoint as they were |
| Replies.ReplyExactlyWhen | crates/rcode-agent/src/collaboration_tests.rs:172-310 | when each reply is given, and with which watermark: a conflict for another batch under a recorded identifier or a wrong expectation, an absence for a batch that a fault strikes or that is not numbered consecutively up to its checkpoint |
| Replies.FaultsUsedExactly | crates/rcode-agent/src/collaboration_tests.rs:172-310 | a commit uses up the first fault in its way, in the order of the program, or the lost reply of an append, and nothing else |
| EventStore.EveryRunIsConsistent | crates/rcode-agent/src/collaboration_tests.rs:44-310 | in every run with faults the log is the recorded batches, each once, strictly increasing up to at most the watermark, with the last batch as checkpoint |
| EventStore.BlockIsUnique | crates/rcode-agent/src/collaboration_tests.rs:265-309 | a recorded batch lies in the log as one block, and a non-empty one at a single place |
| EventStore.AlreadyCommittedIsTrue | crates/rcode-agent/src/collaboration_tests.rs:178-201 | in every run, a commit answered as recorded, unless by the armed false answer, has its events in the log as one block, none above the watermark answered |
| EventStore.FalseAnswerIsAhead | crates/rcode-agent/src/collaboration_tests.rs:178-186 | the armed false answer names a watermark one past where the store would get by appending the batch, and appends nothing |
| EventStore.RetryIsOneAppend | crates/rcode-agent/src/collaboration_tests.rs:172-310 | sending a commit more often than faults are pending ends with the data of one append |
| EventStore.RetryIsAtMostOneAppend | crates/rcode-agent/src/collaboration_tests.rs:172-310 | any number of attempts leaves the old data or those of one append |
| EventStore.LateRetry | crates/rcode-agent/src/collaboration_tests.rs:172-310 | after a lost reply and any other operations, sending the commit again changes no data and is answered truthfully unless the false answer is armed |
| EventStore.RevisionsOnlyRise | crates/rcode-agent/src/collaboration_tests.rs:326-340 | over any saves an agent checkpoint never goes back, and a revision never changes its content |
| EventStore.SavedExactlyWhen | crates/rcode-agent/src/collaboration_tests.rs:326-340 | a checkpoint is saved exactly if it is the first of its agent, a newer one, or the saved one again; those of other agents stay |
| Execution.StartFaultExactlyWhen | crates/rcode-agent/src/collaboration_tests.rs:460-480 | a start is decided by a fault exactly if one is armed; rejections come before the unknown answer, and of the faults that end with their use the first one ends |
| Execution.RecordingExecution.StartTurn | crates/rcode-agent/src/collaboration_tests.rs:460-495 | a Turn is launched at most once, whatever was answered before |
| Execution.RecordingExecution.QuiesceTree | crates/rcode-agent/src/collaboration_tests.rs:507-529 | a root is recorded as quiesced at most once, and every attempt is counted |
| ReadHints.ComputeLastSeen | crates/rcode-agent/src/context.rs:3234-3263 | the hash-map loop keeps, for each path, its last read |
| ReadHints.SelectHints | crates/rcode-agent/src/context.rs:3280-3293 | the selection loop takes the longest prefix within both limits |
| ReadHints.HintsIgnoreHashOrder | crates/rcode-agent/src/context.rs:3262-3293 | the hints do not depend on the iteration order of the hash map |
| ReadHints.RememberedIsLast | crates/rcode-agent/src/context.rs:3234-3263 | the map holds a read exactly if it is the last one of its path in the whole transcript |
| ReadHints.HintsAre | crates/rcode-agent/src/context.rs:3234-3293 | what is listed was last read inside the range, newest first, within both limits; what qualifies and is missing is older than all that is listed |
| LastReads.RememberedExactlyWhen | crates/rcode-agent/src/context.rs:3234-3263 | a read is remembered if and only if a call block of an assistant message made it, named read in any case, with a path that is not empty, its offset and limit, and no later block of an assistant reads that path |
| LastReads.HintsAreLastReads | crates/rcode-agent/src/context.rs:3262-3293 | every hint is such a read inside the range; hints go from the newest message to the oldest and by path inside one, and a last read that is left out is not newer than any hint |
| ReadHints.HintsAreLongest | crates/rcode-agent/src/context.rs:3280-3293 | one more entry would break one of the limits |

## Left out

- Budget.FindLargestFittingOutput: requires that the search ends, because for the other inputs the program does not return; `SearchEndsExactlyWhen` says which they are.
- Manager.ContextManager.Compact: takes the same precondition for the capabilities it is given.
- Estimates.EstimateCountsTexts: for texts that fit in memory, as every string of the program does.
- Recovery.RecoveryIsLiveExactlyWhen: assumes that no performed compaction is forged; what a forged failure does to one compaction is proved, what it does to a run is not.
- Sessions.Perform: ends the run where records stay unadopted; the overflow arm of the Runner, which may still try a truncation there when the Turn itself was not cancelled, is not a step. Hooks are not modelled, nor event sinks except for the report of a failure that follows a persisted record.
- Sessions.Perform: takes the records of recent projections and truncations as persisted in the order of their application; the program hands them to the session with the result of the Turn.
- The target of a forced compaction (`forced_target`): the target of a step is arbitrary.
- Serialization is taken to succeed, so the errors for a message that cannot be encoded do not occur.
- Wording of prompts and messages, except the projection marker and the read-hint lines, whose bytes are modelled.
- Prompt-cache hit rates: the floating-point guards and diagnostics of the anchor.
- The streaming compressor, asynchronous cancellation, lock poisoning and elapsed time.
- `usize` and `u64` exhaustion of lengths, indices and event sequence numbers, where the program would panic.
- The event store's snapshots for tests and the injection of recovery trees; its fault flags are one value set at a time.
- The execution port's signals and closing of trees, which are plain appends.
- The collaboration coordinator itself is not part of this model.
