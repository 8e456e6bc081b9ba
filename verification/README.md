# Open Harness Router in Dafny

Open Harness Router speaks the Anthropic Messages protocol to its clients and
OpenAI formats to its upstreams, and keeps protocol state in between. These
files model its state machines, translations, accounting and checks, and prove
what they are relied on for. Check them with `dafny verify dfyconfig.toml`.

Each part has a specification on values (a function, a fold or a machine over
steps), the loops and objects of the program proved against it, and theorems
about the specification over every input, run or interleaving.

- **Quota gate.** `QuotaGate` is the gate and its waiting loop, proved to end
  under any interference; `QuotaProtocol` is the machine of all requests sharing
  it, a step being what happens between two awaits.
- **Streams.** `Events` says what a well-formed event stream is; `ChatStream`
  and `ResponsesStream` are the two converters, `ChatWellFormed` and
  `ResponsesWellFormed` their well-formedness, `Assembler` the inverse, and
  `ChatRefinement` and `ResponsesRefinement` compare with the unary converters in
  `ChatUnary` and `ReasoningRoundTrip`. `Json` is a
  strict reader of JSON texts, proved against the grammar in `JsonGrammar`. `Relays` holds the keepalive and the recording relay.
- **Conversation state.** `OrderedStore` and `StoreLog` relate the bounded stores
  to an unbounded log; `ThreadStore` and `ThreadChain` rebuild threaded requests;
  `ReasoningCache` and `ReasoningRoundTrip` return reasoning items before their calls.
- **Request translation.** `RequestConverter` proves the message loop equal to a
  rendered plan, `RequestPlan` what every plan keeps.
- **Accounting.** `UsageScanner`, `Monitor` and `Accounting` count requests and
  tokens; `RequestStore`, `StoreWindows` and `IsoTimestamps` are the log, its
  windows and its timestamps. `Counters` and `Sorting` are shared.
- **Changelog.** `Changelog` edits and reads sections at the level of characters,
  `ReleaseNotes` collects and renders, `ReleaseCycle` relates the two over
  repeated runs. `Text` is shared.
- **Routing and limits.** `Routing` validates and resolves, `TokenEstimator`,
  `TokenBill` and `Preflight` hold a request within its window, `ToolVisibility` and
  `ToolFolding` decide which tools go out.

What the code does differently from its documentation, or under a condition:

- `src/routing/schema.py:178-183` says a configuration that starts can serve at
  least one request. No check keeps `max_tokens_limit` from being negative, and
  then it may serve none (`Preflight.NegativeCapServesNothing`); with a cap below 3
  it may serve none that has a message (`Preflight.AcceptedCapServesIff`).
- `src/providers/openai_translate.py:291` says the capped tool list is at most
  `tools_max`. That holds exactly when the built-in tools alone fit:
  `ToolFolding.CapHoldsIff`, with `ToolFolding.BuiltinsPassTheCap`.
- Collecting pull requests again before the tag finds the same ones only when no
  other version's draft stood on top, or nothing of it was found:
  `ReleaseCycle.CollectAgainIff`, with `ReleaseCycle.RenumberedDraftExample`.
- Streaming and unary conversion differ on arguments that are not an object text:
  `ChatRefinement.StreamRefinesUnary` and `ResponsesRefinement.StreamRefinesUnary`
  are equivalences. Chat arguments that come before their call's name are lost:
  `ChatRefinement.EarlyArgumentsAreLost`.
- A repeated `output_index` leaves a block open: `ResponsesWellFormed.StreamIsWellFormedIff`.
- A line above the scanner's limit counts or not depending on how it is cut:
  `UsageScanning.LongLineDependsOnCuts` and `UsageScanning.LongLineCounts`, with the exact cuts in
  `UsageScanning.CutLine` and `UsageScanning.HoldsOnIff`.
- `src/services/request_store.py:127-129` relies on text order being time order.
  That holds for UTC timestamps (`IsoTimestamps.TextSortsAsTime`). A custom bound
  keeps its own offset (`src/services/request_store.py:477`) and then sorts as its
  time only in UTC (`IsoTimestamps.UtcSortsAsTimeIff`); an accepted window with
  another offset can select rows that pruning deletes
  (`StoreWindows.OffsetWindowLosesARow`, exactly when in
  `StoreWindows.AcceptedWindowsAreWholeIff`).
- A version is taken to be without line ends and closing brackets
  (`Changelog.Plain`); the pattern in `src/cli/release.py:106` also accepts one
  trailing line end.

## Model

| member | source | states |
|---|---|---|
| `QuotaGate.QuotaGate.Close` | src/services/upstream_quota.py:144-157 | Closing leaves the closed-until moment at the larger of what it was and now plus the hint plus 5 seconds, and the queue of slots alone |
| `QuotaGate.QuotaGate.Departure` | src/services/upstream_quota.py:159-163 | A claimed slot is the later of opening time and next release, and the next release becomes one stagger after it |
| `QuotaGate.QuotaGate.WaitTurn` | src/services/upstream_quota.py:165-206 | Ends under any interference by other requests during its sleeps; every stretch between two awaits does what `Arrive` or `Wake` says; with the gate open and the last slot past it passes at once, with the slot beyond the deadline it refuses at once, both changing nothing; let through only with the gate open |
| `QuotaGate.WithinQuota` | src/providers/openai_translate.py:525-586 | The retry loop ends, and with budget W makes at most 1 + floor(W / 5) upstream calls: each but the last was refused, and the next answer comes no sooner than its hint plus 5 seconds later; the reply is what the last call ended with; it gives up only when the next slot lies past the budget, and announces what is left until the gate opens |
| `QuotaProtocol.RunsAreSafe` | src/services/upstream_quota.py:135-206 | In every interleaving of entering, waking, refusals, cancellation and clock steps: claimed slots are at least 2 s apart and each within its claimant's deadline, everyone let through leaves while the gate is open, and one passing without a slot does not overtake any slot claimed before |
| `QuotaProtocol.CallsAreBounded` | src/providers/openai_translate.py:556-586 | In every interleaving, whatever the other requests do, one request makes at most 1 + floor(budget / 5) upstream calls |
| `QuotaProtocol.HintsAreKept` | src/services/upstream_quota.py:144-206 | In every interleaving: after a refusal at t with hint h no request at all is let through before t + h + 5 |
| `QuotaProtocol.EnterMeans` | src/services/upstream_quota.py:165-206 | On entry a request goes at once without a slot exactly when the gate is open and the last slot past, is refused exactly when its slot lies beyond its deadline, and otherwise holds the next slot, two seconds before the one after it |
| `QuotaProtocol.WakeMeans` | src/services/upstream_quota.py:165-206 | On waking up a request keeps its slot unless the gate was closed beyond it, and is then refused or moved; it goes as soon as its slot has come |
| `QuotaProtocol.StepsOnlyRaiseTheGate` | src/services/upstream_quota.py:144-163 | No step lowers the gate or turns the clock back: the rely that `WaitTurn` is proved under is what the other requests keep |
| `QuotaProtocol.NextKeepsInv` | src/services/upstream_quota.py:144-206 | Every enabled step keeps the whole invariant (slots, exits, budgets, slot ownership) |
| `Json.ObjectTextPrefix` | src/conversion/response_converter.py:253-266 | A proper beginning of a JSON object text parses exactly when only trailing white space is missing, and then to the same value (RFC 8259, sections 2 and 4): why arguments may be sent when the growing buffer first parses |
| `JsonGrammar.LoadsIff` | src/conversion/response_converter.py:260-266 | A text is read, to a value, exactly when the grammar of RFC 8259 (sections 2 to 7, with NaN and the infinities Python adds) generates it with that meaning |
| `JsonGrammar.FieldsMean` | src/conversion/response_converter.py:68-74 | An object has exactly the names of its members, and a repeated name has the value of its last member |
| `ChatStream.Convert` | src/conversion/response_converter.py:114-362 | The streaming converter's loop over upstream lines, with its tool-call table, counter and buffers, emits the specified stream for every line sequence and every way the upstream stops |
| `ChatStream.TakeFragment` | src/conversion/response_converter.py:214-266 | One tool-call fragment: id and name noted, block started once both are known, arguments appended only to a started call and sent once, when the buffer first parses |
| `ChatWellFormed.StreamIsWellFormed` | src/conversion/response_converter.py:144-362 | For every upstream line sequence and point of failure the event stream is well formed (message_start first, each block started, then deltas, at most one input delta, stopped once, before message_delta and message_stop; or one error frame last), and it completes exactly when the upstream did not fail |
| `ChatWellFormed.LastWords` | src/conversion/response_converter.py:214-392 | A chat stream ends with the error of the first input it cannot read, or announces the last finish read (max_tokens exactly for "length", tool_use exactly for "tool_calls" and "function_call") with the last usage |
| `Assembler.MessageAssembler.Feed` | src/services/thread_store.py:223-277 | The assembler's block table after a frame is the specified one; it reports completion exactly on message_stop |
| `Assembler.ContentOfRange` | src/services/thread_store.py:275-277 | Blocks numbered without gaps come out of the assembler in index order, closed |
| `ChatUnary.ConvertUnary` | src/conversion/response_converter.py:39-111 | The complete response as a message: refused exactly without choices; otherwise its id or the made-up one, text, tool blocks in order (unparsable arguments wrapped as raw_arguments), an empty text block when there is nothing, max_tokens exactly for "length", tool_use exactly for "tool_calls" and "function_call", and the usage |
| `ChatRefinement.StreamRefinesUnary` | src/conversion/response_converter.py:39-277 | However text and arguments are cut into tidy fragments, under whatever indices, assembling the emitted events gives the unary converter's stop reason and, exactly when all merged arguments are JSON object texts, its content in order of first appearance (up to an empty leading text block) |
| `ChatRefinement.InputsAgree` | src/services/thread_store.py:331-366 | The input assembled for a call equals the unary converter's input exactly when the merged arguments are an object text |
| `ChatRefinement.EarlyArgumentsAreLost` | src/conversion/response_converter.py:253-258 | An untidy case: whatever arguments come before a call has its name, the assembled call has none |
| `ResponsesStream.Convert` | src/conversion/response_converter.py:576-846 | The Responses streaming converter's loop emits the specified events and hands over the items of the completed output for the reasoning cache |
| `ResponsesStream.TakeEvent` | src/conversion/response_converter.py:660-760 | One upstream event: blocks opened on output_item.added, deltas to the block of that output_index, arguments once on done |
| `ResponsesWellFormed.StreamIsWellFormedIff` | src/conversion/response_converter.py:616-846 | The stream is well formed exactly when it ends in an error frame or the function calls read have distinct output_index values |
| `ResponsesWellFormed.LastWords` | src/conversion/response_converter.py:660-846 | A Responses stream ends with the error of the first event that reports one (502 and its message), or with the terminal response's usage and max_tokens exactly when the output limit cut it off, tool_use exactly when a call was announced |
| `ResponsesWellFormed.RepeatedIndexLeavesABlockOpen` | src/conversion/response_converter.py:677-690 | A concrete pair of function calls under one output_index leaves a started block unstopped |
| `ResponsesRefinement.StreamRefinesUnary` | src/conversion/response_converter.py:490-846 | However a response is cut into tidy events, assembling what is emitted gives the unary conversion's joined text, stop reason and usage, and its tool calls in order exactly when each call's arguments (`{}` for none) are a JSON object text |
| `ResponsesRefinement.InputsAgree` | src/conversion/response_converter.py:694-722 | The input assembled for a call, sent early or whole or never, is the unary one exactly when the arguments are an object text |
| `OrderedStore.EvictLoops` | src/services/thread_store.py:206-220 | The two eviction loops (expired from the front, then over the cap from the front) compute the specified eviction |
| `StoreLog.WriteAgrees` | src/services/thread_store.py:114-120 | After every write the bounded store agrees with the unbounded log, is ordered by storage time and within the cap |
| `StoreLog.LookupAgrees` | src/services/thread_store.py:151-158 | A lookup, with its removal of an expired entry, keeps the agreement |
| `StoreLog.LookupIsHit` | src/services/reasoning_cache.py:91-112 | A lookup returns a value exactly when the log's last write of the key has it, is no older than the TTL, and fewer than the cap of distinct other keys were written since |
| `StoreLog.HitIsUnique` | src/services/reasoning_cache.py:91-112 | At most one log position is such a hit, so the value looked up is determined |
| `ThreadStore.ThreadStore.Record` | src/services/thread_store.py:97-127 | Recording writes the held request with the answer's content at the end of the log and keeps the agreement |
| `ThreadStore.ThreadStore.Resume` | src/services/thread_store.py:129-174 | Succeeds exactly when the named response is still held by the log's account, returns the rebuilt request, and changes nothing then: resuming again gives the same; the two miss reasons tell an expired entry, which goes, from an unknown one |
| `ThreadChain.FollowIsWhole` | src/services/thread_store.py:129-174 | After any number of continuations the rebuilt request has all client messages and, behind those it answered, each recorded answer as an assistant message with its blocks field by field, the original system prompt with the newest attribution block, the last non-empty tools, the newest scalar fields and no thread |
| `ThreadChain.FollowSystem` | src/services/thread_store.py:280-310 | Along a chain the system prompt stays the first one with only its attribution block replaced by the newest |
| `ThreadChain.Converse` | src/providers/openai_translate.py:805-885 | Driven through the store itself, with other conversations recording in between, every rebuilt request is the whole one, and only a response no longer held ends the chain |
| `Relays.WithKeepalive` | src/services/keepalive.py:43-101 | Over every interleaving of frames, silences and outside close: erasing pings from the output gives the source frames in order with none lost or repeated, at most one step of the source is outstanding, and without silence the output is the source itself |
| `Relays.RecordStream` | src/services/thread_store.py:176-204 | Frames pass unchanged, and what is recorded is what the relayed frames completed |
| `Relays.RecordedOnce` | src/services/thread_store.py:193-204 | Along a stream that is not malformed a message is recorded exactly when it completes, once, with the assembled content |
| `Relays.ChatStreamRecordedWhenComplete` | src/providers/openai_translate.py:868-940 | A recorded chat stream: whatever the upstream did and wherever the client left, the message is recorded exactly when its whole stream went out and ended with message_stop |
| `Relays.ResponsesStreamRecordedWhenComplete` | src/providers/openai_translate.py:868-940 | A recorded Responses stream, repeated output indices included: recorded exactly when its whole stream went out and did not end in an error, under its id, with the assembled content |
| `ReasoningCache.ReasoningCache.Store` | src/services/reasoning_cache.py:63-89 | Storing sanitises the items, writes them as the newest entry and evicts; an empty list stores nothing |
| `ReasoningCache.ReasoningCache.Get` | src/services/reasoning_cache.py:91-112 | A lookup returns what the unbounded log says must be recalled at that moment, and nothing otherwise; it takes out the entry when that is too old, and nothing else |
| `ReasoningRoundTrip.ExtractReasoningByCallId` | src/conversion/response_converter.py:454-487 | The grouping loop assigns each call the reasoning items since the previous call |
| `ReasoningRoundTrip.ConvertResponses` | src/conversion/response_converter.py:490-573 | The unary Responses conversion: refused without output; otherwise reasoning to the cache, texts and calls to the message in order, with id, stop reason and usage |
| `ReasoningRoundTrip.ConvertAssistantMessage` | src/conversion/request_converter.py:499-546 | The assistant message back into input items: a string as it is, blocks as joined text and then each call, its arguments written as text, behind what the cache recalls for it |
| `ReasoningRoundTrip.ReasoningReturnsIff` | src/conversion/response_converter.py:454-573 | A Responses output with distinct non-empty call ids, turned into a message and back into input, has before each call exactly the sanitised reasoning items since the previous call, trailing ones dropped, if and only if for each call the cache still holds what was stored (within the TTL, fewer than the cap of other keys since) and finds nothing older for a call without reasoning |
| `ReasoningRoundTrip.ReasoningReturnsWrittenIff` | src/conversion/request_converter.py:499-546 | The same for the items as they are written out, when different values have different texts |
| `RequestConverter.ConvertMessages` | src/conversion/request_converter.py:63-139 | The index-jumping message loop, editing the last message in place, gives the rendering of the plan |
| `RequestPlan.NoAdjacentUsersInOutput` | src/conversion/request_converter.py:63-139 | If the input without its system messages has no two adjacent user turns, neither has the output |
| `RequestPlan.MessagesKeepTheirPlace` | src/conversion/request_converter.py:63-139 | Read in output order, the turns carry exactly the messages that show, in input order: every non-empty positional system text once, in its place |
| `RequestPlan.ShownBelowMeans` | src/conversion/request_converter.py:63-139 | The messages that show are exactly the non-blank system texts, the assistant messages, and the user messages with visible content beyond consumed tool results, in increasing order |
| `RequestPlan.AssistantMeans` | src/conversion/request_converter.py:284-327 | An assistant message is sent with its text in one piece, or none, and one call per tool_use block with its id, name and input, in order |
| `RequestPlan.UserMeans` | src/conversion/request_converter.py:241-281 | A user message is sent as a plain text, or as one part per text and sendable image, in order |
| `RequestPlan.SystemMeans` | src/conversion/request_converter.py:425-441 | A system text is the plain text, or the text blocks joined by blank lines, without the white space at its ends |
| `RequestPlan.ShownMeans` | src/conversion/request_converter.py:63-139 | Which messages show, by their blocks: system texts that are not blank, assistant messages, and user messages but for bare tool results |
| `RequestPlan.TopComesFirst` | src/conversion/request_converter.py:48-61 | The top-level prompt is the first message sent when there is one, and the only system message |
| `RequestPlan.TurnTexts` | src/conversion/request_converter.py:196-238 | A user turn's content is its pieces joined by blank lines around a plain text, or as parts of their own around a part list |
| `RequestPlan.UserTurnIsSent` | src/conversion/request_converter.py:63-238 | Every user turn of every plan is sent as one user message that holds its pieces in order, none of them empty |
| `RequestPlan.SystemTextIsSentOnce` | src/conversion/request_converter.py:63-238 | Every non-empty system text of a conversion is sent, as a piece before or behind the message of exactly one user turn, and at exactly one place there |
| `RequestPlan.ToolResultsFollowCalls` | src/conversion/request_converter.py:101-135 | An assistant message is sent with one call per tool_use block; tool results in the user message right after it become one tool message each, with id and text, in order, directly after it, with no other tool message behind them |
| `Changelog.SpanAround` | src/cli/release.py:857-867 | A section between text without headings and text that starts with one is found, whole |
| `Changelog.InsertMeans` | src/cli/release.py:341-388 | Where a section goes: a new file behind the header, the end behind a blank line, before the first heading, or in place of the first untagged section of its version; the two refusals |
| `Changelog.SpanMeans` | src/cli/release.py:857-867 | A version's section runs from its first heading line to the next heading line of any version, or to the end |
| `Changelog.ExtractInserted` | src/cli/release.py:331-405 | Extracting a version after inserting its section returns that section's body |
| `Changelog.ExtractMeans` | src/cli/release.py:391-408 | What is extracted: the lines behind the section's heading line, without line ends around them |
| `Changelog.OthersUnchanged` | src/cli/release.py:331-405 | Inserting one version's section leaves the extraction of every other version unchanged |
| `Changelog.InsertAgainReplaces` | src/cli/release.py:331-385 | Inserting an untagged version's section again gives what inserting the second one alone gives; with the same section, once and twice are equal |
| `Changelog.RefusedIff` | src/cli/release.py:370-385 | An insertion is refused exactly when the version has a section that is tagged or not the first |
| `ReleaseNotes.SelectUnreleased` | src/cli/release.py:270-308 | The selection loop keeps, by number, the pull requests that are neither referenced nor a release |
| `ReleaseNotes.RenderSection` | src/cli/release.py:311-338 | The rendering loops build the section text: heading, non-empty groups in order, bullets by number, one line end |
| `ReleaseCycle.EveryEntryOnce` | src/cli/release.py:311-338 | Every entry is rendered exactly once, and within a group by number |
| `ReleaseCycle.SectionIsOneIff` | src/cli/release.py:311-338 | A rendered section holds one heading exactly when no entry starts a heading inside itself (single-line entries never do) |
| `ReleaseCycle.SingleLineIsClean` | src/cli/release.py:296-305 | An entry of one line starts no heading |
| `ReleaseCycle.NotesReadBack` | src/cli/release.py:311-405 | What was rendered and inserted reads back under its version as the notes of its entries |
| `ReleaseCycle.EntryRefers` | src/cli/release.py:240-250 | The reference written into an entry is read back as its pull request number, decimal digits and all |
| `ReleaseCycle.ReferencesMean` | src/cli/release.py:240-250 | A text refers to exactly the numbers that stand, whole, behind a hash sign |
| `ReleaseCycle.TopMeans` | src/cli/release.py:253-256 | The top version is the one the first heading with a non-empty bracketed name names |
| `ReleaseCycle.UnreleasedMeans` | src/cli/release.py:278-308 | The entries are those of exactly the pull requests that are neither referred to nor releases, by number |
| `ReleaseCycle.SectionMeans` | src/cli/release.py:311-338 | The text of a section, character by character: heading, and in the fixed order each non-empty group's caption and bullets |
| `ReleaseCycle.ReferencesConcat` | src/cli/release.py:240-278 | Cut where no number is cut, a text refers to what its pieces refer to |
| `ReleaseCycle.Written` | src/cli/release.py:796-823 | After writing, the version is the top one and around its section the file refers to what it referred to before |
| `ReleaseCycle.CollectAgainIff` | src/cli/release.py:240-308 | Collecting again after writing and before the tag finds the same pull requests exactly when no other version's draft stood on top, or none of the numbers found was already mentioned in the file |
| `ReleaseCycle.NothingAfterTheTag` | src/cli/release.py:240-308 | Once the written version is tagged, collecting the same pull requests finds none |
| `ReleaseCycle.RenumberedDraft` | src/cli/release.py:888-915 | A draft written again under another version: collecting again finds none of its pull requests |
| `ReleaseCycle.RenumberedDraftExample` | src/cli/release.py:888-915 | One pull request drafted as version 1 and then written as version 2 is lost to the next collection |
| `UsageScanning.UsageScanner.FeedSse` | src/services/monitor.py:227-268 | One chunk: pending bytes and chunk split at line feeds, complete lines read, the rest kept up to the limit |
| `UsageScanning.UsageScanner.FeedJson` | src/services/monitor.py:214-225 | A complete JSON object body replaces the usage by its own integer counts; anything else leaves it |
| `UsageScanning.CutsDoNotMatter` | src/services/monitor.py:227-268 | With no incomplete line above the limit at a chunk end, the counts are those of one pass over the complete lines of the whole stream |
| `UsageScanning.StreamCounts` | src/services/monitor.py:150-268 | However a stream is cut within the limit, each of the four counts is the integer in the last complete line that carries one (in `message.usage` of a `message_start`, `usage` of a `message_delta`), zero without one; a first delta is noted exactly when a `content_block_delta` line is complete |
| `UsageScanning.FirstDeltaIsTimed` | src/services/monitor.py:246-257 | The first delta is timed by the chunk that completes its line, once |
| `UsageScanning.SplitMeans` | src/services/monitor.py:233-238 | The lines and the rest are the bytes cut at every line feed |
| `UsageScanning.IntsAreRead` | src/services/monitor.py:137-152 | Integers are read off their decimal digits, with or without a minus sign, and nothing else is one |
| `UsageScanning.HoldsOnIff` | src/services/monitor.py:233-238 | What is pending after every chunk is the whole incomplete line exactly when no incomplete line is above the limit at a chunk end |
| `UsageScanning.ChunkingIsFree` | src/services/monitor.py:227-268 | Any two ways of cutting a stream whose lines stay within the limit give the same counts, the same pending line, and agree on whether a first token was seen |
| `UsageScanning.CutLine` | src/services/monitor.py:233-238 | A line that comes in two pieces, cut anywhere: read whole exactly when the first piece is within the limit, otherwise only the second piece is read, as a line of its own |
| `UsageScanning.LongLineDependsOnCuts` | src/services/monitor.py:233-238 | Whatever object a decoder reads a text as: the line with that text behind white space above the limit is read when it is cut at its start and lost when it is cut at its end |
| `UsageScanning.LongLineCounts` | src/services/monitor.py:227-268 | Under every decoder that reads a text as one output token, two cuttings of that line count one token and none |
| `RequestMonitor.Monitor.StartRequest` | src/services/monitor.py:512-536 | A started request is in flight under a fresh id |
| `RequestMonitor.Monitor.FinishRequest` | src/services/monitor.py:538-603 | Finishing takes the request out of flight, adds it to totals, provider and model, notes the model's provider, puts one entry into the feed and appends the same entry to the store |
| `RequestMonitor.FedIsNewest` | src/services/monitor.py:538-603 | The feed stays the newest entries of everything fed to it, as many as its buffer holds |
| `RequestMonitor.RequestTracker.Finish` | src/services/monitor.py:416-442 | The outcome reaches the monitor the first time and never again |
| `RequestMonitor.RequestTracker.AttachBody` | src/services/monitor.py:350-374 | A unary body is read for its usage and finished on the spot, with the status and the rejection header |
| `RequestMonitor.RequestTracker.Wrap` | src/services/monitor.py:399-414 | The wrapped stream yields the same chunks, reads their usage, and finishes once with the end or the error |
| `RequestMonitor.RequestTracker.Release` | src/services/monitor.py:387-397 | Releasing counts a stream that never ran as not started, and changes nothing after any other finish |
| `Accounting.AccountsBalance` | src/services/monitor.py:512-603 | At every moment of every run of start, attach, fail, end, break and release: finished plus in flight equals started, no request is counted twice, totals equal the sums over providers and over models, and the stored rows give the same counts and tokens in all and per provider and model |
| `Accounting.FinishingCounts` | src/services/monitor.py:538-572 | One outcome adds one request, an error exactly for an error or an unrejected status of 400 or more, its four token counts, its duration and its price to the totals, its provider and its model, and to no other |
| `Accounting.StartingOpens` | src/services/monitor.py:512-536 | A start opens one tracker under the next id with the model, provider, endpoint and time it was given, without stream or end |
| `Accounting.AttachingStreams` | src/services/monitor.py:350-374 | Attaching a stream marks that tracker as streaming and changes nothing else |
| `Accounting.EndingLeavesARow` | src/services/monitor.py:538-603 | The first end of a request, of whichever kind, leaves one row with its names, status, error, rejection, duration, tokens, price and time to first token |
| `Accounting.EndingAdds` | src/services/monitor.py:416-442 | The totals grow by the same outcome, which has an error exactly for a failure, a broken stream or a release before any end |
| `Accounting.FinishedStays` | src/services/monitor.py:416-422 | Whatever is called on a finished tracker, books and rows stay as they are |
| `RequestLog.RequestStore.Record` | src/services/request_store.py:600-653 | A recorded row is appended; an unopened database takes nothing |
| `RequestLog.RequestStore.Prune` | src/services/request_store.py:930-957 | Pruning keeps exactly the rows from the cutoff on and reports how many went |
| `RequestLog.RequestStore.Breakdown` | src/services/request_store.py:728-795 | The loop joining group rows with their throughput, then sorting, gives the specified breakdown |
| `StoreWindows.AcceptedWindow` | src/services/request_store.py:354-448 | An accepted window starts at what was asked for or at the retention floor, whichever is later, and before its end, which is the one asked for, or now; it is bucketed by hours exactly when it shows at most a day (except "all"), and says clamped exactly when more was asked for than is kept; its name and its uncut bounds are those of the request |
| `StoreWindows.RefusedCustomIff` | src/services/request_store.py:390-414 | A custom range is refused exactly when a bound is unreadable, it is empty, or it ends at or before the retention floor |
| `StoreWindows.RefusalsMean` | src/services/request_store.py:390-436 | When a request for a window is refused, and with which of the six reasons |
| `StoreWindows.AdjoiningWindows` | src/services/request_store.py:299-316 | Adjoining half-open windows add up to the window over both |
| `StoreWindows.RangeTotalsMean` | src/services/request_store.py:299-352 | The totals of a window are the counts and column sums of exactly its rows: requests, errors, priced requests, durations, costs and four token columns |
| `StoreWindows.SeriesSums` | src/services/request_store.py:829-853 | The bucket series has every bucket once, oldest first, and sums to the window's totals |
| `StoreWindows.SeriesMeans` | src/services/request_store.py:829-853 | Each point of a series has the counters of the window's rows of its hour or day |
| `StoreWindows.BreakdownSums` | src/services/request_store.py:728-795 | The breakdown sums to the window's totals, has each (provider, model) pair of the window once with its own counters and throughput, in the shown order |
| `StoreWindows.BreakdownMeans` | src/services/request_store.py:178-250 | Each entry of the breakdown has the counters of its pair's rows, and throughput summed over those of them that are streamed messages with a timed token, output and at least 250 ms of generation, none without such rows |
| `StoreWindows.BreakdownOrder` | src/services/request_store.py:728-795 | Entries are shown by provider name, then the busiest first, then by model name, missing names last |
| `StoreWindows.SinceMeans` | src/services/request_store.py:930-957 | Pruning keeps every row from the cutoff on as often as it was there, and no other |
| `StoreWindows.PruningIsInvisible` | src/services/request_store.py:930-957 | When the texts of a window's bounds select no row from before the retention floor, no prune up to now changes its totals, series, breakdown or groups |
| `StoreWindows.AcceptedWindowsAreWhole` | src/services/request_store.py:354-957 | Over every run of writes and prunes along a clock, an accepted window whose bounds select no row from before the floor shows all that was ever recorded in it |
| `StoreWindows.AcceptedWindowsAreWholeIff` | src/services/request_store.py:354-957 | An accepted window is whole in every run exactly when the texts of its bounds select no row from before the floor |
| `StoreWindows.UtcAsksForKept` | src/services/request_store.py:354-477 | Every accepted window by name, by day, by a UTC start or cut at the floor is such a window |
| `StoreWindows.OffsetWindowLosesARow` | src/services/request_store.py:390-477 | A concrete accepted window, its start written five hours west of UTC, that selects a row the prune then deletes |
| `IsoTimestamps.TextSortsAsTime` | src/services/request_store.py:127-132 | Timestamps sort as text exactly as in time, although whole seconds are written without a fraction |
| `IsoTimestamps.IsoMeans` | src/services/request_store.py:127-132 | A timestamp's text is its date, time and six-digit fraction (left out when zero) in fixed-width decimal digits, and the offset |
| `IsoTimestamps.StampMeans` | src/services/request_store.py:127-132 | A time is the number of its Gregorian date's day and the clock reading on that day |
| `IsoTimestamps.OffsetMeans` | src/services/request_store.py:474-477 | An offset's text is its sign, hours and minutes, and seconds and their fraction only when there are any |
| `IsoTimestamps.PrefixesAreBuckets` | src/services/request_store.py:127-132 | The first ten characters name the day and the first thirteen the hour |
| `IsoTimestamps.PrefixesAreBucketNumbers` | src/services/request_store.py:127-132 | Over the calendar: two times share ten characters exactly when they are of one day, thirteen exactly when of one hour |
| `IsoTimestamps.BoundCovers` | src/services/request_store.py:474-477 | For every bound with any offset: a row's text is not before the bound's text exactly from the bound's local time, read as UTC, on (just after it unless the offset is zero) |
| `IsoTimestamps.BoundSortsAsTimeIff` | src/services/request_store.py:474-477 | A bound sorts as its time against every row exactly when its offset is zero, or one microsecond west |
| `IsoTimestamps.UtcSortsAsTimeIff` | src/services/request_store.py:474-477 | Among offsets of whole minutes, a bound sorts as its time against every row exactly when it is written in UTC |
| `IsoTimestamps.OtherOffsetsSortWrong` | src/services/request_store.py:474-477 | An instance of the above: a bound two hours east of UTC that sorts behind a row an hour later than it |
| `Routing.Validate` | src/routing/schema.py:370-803 | All checks, of each provider (parameters, limits, window, credentials, folding, headers) and then of the table, accept a configuration exactly when it is `Accepted`; an error names a real fault of the provider, rule or id it names |
| `Routing.AcceptedIff` | src/routing/schema.py:370-803 | The router starts with a configuration exactly when every provider is sound, a translating one names its key, the default one forwards the client's credentials, every rule fits its provider, and each offered id is offered once and lands on its own rule, each condition written out |
| `Routing.ValidateClientModels` | src/routing/schema.py:748-803 | The check of advertised ids passes exactly when no id is offered twice and each lands on its own rule; its error names a real fault |
| `Routing.ValidateRuleLimits` | src/routing/schema.py:709-746 | The check of overrides passes exactly when every rule's limits fit its provider |
| `Routing.ClientModelsOkIff` | src/routing/schema.py:748-803 | The advertised ids are in order exactly when none is repeated and first-match resolution takes each to the rule that offers it |
| `Routing.OffersAreServed` | src/routing/registry.py:85-111 | An advertised id is resolved to the rule that offers it, with its substitution and limits |
| `Routing.ResolveMeans` | src/routing/registry.py:85-111 | A model goes to the first rule that takes it with that rule's substitution and limits, each limit the provider's when the rule sets none; otherwise to the default provider, unchanged |
| `Routing.NamesAuthIff` | src/routing/schema.py:588-634 | The header names refused are "authorization" and "x-api-key" in any case |
| `Routing.OneOwner` | src/routing/schema.py:748-803 | No id belongs to two rules |
| `Routing.EveryRouteFits` | src/routing/schema.py:155-640 | Under an accepted configuration every model's translated route has a cap and any window above cap plus reserve plus floor, passthrough routes have neither window nor substitution, an unmatched model goes to a provider that forwards the client's credentials, a provider forwards them exactly when it has no key of its own, and neither folding nor an extra header touches forwarded credentials |
| `Routing.FirstMatch` | src/routing/matcher.py:16-34 | The rule found takes the model and no earlier one does |
| `Routing.MatchMeans` | src/routing/matcher.py:16-34 | A rule takes a model by its whole id, its beginning, a part of it, or its pattern |
| `TokenEstimator.EstimateRequest` | src/services/token_estimator.py:186-213 | The incremental tally over instructions, messages, input and tools gives the specified estimate |
| `TokenBill.EstimateMeans` | src/services/token_estimator.py:19-213 | The estimate of a request is, per kind and rounded up, 3.5 ASCII characters, 2 others, 1 CJK one or 2 of encrypted reasoning to the token, plus 4 for each message, 8 for each tool and 1600 for each image |
| `TokenBill.RequestIsCharged` | src/services/token_estimator.py:96-213 | What the estimator counts is exactly the texts, reasoning, messages, tools and images of both wire shapes |
| `TokenEstimator.EstimateOfJoined` | src/services/token_estimator.py:96-213 | Messages estimated apart cost at least their estimate together and at most three tokens more, for both wire shapes |
| `TokenEstimator.EstimateGrows` | src/services/token_estimator.py:96-213 | More messages never make the estimate smaller |
| `Preflight.WireBody.ApplyParamCompat` | src/providers/openai_translate.py:136-165 | The limit is renamed to the configured key and the listed parameters are dropped, in place; every other field stays |
| `Preflight.WireBody.EnforceContextWindow` | src/providers/openai_translate.py:1080-1142 | A prompt that leaves less than 4096 of the window less 512 is rejected with the body untouched; otherwise the limit becomes the smaller of what was asked for and what is left, and nothing else changes |
| `Preflight.LimitKeyPresent` | src/providers/openai_translate.py:1124-1130 | For every flavour and token_param of a valid provider, the limit asked for stands under the key the check reads |
| `Preflight.ProceedingFits` | src/providers/openai_translate.py:1104-1142 | A request that proceeds has estimate + completion + 512 <= window, its completion is what was asked for or at least 4096 and never more, nothing else changes, and checking again changes nothing |
| `Preflight.AcceptedRouteServes` | src/routing/schema.py:175-191 | On every windowed route of an accepted configuration a prompt up to the cap proceeds, and one up to 4096 tokens keeps its whole completion budget |
| `Preflight.ServesSomeIff` | src/routing/schema.py:175-191 | A window serves some request exactly when it holds reserve and floor, and some request with a message in it exactly when it also holds the overhead of one |
| `Preflight.NegativeCapServesNothing` | src/routing/schema.py:175-191 | A provider the checks accept, with a negative cap, whose window rejects every request, whatever its text |
| `Preflight.AcceptedCapServesIff` | src/routing/schema.py:175-191 | Every accepted window over a cap serves some request exactly for caps from -1 on, and some request with a message in it exactly for caps from 3 on |
| `ToolVisibility.ResolveVisible` | src/services/tool_visibility.py:64-122 | The loop over blocks gives the visible own tools, the supplied ones, the invalid names and the sorted unresolved names |
| `ToolVisibility.OwnAreExactly` | src/services/tool_visibility.py:109-115 | Visible are exactly the request's tools that are no placeholder and either undeferred or referenced, each as often as it stands there, in request order |
| `ToolVisibility.DefinedMeans` | src/services/tool_visibility.py:92-107 | Each name is defined once, by the last block that validly defines it |
| `ToolVisibility.DefinedInOrder` | src/services/tool_visibility.py:92-107 | The definitions stand in the order in which their names were first defined, also when a later block replaced one |
| `ToolVisibility.SuppliedAreExactly` | src/services/tool_visibility.py:116-120 | Supplied are exactly the definitions of names the request does not know, the placeholder never, each once and in the order of the definitions |
| `ToolVisibility.InvalidAreExactly` | src/services/tool_visibility.py:92-107 | The invalid names are those of the blocks with a schema from which no tool can be built, block by block |
| `ToolVisibility.UnresolvedAreExactly` | src/services/tool_visibility.py:121-122 | Unresolved are exactly the names a block refers to that neither the request nor any block defines |
| `ToolFolding.FoldToolAdditions` | src/services/tool_visibility.py:146-223 | Folding answers nothing exactly when there is neither block nor deferred tool; otherwise the body has the visible tools, hidden and kept own tools make up the tool count, and the folded body has nothing left to fold |
| `ToolFolding.NothingIff` | src/services/tool_visibility.py:146-192 | There is nothing to fold exactly when no content block of any message is a tool addition and no tool is deferred |
| `ToolFolding.OnlyAdditionsGo` | src/services/tool_visibility.py:174-192 | Every other block of the conversation stays, in order, and the removed count is the number of addition blocks |
| `ToolFolding.KeptMessageMeans` | src/services/tool_visibility.py:174-192 | A message keeps its other blocks in order and every other field; one without a content list stays, and one that had only additions goes |
| `ToolFolding.RewrittenMeans` | src/services/tool_visibility.py:197-216 | The folded body has the swept messages when a block went, the visible tools without `defer_loading`, and everything else as it was |
| `ToolFolding.CapHoldsIff` | src/providers/openai_translate.py:244-292 | The capped tool list is within the cap exactly when the built-in tools alone are (or no cap was needed), and then fills it |
| `ToolFolding.CapMeans` | src/providers/openai_translate.py:244-292 | A list that needs a cap becomes all built-in tools and then as many of the others as there is room for, both in order; any other list stays |
| `ToolFolding.BuiltinsPassTheCap` | src/providers/openai_translate.py:244-292 | A concrete list whose two built-in tools both stay under a cap of one |

## Left out

- Time between awaits: code between two awaits takes no time and the clock moves at awaits; clocks are reals in the gate and the stores, integer microseconds in the log.
- Upstream calls, HTTP, TLS, certificates and sockets: a call is an arbitrary outcome (result, other error, quota refusal with a hint that is not negative), a stream an arbitrary sequence of parsed lines, breaks and disconnects.
- Server-sent event text: frames are modelled as the events they carry, and JSON written by the router is taken to be read back as the value written; the order of dictionary keys is not modelled.
- Lone surrogate halves in JSON strings are kept as private-use characters; numbers are kept as their text.
- Regular expressions for routes, quota hints and pull request titles are uninterpreted; the heading and reference patterns of the changelog are modelled, with ASCII digits.
- SQLite: the table is a sequence of rows and a query the fold it describes, comparing the texts of times up to the year 9999; failing statements and threads are not modelled.
- Floating point: token divisors are exact fractions, durations and costs are reals, and rounding before storage is an arbitrary function, so monitor and store are compared on counts and tokens only.
- gzip and deflate inflation of scanned bodies, and the decoding of bytes to JSON, which is a parameter; the decoder's failures leave the counts as they are.
- Identifiers made by the router are parameters; logging, settings, the dashboard page, metrics and log events are not part of this model.
- Tool lists and tool_choice of the request converters, normalisation of tool-result content to text, image omission notes and the user and top-level parts of `convert_claude_messages_to_input`.
- ChatRefinement.StreamRefinesUnary: requires tidy fragments, where a call begins once the one before has its id and name, these do not change afterwards, and no arguments come before them; the converter drops earlier arguments (src/conversion/response_converter.py:253-258) and does not send a changed id.
- ResponsesRefinement.StreamRefinesUnary: requires tidy events, where output indices are distinct, whole arguments extend the deltas before them, and the terminal response has the text and the calls of its events, each call with an id.
- RequestPlan.ToolResultsFollowCalls: speaks of tool results in the message directly after the assistant's; a system message in between hides them from the loop (src/conversion/request_converter.py:110-123).
- ReasoningRoundTrip.ReasoningReturnsIff: is about one output and its return, with call ids that no later output uses again.
- RequestLog.RequestStore.Record: rows are typed; the coercion of an entry's fields to columns and a write that fails are not modelled.
- RequestMonitor.Monitor.FinishRequest: the three counters are values in ordered tables rather than shared objects updated in place; log events, which share the feed, are not modelled.
- ToolFolding.FoldToolAdditions: added tools are the supplied ones, which the code finds by object identity; values that are no strings are named by an uninterpreted text conversion.
- Pricing resolution, route descriptions, version bumps, header filtering and CONNECT parsing: each is one condition or one lookup.
