# Verified models of the serving stack's hard parts

AIServeWeave relays chat and workflow requests from a Gateway through a tunnel to Agents that manage model
runtimes. This project models the parts of it whose correctness is not visible in any one function, and proves
what they promise, over all inputs, all chunkings and all interleavings.

`dafny verify dfyconfig.toml` checks everything.

| modules | what they model |
|---|---|
| `ThinkSplitter`, `ThinkSplitterTheorems` | the streaming `<think>` parser and its agreement with one declared split of the whole reply |
| `Sse`, `ChatStream`, `ChatBytes` | the SSE reader, the chat stream decoder on top of it, and both together from bytes to text |
| `AnthropicStream`, `MessagesRequest`, `MessagesSpeech` | the Messages event loop against the complete message, and building a Messages request that says what the chat messages say |
| `Manager`, `ManagerTheorems`, `ManagerProgress`, `ManagerCalls`, `ManagerHistory`, `Health` | the runtime manager as a state machine, with its health machine |
| `Reload` | the configuration reconciler and its declarations |
| `Exposition`, `ExpositionParser`, `ExpositionTheorems`, `MetricsRegistry`, `Buckets` | the metrics printer, its parser, the series index, histogram buckets |
| `BoundedFilter`, `UpstreamHeader`, `TunnelErrors` | the bounded header filter and errors across the tunnel |
| `ChanStream` | the channel-backed stream |
| `Capabilities`, `NodeAccess` | capability evidence, and who may use a node |
| `Text`, `WhiteSpace`, `Runes`, `ByteOrder`, `Options` | Go strings, white space in their bytes, their characters, their order, optional values |

How the source is represented:

- A Go string is a sequence of characters, one per byte.
- Loops over slices and indices are methods with loops, and objects updated in place are classes; each is proved
  equal to a function of its inputs, and the theorems are about those functions. Map iteration picks keys in
  arbitrary order.
- Code under a mutex, a channel operation, and every start, cancel, wait or close is one atomic step of a state
  machine; what foreign code answers is chosen freely.
- JSON decoding, number texts, image URLs, UTF-8 validity and floating-point addition are parameters. The only assumption on them is
  `Exposition.Faithful`: a written number reads back and has no white space, brace or hash in it.
- A float64 is a real number, an infinity or NaN. Sizes are unbounded; what wraps, the 64-bit histogram counters and
  the int32 status, is written out.
- A client adding up a Messages stream is `AnthropicStream.AbsorbAll`: text is appended, a signature seals the
  reasoning received since the previous block, and a tool-call delta with a known index extends that call.

Where the code does less than its documentation says, the code is modelled, a concrete input is given and the
exact condition is proved:

- The think parser gives up at 64 held bytes, so the streamed and the whole split agree exactly when no chunk
  boundary lies after byte 64 and before the end of the opening tag; at most 58 blanks before the tag are always
  safe, and with 59 some chunking is not (`StreamedAgreesWithSplit`, `ShortLeadAlwaysAgrees`, `LongLeadCanDisagree`).
- A Messages stream adds up to the converted message exactly when every thinking block is signed and every redacted
  block has data; the stream drops the others, the conversion keeps them (`StreamAgreesWithMessage`,
  `UnsignedThinkingDiffers`).
- A Remove that deletes but reports an error leaves a runtime on the applied list that does not run and is not added
  again (`FailedRemovalLosesARuntime`). Everything applied runs as declared whatever fails, exactly when nothing that
  is to be removed is running and whatever is wanted again runs as declared (`SyncSurvivesEveryFailureIff`).
- A reload clears AllowUnavailable on what it remembers, so a declaration that asks for it is installed again by every
  reload; a second reload is idle exactly when no declaration installed by the first carried the flag
  (`FlagIsForgotten`, `CleanReloadAppliesAll`, `SecondReloadIsIdleIff`). No declaration of the Agent
  (service/aiServeWeaveAgent) does: config.go:224, main.go:208 and remoteproviders/remoteproviders.go:318 leave it unset,
  and main.go:381 and reload.go:181 set it only on the copy they install. For such lists the result is unconditional
  (`CleanReloadIsAFixedPoint`).
- Both tunnel ends branch on an error alike exactly when it carries at most one sentinel, where it is sent from, and
  label it alike exactly when its cancellation is the one sent; joined errors can differ in both (`BranchesAlikeIff`,
  `SameLabelIff`, `JoinedMayDisagree`).
- A thinking budget the caller gives is sent unchanged and may reach max_tokens (`BudgetFitsIff`,
  `BudgetMayReachTheLimit`).
- `Committed` can still be false when a receiver has its first item, exactly between the send and the flag
  (`FlagComesLate`, `CommittedMeansSent`).
- Label keys are injective on label sets without NUL, and every label set with a NUL collides with another
  (`LabelKeyInjective`, `NulCollides`).

## Model

| member | source | states |
|---|---|---|
| `ThinkSplitter.SplitInsideReassembles` | common/runtime/openai/reasoning.go:165-203 | The declared split loses nothing: reasoning, closing tag, newlines and answer put together are the body, no closing tag is left in the reasoning, and the answer starts with no newline |
| `ThinkSplitter.PartialSuffixSpec` | common/runtime/openai/reasoning.go:230-237 | The longest proper prefix of the tag that ends the text, and no longer one does |
| `ThinkSplitter.PartialSuffix` | common/runtime/openai/reasoning.go:230-237 | The scan computes that length |
| `ThinkSplitter.Parser.Turn` | common/runtime/openai/reasoning.go:165-203 | One turn of the push loop, in place, is one step of the specification |
| `ThinkSplitter.Parser.Push` | common/runtime/openai/reasoning.go:165-203 | Updating held text, phase and trim flag in place gives the specified parts and the specified next parser |
| `ThinkSplitter.Parser.Flush` | common/runtime/openai/reasoning.go:208-222 | Releases what is held to the side the phase says, and empties it |
| `ThinkSplitterTheorems.PushSettles` | common/runtime/openai/reasoning.go:165-203 | After every push at most 64 bytes are held while deciding, at most 7 inside the reasoning, none in the answer |
| `ThinkSplitterTheorems.FeedFuses` | common/runtime/openai/reasoning.go:165-203 | Pushing chunks one by one is pushing their concatenation, unless a cut comes too late |
| `ThinkSplitterTheorems.WholeReply` | common/runtime/openai/reasoning.go:257-265 | One push of a whole reply and a flush is the declared split |
| `ThinkSplitterTheorems.StreamedAgreesWithSplit` | common/runtime/openai/reasoning.go:165-237 | For every reply and chunking: pushes and flush give the declared split of the whole text if and only if no chunk boundary falls after byte 64 and before the end of the opening tag |
| `ThinkSplitterTheorems.LateCutDiffers` | common/runtime/openai/reasoning.go:165-203 | A cut that late always gives a different result |
| `ThinkSplitterTheorems.ShortLeadAlwaysAgrees` | common/runtime/openai/reasoning.go:165-237 | With at most 58 leading blanks every chunking agrees |
| `ThinkSplitterTheorems.LongLeadCanDisagree` | common/runtime/openai/reasoning.go:165-203 | With 59 or more before a tag some chunking does not |
| `ChatStream.SplitterFor` | common/runtime/openai/reasoning.go:246-251 | A parser starts undecided with a settled fallback, and a prefilled one never when the request turned thinking off |
| `ChatStream.SplitterIs` | common/runtime/openai/reasoning.go:151-159 | Which parser setting gives which parser, and that no other does |
| `ChatStream.SplitMessage` | common/runtime/openai/reasoning.go:257-265 | The in-place split of a whole message is the declared split, and a message with separated reasoning is left alone |
| `ChatStream.RelayOne` | common/runtime/openai/stream.go:167-190 | The loop body's use of the parser object: parser and event afterwards are the specified ones |
| `ChatStream.DecodeFrame` | common/runtime/openai/stream.go:155-194 | One frame: skipped when empty, an error when it does not decode, a stop when the consumer is gone, else exactly one event |
| `ChatStream.DecodeChatStream` | common/runtime/openai/stream.go:125-195 | The loop sends exactly the specified events and ends as specified, for every list of frames and every consumer |
| `ChatStream.FinishStream` | common/runtime/openai/stream.go:140-154 | At a clean end what is still held goes out as one last event |
| `ChatStream.RelayedText` | common/runtime/openai/stream.go:125-195 | The streamed text is the parser's outcome on the content before the backend separates reasoning, then everything after it unchanged: no held byte is lost |
| `ChatStream.StreamAgreesWithWhole` | common/runtime/openai/stream.go:125-195 | That text is the declared split of the content followed by the rest, if and only if no chunk boundary is cut too late |
| `ChatStream.StreamAgreesWithSplitMessage` | common/runtime/openai/stream.go:125-195 | For a backend that never separates reasoning and sends no content after the finish reason, the stream adds up to what splitMessage makes of the whole message if and only if no chunk boundary is cut too late |
| `ChatStream.ShortLeadIsCutInTime` | common/runtime/openai/reasoning.go:165-203 | With at most 58 leading blanks no boundary is |
| `ChatStream.FinishReleasesAll` | common/runtime/openai/stream.go:182-190 | Whatever follows a finish reason: everything up to it, held text included, comes out with it, and what follows is parsed on from the phase reached |
| `ChatStream.RelayedKeepsTheRest` | common/runtime/openai/stream.go:197-227 | One event per chunk with every field but the text as the chunk had it, and at most one more, with text only |
| `ChatStream.DecodedIsRelayed` | common/runtime/openai/stream.go:125-195 | On frames that all decode the decoder loop is the relay of their chunks, and ends normally |
| `ChatStream.EndsNormallyIff` | common/runtime/openai/stream.go:135-163 | A stream read to its end is normal if and only if every frame with data decodes and the input ends cleanly, and failed otherwise |
| `ChatStream.EndsInFailure` | common/runtime/openai/stream.go:152-163 | Before a failure everything decoded so far has been sent |
| `ChatStream.PatienceCuts` | common/runtime/openai/stream.go:191-193 | A consumer that closes early has got the first events of those it would have got, and is gone exactly when there were more |
| `ChatBytes.BytesTellTheReply` | common/runtime/openai/stream.go:125-227 | From bytes to text, told from the chunks' own fields: for every chunking, spelling of the fields, comments, line endings and unfinished last line, the decoded text is the split of the content before the backend separates reasoning, then the chunks' own reasoning and content, if and only if no chunk boundary is cut too late |
| `ChatBytes.BytesAgreeWithSplitMessage` | common/runtime/openai/stream.go:125-227 | For chunks that separate no reasoning and carry no content after a finish reason, the decoded text is what splitMessage makes of their concatenated content, if and only if no chunk boundary is cut too late |
| `ChatBytes.EventsCarryTheChunks` | common/runtime/openai/stream.go:197-227 | Every frame that decodes becomes one event with its chunk's id, model, role, tool calls, finish reason and usage |
| `Sse.RoundTrip` | common/runtime/openai/sse.go:45-139 | Any events, with comments anywhere, fields spelled with or without the space or bare, either line ending, and a last event without its blank line or even its line ending, read back as exactly what they mean, then a clean end |
| `Sse.FramesRoundTrip` | common/runtime/openai/sse.go:45-139 | Any list of frames printed as field lines, tight or spaced, reads back as itself up to the end marker |
| `Sse.GatherMeans` | common/runtime/openai/sse.go:66-90 | What the reader gathers from lines is the last value of each named field, all data values in order, and whether there was a field of any name |
| `Sse.FieldReads` | common/runtime/openai/sse.go:131-139 | Every spelling of a field reads as its name and value |
| `Sse.EventsFit` | common/runtime/openai/sse.go:45-92 | The data of every accepted event is shorter than a positive event limit |
| `Sse.FrameFits` | common/runtime/openai/sse.go:45-100 | The same for one frame, from the size counted line by line |
| `Sse.LongLineBreaks` | common/runtime/openai/sse.go:105-116 | A line that with its line ending is over a positive line limit breaks the frame off, terminated or not |
| `Sse.OversizeIsReported` | common/runtime/openai/sse.go:45-83 | After any good events, an event whose data passes the event limit ends the reading with the size error, and every event before it is still delivered |
| `Sse.Reader.ReadLine` | common/runtime/openai/sse.go:105-129 | Putting a line together from buffer-sized slices gives the next line of the input, for every buffer size, or the over-limit error |
| `Sse.Reader.ReadFrame` | common/runtime/openai/sse.go:45-92 | The loop over lines gives the next frame, the end, the end marker or the size error, and consumes exactly that |
| `Sse.Reader.FinishFrame` | common/runtime/openai/sse.go:94-100 | Gathered lines become a frame or the end marker |
| `AnthropicStream.DecodeStream` | common/runtime/anthropic/stream.go:107-222 | The event loop sends exactly the specified chat events and ends as specified |
| `AnthropicStream.CompleteIff` | common/runtime/anthropic/stream.go:112-215 | A stream read to its end is complete if and only if some event is a message_stop with no message_stop or error before it |
| `AnthropicStream.HowItEnds` | common/runtime/anthropic/stream.go:107-222 | Everything before the ending event is sent; the ending is complete or broken and nothing else |
| `AnthropicStream.PatienceCuts` | common/runtime/anthropic/stream.go:219-221 | A consumer that closes early has got the first events of those it would have got, and is gone exactly when there were more |
| `AnthropicStream.NoiseIsSkipped` | common/runtime/anthropic/stream.go:107-222 | Pings and unknown deltas change nothing that is sent |
| `AnthropicStream.CutTaken` | common/runtime/anthropic/stream.go:138-195 | One streamed block, of any kind and cut in any way, adds up to that block, `{}` standing for no tool input |
| `AnthropicStream.StreamAddsUp` | common/runtime/anthropic/stream.go:107-222 | What a consumer ends with for every message, cutting and noise |
| `AnthropicStream.StreamAgreesWithMessage` | common/runtime/anthropic/convert.go:419-442 | The stream adds up to toChatResponse of the complete message, in content, reasoning, signed blocks, tool calls, finish reason and token totals, if and only if every thinking block is signed and every redacted block has data |
| `AnthropicStream.UnsignedThinkingDiffers` | common/runtime/anthropic/stream.go:172-175 | A message with an unsigned thinking block: the stream gives its text and no block, the conversion a block with an empty signature |
| `AnthropicStream.FinishReasons` | common/runtime/anthropic/convert.go:397-409 | Which stop reason gives which finish reason |
| `AnthropicStream.TotalsAddUp` | common/runtime/anthropic/convert.go:372-374 | Prompt tokens count cached input too, the total is input and output, and id, model and role are the message's |
| `MessagesRequest.BuildRequest` | common/runtime/anthropic/convert.go:103-197 | The loops build the specified document, every field of it, or refuse |
| `MessagesSpeech.AcceptedIff` | common/runtime/anthropic/convert.go:103-197 | A request is accepted if and only if it has no seed or structured output, a positive limit, only messages that can be expressed, of which one says something, a known tool choice and no extra field that collides |
| `MessagesSpeech.DocumentSaysTheMessages` | common/runtime/anthropic/convert.go:118-174 | Told from the messages' own fields: the document alternates, has no empty message, and says in order the user's text and pictures, the assistant's signed reasoning, text and calls, and tool results as the user; the system prompt is the system and developer text |
| `MessagesSpeech.TurnIs` | common/runtime/anthropic/convert.go:118-161 | One message is refused exactly when it cannot be expressed, and otherwise contributes what its own fields say |
| `MessagesSpeech.BlocksStandInRole` | common/runtime/anthropic/convert.go:133-158 | Tool results stand under the user, calls and reasoning under the assistant |
| `MessagesSpeech.PassedThrough` | common/runtime/anthropic/convert.go:110-181 | Model, sampling, stop, stream flag, tools and extra fields are the caller's, with the empty object schema where a tool has none |
| `MessagesSpeech.ChoiceIs` | common/runtime/anthropic/convert.go:183-195 | Which tool choice is sent for which setting |
| `MessagesSpeech.LimitIs` | common/runtime/anthropic/convert.go:110-116 | max_tokens is the caller's, or 4096 on top of the thinking budget if any |
| `MessagesSpeech.ThinkingIff` | common/runtime/anthropic/convert.go:245-273 | When thinking is sent, disabled or left out |
| `MessagesSpeech.JoinIs` | common/runtime/anthropic/convert.go:174-174 | System texts are joined by a blank line between two of them |
| `MessagesRequest.DescribeTools` | common/runtime/anthropic/convert.go:175-181 | Every tool in order, with the empty object schema where none is given |
| `MessagesRequest.MergeExtra` | common/runtime/anthropic/convert.go:345-361 | All extra fields, or a refusal when one would replace a modeled field |
| `MessagesRequest.HearAll` | common/runtime/anthropic/convert.go:118-170 | The loop merges every turn, and stops at the first that cannot be expressed |
| `MessagesRequest.FindUnreplayable` | common/runtime/anthropic/convert.go:253-260 | The backward loop finds whether the last assistant turn called tools without replayable reasoning |
| `MessagesRequest.OneAlternation` | common/runtime/anthropic/convert.go:165-169 | There is only one such list of messages |
| `MessagesRequest.BudgetFits` | common/runtime/anthropic/convert.go:245-273 | An effort-derived budget lies between 1024 and max_tokens, any budget is below max_tokens when the caller gave none, a given max_tokens or budget is sent unchanged |
| `MessagesRequest.BudgetFitsIff` | common/runtime/anthropic/convert.go:261-272 | The budget is below max_tokens if and only if the caller did not ask for one that reaches its own limit |
| `MessagesRequest.BudgetMayReachTheLimit` | common/runtime/anthropic/convert.go:261-272 | An accepted request whose budget equals its max_tokens |
| `MessagesRequest.LevelIsSmallest` | common/runtime/types.go:421-431 | The effort derived from a budget is the lowest level whose budget is not below it, or the highest |
| `MessagesRequest.EffortLevelIs` | common/runtime/types.go:416-431 | A given effort stands, neither effort nor budget is no effort, and a budget alone is the lowest level that covers it, or the highest |
| `MessagesRequest.EffortSurvivesBudget` | common/runtime/types.go:421-452 | An effort turned into its budget and back is the same effort |
| `MessagesRequest.AnswerReplays` | common/runtime/anthropic/convert.go:206-217 | A converted answer sent back as the assistant's turn is its signed reasoning, its text and its tool calls, each in order: nothing signed is lost |
| `Manager.EventKeepsInv` | common/runtime/manager.go:109-447 | Every step of every call and loop keeps the ownership invariant |
| `ManagerTheorems.NeverClosedTwice` | common/runtime/manager.go:109-447 | In every run a Runtime is closed at most once, a registered one only after its loop has exited, and an open one is in the table or held by exactly one call |
| `ManagerTheorems.NothingIsLost` | common/runtime/manager.go:109-447 | With no call in flight every Runtime created is registered and open or closed exactly once |
| `ManagerTheorems.ClosedForever` | common/runtime/manager.go:376-415 | Once the manager is closed its table stays empty |
| `ManagerTheorems.IdsDisappearOnlyByRemoval` | common/runtime/manager.go:268-287 | A registered id disappears only by its own Remove or by Close |
| `ManagerTheorems.ReplaceSwapsAtOnce` | common/runtime/manager.go:229-265 | Replace puts the new instance under the id in the step that takes the old one out, and touches no other id |
| `ManagerTheorems.FrozenOnceClosed` | common/runtime/manager.go:292-298 | What an instance publishes never changes once its closed flag is set |
| `ManagerTheorems.ModelsComeWithHealth` | common/runtime/manager.go:501-526 | In every run a pending instance is unhealthy without models, and the step that ends this makes it healthy and publishes its models at once |
| `ManagerCalls.CallIsAccountedFor` | common/runtime/manager.go:109-265 | In every run, at every moment: an Add or Replace returns nil exactly when a Runtime it created, whose checks passed, entered the table under its id while the manager was open (for an Add: the id free) and its loop was started; every refusal has the reason returned, and then no step of the call touched the table |
| `ManagerCalls.AcceptedIsRegistered` | common/runtime/manager.go:207-219 | A Runtime whose checks passed is closed unregistered only if at its register step the manager was closed or, for an Add, its id taken |
| `ManagerCalls.RejectedIsClosed` | common/runtime/manager.go:152-192 | A Runtime whose checks failed is never registered and is closed when the call returns its error |
| `ManagerCalls.RemoveTakesOut` | common/runtime/manager.go:268-287 | Remove: a present id and no other is gone at once and its instance closed when the call returns nil; a missing id is reported and nothing changes |
| `ManagerCalls.ReplaceClosesTheOld` | common/runtime/manager.go:229-265 | Replace: the displaced instance is closed when the call returns nil |
| `ManagerCalls.CloseTakesAllOut` | common/runtime/manager.go:376-415 | Close: closed and empty at once, every instance of the table closed when the call returns; a second Close changes nothing |
| `ManagerCalls.AddAlone` | common/runtime/manager.go:109-131 | Add on an open manager with the id free and an accepted Runtime: after the call's own steps the id is in the table with that instance, its loop running, and the call has returned nil |
| `ManagerCalls.AddRegisters` | common/runtime/manager.go:109-131 | The same as a run that starts with the call |
| `ManagerCalls.EveryCallIsKept` | common/runtime/manager.go:109-415 | In every run the calls under way or done are the calls made, in order, and one that has taken no step stands where its caller put it |
| `ManagerCalls.WakingDoesTheCheck` | common/runtime/manager.go:422-447 | A loop that wakes does the check it woke for: a health check that counts, an initialization while pending, or a discovery, which a pending instance skips |
| `ManagerProgress.CallsCanFinish` | common/runtime/manager.go:109-447 | From every reachable state all calls in flight can finish without a new call: nothing deadlocks |
| `Health.Instance.DoHealthCheck` | common/runtime/manager.go:456-497 | The in-place update is the specified check, or the initialization while pending, and nothing once closed |
| `Health.Instance.RetryInitialization` | common/runtime/manager.go:501-526 | Initializes a pending instance only when Probe and Discover succeed and it is not closed |
| `Health.Instance.DoDiscoverRefresh` | common/runtime/manager.go:530-553 | Replaces the models of an open, initialized instance only |
| `Health.StateIsHistory` | common/runtime/manager.go:456-497 | After every history of checks the instance is unhealthy exactly when the last three-failure run came after the last two-success run |
| `Health.Counters` | common/runtime/manager.go:456-497 | The counters are the lengths of the trailing runs |
| `Health.ChangesArePaidFor` | common/runtime/manager.go:456-497 | Three checks per down and two per up never exceed the checks made, and downs and ups alternate |
| `ManagerHistory.HealthFollowsOwnChecks` | common/runtime/manager.go:422-553 | In every run of the manager an initialized instance is where the answers of its own health checks put it: state by the last run of three failures or two successes, counters by the trailing runs, changes paid for; a pending one has no answered check |
| `Reload.RuntimeReloader.Collect` | service/aiServeWeaveAgent/reload.go:124-213 | The loop collects local declarations, then every valid provisioned runtime with a new id |
| `Reload.RuntimeReloader.RetirePhase` | service/aiServeWeaveAgent/reload.go:124-213 | The removing loop makes the specified calls and remembers what failed |
| `Reload.RuntimeReloader.AdoptPhase` | service/aiServeWeaveAgent/reload.go:124-213 | The adding and replacing loop makes the specified calls, keeping the old declaration on failure |
| `Reload.RuntimeReloader.ApplyLocked` | service/aiServeWeaveAgent/reload.go:124-213 | The whole new state: applied list, fleet, changes and conflicts as specified, ids distinct, and the file declarations exactly those of the applied list that need one |
| `Reload.RuntimeReloader.Reload` | service/aiServeWeaveAgent/reload.go:85-100 | A file that does not load or validate changes nothing; otherwise the fleet is reconciled with it |
| `Reload.RuntimeReloader.ReloadRemote` | service/aiServeWeaveAgent/reload.go:108-115 | The last local declarations are reconciled again under the runtimes now provisioned |
| `Reload.ValidateDeclared` | service/aiServeWeaveAgent/reload.go:219-231 | Accepts exactly the lists with distinct ids and valid entries |
| `Reload.WantedIsDistinct` | service/aiServeWeaveAgent/reload.go:124-213 | The wanted list has distinct ids, starts with the local ones, and leaves out no valid provisioned id |
| `Reload.CurrentStaysDistinct` | service/aiServeWeaveAgent/reload.go:124-213 | Applied ids stay distinct and come from the old and new lists |
| `Reload.OthersUntouched` | service/aiServeWeaveAgent/reload.go:124-213 | Runtimes neither list names are never touched, whatever fails: no call names them and they run as before |
| `Reload.EachWantedSettles` | service/aiServeWeaveAgent/reload.go:124-213 | Every wanted runtime runs as wanted or, on failure, keeps its old runtime and declaration |
| `Reload.EachUnwantedGoes` | service/aiServeWeaveAgent/reload.go:124-213 | An unwanted runtime is gone afterwards and stays on the applied list exactly when its Remove failed |
| `Reload.FailedAdditionIsNotApplied` | service/aiServeWeaveAgent/reload.go:124-213 | A new runtime that could not be added is not on the applied list |
| `Reload.CleanReloadAppliesAll` | service/aiServeWeaveAgent/reload.go:124-213 | Without failures the applied list is exactly the wanted list, if and only if nothing installed asked for AllowUnavailable |
| `Reload.FlagIsForgotten` | service/aiServeWeaveAgent/reload.go:181-194 | A declaration with AllowUnavailable is remembered without it and replaced by the very same reload |
| `Reload.SecondReloadIsIdle` | service/aiServeWeaveAgent/reload.go:124-213 | Reloading what is applied makes no manager call and changes nothing |
| `Reload.SecondReloadIsIdleIff` | service/aiServeWeaveAgent/reload.go:124-213 | After a reload without failures the same reload makes no manager call if and only if nothing installed asked for AllowUnavailable |
| `Reload.CleanReloadIsAFixedPoint` | service/aiServeWeaveAgent/reload.go:124-213 | For declarations without that flag: a reload without failures applies exactly the wanted list, and the same reload again does nothing |
| `Reload.SyncIsKept` | service/aiServeWeaveAgent/reload.go:124-213 | Everything applied runs as declared after one reload if and only if no Remove failed and what was kept or could not be replaced ran as declared |
| `Reload.SyncSurvivesEveryFailureIff` | service/aiServeWeaveAgent/reload.go:124-213 | Everything applied runs as declared whatever fails, if and only if beforehand nothing that is to be removed runs and whatever is wanted again runs as declared |
| `Reload.FailedRemovalLosesARuntime` | common/runtime/manager.go:268-287 | A Remove that deletes and fails leaves a runtime that is applied, does not run and is not added again |
| `Reload.LocalDeclarations.Set` | service/aiServeWeaveAgent/registry.go:74-84 | The file declarations become exactly those of the list that need one |
| `Reload.LocalDeclarations.Add` | service/aiServeWeaveAgent/registry.go:91-101 | Adds a discovered declaration when its kind needs one, and leaves the file's alone |
| `Reload.LocalDeclarations.Withdraw` | service/aiServeWeaveAgent/registry.go:105-109 | Takes one discovered declaration away |
| `Reload.LocalDeclarations.Get` | service/aiServeWeaveAgent/registry.go:113-121 | The file's declaration shadows the discovered one |
| `Reload.DeclaredSpec` | service/aiServeWeaveAgent/registry.go:74-84 | For distinct ids, the declarations are exactly the entries that need one |
| `Reload.WantedIsDeclared` | service/aiServeWeaveAgent/reload.go:124-213 | While a reload is under way every wanted runtime is declared as wanted |
| `Exposition.WriteLabels` | common/metrics/exposition.go:246-278 | Appends the valid labels in byte order, whatever order the map yields them in, then the extra pair, or nothing |
| `Exposition.MetricNameIsValid` | common/metrics/exposition.go:311-325 | The byte loop accepts exactly the metric names of the format |
| `Exposition.LabelNameIsValid` | common/metrics/exposition.go:332-346 | The byte loop accepts exactly the label names of the format |
| `Exposition.HelpReads` | common/metrics/exposition.go:291-293 | Every help text reads back from its line |
| `Exposition.HeadTexts` | common/metrics/exposition.go:177-189 | The help and type lines of each kind |
| `Exposition.WriteHistogramSeries` | common/metrics/exposition.go:208-238 | Appends one line per bucket, the +Inf bucket, the sum and the count |
| `Exposition.WriteFamily` | common/metrics/exposition.go:177-202 | Appends help and type lines and every series in key order |
| `Exposition.RefreshedSpec` | common/metrics/exposition.go:149-171 | A scrape shows the goroutine, heap and conflict readings of its own moment and changes no other family |
| `Exposition.Render` | common/metrics/exposition.go:120-140 | After that refresh, the families in name order without those of invalid name, a function of the contents alone: rendering the same contents twice gives the same bytes |
| `ExpositionParser.ReadValue` | common/metrics/parse.go:113-137 | The byte builder loop reads one quoted value, its three escapes and an unclosed end |
| `ExpositionParser.ReadLabels` | common/metrics/parse.go:97-144 | The index loop reads every pair, a later one of the same name winning, or reports the first malformed one |
| `ExpositionParser.ReadSample` | common/metrics/parse.go:59-89 | One line with or without braces, or an error |
| `ExpositionParser.ParseExposition` | common/metrics/parse.go:35-54 | All samples in order, or an error at the first bad or over-long line |
| `ExpositionTheorems.UnquoteEscaped` | common/metrics/exposition.go:299-301 | Every value, escaped and closed, reads back as itself and leaves the rest |
| `ExpositionTheorems.PairsParse` | common/metrics/parse.go:97-144 | What stands between the braces reads back pair by pair |
| `ExpositionTheorems.WrittenWithBound` | common/metrics/exposition.go:246-278 | A bucket's bound is the `le` that is read back, even over a series label of that name |
| `ExpositionTheorems.LineReads` | common/metrics/parse.go:35-89 | A written line that fits reads back as what it says; one that does not is an error |
| `ExpositionTheorems.ParseInvertsRender` | common/metrics/parse.go:26-54 | For every registry and arbitrary label values, parsing the rendering gives exactly its samples in order if every line is under 1 MiB, and an error otherwise |
| `MetricsRegistry.MakeLabelKey` | common/metrics/registry.go:459-476 | The loop over sorted keys builds the label key |
| `MetricsRegistry.LabelKeyInjective` | common/metrics/registry.go:459-476 | No two NUL-free label sets share a key |
| `MetricsRegistry.NulCollides` | common/metrics/registry.go:459-476 | Every label set with a NUL shares its key with another set |
| `MetricsRegistry.KindForLife` | common/metrics/registry.go:178-260 | Over every interleaving a name keeps its kind and a key its labels |
| `MetricsRegistry.CallsAreAtomic` | common/metrics/registry.go:178-222 | Whatever others do between the read and the write section, the call behaves as if it ran in one piece |
| `MetricsRegistry.StaysIndexed` | common/metrics/registry.go:239-260 | Every series stays under the key of its own labels, and described names keep their described kind |
| `MetricsRegistry.SeriesOfTheseLabels` | common/metrics/registry.go:239-260 | After every run of callers with NUL-free labels, the series found or created for a label set is the series of exactly those labels, and stays so |
| `MetricsRegistry.RenderedAreKeyed` | common/metrics/registry.go:239-260 | What a registry renders after any run is keyed by the label keys of its series |
| `MetricsRegistry.SnapshotIsKeyOrder` | common/metrics/registry.go:268-313 | Sorting a family's series by their sort keys has one result, the walk over its entries by key that is rendered |
| `Buckets.SortFloats` | common/metrics/description.go:161-167 | The in-place insertion sort sorts and permutes |
| `Buckets.DedupeInPlace` | common/metrics/description.go:145-152 | Writing over the slice being read leaves exactly the distinct values |
| `Buckets.NormalizeBuckets` | common/metrics/description.go:136-153 | Strictly ascending, and exactly the finite values given |
| `Buckets.FloatOrder` | common/metrics/registry.go:367-385 | The comparison buckets are filled by is a total order on all values but NaN, which is in no order |
| `Buckets.Distribution.Observe` | common/metrics/registry.go:367-385 | After any observations every bucket counts those at or below its bound, modulo 64 bits, count is their number and sum is what the additions give in order; NaN changes nothing |
| `Buckets.Distribution.Snapshot` | common/metrics/registry.go:393-399 | Until the counters wrap, counts grow with the bounds and never exceed the total |
| `Buckets.CountsAreCumulative` | common/metrics/registry.go:367-385 | The same of every history |
| `BoundedFilter.Filter` | common/runtime/messages_upstream.go:102-138 | The nested loops keep exactly what the specification keeps, break and skip included |
| `BoundedFilter.PassedIsAdmissible` | common/runtime/messages_upstream.go:102-138 | What passes is within the name, value and byte budgets, whatever comes in |
| `BoundedFilter.AdmissibleIsKept` | common/runtime/messages_upstream.go:102-138 | What is within them passes whole, in whatever order it is walked |
| `UpstreamHeader.SanitizeUpstreamHeader` | common/runtime/messages_upstream.go:102-138 | The filter with the source's own name and value rules |
| `UpstreamHeader.SanitizedIsInOrder` | common/runtime/messages_upstream.go:102-138 | Only canonical, allowed names with clean values pass, within every bound, and nothing the Connection header marked |
| `UpstreamHeader.NothingLeaks` | common/runtime/messages_upstream.go:54-91 | No excluded, hop-by-hop or CORS name passes, and no value with a carriage return or line feed |
| `UpstreamHeader.KeptWholeIff` | common/runtime/messages_upstream.go:102-138 | A header set passes unchanged if and only if it is in order |
| `UpstreamHeader.InOrderIff` | common/runtime/messages_upstream.go:54-128 | What passes whole, told without the filter: canonical, valid, allowed names, one to sixteen clean values each, 128 names and 32 KiB in all |
| `UpstreamHeader.CapitalizedAt` | common/runtime/messages_upstream.go:119-119 | A canonical name is upper case at its start and after a dash and lower case elsewhere |
| `UpstreamHeader.UpstreamHeaderName` | common/runtime/messages_upstream.go:72-82 | The byte loop accepts exactly the names of 1 to 256 token bytes |
| `UpstreamHeader.UpstreamHeaderValue` | common/runtime/messages_upstream.go:84-91 | The byte loop accepts exactly the values without control bytes other than the tab |
| `UpstreamHeader.SanitizeIsIdempotent` | common/runtime/messages_upstream.go:102-138 | Filtering twice is filtering once |
| `UpstreamHeader.UpstreamHeaderToProto` | common/tunnelwire/messages.go:87-99 | The filtered headers in canonical name order |
| `UpstreamHeader.UpstreamHeaderFromProto` | common/tunnelwire/messages.go:105-114 | Repeated names put together, then filtered |
| `UpstreamHeader.HeaderRoundTrip` | common/tunnelwire/messages.go:87-114 | Crossing the tunnel is filtering once, and crossing again changes nothing |
| `UpstreamHeader.RestoredIsInOrder` | common/tunnelwire/messages.go:105-114 | Whatever a peer sends, what is restored is in order |
| `TunnelErrors.NameRestores` | common/tunnelwire/wire.go:621-669 | A sentinel's wire name restores that sentinel, and no name none |
| `TunnelErrors.FirstKnownSpec` | common/tunnelwire/wire.go:659-669 | The name sent is that of the first listed sentinel the error carries |
| `TunnelErrors.UpstreamIsStable` | common/tunnelwire/messages.go:120-142 | An upstream answer projected, restored and projected again is the same |
| `TunnelErrors.WireErrorIsStable` | common/tunnelwire/wire.go:679-744 | For every error, projecting, restoring and projecting again gives the same wire error |
| `TunnelErrors.BranchesAlikeIff` | common/tunnelwire/wire.go:724-744 | errors.Is answers alike on both ends for every sentinel if and only if the error carries at most one, where it is sent from |
| `TunnelErrors.SameLabelIff` | common/tunnelwire/result.go:50-89 | Both ends give an error the same label if and only if its cancellation is the one sent |
| `TunnelErrors.ChainsCrossUnchanged` | common/tunnelwire/result.go:50-89 | Every linear chain is labelled and branched on alike |
| `TunnelErrors.JoinedMayDisagree` | common/tunnelwire/result.go:50-89 | A joined error that is cancelled here and not on the far side, where errors.Is answers differently too |
| `TunnelErrors.LabelsAre` | common/tunnelwire/result.go:50-89 | Which label every error gets, by the code of its first RuntimeError or the deadline or cancellation it carries |
| `TunnelErrors.CrossedDetail` | common/tunnelwire/wire.go:679-744 | Every field of a RuntimeError crosses, the status as 32 bits, no negative wait, the upstream answer filtered once |
| `TunnelErrors.ReceivedUpstream` | common/tunnelwire/messages.go:133-142 | Whatever a peer sends, an upstream answer is taken exactly when its status is between 100 and 999, with headers in order and a valid body or none |
| `TunnelErrors.NoTextCrosses` | common/tunnelwire/wire.go:699-722 | Of any other error only its class crosses, with one of three fixed messages |
| `TunnelErrors.FirstRuntimeIsFirst` | common/tunnelwire/wire.go:684-685 | The RuntimeError sent is the first met: outer before inner, earlier before later |
| `ChanStream.RunKeepsInv` | common/runtime/stream.go:58-143 | Every state of every run keeps the invariant |
| `ChanStream.NothingIsLost` | common/runtime/stream.go:58-136 | Items received followed by items buffered are the items sent, and no step would panic |
| `ChanStream.EndComesLast` | common/runtime/stream.go:105-136 | A producer-side end is seen only when everything sent was received, carries the recorded error, and both stay so |
| `ChanStream.CommittedStays` | common/runtime/stream.go:95-99 | Committed never goes back |
| `ChanStream.CommittedMeansSent` | common/runtime/stream.go:58-99 | Committed only after an item entered the channel, and exactly then except between the send and the flag |
| `ChanStream.FlagComesLate` | common/runtime/stream.go:58-68 | A receiver can have an item before Committed is true |
| `ChanStream.WhoWaits` | common/runtime/stream.go:58-143 | A receiver waits only on an open, empty stream, a sender only on an open, full one |
| `ChanStream.SendThenReceive` | common/runtime/stream.go:58-136 | Items go through the buffer first in, first out |
| `ChanStream.SendHandsOver` | common/runtime/stream.go:58-68 | An item sent to a waiting receiver is received and the stream committed |
| `ChanStream.EndIsTold` | common/runtime/stream.go:105-136 | Once everything is received a receiver is told the recorded end |
| `ChanStream.GivenUpIsOver` | common/runtime/stream.go:54-68 | After a Send that found the stream closed the producer never sends or closes again |
| `ChanStream.WithdrawnMayClose` | common/runtime/stream.go:70-93 | After its context ended a producer cannot send, and can close once |
| `ChanStream.ClosedIff` | common/runtime/stream.go:138-143 | The consumer's side is closed exactly when Close was called |
| `ChanStream.EachIsToldOnce` | common/runtime/stream.go:118-136 | Over every run, each receiver that finds the stream ended is told once |
| `Capabilities.Merge` | common/runtime/capability.go:190-216 | The two loops give, for every capability, what the sets in turn say |
| `Capabilities.MergeIsMaximum` | common/runtime/capability.go:190-231 | The outcome is the maximum of source priority, then conservative level |
| `Capabilities.Precedence` | common/runtime/capability.go:106-134 | Configuration before endpoint before metadata before profile; unsupported before supported before unknown |
| `Capabilities.OverridesDecide` | common/runtime/capability.go:106-134 | Configuration decides wherever it speaks, and any refusal in it is a refusal |
| `Capabilities.OrderDoesNotMatter` | common/runtime/capability.go:190-231 | Source, level and verdict do not depend on the order of the sets |
| `Capabilities.GroupingDoesNotMatter` | common/runtime/capability.go:190-231 | Nor on merging them in groups first |
| `Capabilities.Intersect` | common/runtime/capability.go:238-253 | The two loops give the specified set |
| `Capabilities.IntersectNeverGrantsMore` | common/runtime/capability.go:238-253 | What either side rules out stays refused; granted exactly when the model, or in its silence the runtime, supports it and the runtime does not rule it out |
| `Capabilities.EmbeddingsGate` | common/runtime/ollama/runtime.go:394-416 | An Ollama model passes the embeddings gate if and only if it reports embeddings and the runtime does not rule them out, whatever profile and overrides say |
| `Capabilities.WordsGrant` | common/runtime/ollama/runtime.go:42-48 | Which word of a capability list grants which capability |
| `NodeAccess.MintReadsBack` | common/nodeaccess/nodeaccess.go:194-204 | Every minted id reads back to exactly its tenant |
| `NodeAccess.OwnerIff` | common/nodeaccess/nodeaccess.go:214-231 | A node belongs to a tenant exactly when its id can be minted for it |
| `NodeAccess.ValidIdIff` | common/nodeaccess/nodeaccess.go:258-263 | An id is valid exactly when it has 1 to 128 bytes and none of its characters is white space or a control character |
| `NodeAccess.LowerHexIff` | common/nodeaccess/nodeaccess.go:194-256 | The suffixes accepted are exactly what 16 random bytes are written as |
| `Runes.TrimTakesTheSpace` | common/nodeaccess/nodeaccess.go:149-168 | Trimming an id takes exactly the Unicode white space around it |
| `NodeAccess.PolicyFor` | common/nodeaccess/nodeaccess.go:117-127 | The sorted list of the nodes whose bindings leave the tenant out |
| `ByteOrder.LessIff` | common/nodeaccess/nodeaccess.go:117-127 | The order lists are sorted by is byte order: a proper prefix first, otherwise the first byte that differs decides |
| `NodeAccess.PermitsIsTheRule` | common/nodeaccess/nodeaccess.go:239-244 | Permits with that policy is the plain rule: the owner alone under the reserved prefix, else every non-empty binding of the node names the tenant |
| `NodeAccess.NormalizeTenants` | common/nodeaccess/nodeaccess.go:149-168 | The loop gives the specified list or refuses |
| `NodeAccess.NormalizeIsIdempotent` | common/nodeaccess/nodeaccess.go:149-168 | Normalizing again changes nothing |
| `NodeAccess.SameSetSameList` | common/nodeaccess/nodeaccess.go:149-168 | Lists that name the same trimmed ids normalize alike |

## Left out

- HTTP, gRPC, TLS, HPKE, hashing, protobuf bytes and JSON text: foreign code; the models start from decoded values.
- Timers, the idle watchdog, jitter, logging and read errors other than a broken stream: a loop may wake at any moment, and a stream may end uncleanly.
- The messages of errors, and which of several refusals applies: a refusal is one outcome.
- Manager: its calls are steps on a value rather than methods of an object, since they interleave; a Close that returns early because its context ends is not modelled, its cleanup, which goes on, is.
- Reload: the manager changes only by the reloader's own calls; local discovery, the ComfyUI supervisor and shutdown also call it and are not modelled here.
- Setting and adding to counters and gauges (an atomic store and a compare-and-swap loop) and merging catalogues of descriptions are not modelled.
- The Ollama show cache and how a model's capability list is fetched: the list is an input.
- How imageFromURL and namedTool read their text, and the JSON encoding of a Messages request, are not modelled.
- The request side of the OpenAI adapter (applyReasoning, effort names) is not modelled.
- The Gateway, the tunnel server, the Registry stores, the hosted, vLLM, SGLang and TokenSpeed adapters, the wire mirrors of requests and responses, and the Console: wiring, tables and user interface.
