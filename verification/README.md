# Kram: a verified model of the gateway and its neighbours

This project models the decision-making core of Kram in Dafny 4.11 and proves what that core keeps over whole
requests, whole runs and all interleavings. `dafny verify dfyconfig.toml` checks everything.

## What is modelled

**The gateway request engine.** A request is ranked, then candidates are tried in order. A stream is peeked until a
decisive signal; a buffered answer is drained and gated. One attempt is committed or accepted, and only its real end
reaches breaker, telemetry and the router's memory. `Streaming` holds the peek, the drain and the gate; `Gateway` the
attempt executor as a class over the shared registries, specified by the frames and effects of a request; `Requests`
what a client sees; `Reports` and `Feedback` what client, telemetry and breakers are told of each attempt, in terms of
what its provider answered; `Accounting` what the registries add up to, for one request and for concurrent ones;
`Trials` who is attempted and what becomes of a granted trial that is not; `Breaker` the timed per-provider state
machine and the history it refines; `Telemetry` the counters. Provider streams, clock readings, idle expiries and
cancellations are inputs: a script is the order in which a select's picks happen.

**Routing.** `Ranking` holds stable sorting, promotion and the strategies without scores; `Scoring` weights and factors
over the reals; `Sticky` the bounded table of run pins against its history; `Weighted` the scoring strategy with Smart
Sticky, random draws being parameters; `StickyRuns` joins a finished request to the next rankings of its run.

**Tool-call history.** `ToolHistory` repairs a durable conversation, `ToolPairing` and `ToolOrder` prove the repair
closes it, adds only placeholders, keeps order and is idempotent, `ToolSurvivors` what it keeps of each message,
`ToolAdjacency` that results stay directly behind their calls; `Translation` carries it through system-message merging
and the Anthropic and Responses formats, `Wire` that every word arrives there; `ToolCalls` reassembles calls from
interleaved fragments. Whether a text is a JSON object is a parameter that holds for `{}`.

**The LSP client.** `Framing` prints and parses Content-Length frames (LSP 3.17, "Base Protocol"); `LspClient` is the
request and reply correlation protocol (JSON-RPC 2.0, section 5) as a state machine whose steps interleave freely,
with the class that performs them.

**Two smaller cores.** `Permission` is the most-specific-last-wins evaluator with its grants; `CustomProviders` the
slug, id and credentials-key allocator.

`OpenAI`, `Options`, `Text`, `Decimal`, `Sets` and `Sorting` hold shared vocabulary. Classes carry a ghost log or
effects sequence that `Valid()` ties to the real fields; their methods say how that sequence grows, and the lemmas
beside them say what follows for every sequence.

## Where the code and its comments disagree

The model follows the code.

- `internal/openai/types.go:318-321` says the error body's retryable flag reflects the last attempt;
  `internal/server/chat.go:219-224` sets it when any attempt was retryable (`Requests.FlagIsNotLast`; exact condition
  in `Requests.FlagIsLastIff`).
- `internal/permission/evaluator.go:79-82` says a fully denied tool can never be anything but denied; one narrow Deny
  rule already makes `FullyDenied` true (`Permission.NarrowRuleLooksFull`; exact condition in
  `Permission.DeniedForAllSubjects`).
- `internal/permission/evaluator.go:19-21` says approving a call "always" stops it from being asked about again. A
  chained bash command is asked about every time (`Permission.ChainedGrantStillAsks`), and an approved `*` loses to a
  narrower policy rule (`Permission.StarGrantStillAsks`); exact condition in `Permission.GrantStopsAskingIff`.
- `internal/permission/grants.go:10-14` says a grant remembers exactly one subject; an approved subject that ends in
  `*` or is empty is read as a pattern (`Permission.GrantIsExactIffLiteral`).
- `internal/provider/openai_responses.go:343-345` says a done event does not repeat assembled arguments. It does after
  a late header without arguments (`ToolCalls.LateHeaderDuplicates`) and after another done event
  (`ToolCalls.SecondDoneDuplicates`); exact condition in `ToolCalls.DoneRepeatsIffForgotten`. It also says complete
  arguments may come only in the done event; one empty delta before it drops them (`ToolCalls.EmptyDeltaLosesDone`;
  exact condition in `ToolCalls.DoneIsLostIffEmptyDelta`).
- `internal/openai/failure.go:108-114` says a cancelled call, or a request rightly refused, is no evidence against a
  provider; `internal/server/chat.go:115-128` reports every uncommitted peek as a rejection, error events and
  cancellation included, so both count when they arrive on a stream being peeked
  (`Accounting.CancellationCountsWhenStreaming`; exact condition in `Accounting.BreakerHearsIff`).
- `internal/router/candidate.go:44-52` asks every breaker before it checks capabilities, and the request stops at its
  first winner, so a half-open trial can be granted and never attempted (`Trials.TrialIsBurnt`; exact condition in
  `Trials.GrantedIsAttemptedIff`, and what it costs in `Trials.UnattemptedTrialWaits` and `Breaker.TrialHoldsTheSlot`).
- `internal/customprovider/store.go:138-141` keeps a new entry in memory when saving it fails.

## Model

| member | source | states |
|---|---|---|
| `Breaker.Resolve` | internal/breaker/breaker.go:75-87 | Non-positive settings become 3 failures and 30 seconds; positive ones are kept. |
| `Breaker.RefinesHistory` | internal/breaker/breaker.go:89-170 | After any history the entry is what the history alone determines: closed iff fewer than threshold failures followed the last success, half-open iff a request was admitted since the last failure, `trialAt` set iff half-open. |
| `Breaker.AllowRefinesHistory` | internal/breaker/breaker.go:114-138 | `Allow` answers as a one-line history rule does: healthy, or a whole cooldown has passed since the last failure or admission. |
| `Breaker.NeverWedged` | internal/breaker/breaker.go:114-138 | From every reachable state a request is admitted after a cooldown without events, so a trial whose outcome is never reported cannot block a provider for good. |
| `Breaker.SuccessHeals` | internal/breaker/breaker.go:141-170 | After a success the breaker is closed as long as fewer than threshold failures are reported, and not with one more, whatever came before the success. |
| `Breaker.TrialsAreSpaced` | internal/breaker/breaker.go:114-170 | While no success is reported, the i-th and j-th admissions of an unhealthy provider are at least (j - i) cooldowns apart and the first comes a cooldown after the last mark, with late or missing failure reports allowed. |
| `Breaker.Registry.constructor` | internal/breaker/breaker.go:75-87 | An empty registry with the resolved configuration. |
| `Breaker.Registry.Get` | internal/breaker/breaker.go:89-105 | Registers a fresh closed entry on first use and leaves every other entry alone. |
| `Breaker.Registry.Allow` | internal/breaker/breaker.go:114-138 | The answer is the history rule for that provider, and the history grows by this question and answer. |
| `Breaker.Registry.ReportSuccess` | internal/breaker/breaker.go:141-148 | The provider's history grows by a success; the entry stays the one the history determines. |
| `Breaker.Registry.ReportFailure` | internal/breaker/breaker.go:153-170 | The provider's history grows by a failure; the entry stays the one the history determines. |
| `Breaker.Registry.IsOpen` | internal/breaker/breaker.go:173-179 | Reports whether the history calls for the open state. |
| `Breaker.Registry.IsHalfOpen` | internal/breaker/breaker.go:184-189 | Reports whether the history calls for the half-open state. |
| `Streaming.BoundedPeek` | internal/router/stream.go:88-149 | The loop stops at the first decisive signal, with its verdict, its reason and everything read so far buffered. |
| `Streaming.PeekDecides` | internal/router/stream.go:88-142 | Nothing before the last signal read was decisive; the peek commits iff that signal is a meaningful event, and otherwise its reason names why. |
| `Streaming.PeekCommitsIff` | internal/router/stream.go:98-142 | On every script the peek commits iff, while it still waits, text arrives or a terminal event with tool calls; it waits while no error, end, timer or cancellation came and fewer than eight events were blank in text, reasoning and progress. |
| `Streaming.PeekExhaustedIff` | internal/router/stream.go:118-134 | A waiting peek gives up exactly at the eighth event that is blank in all three. |
| `Streaming.ThinkingIsPatience` | internal/router/stream.go:118-130 | Any number of events with reasoning or tool-call progress never use up the peek's patience: the first text behind them commits. |
| `Streaming.PeekReasons` | internal/router/stream.go:102-139 | The reason of a rejection, by the signal that ended a peek still waiting. |
| `Streaming.PeekClosed` | internal/router/stream.go:99-102 | A stream that closes while the peek still waits is rejected for that. |
| `Streaming.DrainToBuffer` | internal/server/chat.go:288-306 | Content is the deltas through the terminal event, usage the last one reported, calls and items those of `Done`; an error discards everything. |
| `Streaming.NonEmptyMeansMeaningful` | internal/router/gate.go:40-60 | A reject-empty gate accepts a drained answer iff a meaningful event is among those consumed. |
| `Streaming.GateAcceptsIff` | internal/router/gate.go:40-60 | For every configuration: accepted iff terminal if asked, non-blank or calling tools if asked, long enough or calling tools if asked, and holding none of the non-empty forbidden texts anywhere. |
| `Streaming.PeekAgreesWithGate` | internal/router/stream.go:98-142 | On every stream that drains without error the peek commits iff a reject-empty gate accepts and fewer than 8 silent events precede the first meaningful one. |
| `Telemetry.CountersCount` | internal/telemetry/telemetry.go:58-71 | A provider's request and failure counters count exactly its recorded attempts and failures. |
| `Telemetry.RateInRange` | internal/telemetry/telemetry.go:109-111 | The success rate lies in [0, 1] iff no failure is counted without its request. |
| `Telemetry.SnapshotSays` | internal/telemetry/telemetry.go:93-116 | The success rate is the share of recorded attempts without a recorded failure, token counters are totals of what was recorded, the average latency is the mean of the recorded ones rounded toward zero. |
| `Telemetry.Registry.Update` | internal/telemetry/telemetry.go:39-90 | Each recording call changes its own provider's counters only. |
| `Telemetry.Registry.Snapshot` | internal/telemetry/telemetry.go:93-116 | Statistics of every known provider, computed from the calls recorded for it. |
| `Gateway.ResponseWriter.Write` | internal/server/chat.go:363-372 | Frames reach the client in the order they are written. |
| `Gateway.Server.EligibleCandidates` | internal/router/candidate.go:40-62 | Every provider's breaker is asked, in declared order; the candidates are those granted and capable, each with the statistics telemetry recorded for it (zero for an unknown provider) and its half-open state. |
| `Gateway.Server.DoMarkFailure` | internal/server/chat.go:258-265 | A failure counts against the breaker only for the classes that count, and always against telemetry. |
| `Gateway.Server.DoMarkRejection` | internal/server/chat.go:274-278 | A rejection always counts against both. |
| `OpenAI.CountsAgainstBreakerIff` | internal/openai/failure.go:62-122 | A failure counts against the breaker iff it was no cancellation and either timed out or had a status other than 400, 404 and 422. |
| `OpenAI.RetryableIff` | internal/openai/failure.go:62-106 | A failure is worth retrying iff it was no cancellation and timed out, reached no upstream, or had status 429 or at least 500. |
| `OpenAI.ClassOf` | internal/openai/failure.go:62-93 | Cancelled and timed-out calls are classed by their kind, every other by its status. |
| `Gateway.Server.HandleEvent` | internal/server/chat.go:433-459 | A non-terminal event is forwarded; a terminal one settles the attempt and writes the final chunk. |
| `Gateway.Server.CloseTruncated` | internal/server/chat.go:496-505 | A channel that closes on its own ends in an explicit error, with the failure reported. |
| `Gateway.Server.StreamResponse` | internal/server/chat.go:352-511 | Buffered events are replayed, the rest relayed, the attempt settled exactly once. |
| `Gateway.Server.Try` | internal/server/chat.go:103-177 | One attempt has exactly the effects of its verdict. |
| `Gateway.Server.Gated` | internal/server/chat.go:152-188 | A drained answer is charged, gated and then rejected or accepted. |
| `Gateway.Server.Handle` | internal/server/chat.go:93-192 | A whole request writes the frames and performs the effects of the request specification on the shared registries. |
| `Requests.RelayedIsDirect` | internal/server/chat.go:461-511 | Without keep-alives a relayed stream is the direct forwarding of its events. |
| `Requests.TranscriptIsDirect` | internal/server/chat.go:98-141 | A streaming client sees one error body, or the first committed candidate's whole stream forwarded directly; nothing lost, repeated or taken from another provider. |
| `Requests.SplitInvisible` | internal/router/stream.go:88-149 | Replaying what the peek buffered and reading on gives back the stream's events, wherever the peek ended. |
| `Requests.DirectShape` | internal/server/chat.go:413-459 | The transcript is role, text, one final chunk, end marker; the final chunk and the last trail entry report success iff `Done` was reached. |
| `Requests.ReachesDoneIsLast` | internal/server/chat.go:433-459 | A stream reaches `Done` before any error iff the last consumed event is an error-free `Done`. |
| `Requests.StreamedMatchesBuffered` | internal/server/chat.go:288-331 | Streaming and buffering give the client the same text, calls and items, and the same usage iff the last event reports it or none does; on a truncated stream the stream path reports an error and no usage. |
| `Requests.ReplyIsFirstAccepted` | internal/server/chat.go:143-192 | A non-streaming client gets one reply: the first answer the gate accepts, or one error body; its usage is the sum over the whole trail, rejected attempts included. |
| `Requests.OfferedIffGrantedAndCapable` | internal/router/candidate.go:43-59 | A provider is offered iff its breaker granted and it is capable, in declared order with its declared position. |
| `Requests.OfferedAreInformed` | internal/router/candidate.go:43-62 | Every candidate carries its provider's recorded statistics and configured hint, and counts as half-open iff its grant was a trial. |
| `Breaker.TrialHoldsTheSlot` | internal/breaker/breaker.go:114-170 | Whatever is asked and reported after an admitted trial, a later request is admitted iff the provider recovered (a success with fewer than threshold failures after it) or a cooldown has passed since the trial and since every failure report and admission that followed. |
| `Requests.FlagIsLastIff` | internal/server/chat.go:216-224 | The error body's retryable flag is the last attempt's own iff that attempt can be retried or no earlier one can. |
| `Requests.FlagIsNotLast` | internal/server/chat.go:216-224 | A concrete ranking, rate limit then missing model, whose flag is set although the last attempt cannot be retried. |
| `Reports.TrailTells` | internal/server/chat.go:98-189 | Every trail entry says what became of that attempt: latency, outcome, status, class, reason and cost, by what the provider answered. |
| `Reports.ErrorBodyTells` | internal/server/chat.go:191-237 | An error body names the combo, lists every attempt, and carries the last one's error, class and waiting time. |
| `Reports.UsageIsSum` | internal/server/chat.go:152-156 | A buffered reply's usage is, meter by meter, the sum over the attempts of its trail. |
| `Reports.FinalTells` | internal/server/chat.go:409-459 | The last chunk carries the calls, items and usage of `Done` and asks for the calls iff there are any; any other end aborts and carries nothing. |
| `Reports.ForwardsTell` | internal/server/chat.go:441-445 | Every error-free event with text or reasoning becomes one chunk, text before reasoning, in order; nothing else is sent in between. |
| `Reports.TicksAreSent` | internal/server/chat.go:479-495 | A relay sends one keep-alive for each tick. |
| `Feedback.TelemetryIsTold` | internal/server/chat.go:98-189 | Telemetry is told every attempt's latency once, in order, and the tokens of every drained answer and every stream that reached `Done`. |
| `Feedback.BreakerIsTold` | internal/server/chat.go:98-189 | A provider's breaker hears of its attempts in order and at the time each failed or ended: a success, a failure that counts, any failure to commit or to pass the gate, or nothing. |
| `Trials.TrailEnds` | internal/server/chat.go:98-189 | A trail ends with the first contender that is committed or accepted. |
| `Trials.AttemptedIff` | internal/server/chat.go:98-189 | A provider is attempted iff it is ranked and nothing ranked before it is committed (streaming) or accepted (buffered). |
| `Trials.GrantedIsAttemptedIff` | internal/router/candidate.go:43-59 | A provider whose breaker granted is attempted iff it is capable and nothing ranked before it is committed or accepted; a pool may name a provider twice. |
| `Trials.AttemptedWasCleared` | internal/router/candidate.go:43-59 | Nobody is attempted whose breaker did not grant or who lacks what the request needs. |
| `Trials.EveryAttemptWasCleared` | internal/router/candidate.go:43-59 | At every moment of every interleaving of requests, whoever has been attempted was granted and capable for a request that attempted it. |
| `Trials.UnattemptedIsSilent` | internal/server/chat.go:98-189 | A request reports nothing to the breaker of a provider it did not attempt. |
| `Trials.UnattemptedTrialWaits` | internal/router/candidate.go:44-52 | After a trial granted and not attempted, its breaker hears nothing more of the request and the next one is admitted iff a cooldown has passed since the last grant. |
| `Trials.GrantIsLastWord` | internal/router/candidate.go:44-52 | For a provider the pool names once, that grant is the only thing its breaker hears of the request. |
| `Trials.TrialIsBurnt` | internal/router/candidate.go:43-59 | A concrete request grants a capable provider its trial, offers and ranks it, and never attempts it. |
| `Accounting.TrailIsBooked` | internal/server/chat.go:98-189 | Provider by provider, telemetry, breakers and the router are told exactly what the trail shows: attempts, failures, wins, breaker successes and breaker failures of the classes that count. |
| `Accounting.TrailIsTruthful` | internal/server/chat.go:98-192 | The trail is a prefix of the ranking numbered 1..k with a success only in last place, and the router hears of a win at most once, iff that entry is the winner's. |
| `Accounting.RequestLands` | internal/server/chat.go:98-192 | A request has at most one attempt in flight, and none when it ends. |
| `Accounting.InFlightBalance` | internal/server/chat.go:401-459 | At every moment of one request, attempts are failures plus wins plus the one in flight. |
| `Accounting.CountersAreBooked` | internal/telemetry/telemetry.go:58-71 | The shared counters read as the accounts of all effects so far. |
| `Accounting.CountersBalance` | internal/telemetry/telemetry.go:93-116 | At every moment of every interleaving of concurrent requests, each provider's requests are its failures, its wins and its attempts in flight, so a snapshot's success rate lies in [0, 1]. |
| `Accounting.QuietMeansSettled` | internal/server/chat.go:98-192 | Once every request is over no attempt is in flight. |
| `Accounting.UncommittedPeekCounts` | internal/server/chat.go:115-128 | A peek that does not commit counts against the breaker, whatever ended it. |
| `Accounting.BreakerHearsIff` | internal/server/chat.go:105-151 | A failed attempt counts against the breaker iff its failure's own class does, or it arrived on a stream being peeked. |
| `Accounting.CancellationCountsWhenStreaming` | internal/server/chat.go:105-151 | One cancelled call counts against the breaker when the client streams and not when it does not. |
| `ToolHistory.SanitizeToolHistory` | internal/provider/toolcalls.go:85-153 | The loops compute the repair: unsound calls and unmatched results out, one placeholder per unanswered call. |
| `ToolHistory.FilterCalls` | internal/provider/toolcalls.go:92-100 | Keeps exactly the sound calls, their empty arguments made explicit. |
| `ToolHistory.AnsweredIDs` | internal/provider/toolcalls.go:112-119 | Collects the surviving ids some tool message answers. |
| `ToolHistory.RepairOrphans` | internal/provider/toolcalls.go:133-143 | One placeholder per id nothing has answered yet, duplicates skipped. |
| `ToolPairing.HistoryIsClosed` | internal/provider/toolcalls.go:85-153 | Every surviving call is fit; ids called and ids answered are exactly the sound ids; answered ids keep their results and each unanswered one gets exactly one placeholder. |
| `ToolSurvivors.RepairKeepsTheRest` | internal/provider/toolcalls.go:85-153 | Said of the messages' own fields: an assistant message stays iff it has text, provider items or a sendable call and loses only unsendable calls, a tool message stays whole iff some sendable call has its id, every other message stays whole; survivors keep their order, and everything else is a placeholder for a missing result. |
| `ToolSurvivors.TurnsGoOut` | internal/provider/toolcalls.go:121-151 | The messages that are neither an assistant's nor a tool's are the same before and after. |
| `ToolOrder.OnlyPlaceholdersAreAdded` | internal/provider/toolcalls.go:121-152 | Striking out the placeholders leaves the kept input in order. |
| `ToolOrder.PlaceholdersAreInline` | internal/provider/toolcalls.go:130-143 | Each placeholder sits among the results directly behind the message that made its call. |
| `ToolOrder.OrderIsKept` | internal/provider/toolcalls.go:121-152 | The repair never puts a result before its call: results follow calls in the output iff they do among what survives of the input. |
| `ToolOrder.ResultsFollowCalls` | internal/provider/toolcalls.go:121-152 | When no id is shared between messages and results follow calls in the input, every result follows its call in the output. |
| `ToolOrder.SanitizeIsIdempotent` | internal/provider/toolcalls.go:85-153 | Repairing a repaired history changes nothing. |
| `ToolAdjacency.EachCallMeetsItsResults` | internal/provider/toolcalls.go:130-143 | When ids are not shared and the input's results stand directly behind the messages that made their calls, every call of the repaired history is directly followed by its results, placeholders included. |
| `Translation.NormalizeOpenAICompatMessages` | internal/provider/openai_compat.go:108-141 | All system instructions become one leading message; the rest follows in order. |
| `Translation.NormalizedShape` | internal/provider/openai_compat.go:108-141 | At most one system message, in first place; the non-system messages are unchanged. |
| `Translation.NormalizeAndSanitizeCommute` | internal/provider/openai_compat.go:108-141 | Merging system messages and repairing the tool history may be done in either order. |
| `Translation.BuildAnthropicMessages` | internal/provider/anthropic.go:109-153 | System text is concatenated; tool results, tool uses and images become blocks in order. |
| `Translation.AnthropicKeepsTrace` | internal/provider/anthropic.go:109-153 | With explicit arguments the blocks carry the history's calls and results in order. |
| `Translation.BuildResponsesInput` | internal/provider/openai_responses.go:128-166 | Instructions are concatenated; only encrypted reasoning is replayed; calls and outputs become items in order. |
| `Translation.ResponsesKeepsTrace` | internal/provider/openai_responses.go:128-166 | The items carry the history's calls and results in order. |
| `Translation.PairingReachesTheWire` | internal/provider/toolcalls.go:80-153 | What both native APIs are sent is closed: called ids are answered ids are the sound ids, and every call is fit. |
| `Wire.AnthropicSaysAll` | internal/provider/anthropic.go:109-153 | For every history each message that is not a system's becomes one message, in order, that says the same under the right role: texts, parsed images, calls with explicit arguments, tool outputs word for word. |
| `Wire.ResponsesSaysAll` | internal/provider/openai_responses.go:128-166 | For every history the items say, in order, every text, every encrypted reasoning item, every call and every tool output word for word. |
| `Wire.SystemTextJoins` | internal/provider/anthropic.go:111-121 | The system text is every system prompt from the first non-empty one on, in order, with rules between them. |
| `Wire.LeadSaysAll` | internal/provider/openai_compat.go:108-141 | The leading message is the first system message with the text of all non-empty ones, in order, a blank line between them. |
| `Sorting.SortedKeys` | internal/provider/toolcalls.go:42-46 | The indices in increasing order, each once. |
| `ToolCalls.Accumulator.Add` | internal/provider/toolcalls.go:22-35 | After any fragments the table holds, per index, the call its own fragments assemble. |
| `ToolCalls.Accumulator.Finish` | internal/provider/toolcalls.go:38-62 | The assembled calls in increasing index order, unsound ones left out. |
| `ToolCalls.FinishedCalls` | internal/provider/toolcalls.go:38-62 | Each finished call is the sound call of one index, arguments the concatenation of that index's fragments; no sound index is missing. |
| `ToolCalls.AssembledSays` | internal/provider/toolcalls.go:22-35 | An index's call has the last id and the last name its fragments give and all their argument texts in order. |
| `ToolCalls.InterleavingsAgree` | internal/provider/toolcalls.go:22-62 | Two interleavings with equal fragments per index finish with the same calls. |
| `ToolCalls.AssembleResponses` | internal/provider/openai_responses.go:326-348 | The event loop feeds the accumulator the specified fragments. |
| `ToolCalls.IndicesAreIndependent` | internal/provider/openai_responses.go:326-348 | Each output index is assembled from its own events alone. |
| `ToolCalls.DoneAdds` | internal/provider/openai_responses.go:342-348 | A done event adds its text iff nothing was seen for its index, and nothing otherwise. |
| `ToolCalls.HeaderNamesCall` | internal/provider/openai_responses.go:326-334 | A call's id and name are those of the last header for its index that gives any. |
| `ToolCalls.InOrderArguments` | internal/provider/openai_responses.go:326-348 | In protocol order the arguments are the header's and the deltas'; the done event's count only without a delta and with an empty header, and so are lost iff some delta came and all the text before was empty. |
| `ToolCalls.DoneIsLostIffEmptyDelta` | internal/provider/openai_responses.go:335-348 | On any stream a done event with text leaves no arguments iff none were assembled before and an empty delta was the last header or delta for its index. |
| `ToolCalls.EmptyDeltaLosesDone` | internal/provider/openai_responses.go:335-348 | A concrete stream in protocol order whose call goes out with {} instead of its arguments. |
| `ToolCalls.DoneRepeatsIffForgotten` | internal/provider/openai_responses.go:326-348 | On any stream a done event with text is appended to arguments already assembled iff only done events came since the start or since a header without arguments, and the text is from before that header or from one of those done events. |
| `ToolCalls.LateHeaderDuplicates` | internal/provider/openai_responses.go:342-348 | A concrete stream, header after delta, on which the done event repeats arguments. |
| `ToolCalls.SecondDoneDuplicates` | internal/provider/openai_responses.go:342-348 | A concrete stream in protocol order on which a second done event repeats them. |
| `Decimal.ValueOfDigits` | internal/lsp/transport.go:33-35 | Reading a printed length gives the length back. |
| `Decimal.DigitAppended` | internal/lsp/transport.go:32-36 | Lengths are printed from left to right: a digit at the end makes the number ten times as large. |
| `Framing.Writer.WriteFrame` | internal/lsp/transport.go:32-38 | Appends the frame of the payload. |
| `Framing.Reader.ReadLine` | internal/lsp/transport.go:53-56 | A line through its line feed, or an error when the stream ends first. |
| `Framing.Reader.ReadFrame` | internal/lsp/transport.go:50-82 | The header loop and body read return what the parsing function says and leave the rest of the stream. |
| `Framing.HeaderAnnounces` | internal/lsp/transport.go:61-69 | A header line announces the length it prints (LSP 3.17, Base Protocol). |
| `Framing.RoundTrip` | internal/lsp/transport.go:32-82 | Reading a frame returns its payload, whatever bytes it holds, and stops exactly behind it. |
| `Framing.CutFrameFails` | internal/lsp/transport.go:77-80 | Every strict prefix of a frame is an error, never a message. |
| `Framing.OtherHeadersIgnored` | internal/lsp/transport.go:59-79 | Every non-blank header line that does not name content-length, in any case or spacing, is read past wherever it stands. |
| `Framing.NamedLengthCounts` | internal/lsp/transport.go:68-76 | A line that names content-length in any letter case and amid white space announces what stands behind its colon. |
| `Framing.AtoiMeans` | internal/lsp/transport.go:71-74 | A length is decimal digits with or without a sign, within the range of an int; any other text is an error. |
| `Framing.StreamRoundTrip` | internal/lsp/transport.go:32-82 | From a stream of frames cut anywhere, exactly the payloads whose frames are whole are read, in order. |
| `Framing.FramesAppend` | internal/lsp/transport.go:32-38 | What a writer has written is the stream of its payloads' frames. |
| `LspClient.RunKeeps` | internal/lsp/client.go:159-315 | The correlation invariant holds after every interleaving of calls, replies, waits and shutdown. |
| `LspClient.RepliesReachTheirCalls` | internal/lsp/client.go:159-315 | In every run a channel holds at most one message, never together with a close; the message names no method and bears the number of the call that made the channel; calls have distinct numbers. |
| `LspClient.OnlyRepliesAreRouted` | internal/lsp/client.go:159-178 | In every run a message is taken for a reply iff the loop reads, the message names no method and its id is the number of a pending call; any other changes nothing. |
| `LspClient.ReplyIsDelivered` | internal/lsp/client.go:159-178 | In every run a reply read while its call is pending is put whole on that call's channel, the call leaves the table and nothing else changes. |
| `LspClient.NeverBlocksNorPanics` | internal/lsp/client.go:170-176 | No send ever waits; no send or close ever hits a closed channel. |
| `LspClient.DeadStaysEmpty` | internal/lsp/client.go:258-285 | Once `dead` is set nothing is or becomes pending and no later call registers a channel. |
| `LspClient.NobodyWaitsAfterShutdown` | internal/lsp/client.go:255-272 | After shutdown every registered call has been answered or closed, and each one still waiting can receive at once. |
| `LspClient.DuplicateReplyIsDropped` | internal/lsp/client.go:159-178 | Once a reply found its call, every further reply with the same id is dropped, whatever happens in between. |
| `LspClient.Client.Register` | internal/lsp/client.go:274-285 | Fails fast when dead, otherwise registers a channel under a new id. |
| `LspClient.Client.TakePending` | internal/lsp/client.go:170-173 | Finds the call a message answers and forgets it. |
| `LspClient.Client.Deliver` | internal/lsp/client.go:174-176 | The send neither waits nor panics; the channel holds the message. |
| `LspClient.Client.Route` | internal/lsp/client.go:159-178 | Take and deliver, as two steps other calls may come between in the model. |
| `LspClient.Client.MarkDead` | internal/lsp/client.go:258-268 | Records why and takes the whole table. |
| `LspClient.Client.CloseChannel` | internal/lsp/client.go:269-271 | Closes one pending channel, once. |
| `LspClient.Client.Shutdown` | internal/lsp/client.go:258-272 | Closes exactly the channels that were pending and leaves the table empty. |
| `LspClient.Client.Await` | internal/lsp/client.go:298-309 | Receives the call's own reply, or learns of the disconnect. |
| `Ranking.StableSortSorts` | internal/router/priority.go:19-19 | The stable sort orders by key, keeps every element and keeps the order among equal keys. |
| `Ranking.StableOrderIsUnique` | internal/router/priority.go:19-19 | Order and stability determine the result, so any stable sort gives this one. |
| `Ranking.PriorityIsPermutation` | internal/router/priority.go:14-21 | The priority ranking holds exactly the candidates, by declared position. |
| `Ranking.PriorityIsByPosition` | internal/router/priority.go:14-21 | Candidates come by declared position, those of one position in the order given. |
| `Ranking.MovedIsPermutation` | internal/router/lkgp.go:72-83 | Moving to the front loses and duplicates nothing. |
| `Ranking.PromoteKeepsCandidates` | internal/router/lkgp.go:72-83 | A promotion moves one candidate to the front, keeps the order of the others and changes nobody. |
| `Ranking.PromoteKeepsTheRest` | internal/router/lkgp.go:74-83 | The promoted element leads with its reason added; those it overtook follow in order, the rest stays where it was. |
| `Ranking.LkgpStrategy.Rank` | internal/router/lkgp.go:51-63 | Priority order behind the combo's last known good provider while it is eligible; a permutation. |
| `Ranking.LkgpStrategy.RecordOutcome` | internal/router/lkgp.go:66-70 | Only a success with a winner changes the combo's memory. |
| `Ranking.P2CRank` | internal/router/p2c.go:24-42 | For all draws two distinct candidates are compared, the better one leads (the first sample on a tie), the rest keep priority order; a permutation. |
| `Ranking.P2CPrefers` | internal/router/p2c.go:47-49 | Of equal health the higher success rate wins; a provider on trial beats a healthy one iff its rate is more than 0.75 higher; untried counts as half. |
| `Ranking.RoundRobin.Rank` | internal/router/roundrobin.go:17-28 | Advances the 64-bit cursor and rotates to it; a permutation. |
| `Ranking.RoundRobinIsFair` | internal/router/roundrobin.go:17-28 | Over a fixed list of n candidates, n * k rankings in a row that do not wrap the cursor put each candidate first exactly k times. |
| `Ranking.RotatesFrom` | internal/router/roundrobin.go:17-28 | A rotation starts at the offset and goes round. |
| `Ranking.AffinityRank` | internal/router/affinity.go:22-36 | Rotates by the hash of the request's prefix. |
| `Ranking.AffinityAgrees` | internal/router/factors.go:88-97 | The cache-affinity factor is 1 for exactly the provider the prefix-affinity strategy ranks first; that order is a permutation. |
| `Scoring.NormalizeWeights` | internal/router/normalize.go:20-42 | The loops compute each factor's share. |
| `Scoring.NormalizedSumsToOne` | internal/router/normalize.go:8-42 | Whatever the input, the result is complete, non-negative and sums to 1. |
| `Scoring.ScaleInvariant` | internal/router/normalize.go:8-42 | Weights written to any positive scale work like fractions. |
| `Scoring.SharesAreProportional` | internal/router/normalize.go:20-42 | Shares are proportional to the positive parts of the weights; with none positive all six are equal. |
| `Scoring.NormalizedIsFixed` | internal/router/normalize.go:20-42 | Normalizing a distribution changes nothing. |
| `Scoring.Merge` | internal/router/weighted.go:30-41 | A factor a custom block does not mention keeps the preset's weight. |
| `Scoring.LatencyRange` | internal/router/factors.go:43-59 | Minimum and maximum over the measured candidates, if there are any. |
| `Scoring.RangeBounds` | internal/router/factors.go:43-59 | The range is attained and bounds every measured candidate. |
| `Scoring.LatencyFactors` | internal/router/factors.go:43-71 | The table holds each id's factor against that range; with a repeated id the last candidate decides. |
| `Scoring.LatencyInRange` | internal/router/factors.go:43-71 | Every latency factor lies in [0, 1]. |
| `Scoring.FasterIsNeverWorse` | internal/router/factors.go:43-71 | Lowering one measured candidate's positive latency never lowers its own factor, although the range moves with it. |
| `Scoring.PriorityInRange` | internal/router/factors.go:103-108 | The priority factor lies in [0, 1] iff the declared position is within the ranked count; filtering can push it below 0. |
| `Scoring.ScoreInRange` | internal/router/weighted.go:75-91 | With normalized weights every base score lies in [0, 1], factors out of range included. |
| `Scoring.BetterNeverScoresLower` | internal/router/weighted.go:75-91 | A candidate at least as good in every factor never scores lower, before the last-known-good boost. |
| `Sticky.TableIsBounded` | internal/router/sticky.go:56-80 | The table never exceeds 256 entries, holds no empty key and no empty provider. |
| `Sticky.TableIsHistory` | internal/router/sticky.go:38-80 | On a strictly increasing clock the bounded table answers as the whole history would: a key holds the provider pinned last until 256 other keys were used in between. |
| `Sticky.HoldsUntilCrowdedOut` | internal/router/sticky.go:56-80 | After a pin, with no later pin of the same key, it holds iff fewer than 256 other keys were used since the key's own latest use, at every moment. |
| `Sticky.OthersAre` | internal/router/sticky.go:38-80 | A key counts against another exactly when it was pinned or hit and the other was not pinned or hit after that. |
| `Sticky.StickyStore.Get` | internal/router/sticky.go:38-50 | Returns the pin and counts as a use of it; a missing or empty key changes nothing. |
| `Sticky.StickyStore.Set` | internal/router/sticky.go:56-66 | Pins the key, evicting first when a new key meets a full table; empty arguments change nothing. |
| `Sticky.StickyStore.EvictOldest` | internal/router/sticky.go:68-80 | Removes one entry whose last use no other precedes. |
| `Weighted.OrderSorts` | internal/router/weighted.go:93-93 | The scored candidates by descending score, ties in declared order, nobody lost. |
| `Weighted.RankingShape` | internal/router/weighted.go:57-126 | For every pin and draw the ranking is a permutation in that order except for at most one promoted head. |
| `Weighted.RankingIsBestFirst` | internal/router/weighted.go:93-126 | For every pin and draw, said of the scores: higher first, ties in declared order, except for one head, which is the pinned provider's best entry if it is eligible, else the entry drawn if the ranking explores. |
| `Weighted.RankedScores` | internal/router/weighted.go:95-123 | Promotions change no score. |
| `Weighted.ScoreFormula` | internal/router/weighted.go:66-91 | Before the boost the score is the weighted sum of six values read off the candidate: health, reliability, latency, quality, affinity and position, clamped. |
| `Weighted.BoostFormula` | internal/router/weighted.go:80-85 | The boost, clamped, goes to the provider that last won for the combo and to nobody else. |
| `Weighted.ReasonsSay` | internal/router/weighted.go:80-88 | A candidate shows the reasons that apply to it: last winner of the combo, owner of the request's prefix. |
| `Weighted.LatencyFormula` | internal/router/factors.go:43-71 | A latency value is the distance from the slowest as a share of the distance between fastest and slowest measured candidate, 1 if they are equal, 0.5 without a measurement. |
| `Weighted.NoLatency` | internal/router/factors.go:43-71 | Without any measurement every latency value is neutral. |
| `Weighted.ScoresInRange` | internal/router/weighted.go:80-91 | Every score lies in [0, 1] whatever the boost. |
| `Weighted.PinnedLeads` | internal/router/weighted.go:95-123 | The pinned provider leads for all draws while it is eligible; exploration never displaces it. |
| `Weighted.SmartSticky` | internal/router/weighted.go:95-139 | Over a whole run: while the history holds a provider for a run key and it is eligible, every ranking for the key is led by it, for all draws. |
| `StickyRuns.RouterHears` | internal/server/chat.go:98-192 | The router hears of the provider whose success ends the trail, of a failed request, or of nothing (a committed stream that broke). |
| `StickyRuns.RequestPins` | internal/router/weighted.go:131-139 | A request pins its run to the provider whose success ends its trail and otherwise leaves the pins alone. |
| `StickyRuns.WinnerLeadsItsRun` | internal/router/weighted.go:95-139 | Whoever served a request leads every later ranking of its run while it is eligible, for all draws, until another winner is recorded for the run or 256 other runs crowd it out. |
| `Weighted.WeightedStrategy.constructor` | internal/router/weighted.go:26-53 | Merged, normalized weights and an empty memory. |
| `Weighted.WeightedStrategy.Rank` | internal/router/weighted.go:57-126 | Best score first but for the one head the pin or the exploration put there, and uses the run's pin; a held, eligible provider leads. |
| `Weighted.WeightedStrategy.RankEligible` | internal/router/weighted.go:95-125 | Sorting, sticky promotion, then exploration only when nothing stuck. |
| `Weighted.WeightedStrategy.ScoreCandidates` | internal/router/weighted.go:62-91 | Each candidate scored against the same table. |
| `Weighted.WeightedStrategy.Score` | internal/router/weighted.go:66-90 | Six factors, their sum, the boost and the reasons. |
| `Weighted.WeightedStrategy.Total` | internal/router/weighted.go:75-78 | The accumulating loop computes the sum of contributions. |
| `Weighted.WeightedStrategy.RecordOutcome` | internal/router/weighted.go:131-139 | Only a success with a winner changes anything: it sets the combo's memory and pins the run. |
| `Permission.WinnerDecides` | internal/permission/evaluator.go:35-47 | The one-pass winner matches, is of maximal specificity and is the last of those; without a winner nothing matches. |
| `Permission.WinnerIsUnique` | internal/permission/evaluator.go:35-47 | At most one rule decides. |
| `Permission.Evaluate` | internal/permission/evaluator.go:35-63 | The loop returns the deciding rule's decision, or the default; an Allow for a chained bash command becomes Ask. |
| `Permission.HasCommandChaining` | internal/permission/evaluator.go:70-77 | True iff one of the six operators occurs. |
| `Permission.ChainsIff` | internal/permission/evaluator.go:65-77 | A command chains iff it holds a semicolon, pipe, ampersand, backtick or line feed, or a dollar sign directly before a parenthesis. |
| `Permission.MatchesToolMeans` | internal/permission/policy.go:51-56 | A tool without a star matches itself, one that ends in a star every tool that starts with the rest. |
| `Permission.MatchesSubjectMeans` | internal/permission/policy.go:58-66 | An empty pattern or a star matches everything, one that ends in a star everything that starts with the rest, any other itself. |
| `Permission.SpecificityMeans` | internal/permission/policy.go:68-83 | A rule for a named tool outranks one with a star in its tool; of two for named tools one for some subjects outranks one for all. |
| `Permission.NothingMatches` | internal/permission/evaluator.go:22-47 | What no rule speaks of is decided by the default, and allowed if the default is not a known word. |
| `Permission.DecidedByLevel` | internal/permission/policy.go:68-83 | The decision is the last match of the most specific level that has one. |
| `Permission.ReorderAcrossLevels` | internal/permission/policy.go:68-83 | Rules of different specificity may be reordered freely. |
| `Permission.GrantStore.Rules` | internal/permission/grants.go:49-58 | One Allow rule per grant, in order. |
| `Permission.GrantStore.Add` | internal/permission/grants.go:64-68 | The grant is appended in memory. |
| `Permission.GrantAllowsIff` | internal/permission/grants.go:10-58 | For every policy and every store holding the grant, before or after others, its own call is allowed before the chaining guard, iff it is not "*" for one named tool. |
| `Permission.StarGrantStillAsks` | internal/permission/evaluator.go:16-47 | A concrete approval of "*" that a narrower policy rule outranks, so it is asked about again. |
| `Permission.GrantIsExactIffLiteral` | internal/permission/grants.go:10-58 | Adding a grant to a store changes no other decision of any evaluator built from it iff the tool holds no "*" and the subject is not empty and does not end in "*". |
| `Permission.GrantStopsAskingIff` | internal/permission/evaluator.go:16-61 | For every policy and every store holding the grant its own call is allowed for good, iff it is neither a bash command with a chaining operator nor "*" for one named tool. |
| `Permission.ChainedGrantStillAsks` | internal/permission/evaluator.go:49-61 | A concrete approval of a chained command that the rules allow and the guard asks about again. |
| `Permission.FullyDenied` | internal/permission/evaluator.go:87-102 | True iff every rule for the tool denies and there is one, or there is none and the default denies. |
| `Permission.DeniedForAllSubjects` | internal/permission/evaluator.go:79-86 | When every rule for a tool denies, every call is denied iff the default denies or some rule for it catches every subject. |
| `Permission.NarrowRuleLooksFull` | internal/permission/evaluator.go:87-102 | One narrow Deny rule reports a tool as fully denied although a call to it is allowed. |
| `CustomProviders.Slugify` | internal/customprovider/store.go:178-198 | The loop computes the name's alphanumeric runs in lower case joined by single dashes, or the fallback. |
| `CustomProviders.SlugShape` | internal/customprovider/store.go:175-198 | Every name gets a non-empty slug over a-z, 0-9 and single inner dashes. |
| `CustomProviders.SlugSpells` | internal/customprovider/store.go:178-198 | A name of letters and digits only is its own slug in lower case. |
| `CustomProviders.SlugSeparates` | internal/customprovider/store.go:178-198 | Whatever holds no letter or digit becomes one dash between two words and is dropped at either end; without a word there is the fallback. |
| `CustomProviders.SlugIsFixed` | internal/customprovider/store.go:178-198 | Slugs are fixed points. |
| `CustomProviders.ProbeInjective` | internal/customprovider/store.go:158-163 | Different attempts try different ids. |
| `CustomProviders.ProbeSays` | internal/customprovider/store.go:158-163 | The ids tried are the base, then base-2, base-3 and so on, the number in decimal. |
| `CustomProviders.TakenProbes` | internal/customprovider/store.go:158-163 | Pigeonhole: no more probes can be taken than there are entries. |
| `CustomProviders.Store.UniqueID` | internal/customprovider/store.go:158-164 | Terminates with the first free probe, within one probe more than there are entries. |
| `CustomProviders.Store.IdExists` | internal/customprovider/store.go:166-173 | True iff some entry has the id. |
| `CustomProviders.EnvVarInjective` | internal/customprovider/store.go:200-204 | Different slug-alphabet ids get different credentials keys. |
| `CustomProviders.EnvVarSpells` | internal/customprovider/store.go:200-204 | The key is the upper-case id with dashes as underscores between CUSTOM_ and _API_KEY. |
| `CustomProviders.Store.Add` | internal/customprovider/store.go:111-143 | Three checks in order, then one entry appended with a free id and its derived key; a failed save reports an error and keeps the entry; ids and keys stay pairwise distinct. |
| `CustomProviders.Store.Delete` | internal/customprovider/store.go:148-156 | Removes the first entry with the id; ids and keys stay pairwise distinct. |
| `CustomProviders.TidyAdd` | internal/customprovider/store.go:111-143 | Adding a provider with a free id keeps all ids and keys pairwise distinct. |
| `CustomProviders.DeleteUndoesAdd` | internal/customprovider/store.go:145-156 | Deleting what was just added restores the list. |

## Left out

- HTTP, server-sent events, JSON encoding, base64 and data URLs, SQLite, YAML and OAuth: foreign calls and I/O.
  Decoded values are inputs, writes are frames; an image URL's parse is a parameter.
- Request decoding and `Resolve` ahead of the attempt loop: error replies that involve no provider.
- Real timers and clocks: idle expiry, cancellation and keep-alive ticks are signals in a script, times are
  parameters. `peekIdleFor` and tunables only choose how long a timer runs.
- Floating-point rounding: scores, weights and rates are reals.
- Hash quality: the prefix hash is any function from strings to naturals.
- Random sources: draws are parameters in the ranges the library promises.
- Answers to the language server's own requests and notifications: they touch neither the pending table nor a channel.
- Goroutine scheduling inside one request: a request's registry calls are one sequence of effects; concurrent requests
  are all interleavings of such sequences, and the sticky table's and LKGP map's locks are single steps.
- 64-bit wrap-around of LSP request ids and telemetry counters; the round-robin cursor's wrap is modelled.
- LSP headers hold single bytes: white space and case folding beyond ASCII, and how a buffered reader chunks its
  input, are not modelled.
- Weights for unknown factor names: factors are an enumeration, and normalizing drops any other name.
- Preset weight tables and strategy option defaults: constants.
- Case mapping beyond what `slugify` can observe: two non-ASCII letters have ASCII lower case, every other non-ASCII
  letter separates words. Credentials keys of hand-edited ids outside the slug alphabet.
- `internal/router/trace.go`, ranking and strategy names copied into final chunks, response ids and timestamps.
- Reading and writing grant, policy and custom-provider files; the outcome of a save is a parameter.
- Gemini translation (pairs results by name), MCP correlation (same shape as LSP, without the dead flag).
- The agent loop, compaction, CLI, wizards, process trees, git snapshots, spill files, backoff: not part of this model.
