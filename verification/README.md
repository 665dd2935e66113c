# A verified model of the agent harness

This project models an LLM agent harness, a Go library that drives a model through
"call the model, dispatch its tool calls, repeat", and proves what the library promises about it.
`dafny verify dfyconfig.toml` checks everything.

## What is modelled

**The agent loop** (`AgentLoop.dfy`, over `Messages`, `Compaction`, `Replay`, `Tokens`, `Incapable`,
`Events`, `Session`, `TurnLog`, `Transcript`, `RunSpec`, `RunFacts`, `Determined`, `Conclusions`,
`SampleRun`). The class `Harness` holds what `Run` keeps in local variables: the conversation, the
result, the counters, the one-shot flags, the event stream. One method per step of the loop updates
them: the opening of a turn, the model call with its pinned replay, compaction, the tool batch with
its dispatches and skips, the stops, the waits for a human, the grace call. The model, the
summarizer, the tools and the inbox are arbitrary scripts (`Session.World`), so what is proved holds
for every behaviour of theirs. Ghost fields keep the history of the run: every message ever added,
every request sent with the state it was sent in, every successful call's usage, every tool call
decided, every human message obtained and delivered, and a log with one record per turn.

The log is the specification. `TurnLog.LogFits` says which record can follow which records, and that
each record is what the scripts answer from where the records before it had read them: no reply,
tool result or human message in a log can be made up, and no call, drain or wait can be skipped.
`TurnLog.Written` and `TurnLog.Heard` say which messages a log writes and delivers;
`TurnLog.Conversation` says what the conversation is after it, every compaction included: which
turns were shortened, and to what, follows from the conversation before the turn and the
summarizer's answer. `Transcript` says what those messages are, field by field: how a conversation
starts, what each turn adds to it for every verdict and every kind of turn, and what a compaction
leaves. `Streak`, `EmptyStreak`, `SingleStreak`, `WrapUps` and `BatchHints` say what is remembered,
`TurnLog.Usages` and `TurnLog.Judged` what was paid for and what became of every tool call.
`RunSpec` says which requests a log sends (`Posted`), which tool events and counts it makes
(`WordOf`, `Tally`), what the call after the turn limit adds (`Graced`), and for which reason a run
stops (`StopReason`). `Harness.Run` is proved to produce a log that fits and a state that is the
function of that log in all of this, and to stop as `AgentLoop.ContractFits` says. Over all logs,
`RunFacts` then proves what the counters mean, `Determined` that the scripts decide every turn, and
`Conclusions` when each kind of stop is reached and that two runs over the same scripts stop alike.

A conversation is *closed* when every assistant message is followed immediately by exactly one tool
message per call, same ids and same order, and no other tool message exists (`Messages.Closed`,
`Messages.ClosedMeans`). `Messages.Owed` reads the same discipline from left to right; the two are
proved equivalent, and the loop is proved with the second.

**Stream assembly** (`Details.dfy`, `Stream.dfy`, `Client.dfy`). The accumulator of reasoning
details is a class whose entries are updated in place; its meaning is "project by index, cut into
maximal runs of one type, merge each run key by key", and there is one way only to cut like that.
The stream reader is proved against projections of the chunks it consumed, and its deltas against
the reply it returns; the client's replay is proved to leave the listener with exactly the reply
that comes back.

**Two algorithms** (`Glob.dfy`, `ReadPage.dfy`). The two-row wildcard table is proved equal to the
recursive meaning of a pattern, and normalization to mean "matches from some segment on". The pages of the
read tool, followed by their hints, are proved to end and to rebuild the text.

A `hide` statement at the head of a body lists definitions its proof does not need; it only keeps the
proof fast.

## Where the code and its documentation differ

The model follows the code.

- `Config.BatchNudgeTurns` says any turn that is not a single lookup resets the count. A failed call
  and an empty reply leave it (harness/harness.go:386-392, 531-544): `SampleRun.DocumentationDiffers` is a
  run in which the two counts differ, and `RunFacts.SingleStreakExactly` says exactly when they do.
- `RetryPolicy.MaxRetries` below zero makes no attempt, and a call then comes back empty without an error
  (llm/client.go:79, 100, 148, 219): `Client.Client.DoWithRetry` returns neither a reply nor an error
  exactly in that case, and `Client.Client.SendStream` says what its caller gets.
- A turn is described as unproductive when no tool call was executed successfully (harness/harness.go:20-23, 25-27,
  273-275), and elsewhere when every call failed to parse (harness/harness.go:767-768). In the code a call counts
  as capable once its tool is known and its arguments parse, whether it then fails or not; unknown tools
  and skipped calls count as neither. `SampleRun.FailuresGoOn` is a run the first reading stops and the code does
  not, `SampleRun.UnknownToolsStop` one the code stops and the second reading does not;
  `RunFacts.SuccessStreakExactly` and `RunFacts.ParseStreakExactly` say exactly when the counts agree.
- `Compaction.Threshold` is described as the smaller of the fraction and the window less 8192 tokens, which fires when
  fewer than 8192 remain (harness/harness.go:63-66). The code ignores the reserve in a window not larger than it, and
  fires with exactly 8192 left (harness/compaction.go:22-34): `Compaction.DocumentedExactly`.
- A read with an explicit limit gives no hint because the caller asked for that slice; when the slice is over
  the byte ceiling the page stops short without saying so. `ReadPage.LimitedPage` gives the exact condition and
  `ReadPage.LimitedStopsShort` an input.

## Model

| member | source | states |
|---|---|---|
| Messages.ClosedIffSettled | harness/harness.go:840-856 | the pairing rule (each call answered at once, in order, by id, and no stray answers) is exactly what a left-to-right reader with a list of owed ids accepts |
| Messages.ClosedMeans | harness/harness.go:840-856 | a history is closed exactly when every call of an assistant message is answered at once, in call order and by id, and every tool message is such an answer |
| Messages.CutPoints | harness/compaction.go:60-73 | a closed history can be cut before a non-tool message or at its end and nowhere else, and then both halves are closed |
| Messages.ShapeKeepsClosed | harness/replay.go:15-30 | dropping reasoning or changing content cannot break or repair pairing |
| Compaction.FiresExactly | harness/compaction.go:22-34 | compaction fires exactly when the prompt reaches the configured fraction of the window, in real numbers, or when at most 8192 tokens are left in a window larger than that |
| Compaction.DocumentedExactly | harness/harness.go:63-66 | the threshold is the documented one exactly in a window larger than the reserve or where the fraction is the smaller anyway; with exactly the reserve left it fires; two windows show both |
| Compaction.PlanCut | harness/compaction.go:46-78 | on any history, closed or not, the loop refuses exactly when fewer than two messages lie between system prompt and wanted tail, and otherwise cuts exactly where the walk back over tool messages ends, one message earlier when a call would be left dangling |
| Compaction.PlanExactly | harness/compaction.go:46-78 | the plan of any history: when it is refused, that there is a cut exactly when the history splits somewhere, and where |
| Compaction.PlanOnClosed | harness/compaction.go:46-78 | a closed history is cut if and only if at least two messages lie between system prompt and wanted tail and one of the places after the first of them is a cut point; the cut is the last such place |
| Compaction.CanShortenClosed | harness/compaction.go:94-101 | a closed history can be shortened if and only if some cut point keeps the wanted tail and leaves two messages or more before it |
| Compaction.SnapOnClosed | harness/compaction.go:60-73 | on a closed history snapping finds the last possible cut that keeps the wanted tail, and the rescue of a dangling assistant message never fires |
| Compaction.CutOnClosed | harness/compaction.go:75-78 | on a closed history system part, summarized part and kept tail are each closed, and the tail has at least the configured length |
| Compaction.CompactedShape | harness/compaction.go:94-101 | the result has len - summarized + 1 messages, is shorter exactly when at least two were summarized, keeps system prompt and tail verbatim, and begins with a user message that is the header and the summary |
| Compaction.CompactedClosed | harness/compaction.go:94-101 | compaction keeps a closed history closed |
| Tokens.SplitUsage | llm/types.go:224-242 | the three buckets add up to the wire prompt plus the positive shim fields on every input, are never negative for a non-negative prompt; shim fields win over the subset shape, which takes out as many tokens as reported, at most what is left |
| Tokens.TokensConserved | llm/types.go:205-242 | over any list of calls the three running totals lose and invent no input token |
| Tokens.SpentMeans | llm/types.go:205-242 | cost, completion and each of the three buckets of the running totals are the sums over the calls |
| Replay.WithoutReasoning | harness/replay.go:15-30 | every message loses its details and keeps every other field |
| Replay.WithoutForeignReasoning | harness/replay.go:101-118 | messages of the pinned provider are kept whole; every other message loses its details and nothing else |
| Replay.AnyReasoning | harness/replay.go:146-149 | found exactly when some message carries non-empty details |
| Replay.ReplayPin | harness/replay.go:32-42 | the backward scan returns the specified pin |
| Replay.PinIsNewest | harness/replay.go:32-42 | the pin is the provider of the newest message still carrying reasoning, and empty without one |
| Replay.PinnedExactly | harness/replay.go:32-137 | a request is pinned exactly when its newest reasoning has a known provider and `only`, `ignore` and `order` leave room for it |
| Replay.PinProvider | harness/replay.go:44-99 | pinning is refused exactly when routing is no object or `only`, `ignore` or `order` rule it out, and otherwise rewrites `order` alone |
| Replay.OthersKeepsOrder | harness/replay.go:79-84 | the consumer's order loses the pin, every occurrence of it, and nothing else |
| Replay.ReplayRequest | harness/replay.go:120-137 | without a pin the request goes out as it is; with one, messages of that provider are sent whole and all others lose only their details; request and pin are the specified ones on all four paths |
| Replay.PinningKeeps | harness/replay.go:120-137 | a pinned request carries only the pin's reasoning, every message equals the original but for details and those of the pin equal it whole, the newest reasoning included; it routes to the pin first and keeps every other routing key; without a pin nothing changes |
| Replay.PinningIdempotent | harness/replay.go:120-137 | pinning a pinned request changes nothing |
| Replay.UnpinnedKeeps | harness/replay.go:198-202 | the retry after a 400 says message by message what the request said, carries no reasoning and the consumer's routing |
| Incapable.EveryPayloadMatches | harness/incapable.go:52-64 | true exactly when the predicate holds of every retained payload |
| Incapable.ClassifyIncapable | harness/incapable.go:66-100 | each defect is named if and only if every turn left evidence and all of it shows that defect, concatenation taking precedence |
| Session.TerminalSchemas | harness/graceturn.go:113-129 | the loop over the registered tools collects schema and name of each offered tool, at equal positions |
| Session.OffersTerminals | harness/graceturn.go:113-129 | the tools offered are exactly those that are terminal by the last registration of their name, each once |
| Session.LastRegistered | tools/registry.go:50-68 | a lookup finds the last registration of a name |
| Session.Order | tools/registry.go:50-62 | every registered name once, at the place of its first registration |
| Session.All | tools/registry.go:71-80 | one tool for each registered name, the one a lookup finds |
| Session.HardStop | harness/harness.go:510-515 | the hard stop never lies below the compaction threshold |
| RunFacts.LimitsMean | harness/harness.go:435-516 | compaction is tried, and the hard stop reached, exactly for a reply that does not end the run and whose prompt fills the fraction, 85 percent, or all but the reserve of the window |
| RunFacts.EmptyMeans | harness/harness.go:44-46 | a reply is empty exactly when it makes no calls and text and reasoning are white space only; it is final exactly when it makes no calls, is not empty and nobody listens |
| Text.TrimMeans | harness/harness.go:44-46 | trimming takes away white space on both sides, all of it, and nothing else |
| Text.NormalizeMeans | harness/repair.go:13-20 | blank arguments become an empty object, any others lose the white space around them |
| Session.SeedClosed | harness/harness.go:257-267 | a closed History seeds a closed conversation, with and without replay |
| Events.PairedStream | harness/harness.go:936-953 | a stream the reader accepts is a word of (call, answer) pairs with equal ids, the word it read is that of the stream's tool events, and dispatched calls = successes + errors + repairs |
| TurnLog.AnswersSettle | harness/harness.go:634-743 | whatever each call's fate, the answers given so far pay exactly the first debts of the batch |
| TurnLog.CapableMeans | harness/harness.go:610-615 | a turn is capable exactly when some call reached a known tool with arguments that parse |
| TurnLog.RawArgsMeans | harness/harness.go:617-619 | the retained payloads are exactly those of calls whose arguments did not parse |
| RunSpec.TallyMeans | harness/harness.go:652-731 | the counters are the numbers of dispatched calls, of calls that failed or named an unknown tool, and of calls that did not parse |
| TurnLog.LookupMeans | harness/harness.go:696-698 | a turn used a lookup exactly when a read-only tool that is not terminal was executed in it, successfully or not |
| TurnLog.ImagesMean | harness/harness.go:717-724 | the images of a batch are those of its successful executions, in call order |
| TurnLog.DispatchedPrefix | harness/harness.go:634-743 | dispatched calls form a prefix of the batch, and a terminal success is the last of them |
| TurnLog.BatchDispatches | harness/harness.go:652-731 | dispatching the next call keeps a batch well-formed while no terminal tool succeeded and nobody interjected |
| TurnLog.BatchSkips | harness/harness.go:635-650 | skipping keeps it well-formed, with the marker that belongs to the reason |
| TurnLog.NoImagesWithoutCapability | harness/harness.go:840-849 | an unproductive turn holds no images, so a stop or a restart there loses none |
| Transcript.LogTranscribed | harness/harness.go:257-857 | every conversation of a run, message by message: it starts with system prompt, history and task; each turn adds the waiting messages and its nudge, is left alone or becomes system prompt, summary message and the tail from the cut, and adds the reply, one answer per call with the text its verdict gives ("(no output)" for an empty one), the images and the human messages |
| Transcript.AnswersRelay | harness/harness.go:604-743 | the i-th answer of a batch carries the id of the i-th call and the presented output, error, repair text, unknown-tool text or skip marker its verdict gives, "(no output)" exactly when that text is empty |
| Transcript.ReplySpeaks | harness/harness.go:548-556 | the assistant message holds content and calls of the reply, and its details with their provider exactly when replay is on and there are any |
| Transcript.SeedStarts | harness/harness.go:257-267 | the seeded conversation is the system prompt if there is one, the history, whole with replay and without details otherwise, and the task with its images |
| Transcript.ConversationClosed | harness/harness.go:257-857 | from a closed History every conversation of a log is closed, compactions included, and so is what each turn asks |
| RunFacts.StreakMeans | harness/harness.go:276-281 | in every log the window holds the failed arguments of the last k tool-calling turns, none of them capable, k being the length of the trailing run modulo the threshold |
| RunFacts.TripsExactly | harness/harness.go:769-783 | a turn completes a streak exactly when the trailing run of incapable tool-calling turns is a multiple of the threshold |
| RunFacts.IncapableExactly | harness/harness.go:764-836 | while a run that is not interactive goes on, a turn completes the streak exactly when the last `threshold` tool-calling turns were incapable for the first time, and the diagnosed window is those turns; `Conclusions.IncapableStop` says the same of a stopped run |
| RunFacts.SuccessStreakExactly | harness/harness.go:20-23 | the code counts at most as many turns in a row as have no successful execution, and exactly as many if and only if in none of them a call was executed and failed |
| RunFacts.ParseStreakExactly | harness/harness.go:764-768 | the code counts at least as many turns in a row as have only unparsed calls, and exactly as many if and only if none of its turns holds a call of an unknown tool or an undispatched one |
| SampleRun.FailuresGoOn | harness/harness.go:20-27 | three turns whose only call fails: the documented count reaches the threshold, the counted one is zero and the run goes on |
| SampleRun.UnknownToolsStop | harness/harness.go:764-836 | three turns whose only call names an unknown tool stop the run as incapable although every argument parses |
| RunFacts.EmptyStreakMeans | harness/harness.go:531-546 | the retry counter is the number of trailing empty replies since the last compaction, modulo three, and at most two while a run goes on |
| RunFacts.GivesUpExactly | harness/harness.go:531-544 | in every run, interactive or not, the empty-reply error is raised exactly by each third empty reply in a row, counted anew after a compaction; the two turns before it were empty replies |
| RunFacts.ThirdEmptyReplyFails | harness/harness.go:531-544 | in a run that is not interactive: exactly after three empty replies in a row with no compaction since the first |
| RunFacts.WrapUpExactly | harness/harness.go:345-356 | the wrap-up nudge is given in one turn only, the one that starts with `WrapUpTurns` of the configured turns, or of thirty, left |
| RunFacts.BatchHintExactly | harness/harness.go:357-372 | the batching hint is given exactly in the first turn that starts after enough single-lookup turns, unless it gets the wrap-up nudge or an earlier turn got a nudge |
| RunFacts.BatchHintOnce | harness/harness.go:357-372 | the batching hint comes at most once, never after the wrap-up nudge, and only with enough single-lookup turns |
| RunFacts.SingleStreakExactly | harness/harness.go:758-762 | the count is at least the documented one, and differs exactly when a failed call or an empty reply came after a lookup of the current streak |
| RunFacts.EmptyReplyKeepsCount | harness/harness.go:531-544 | any lookup, empty reply and lookup in a row count as two where the documentation says one |
| SampleRun.DocumentationDiffers | harness/harness.go:531-544 | a configuration, scripts and a log that fits them in which the two counts differ |
| RunFacts.InboxConserved | harness/harness.go:797-856 | in the log of every run, stopped or not, everything the inbox gave, by drain or wait, is delivered exactly once and in order; only a turn that stops the run as incapable leaves the stash of its batch behind (`Conclusions.InboxStop` applies it to a stopped run) |
| RunFacts.ScriptsInOrder | harness/harness.go:374-446 | each turn ends with the answer to its last model call, one or two calls after the turn before and at most one summary, and reports exactly the executions its verdicts claim |
| RunFacts.AttemptedMeans | harness/harness.go:446-506 | an attempt shortens the conversation exactly when the summarizer answers and a cut leaves at least two messages, which for a closed conversation means a cut point there; otherwise it leaves it as it is |
| RunFacts.ShrankExactly | harness/harness.go:443-490 | in every run a turn compacted exactly when its reply reached the threshold and the conversation it was asked could be shortened; from a closed History the latter is a matter of cut points |
| RunFacts.LimitExactly | harness/harness.go:435-528 | in every run a reply was cut off exactly when it was not final, its prompt had reached the hard stop and the conversation could not be shortened; from a closed History the latter is a matter of cut points |
| RunFacts.LimitAfterCompaction | harness/harness.go:443-528 | a turn stopped at the context limit leaves exactly the conversation the model was asked; with compaction configured it was attempted on that conversation and could not shorten it |
| RunFacts.TurnBatchesFit | harness/harness.go:652-731 | in every turn of a run each verdict is the one registry and arguments dictate, one per call, dispatched calls first |
| Determined.VerdictsAlike | harness/harness.go:634-743 | registry, arguments, tools and inbox decide the verdicts of a batch: two batches the same scripts can produce are equal |
| Determined.TurnAlike | harness/harness.go:335-857 | the scripts decide a whole turn: opening, nudge, compaction, reply, verdicts, human messages and how far each script was read |
| Determined.LogDetermined | harness/harness.go:335-857 | of two logs that fit the same configuration and scripts one is the beginning of the other; where a run stops is decided too (`Conclusions.StopsAlike`) |
| Determined.EndAlike | harness/harness.go:335-857 | a turn that ends one run, by its shape, its streak, a closed inbox or a failed wait, ends every run over the same scripts at the same place |
| Conclusions.IncapableStop | harness/harness.go:764-836 | a run stopped as incapable if and only if it is not interactive and its last `threshold` tool-calling turns had no capable call for the first time; the detail diagnoses exactly the arguments of those turns |
| Conclusions.FailureStop | harness/harness.go:297-333 | the empty-reply error comes out if and only if a run that is not interactive ended in three empty replies with no compaction since the first; the transport error if and only if its last model call failed |
| Conclusions.LimitStop | harness/harness.go:435-528 | a run stopped at the context limit if and only if its last reply was not final, had reached the hard stop and answered a conversation that could not be shortened, from a closed History one without a suitable cut point; that conversation is what is left |
| Conclusions.InboxStop | harness/harness.go:797-856 | in a stopped run everything the inbox gave was delivered once and in order; messages are left behind only by a stop as incapable |
| Conclusions.DoneStop | harness/harness.go:546-590 | a run is completed if and only if a terminal tool succeeded in its last turn or, at the turn limit, in the grace call, its last reply made no calls and nobody listens, or its last turn waited and found the inbox closed; completion arguments come with the first two alone |
| Conclusions.CanceledStop | harness/harness.go:585-596 | a run is canceled if and only if the wait of its last turn failed; no earlier turn's wait had failed or found the inbox closed |
| Conclusions.CapStop | harness/harness.go:335-341 | a run stops for cost if and only if it is between two turns with turns left, the costs of its calls adding up to the cap; for lack of turns if and only if the configured turns, or thirty, are used up and no grace call completed it; no turn was started at the cap |
| Conclusions.WaitsOnce | harness/harness.go:886-906 | in every turn of a run a wait gives exactly what the turn then hears, and a turn cut off, ended by an answer or a terminal tool, or failed without a human does not wait |
| Conclusions.LastReason | harness/harness.go:335-857 | the reason of a turn that ends the run, each reason by an if-and-only-if on that turn |
| Conclusions.StopsAlike | harness/harness.go:335-869 | two stopped runs over the same configuration and scripts have the same log, reason and error |
| Conclusions.RunsAlike | harness/harness.go:245-869 | and the same conversation, deliveries, requests, tool events, totals and counters |
| AgentLoop.SendsFit | harness/replay.go:173-203 | every request one model call makes is closed, made from the conversation of that moment and says what it says but for reasoning, is within the cost cap, honours its pin or is the bare retry, and carries no details of any form when replay is off or it is the retry |
| AgentLoop.WindowMoves | harness/compaction.go:94-101 | compaction moves the start of the verbatim suffix forward, strictly when it shrinks the history, and leaves system prompt, one summary, suffix |
| AgentLoop.WindowGrows | harness/harness.go:556-556 | appending keeps the conversation a window of everything ever added |
| AgentLoop.RunsSnoc | harness/harness.go:727-730 | after one more execution either no terminal tool has succeeded, or exactly the last execution did |
| AgentLoop.Harness.Run | harness/harness.go:245-869 | whole-run theorem, for all scripts: from a closed History every request and the final conversation are closed; all requests fit and say what the conversation said; the conversation is, turn by turn and field by field, the one its log tells (`Transcript.Transcribed`); requests, totals, counters and tool events are those of the log and the grace call, as are what was written, what is left of it, what was delivered and what is remembered; the log fits the scripts; at most three client calls per turn plus four; a run that is not interactive stops; a stop has the reason and the error the log gives, no earlier turn ended the run, it is completed iff done, with completion arguments iff one terminal tool succeeded, last |
| AgentLoop.Harness.TakeTurn | harness/harness.go:335-857 | at the cost cap one iteration stops as max_cost and asks nothing; otherwise it logs exactly one turn, whose first request is the conversation at that point of the log, pinned, and goes on or stops with the contract met |
| AgentLoop.Harness.StopForCost | harness/harness.go:336-341 | at the cap, with turns left, the run stops before a turn is started; this is what the log says too |
| AgentLoop.Harness.OpenTurn | harness/harness.go:343-374 | the opening writes what the inbox held, then the nudge that is due, and counts the turn; what results is the conversation the log says the turn asks |
| AgentLoop.Harness.DrainInbox | harness/harness.go:871-884 | every drained message is appended and reported once, in order; without an inbox nothing happens |
| AgentLoop.Harness.AwaitNext | harness/harness.go:886-906 | a message that arrives is appended and reported; closing and errors add nothing |
| AgentLoop.Harness.GiveNudge | harness/harness.go:345-372 | the flags and counters give exactly the nudge the log says is due |
| AgentLoop.Harness.SendModel | harness/replay.go:173-203 | one pinned request, and a second bare one exactly when a 400 answered a request with a pin or reasoning; each says what the conversation says but for reasoning details; the outcome is that of the last one |
| AgentLoop.Harness.Consult | harness/harness.go:376-392 | the conversation is sent, pinned, and the turn logged is a failed call or holds the reply exactly as the last of the one or two model calls answered |
| AgentLoop.Harness.Receive | harness/harness.go:394-433 | a reply is paid for once, and usage events keep adding up to the totals |
| AgentLoop.Harness.TakeReply | harness/harness.go:435-546 | the turn logged is cut off exactly at the hard stop without a compaction, otherwise an empty reply, an answer or a batch, in this order; compaction is attempted exactly at the threshold; a final reply is never compacted or cut off and completes the run |
| AgentLoop.Harness.TryCompact | harness/harness.go:443-508 | compaction is tried exactly when the threshold is reached; attempt and history are those of the planned cut and the summarizer's answer, one summarize call when there is a cut; the history changes only when it gets shorter, and then the empty-reply count restarts |
| AgentLoop.Harness.Compact | harness/compaction.go:46-102 | a successful summary yields the compacted history, closed when the history was; the summarize request is the compaction prompt and the dropped part without its reasoning |
| AgentLoop.Harness.CompactNow | harness/harness.go:446-506 | outcome and history are exactly the planned cut with the summarizer's text, installed only when shorter; a summarize call that replied is paid for either way |
| AgentLoop.Harness.CutShort | harness/harness.go:517-528 | the run stops as context_limit, the turn is logged as cut off, and neither the reply nor anything else is added to the history |
| AgentLoop.Harness.FailTurn | harness/harness.go:297-333 | a run that is not interactive ends with the error; an interactive one resumes with the next message, completes on a closed inbox or is canceled |
| AgentLoop.Harness.HandleFailure | harness/harness.go:386-392 | a failed call is logged with the message that answered it: a run that is not interactive stops in error with its history untouched, an interactive one goes on exactly when a message arrived |
| AgentLoop.Harness.HandleEmpty | harness/harness.go:531-544 | the first two empty replies in a row are logged and retried with history and deliveries untouched; the third fails the turn, in error unless the run is interactive, which then goes on exactly when a message arrived |
| AgentLoop.Harness.HandleSpoken | harness/harness.go:546-602 | the reply and then the messages that followed it are added; without an inbox the run is done, with one it goes on exactly when a message arrived |
| AgentLoop.Harness.NextInput | harness/harness.go:570-599 | messages already waiting are all taken, and only without any the run blocks for one |
| AgentLoop.Harness.RunBatch | harness/harness.go:604-743 | the walk answers every call in order and the i-th message added carries the text the i-th verdict gives; its verdicts fit, its tallies are those of the verdicts, executions and polls are those the verdicts claim, the stash is what the mid-batch drain gave and excludes termination, and completion arguments are those of the terminal call |
| AgentLoop.Harness.NextCall | harness/harness.go:634-743 | a call is skipped with the marker of its reason or dispatched, and the inbox is looked at exactly after a dispatched call that did not end the run and has another after it |
| RunFacts.PollsExactly | harness/harness.go:732-742 | in a batch the inbox is looked at once per dispatched call but the last, once more when that last one was interrupted after, and never without an inbox |
| AgentLoop.Harness.DispatchCall | harness/harness.go:652-731 | one call, one answer with the text of its outcome, one pair of events, one count and one decision, whichever of the four outcomes |
| AgentLoop.Harness.SkipCall | harness/harness.go:936-953 | a call that is not dispatched is answered with the marker of its reason and reported as a pair but not counted |
| AgentLoop.Harness.HandleBatch | harness/harness.go:604-857 | one batch turn with this reply is logged, and when a terminal tool succeeded in it the run is done with completion arguments |
| AgentLoop.Harness.AnswerBatch | harness/harness.go:548-743 | the reply and one answer per call are added, in order, with their texts, and leave no debt |
| AgentLoop.Harness.EndBatch | harness/harness.go:745-756 | after the whole batch was answered the run is completed with the arguments of the terminal call, and nothing more is written |
| AgentLoop.Harness.WeighBatch | harness/harness.go:758-783 | a capable batch, or one below the threshold, goes on with its stash delivered; a full streak stops a run that is not interactive as incapable and restarts the count of any other |
| AgentLoop.Harness.Trip | harness/harness.go:783-836 | a run that is not interactive stops as incapable; an interactive one starts the count over, delivers the stash when there is one, and otherwise goes on exactly when a message arrived |
| AgentLoop.Harness.Recover | harness/harness.go:808-829 | without a stash the run waits, and what the human said is delivered and logged with the batch |
| AgentLoop.Harness.Declare | harness/harness.go:832-836 | the run stops as incapable, its detail is the diagnosis of the window, and the stash stays undelivered |
| AgentLoop.Harness.DeliverBatch | harness/harness.go:840-856 | after all answers the images and then the stashed messages are added, in this order, and the run goes on |
| AgentLoop.Harness.SendTurn | harness/graceturn.go:131-184 | a grace request is made within the cost cap, posted as specified and paid for when answered; turns are not counted |
| AgentLoop.Harness.SendGrace | harness/graceturn.go:45-51 | the grace request is sent a second time exactly when its first answer was a 400; requests, usages and outcome are those of the specified call |
| AgentLoop.Harness.GraceFinish | harness/graceturn.go:14-111 | nothing happens without a terminal tool to offer; otherwise requests, usages, executions, decisions and completion arguments are exactly those the specified grace call adds, at most four calls; completes only when a terminal tool succeeded, as the last execution of the run; the conversation is left as it was |
| AgentLoop.Harness.TryTerminals | harness/graceturn.go:57-110 | exactly the terminal calls whose arguments parse run, in order up to the first success, whose arguments complete the run; each is decided, counted and reported |
| RunSpec.CandidatesMean | harness/graceturn.go:57-71 | a call of the grace reply is tried exactly when its tool is terminal by the last registration of its name and its arguments parse |
| RunSpec.TriesMean | harness/graceturn.go:57-110 | the candidates are executed one after the other, each decision saying what its own execution gave, up to the first success; only it completes the run, with its own arguments |
| AgentLoop.Harness.FinishRun | harness/harness.go:859-868 | at the turn limit the grace call is made exactly when it is asked for, below the cost cap and has a tool to offer; the run stops as done when it succeeds and as max_turns otherwise, its conversation untouched |
| AgentLoop.Harness.SeedMessages | harness/harness.go:257-267 | the conversation starts as system prompt, History (bare without replay), task |
| Details.EntriesByIndex | llm/reasoning.go:90-136 | whatever is interleaved, the entries of an index are the merged runs of that index's own fragments |
| Details.LooseEntries | llm/reasoning.go:91-107 | fragments that are no objects or have no integer index become entries of their own, unchanged and in order; null is dropped |
| Details.RunsAreMaximal | llm/reasoning.go:80-84 | the runs are all the fragments in order; no two fragments of a run name different types, by the value of `type` itself, and a run ends only where a fragment names another type than some fragment of it |
| Details.CutUnique | llm/reasoning.go:80-84 | there is one way only to cut fragments like that |
| Details.KeyMeans | llm/reasoning.go:138-152 | a type key is empty exactly for an absent, null or empty type, and two keys differ exactly when the type values do |
| Details.BlockHolds | llm/reasoning.go:36-78 | closed form for each key: for `text`, `summary` and `data` the strings since the last replacing value, else that value, else what the first fragment had |
| Details.AssembledNewest | llm/reasoning.go:85-88 | after any fragments `byIndex` names the newest entry of every index seen, and of no other |
| Details.Rechunk | llm/reasoning.go:54-69 | cutting a concatenated string into an extra untyped fragment of the same index never changes what is assembled |
| Details.Reassembled | llm/reasoning.go:167-203 | the assembled array is a fixed point: streaming its elements again gives the same entries |
| Details.DetailEntry.Open | llm/reasoning.go:36-52 | for any order of the keys, the entry is the opened fragment, `fields` and `cat` disjoint and the cached type that of the fields |
| Details.DetailEntry.Merge | llm/reasoning.go:54-78 | for any order of the keys, the slots are the merged ones and stay disjoint |
| Details.Accumulator.Add | llm/reasoning.go:90-136 | the in-place update refines one step of the specification and keeps the representation invariant; a fragment of an index opens an entry exactly when it is the first of that index or names another type than the newest entry of it |
| Details.Accumulator.MergeInto | llm/reasoning.go:121-135 | merging changes one entry only, and the cached type follows the fields |
| Details.Accumulator.Assembled | llm/reasoning.go:167-203 | the result renders every entry in order, and is none without entries |
| Stream.FirstSeenMeans | llm/sse.go:162-167 | calls are listed once each, for exactly the indexes that appeared, in order of first appearance |
| Stream.LatestMeans | llm/sse.go:108-130 | labels, model, provider and finish reason are the last one given that is not empty |
| Stream.PartsCommute | llm/sse.go:161-205 | parts of two calls under way can be swapped without changing the calls |
| Stream.TakePart | llm/sse.go:161-205 | after one part the maps hold, per index, the latest labels and all arguments, and a listener told only the news still knows the same |
| Stream.TakeChoice | llm/sse.go:125-205 | after one choice text, reasoning (with its fallback field), finish reason and calls are those of the choices so far, for reply and listener alike |
| Stream.ParseStream | llm/sse.go:67-252 | the outcome is the verdict on the lines (first bad frame, scanner error, truncation, else the projected reply), and the deltas amount to the consumed choices even when the stream fails |
| Stream.CompleteExactly | llm/sse.go:83-224 | a stream is complete exactly when no line before its end is bad, the scanner did not fail, and it came to the end marker or some choice gave a finish reason |
| Stream.ShownRebuilds | llm/sse.go:209-249 | what a listener built equals the reply: content, reasoning, and id, name and arguments per call, with nothing for other indexes |
| Stream.ListenerAgrees | llm/sse.go:56-63 | when a stream completes its listener has rebuilt the reply: the k-th call is what it saw under the k-th index of the stream, in order of first appearance |
| Client.Client.DoWithRetry | llm/client.go:215-252 | at most MaxRetries+1 posts with one wait between two of them; the reply is the first that may not be retried or the last one; an interrupted wait is the last and gives up with attempts left; neither reply nor error exactly for a negative MaxRetries |
| Client.Client.Connect | llm/client.go:101-111 | the first connection or, after a wait that was not interrupted, another one; one wait lies between any two posts |
| Client.Client.SendStream | llm/client.go:75-149 | bodies broke one after another with the context live after each, and every other post but the last could be retried; a broken stream comes out only when the context was over after it or all attempts broke, an interrupted wait only when a wait was, a refusal or a failed connection only from the last post; a reply is the verdict on the last post's body; with resets clearing it, the listener's view is exactly the returned reply, call by call in the order of that body's indexes, however many attempts failed; a reset always follows something delivered |
| Client.Client.Read | llm/client.go:126-134 | a replay voids what was delivered, and only what was delivered |
| Glob.MatchSegments | tools/glob.go:355-392 | the two swapped rows compute the recursive meaning of the pattern for every pattern, path and single-segment matcher |
| Glob.StarLast | tools/glob.go:379-381 | a final globstar matches exactly when the rest matches some prefix of the path |
| Glob.OneLast | tools/glob.go:382-385 | any other final segment takes exactly the last path segment |
| Glob.NormalizeGlobPattern | tools/glob.go:215-259 | the loops terminate and give the normal form, as text and as segments |
| Glob.NormalForm | tools/glob.go:215-225 | normalizing twice is normalizing once, and no empty segment reaches the matcher |
| Glob.AnywhereBelow | tools/glob.go:226-259 | a normalized pattern matches a path exactly when what was asked for matches the path from some segment on |
| ReadPage.ReadPage | tools/read.go:131-226 | a page is the longest run of whole lines that fits, or one cut line that alone does not; its hint is due exactly then and names the right lines; a body never exceeds the ceiling |
| ReadPage.PageUnique | tools/read.go:131-226 | that promise leaves no choice: any two pages that keep it for the same text, offset and limit are equal |
| ReadPage.FitLines | tools/read.go:165-187 | the walk stops at the last line that keeps the page under the ceiling |
| ReadPage.SplitAtNewlines | tools/read.go:131-131 | every line but the last ends with its only newline, and the last has none |
| ReadPage.SplitKeepsAll | tools/read.go:131-131 | the lines put together are the text |
| ReadPage.FollowingEnds | tools/read.go:219-223 | from any line there is one finished walk along the hints, it has at most one page per line left, and every other walk is the beginning of it |
| ReadPage.WalkBounded | tools/read.go:219-223 | no walk along the hints, finished or not, has more pages than there are lines left |
| ReadPage.FollowingReads | tools/read.go:196-224 | from any offset, the bodies put together are the remaining lines, each cut to the ceiling |
| ReadPage.HintsRebuildText | tools/read.go:131-224 | from the first line, they are the text, exactly so when no line is over the ceiling |
| ReadPage.LimitedPage | tools/read.go:213-224 | with a limit the page shows all the lines asked for if and only if they fit under the ceiling, and hints only at a cut line |
| ReadPage.LimitedStopsShort | tools/read.go:165-224 | two lines of 70000 bytes, asked for with limit 2: the page is the first line and gives no hint |

## Left out

- The network, TLS, the stall timer, backoff delays, Retry-After and reading of response bodies: the outside world
  answers with a status, the lines of a body and the scanner's verdict.
- JSON text: fragments, arguments and chunks are decoded values. Strings inside reasoning details are
  compared and kept by what they decode to, so two spellings of one string are one value; `parseArgs`
  and the test for concatenated objects are arbitrary predicates.
- Harmony extraction: the stream properties are stated before it rewrites a reply.
- `Client.Send`, the non-streamed call: its replay loop is that of `SendStream` without deltas.
- Floating point: costs are integers in the smallest unit and thresholds exact reals, so rounding of
  products and sums is not modelled; neither is overflow of the 64-bit totals.
- The wording of nudges, repair, unknown-tool and grace messages and the redaction and size cap of tool output: these are
  functions from the values they depend on to arbitrary text.
- Model name, fallback models, reasoning options, tools and tool_choice of a request; finish
  reason and provider of a reply in the loop. They do not steer it.
- Events that are neither tool calls, tool answers, usage nor user input are emitted where the code emits them, but no
  contract speaks about them; event payloads beyond ids, counts, usage and pins, and the transcript format, are not modelled.
- `Result.Output` and `Result.ModelUsed` are updated as in the code; only `AgentLoop.Harness.Receive` says to what.
- An interactive run may never stop. `Harness.Run` follows it for any number of turns given as `budget`, and what
  it states holds after each; a run that is not interactive ignores the budget and always stops.
- Cancellation of a context between the steps of a turn: it shows as an error of the call or the wait it interrupts.
- Subprocess tools, path jails, environment scrubbing, catalog, dialects, subagents, verification
  gates and the skill menu.
- Enumeration of files for a glob, bounds on pattern size, and the single-segment matcher, which is an arbitrary predicate.
- Opening, sniffing and size-checking a file before it is paged; text is a sequence of bytes.
