# Streaming and turn runtime: a verified model

This project models the part of a coding agent that sits between a language model and its user: tool arguments that
arrive in fragments, a cache of context files, the envelopes a run emits, approvals, the delivery of a provider's
stream, and the data structures behind memory notes, the file picker, the transcript, batch output and step ids. It
proves what these keep over every run. `dafny verify dfyconfig.toml` checks all of it.

Code that changes state step by step appears as a class or a loop; each of its methods equates the new state with a
function of the old one, and the properties are proved about those functions, over every sequence of events. Where a
property is not true of the program as it stands, the exact condition under which it holds is proved, together with
an input that breaks it:

- JSON texts are accepted in every chunking exactly up to 65,537 bytes (`ToolArguments.JsonAlwaysAcceptedIff`, and
  `ToolArguments.LongJsonRefused` for an input of each larger size);
- forking a task copies its once-scoped grants, which can then be used twice (`GrantLedger.ForkSoundIff`,
  `GrantLedger.ForkedUseIff`; `ApprovalRuns.ForkRunsTwoCommands`);
- starts and ends of pulses alternate exactly over the runs whose every event is well placed
  (`LocalApiProtocol.AlternatesOverEveryRunIff`); a completion after an error in mid-stream is not
  (`LocalApiProtocol.ErrorThenCompleteEndsTwice`);
- a provider block index of 1,000,000 or more collides with a synthetic text block, except in a delta of the block that
  is open (`Normalizing.NormalizeFollowsIff`; `Normalizing.ProviderIndexClash`);
- batch mode and the derived records tell the same response exactly where nothing was thought and the text is heard in
  the order streamed (`BatchResponses.ResponsesAgreeIff`; `BatchResponses.ThinkingIsCollected`);
- step-id renumbering does not end once the largest id is taken and another is needed (`StepIds.DivergesIff`;
  `StepIds.LargestThenMissing`);
- after a `/compact` that cleared turns, the next turns are shown above the compaction row
  (`TranscriptProjection.InOrderIff`; `TranscriptProjection.CompactedAfterNextTurn`);
- a candidate store is not always what its notes file reads back as (`NotesMarkdown.RenderMigrateIff`), and never once a
  note was added by command (`NotesMarkdown.AddedNoteNotReadBack`).

| files | component |
|---|---|
| `JsonPrefix`, `JsonGrammar`, `ToolArguments`, `DeltaAccumulator` | streamed tool arguments |
| `RecencyList`, `ContextCache` | context file cache |
| `GrantLedger`, `ApprovalProtocol`, `ApprovalSafety`, `ApprovalRuns`, `ApprovalAnswers`, `ApprovalEffects`, `TuiMode` | approvals of the terminal mode |
| `Envelopes`, `Normalizing`, `Announced`, `Normalizer`, `LocalApiProtocol`, `LocalApiStory`, `LocalApiMode` | envelope stream of the local API |
| `PulseTask`, `PulseVoices`, `PulseRun`, `LocalApiPulses` | the producer of a pulse, and whole pulses |
| `BatchRecords`, `HeardText`, `PulseRoundTrip`, `BatchResponses` | records rebuilt from envelopes |
| `StreamDelivery` | delivery of a provider's stream |
| `NoteLines`, `NotesMarkdown`, `AutoMemory`, `NoteInjection` | memory notes |
| `FilePrompt`, `FilePicker` | file picker |
| `TranscriptRows`, `TranscriptShown`, `TranscriptProjection` | transcript |
| `BatchRun`, `BatchMode`, `ToolEvidence` | batch mode |
| `StepIds` | step ids of tool invocations |
| `Text`, `Maps`, `Wrappers` | shared helpers |

## Model

| member | source | states |
|---|---|---|
| `JsonPrefix.IsValidJsonPrefix` | src/runtime/delta_accumulator.rs:264-306 | the scanner loop with its five variables and early exits answers exactly whether the text so far is acceptable |
| `JsonPrefix.AcceptsIffNeverUnderflows` | src/runtime/delta_accumulator.rs:264-306 | acceptable means, said without the scanner: outside strings no closing brace or bracket ever outnumbers the opening ones |
| `JsonPrefix.PrefixClosed` | src/runtime/delta_accumulator.rs:264-306 | every beginning of an acceptable text is acceptable |
| `JsonGrammar.ValueKeeps` | src/runtime/delta_accumulator.rs:264-306 | by induction over the grammar of sections 2 to 7 of RFC 8259: any JSON value, with any escapes, brings the scanner back to the depths it started from |
| `JsonGrammar.JsonTextAccepted` | src/runtime/delta_accumulator.rs:264-306 | every beginning of every JSON text is accepted, and a whole text leaves the scanner in its first state |
| `JsonGrammar.AcceptanceIsNotJson` | src/runtime/delta_accumulator.rs:264-306 | the converse fails: some accepted texts are the beginning of no JSON text |
| `ToolArguments.StoreIsLongestFit` | src/runtime/delta_accumulator.rs:132-146 | under the byte cap the stored text grows by the longest beginning of the chunk that fits |
| `ToolArguments.StoreAccepted` | src/runtime/delta_accumulator.rs:112-171 | what is stored stays acceptable, also after the cap has cut something off |
| `ToolArguments.ChunkingIndependent` | src/runtime/delta_accumulator.rs:112-171 | up to one byte past the cap, all chunks are accepted if and only if the whole concatenation passes the scanner, however it is cut; within the cap all of it is stored |
| `ToolArguments.JsonAlwaysAcceptedIff` | src/runtime/delta_accumulator.rs:112-171 | JSON texts of a given size are accepted in every chunking if and only if the size is at most 65,537 bytes |
| `ToolArguments.LongJsonRefused` | src/runtime/delta_accumulator.rs:112-171 | the family that fails beyond that: leading blanks use up the cap, the opening brace is cut off, the closing brace is refused |
| `DeltaAccumulator.AbsorbInPlace` | src/runtime/delta_accumulator.rs:126-147 | the statements that change one entry, character by character, have the effect of `Absorb`; the truncation flag rises exactly when something is cut off |
| `DeltaAccumulator.AbsorbKeepsToolOk` | src/runtime/delta_accumulator.rs:126-147 | an accepted chunk leaves whose tool it is, its name and whether it is finished as they were; the queue holds the newest chunks and the text is all that was accepted unless, and only unless, it is flagged as cut |
| `DeltaAccumulator.OldestPendingUnique` | src/runtime/delta_accumulator.rs:227-238 | with distinct activity stamps the tool to evict does not depend on the order of the hash map |
| `DeltaAccumulator.TruncatedAtMostOncePerStart` | src/runtime/delta_accumulator.rs:112-171 | in every reachable state: text within the cap and acceptable, queue within its depth, no more truncation signals than starts for any id |
| `DeltaAccumulator.Accumulator.EstimateMemoryUsage` | src/runtime/delta_accumulator.rs:210-225 | the loop over the map adds up exactly the sizes of the entries |
| `DeltaAccumulator.Accumulator.DropOldestPending` | src/runtime/delta_accumulator.rs:227-238 | at most one tool goes, the least recently active one still running; everything else is untouched |
| `DeltaAccumulator.Accumulator.PublishSignal` | src/runtime/delta_accumulator.rs:240-248 | a signal is offered to the peer channel if there is one |
| `DeltaAccumulator.Accumulator.StartTool` | src/runtime/delta_accumulator.rs:68-110 | the three outcomes with the exact new table; after a success memory is at most the watermark plus the new entry |
| `DeltaAccumulator.Accumulator.Accumulate` | src/runtime/delta_accumulator.rs:112-171 | unknown id and malformed text change nothing; otherwise the entry absorbs the chunk, at most one tool is evicted, and exactly the right signals go out; activity stamps stay distinct while time moves on |
| `DeltaAccumulator.Accumulator.Finish` | src/runtime/delta_accumulator.rs:173-189 | marks the tool finished, stamps it, and says so; nothing for an unknown id |
| `DeltaAccumulator.Accumulator.KeepWatermark` | src/runtime/delta_accumulator.rs:149-151 | above the watermark exactly one tool goes, the least recently active running one if there is any |
| `DeltaAccumulator.Accumulator.CleanupFinished` | src/runtime/delta_accumulator.rs:195-201 | exactly the finished tools last active no later than the given time ago are forgotten, and counted |
| `DeltaAccumulator.Accumulator.CleanupTask` | src/runtime/delta_accumulator.rs:203-208 | exactly the tools of the task are forgotten, and counted |
| `DeltaAccumulator.StreamArguments` | src/runtime/delta_accumulator.rs:112-171 | streaming chunks into the accumulator does what `Feed` says until the tool is evicted, so the theorems about chunking are about the accumulator |
| `DeltaAccumulator.RunCalls` | src/runtime/delta_accumulator.rs:68-208 | whatever is done to a fresh accumulator, in any order: a resident tool has the task and the name of its last start, and is finished if and only if a finish was signalled since; text, queue and truncation signals are in bounds |
| `RecencyList.ShrinkDropsShortestPrefix` | src/runtime/context_cache.rs:45-60 | eviction drops exactly the shortest oldest part whose removal restores at most 64 entries and 2 MiB |
| `RecencyList.ReadTransparent` | src/runtime/context_cache.rs:71-114 | one cached read answers what the uncached read would, and caches nothing false |
| `RecencyList.ReadsTransparent` | src/runtime/context_cache.rs:71-114 | so does every read of every run, however files are rewritten in between, if length and modification time decide content |
| `RecencyList.LimitsOverEveryRun` | src/runtime/context_cache.rs:152-173 | after every read of every run each path is resident at most once and both limits hold |
| `RecencyList.HitIff` | src/runtime/context_cache.rs:71-150 | a read is reported as a hit if and only if a slot for the path has the file's fingerprint |
| `RecencyList.NewSlotIsJustRead` | src/runtime/context_cache.rs:71-127 | only what was just read of a file of at most 64 KiB enters the cache; a read of a directory, a longer file or one without metadata leaves it as it is |
| `RecencyList.SmallOverEveryRun` | src/runtime/context_cache.rs:100-105 | over every run no file longer than 64 KiB is resident |
| `RecencyList.JustUsedIsNewest` | src/runtime/context_cache.rs:129-173 | after a good read, hit or not, the file's slot is the newest |
| `RecencyList.StaleIsForgotten` | src/runtime/context_cache.rs:134-143 | a slot with another fingerprint is forgotten even when the file can no longer be read |
| `RecencyList.StillResident` | src/runtime/context_cache.rs:129-173 | a file just used, hit or not, still hits after reads of at most 63 other paths whose largest contents fit with its own in 2 MiB |
| `ContextCache.ContextCache.NextAccessTick` | src/runtime/context_cache.rs:40-43 | the access tick goes up by one and saturates |
| `ContextCache.ContextCache.EvictToFit` | src/runtime/context_cache.rs:45-60 | the loop over map, ticks and byte counter ends, and is `Shrink` on the recency list it stands for |
| `ContextCache.ContextCache.OldestPath` | src/runtime/context_cache.rs:47-54 | finds an entry with the smallest tick |
| `ContextCache.ContextCache.TryReadFromCache` | src/runtime/context_cache.rs:129-150 | a hit moves the path to the newest end, a stale fingerprint forgets it; the byte counter stays the sum of the contents |
| `ContextCache.ContextCache.InsertIntoCache` | src/runtime/context_cache.rs:152-173 | inserting replaces, appends at the newest end, and evicts |
| `ContextCache.ContextCache.ReadCachedFile` | src/runtime/context_cache.rs:71-114 | one read refines `Read` on the recency list, in every branch |
| `ContextCache.Session` | src/runtime/context_cache.rs:71-114 | any reads on a fresh cache: every answer is the plain one and both limits hold at the end |
| `GrantLedger.UseSound` | src/app/model_update.rs:443-464 | using a once-scoped grant and writing the document back keeps every such grant usable in one place only and spent at most once |
| `GrantLedger.ForkSoundIff` | src/app/commands/session.rs:380-415 | forking keeps that if and only if the task has no once-scoped grant at that moment |
| `GrantLedger.ForkedUseIff` | src/app/commands/session.rs:380-415 | for every sound ledger and every grant in it: used in the fork and again after resuming the parent, grants stay spent at most once if and only if that one is not once-scoped |
| `ApprovalSafety.TakeConserves` | src/app/model_update.rs:410-489 | an incoming request leaves the books balanced, whichever of its four fates it meets |
| `ApprovalSafety.NextOk` | src/app/model_update.rs:410-489 | every event keeps the guard, the conservation of responders and the safety of the answers |
| `ApprovalSafety.ModeLasts` | src/app/model_update.rs:426-429 | a read-only turn stays read-only and an interrupted pulse interrupted until that pulse is over |
| `ApprovalRuns.ApprovalsOverEveryRun` | src/app/model_update.rs:410-489 | over every run: each request received is answered exactly once or is the one pending, and no answer is yes in a read-only turn or between an interrupt and the end of that pulse |
| `ApprovalRuns.NextSound` | src/app/model_update.rs:443-464 | every event keeps the ledger of grants sound if a fork happens only without a once-scoped grant |
| `ApprovalRuns.GrantsOverEveryRun` | src/app/shell.rs:17-36 | over every run whose forks happen without one, a once-scoped grant authorises at most one request or command |
| `ApprovalRuns.ForkRunsTwoCommands` | src/app/commands/session.rs:380-415 | a run in which one grant given once runs two commands |
| `ApprovalAnswers.AnswersStep` | src/app/model_update.rs:410-489 | what every event answers, what is pending after it, which command it starts and whether it puts session approval in force |
| `ApprovalAnswers.AnswersOverEveryRun` | src/app/overlay.rs:53-113 | over every run, event by event: a request is answered yes if and only if the user approves it while it is pending or session approval or a grant allows it at its arrival; and no if and only if it is pending at a refusal, a newer request, an interrupt or an end of the pulse, or arrives in a read-only turn or a cancelled pulse |
| `ApprovalAnswers.AnswerSentAt` | src/app/overlay.rs:53-70 | each answer of a run was sent by one of its events |
| `ApprovalAnswers.CommandsOverEveryRun` | src/app/shell.rs:4-60 | over every run no command runs but those typed while approval is in force, those approved, and index rebuilds; session approval is in force if and only if it was from the start or a line approved for the session |
| `ApprovalEffects.EffectsStep` | src/app/input.rs:4-130 | what every event does to each capability's grant, to the documents on disk, to the pulse and its sessions, to the mode and to the switches |
| `ApprovalEffects.EditScopes` | src/app/commands/mod.rs:10-30 | an edit loop leaves its three capabilities with at least task scope and every other grant alone |
| `TuiMode.TuiMode.GrantTaskCapability` | src/app/commands/mod.rs:10-30 | a wider grant is kept, a narrower or missing one becomes a task grant |
| `TuiMode.TuiMode.ConsumeGrant` | src/app/shell.rs:17-30 | relying on a once-scoped grant removes it |
| `TuiMode.TuiMode.BeginTurnCapture` | src/app/pulse.rs:163-175 | a turn begins with a fresh pulse and a saved document |
| `TuiMode.TuiMode.BeginCommandSessionWithId` | src/app/pulse.rs:184-197 | a command session joins the active pulse |
| `TuiMode.TuiMode.StartCommandSession` | src/app/shell.rs:51-60 | the first session of a batch begins a turn |
| `TuiMode.TuiMode.ResolvePendingApproval` | src/app/overlay.rs:53-70 | takes the pending approval: a tool request gets its one answer, an inline command starts if approved |
| `TuiMode.TuiMode.CompleteTurnIfIdle` | src/app/pulse.rs:199-222 | ends the turn only when completion is pending and no session is left, declining what is pending |
| `TuiMode.TuiMode.OnToolApprovalRequest` | src/app/model_update.rs:410-489 | the request handler refines the protocol step: refused while cancelling or read-only, approved by session or grant, else asked |
| `TuiMode.TuiMode.OnEditLoopComplete` | src/app/model_update.rs:491-568 | the end of an edit loop declines what is pending and leaves the pulse |
| `TuiMode.TuiMode.OnError` | src/app/model_update.rs:617-643 | an error declines what is pending, commits the failed turn and leaves the pulse |
| `TuiMode.TuiMode.OnInterrupt` | src/app/input.rs:87-130 | an interrupt declines what is pending and marks the pulse; without a pulse it arms quitting |
| `TuiMode.TuiMode.HandleBangCommand` | src/app/shell.rs:4-49 | a bang command runs under session approval or a grant, which it may use up, else becomes the pending approval |
| `TuiMode.TuiMode.HandleApprovalInput` | src/app/overlay.rs:72-113 | the three selections resolve the pending approval, anything else leaves it |
| `TuiMode.TuiMode.HandleResumeSelectionInput` | src/app/overlay.rs:165-208 | choosing a saved task resumes it, cancelling closes the overlay |
| `TuiMode.TuiMode.ApplyResumedTask` | src/app/pulse.rs:23-40 | a resumed task brings its saved grants and drops the pulse |
| `TuiMode.TuiMode.HandleNewCommand` | src/app/commands/session.rs:252-278 | a new session saves the old document and starts without grants |
| `TuiMode.TuiMode.HandleForkCommand` | src/app/commands/session.rs:380-415 | a fork saves the parent, is given up if that fails, and goes on with a copy of its grants |
| `TuiMode.TuiMode.HandleCompactCommand` | src/app/commands/session.rs:296-326 | compaction keeps the grants, ends the edit loop and drops the pulse |
| `TuiMode.TuiMode.HandleEditCommand` | src/app/commands/code.rs:4-36 | an edit loop gets task grants for three capabilities and begins a turn |
| `TuiMode.TuiMode.StartSingleTurn` | src/app/pulse_start.rs:23-44 | a single turn sets the read-only flag and begins |
| `TuiMode.TuiMode.HandleMemoryClearInput` | src/app/commands/memory.rs:95-118 | confirming that the notes are to be cleared writes the document back, anything else only closes the overlay |
| `TuiMode.TuiMode.HandleSlashCommand` | src/app/commands/mod.rs:32-110 | routes the commands that touch the protocol |
| `TuiMode.TuiMode.OnUserInput` | src/app/input.rs:4-85 | routes a typed line: overlay first, then the busy pulse, then bang, slash or a new turn |
| `TuiMode.TuiMode.Handle` | src/app/model_update.rs:55-645 | every event handler refines the protocol step of the same name |
| `TuiMode.RunSession` | src/app/model_update.rs:55-645 | the object fed any events the runtime can produce: each request is answered once or is the one pending, no yes went out in a read-only turn or an interrupted pulse, yes exactly where it was approved or allowed; no command ran but those typed with approval in force and those approved; and if no fork happened with a once-scoped grant in force, none of those was relied on twice |
| `Envelopes.DeltaHasItsStart` | src/runtime/json_handoff.rs:555-595 | in a well-bracketed stream every delta and completion of a synthetic text block follows that block's start with no other mark in between |
| `Normalizer.Normalizer.NextEnvelopeWithSource` | src/runtime/json_handoff.rs:610-632 | stamps an envelope with the next number, which saturates |
| `Normalizer.Normalizer.StartPulse` | src/runtime/json_handoff.rs:289-302 | a pulse starts with all per-turn state reset and the numbering going on |
| `Normalizer.Normalizer.CloseOpenFinalTextBlock` | src/runtime/json_handoff.rs:582-595 | closes the synthetic text block if one is open |
| `Normalizer.Normalizer.EnsureOpenFinalTextBlock` | src/runtime/json_handoff.rs:555-580 | opens one with a fresh index if none is open |
| `Normalizer.Normalizer.RecordToolCall` | src/runtime/json_handoff/tool_calls.rs:78-115 | announces a call under a runtime id and keeps it pending |
| `Normalizer.Normalizer.RecordToolResult` | src/runtime/json_handoff/tool_calls.rs:117-184 | answers a pending call under its start frame and notes changed files unless it failed; an unknown call is reported as it is |
| `Normalizer.Normalizer.RecordToolCallArgumentsDelta` | src/runtime/json_handoff/tool_calls.rs:186-219 | forwards a fragment and replaces the pending arguments when the whole parses |
| `Normalizer.Normalizer.FinishTurnWithStatus` | src/runtime/json_handoff.rs:535-553 | closes open text, forgets the turn and ends the pulse |
| `Normalizer.Normalizer.EmitError` | src/runtime/json_handoff.rs:471-500 | an error ends the pulse as failed unless it is recoverable |
| `Normalizer.Normalizer.EmitMaxTurnsReached` | src/runtime/json_handoff.rs:502-521 | the limit is announced and the pulse ends as failed |
| `Normalizer.Normalizer.NormalizeUiUpdate` | src/runtime/json_handoff.rs:356-457 | every update refines the functional normalizer |
| `Normalizer.Normalizer.NormalizeRuntimeRequest` | src/runtime/json_handoff.rs:459-469 | decisions become resolution envelopes, other requests nothing |
| `Normalizer.NormalizePulse` | src/runtime/json_handoff.rs:356-457 | the object fed a whole pulse: its envelopes say what the updates tell, and it knows their calls |
| `Announced.NormalizeAnnounces` | src/runtime/json_handoff.rs:356-457 | one more update, whatever came before it in the pulse: each block, delta, line, call and fragment is said once under its payload, its source and the call it belongs to |
| `Announced.ToolSeen` | src/runtime/json_handoff/tool_calls.rs:117-184 | a result is announced once behind its block, as failed if and only if it is an error, with its text and under the id and the name of the call it answers |
| `Announced.PendingStep` | src/runtime/json_handoff/tool_calls.rs:78-219 | the calls still waiting, under which runtime id, and with which arguments, are what the updates tell |
| `Announced.FilesStep` | src/runtime/json_handoff/tool_calls.rs:139-184 | the files changed are those of the calls that got a good result, by their latest arguments |
| `Announced.PulseAnnounced` | src/runtime/json_handoff.rs:356-457 | a whole pulse of any updates: numbers and frames aside, its envelopes say exactly what the updates tell, in order |
| `Announced.ErrorSeen` | src/runtime/json_handoff.rs:471-500 | an error is told as it is and ends the pulse as failed, with the files so far, unless it is recoverable |
| `Announced.MaxTurnsSeen` | src/runtime/json_handoff.rs:502-521 | reaching the limit is told and ends the pulse as failed |
| `Normalizing.NormalizeFollowsIff` | src/runtime/json_handoff.rs:356-457 | for every update, whatever its index: consecutive numbers and kept text brackets if and only if the index is below 1,000,000 or the update is a delta of the very block that is open |
| `Normalizing.NormalizeNumbers` | src/runtime/json_handoff.rs:356-457 | the numbering is kept by every update, whatever its index |
| `Normalizing.NormalizeFollows` | src/runtime/json_handoff.rs:356-457 | every update with a provider's index keeps both, and an ended pulse has no open text block |
| `Normalizing.EmitMaxTurnsFollows` | src/runtime/json_handoff.rs:502-521 | so does reaching the turn limit |
| `Normalizing.ProviderIndexClash` | src/runtime/json_handoff.rs:356-457 | a stream that breaks the brackets: a provider block at 1,000,000 closes the synthetic one |
| `Normalizing.ResultsPointBack` | src/runtime/json_handoff/tool_calls.rs:117-219 | every result and every fragment of arguments that names its tool carries the frame of an earlier start with the same id and name, and nothing else carries one |
| `LocalApiProtocol.FlagsOverEveryRun` | src/local_api.rs:168-291 | over every run, whatever the producer does: a waiting completion implies a live session, and after the first input a turn is in progress if and only if the task does not quit |
| `LocalApiProtocol.SessionsAreLive` | src/local_api.rs:279-290 | the session set is exactly the sessions started and not finished since the pulse began or failed |
| `LocalApiProtocol.EndsExactlyWhen` | src/local_api.rs:168-184 | an event ends a pulse exactly when completion and all sessions are in, cancelled if and only if interrupted, or failed on an error; nothing else marks a pulse |
| `LocalApiProtocol.InterruptedIff` | src/local_api.rs:202-210 | a pulse counts as interrupted exactly when an interrupt came since its input while the turn was in progress |
| `LocalApiStory.StoryOverEveryRun` | src/local_api.rs:158-291 | over every run at all, numbers and frames aside, the stream says what its events tell and nothing else: every forwarded update once, in order, with its payload, every decision under its request, every end with its status and files |
| `LocalApiStory.FramesOverEveryRun` | src/runtime/json_handoff/tool_calls.rs:117-219 | over every run each named result or fragment carries the frame of a start before it |
| `LocalApiProtocol.NumberedOverEveryRun` | src/local_api.rs:158-166 | over every run at all the envelopes are numbered 1, 2, 3, … |
| `LocalApiProtocol.AlternatesIff` | src/local_api.rs:168-291 | after any event starts and ends alternate if and only if the event is a start outside a pulse, or does not end one outside it, deferred ends included |
| `LocalApiProtocol.AlternatesOverEveryRunIff` | src/local_api.rs:168-291 | over every run at all starts and ends alternate if and only if every event of it is so placed |
| `LocalApiProtocol.BracketsOverEveryRunIff` | src/local_api.rs:188-291 | over every run at all the text blocks a reader sees are at each moment those the normalizer keeps, if and only if no input comes while one is open and every index is a provider's or that of the open block in a delta |
| `LocalApiProtocol.StreamOverEveryRun` | src/local_api.rs:188-291 | a disciplined producer meets all of that: numbered, bracketed with every block closed at each end, and alternating |
| `LocalApiProtocol.ErrorThenCompleteEndsTwice` | src/runtime/context.rs:640-642 | in every state an error in mid-stream followed by a completion of the same pulse ends it twice, at once or when the session it waits for finishes |
| `LocalApiMode.LocalApiMode.DrainPeerUpdates` | src/local_api.rs:83-90 | the bounded queue keeps exactly the newest 128 of what was known and what was waiting |
| `LocalApiMode.LocalApiMode.EmitEnvelopes` | src/local_api.rs:158-166 | envelopes go out in order, with the peer queue drained around them |
| `LocalApiMode.LocalApiMode.CompleteTurnIfIdle` | src/local_api.rs:168-184 | refines the deferred end of a turn |
| `LocalApiMode.LocalApiMode.OnUserInput` | src/local_api.rs:188-200 | refines the start of a pulse |
| `LocalApiMode.LocalApiMode.OnInterrupt` | src/local_api.rs:202-210 | remembers the interrupt while a turn is in progress |
| `LocalApiMode.LocalApiMode.Handle` | src/local_api.rs:188-291 | every handler refines the protocol step |
| `LocalApiMode.RunTask` | src/local_api.rs:188-291 | a fresh task fed any events at all emits a numbered stream that says what they tell, in which starts and ends alternate if and only if every event is well placed, and which is bracketed if every event keeps the brackets |
| `PulseRun.RunPulse` | src/runtime/context.rs:109-165 | for every stream: each text that goes in comes out piece by piece as its own normaliser gives it, flushed at the end of its block or of the stream, and everything else once, in order, as it went in; one terminal update at the end and one more for each error in mid-stream; every text block it began is completed unless the pulse is cancelled |
| `PulseRun.FlushBlocks` | src/runtime/context.rs:129-134 | exactly the blocks still open are flushed and completed, each once and after its text, in any order |
| `PulseRun.EmitNormalisedChunks` | src/runtime/context.rs:663-682 | the loop sends the texts among the chunks and drops tagged tool calls |
| `PulseVoices.PieceSays` | src/runtime/context.rs:528-644 | what one update sends: the text its normaliser gives, under its block and nowhere else, and the update itself if it is not text |
| `PulseVoices.InStepMore` | src/runtime/context.rs:528-644 | at each moment of the stream what was sent is what the stream so far gives |
| `PulseTask.ForwardOpens` | src/runtime/context.rs:528-644 | forwarding keeps the blocks under way equal to the text blocks that look open from outside |
| `LocalApiPulses.PulseDisciplined` | src/local_api.rs:188-291 | one whole pulse, told only by its events, is disciplined and leaves the mode idle |
| `LocalApiPulses.OneEndPerPulse` | src/local_api.rs:188-291 | any number of whole pulses: one start and one end for each, alternating, numbered without a gap, every synthetic block closed |
| `BatchRecords.DeriveBatchRecords` | src/runtime/json_handoff.rs:655-776 | the loop over the envelopes with its accumulators computes the fold |
| `BatchRecords.SplitAtPulseStart` | src/runtime/json_handoff.rs:664-675 | cutting a stream at a pulse start cuts its records: those of the whole are those of the parts, the status is the later one that exists, turns and files are those of both |
| `BatchRecords.OneRecordPerStart` | src/runtime/json_handoff.rs:664-675 | exactly one record for each pulse start, in order, with its number and input |
| `BatchRecords.SummaryIff` | src/runtime/json_handoff.rs:718-734 | there is a summary if and only if some end closed an open pulse, and its status is the last such end's |
| `BatchRecords.SummaryTotals` | src/runtime/json_handoff.rs:753-769 | the summary counts the records and names exactly the files some record names |
| `BatchRecords.LimitIff` | src/runtime/json_handoff.rs:664-751 | the turn limit counts as reached if and only if some envelope says so |
| `BatchRecords.GitEvidence` | src/pulse_evidence.rs:106-122 | a git tool leaves as evidence the command it stands for, with exit code 0 if and only if it did not fail |
| `BatchRecords.NoOtherEvidence` | src/pulse_evidence.rs:106-122 | no other tool leaves evidence |
| `HeardText.LettersKept` | src/runtime/json_handoff.rs:655-776 | every letter an update streams as text is in the response, as often, unless its block was started over |
| `HeardText.HeardInOrder` | src/runtime/json_handoff.rs:655-776 | where text blocks do not overlap the response is the text in the order in which it was streamed |
| `PulseRoundTrip.CompletesTogether` | src/runtime/json_handoff/derived.rs:64-97 | completing a block in the record under way is completing it in the text heard, under whatever index it has |
| `PulseRoundTrip.ReadStretch` | src/runtime/json_handoff/derived.rs:64-97 | inside a pulse envelopes change nothing but the turn under way |
| `PulseRoundTrip.UpdatesTold` | src/runtime/json_handoff.rs:356-457 | the envelopes of any updates within a pulse, overlapping or not, tell exactly the text heard, completed and open |
| `PulseRoundTrip.PulseRecorded` | src/runtime/json_handoff.rs:655-776 | round trip: the normalized stream of a pulse derives to one record with its number, input, files, status, and for response its text, block by block in the order of completion, then what was left open; for commands those of the answered calls, failed where the result was an error, and for files those of the calls that did not fail |
| `StreamDelivery.MeaningIsExactlyOnce` | src/api/stream_ingress.rs:245-286 | what a connection delivers, however it ends: the parser's answers to the chunks it took, in order, then one flush if the stream ended by itself; and what ended it: the item read last is a transport failure, a refused chunk or the chunk that ended the protocol, each if and only if that is the end reported, or all was read and none of these happened |
| `StreamDelivery.SignalStream.ObserveEnvelope` | src/api/stream_ingress.rs:192-210 | the counters count what is delivered, by kind |
| `StreamDelivery.SignalStream.EmitStreamSummary` | src/api/stream_ingress.rs:212-236 | the summary is written at most once |
| `StreamDelivery.SignalStream.FinishStream` | src/api/stream_ingress.rs:176-190 | flushing delivers the first flushed envelope or ends the stream with a summary |
| `StreamDelivery.SignalStream.ReadChunk` | src/api/stream_ingress.rs:261-271 | one chunk is parsed, queued and, when the protocol is over, flushed |
| `StreamDelivery.SignalStream.NextStreamItem` | src/api/stream_ingress.rs:245-286 | one pull takes exactly the head off everything still to come; nothing is pending when an error is returned |
| `StreamDelivery.Drain` | src/api/stream_ingress.rs:245-286 | pulling to the end delivers exactly the meaning, reads no further, counts what it delivered by kind and sums up once |
| `NoteLines.AutoNoteRoundTrip` | src/auto_memory.rs:83-101 | formatting a note and taking it apart again gives the note and the time stamp back, whatever the note says |
| `NoteLines.FormattedNotesRoundTrip` | src/auto_memory.rs:83-88 | the same for a list of notes stamped with a number of seconds, which can be read back |
| `NoteLines.AutoLineFromParts` | src/runtime/memory_candidates.rs:296-317 | conversely a recognised line is the line formatted from its parts |
| `NotesMarkdown.MigrateMarkdownLines` | src/runtime/memory_candidates.rs:266-294 | the loop over the lines computes the migration |
| `NotesMarkdown.RenderNotesMarkdown` | src/runtime/memory_candidates.rs:326-347 | the loop over the candidates computes the projection |
| `NotesMarkdown.MigrateRenderMigrate` | src/runtime/memory_candidates.rs:266-347 | for every text: migrating, rendering and migrating again gives the same candidates |
| `NotesMarkdown.RenderMigrateIff` | src/runtime/memory_candidates.rs:266-347 | a store survives being written out and read back if and only if each candidate satisfies a condition that can be checked before |
| `NotesMarkdown.TopicIs` | src/runtime/memory_candidates.rs:255-264 | a topic is the text without its margin, cut after 48 characters and then marked |
| `NotesMarkdown.ReadBackIff` | src/runtime/memory_candidates.rs:266-347 | any store is read back candidate by candidate, extracted notes with their stamp and all others as accepted notes of the user, if and only if a line can hold each body |
| `NotesMarkdown.AddedNoteNotReadBack` | src/runtime/memory_candidates.rs:110-120 | no store holding a note added by command is what its notes file reads back as |
| `NotesMarkdown.AddedNoteReadsBackIff` | src/runtime/memory_candidates.rs:110-120 | behind a store that is, only the reference of the added note changes, exactly if the note is one visible line without a margin that does not look extracted |
| `NotesMarkdown.AddUserNote` | src/runtime/memory_candidates.rs:110-120 | the note goes behind the store and the file is rewritten, which it no longer mirrors |
| `NotesMarkdown.OneCandidatePerLine` | src/runtime/memory_candidates.rs:266-294 | one candidate for each line that is not blank, in order, rendered again as that line without its margin |
| `AutoMemory.ExtractNotesFromTurn` | src/auto_memory.rs:1-61 | the first notes of a response, line by line |
| `AutoMemory.NotesAreLineByLine` | src/auto_memory.rs:5-18 | the notes are those of the lines outside fenced blocks, in order; a block is open where an odd number of fences stands before |
| `AutoMemory.NoteIff` | src/auto_memory.rs:19-58 | a line is a note if and only if it is a list item, numbered or labelled, and its text is prose that does not begin like code |
| `AutoMemory.AppendFeedbackNotes` | src/runtime/memory_candidates.rs:122-136 | each formatted line becomes one pending candidate behind the others |
| `AutoMemory.RecordTurn` | src/runtime/memory_candidates.rs:122-136 | extracted notes are in the store word for word and pending, and the notes file mirrors the store if and only if it did before |
| `NoteInjection.StableSortedIsStable` | src/runtime/memory_candidates.rs:207 | the order of injection is by source priority and leaves the notes of each source as they were |
| `NoteInjection.AffordableIff` | src/runtime/memory_candidates.rs:209-217 | a prefix fits the budget if and only if it is no longer than the longest fitting one |
| `NoteInjection.KeepWithinBudget` | src/runtime/memory_candidates.rs:209-217 | popping from the end keeps exactly the longest prefix that fits, and counts what it dropped |
| `NoteInjection.InjectAccepted` | src/runtime/memory_candidates.rs:197-244 | content and warning are those of the longest affordable prefix of the accepted notes in stable priority order |
| `NoteInjection.KeptOutrankDropped` | src/runtime/memory_candidates.rs:197-244 | no dropped note outranks a kept one, and the first dropped one did not fit |
| `NoteInjection.AllKeptIff` | src/runtime/memory_candidates.rs:209-217 | everything is kept if and only if everything fits |
| `NoteInjection.BudgetMonotone` | src/runtime/memory_candidates.rs:209-217 | a bigger budget never keeps less |
| `NoteInjection.PendingNeverInjected` | src/runtime/memory_candidates.rs:201-206 | a pending note makes no difference, wherever it stands |
| `NoteInjection.AcceptedTakesPart` | src/runtime/memory_candidates.rs:201-206 | every accepted note takes part, where it stands |
| `NoteInjection.OutranksIff` | src/runtime/memory_candidates.rs:246-253 | notes of the user go before extracted ones, these before those of the project, these before references |
| `NoteInjection.JoinedSplits` | src/runtime/memory_candidates.rs:230-235 | the injected text holds the body of each note on a line of its own, in order |
| `FilePrompt.OfferedIff` | src/app/queries.rs:376-410 | an entry is offered if and only if its path contains the needle, whatever the case |
| `FilePrompt.RankIsBest` | src/app/queries.rs:376-410 | an entry is ranked by the best of the seven ways in which it matches, with the length of the name, the path or the shortest segment that matches |
| `FilePrompt.LeqIs` | src/app/queries.rs:286-293 | the rank decides first, then the length, then the path |
| `FilePrompt.PathLeqIff` | src/app/queries.rs:286-293 | paths are ordered letter by letter |
| `FilePrompt.OrderedUnique` | src/app/queries.rs:286-293 | there is one way to put entries in order, so ties are settled |
| `FilePrompt.PopLargest` | src/app/queries.rs:280-282 | popping removes a greatest entry |
| `FilePrompt.Offer` | src/app/queries.rs:279-283 | one round on the bounded heap keeps the best hundred |
| `FilePrompt.FilePromptMatches` | src/app/queries.rs:269-296 | the search: the first hundred of all matches sorted by rank, length and path |
| `FilePrompt.LeftOutRanksBehind` | src/app/queries.rs:269-296 | nothing left out ranks before anything offered |
| `FilePicker.DirectoryEnds` | src/app/queries.rs:256-260 | the directory part of a needle ends in its last slash |
| `FilePicker.ChildIff` | src/app/queries.rs:307-324 | the child an entry contributes is the entry itself or its part up to the first slash below the directory |
| `FilePicker.InOrder` | src/app/queries.rs:306 | the ordered set is read out in ascending order, each path once |
| `FilePicker.DirectoryFilteredChildren` | src/app/queries.rs:303-338 | exactly the children of the directory whose names contain the filter, once, in ascending order |
| `FilePicker.FilePromptMatchesWithTotal` | src/app/queries.rs:252-297 | a trimmed needle with a slash of either kind browses, with the number of all children for total; any other searches |
| `TranscriptRows.AppendTurnRows` | src/app/transcript_projection.rs:70-249 | the loop with its fold state appends the rows of the turn and never touches those above |
| `TranscriptRows.CollectResults` | src/app/transcript_projection.rs:71-86 | the latest result of each call |
| `TranscriptRows.PushBlock` | src/app/transcript_projection.rs:103-122 | the rows of an assistant block, the last one marked while streaming |
| `TranscriptRows.StepsBehind` | src/app/transcript_projection.rs:70-249 | what stands above a turn neither changes nor matters |
| `TranscriptRows.RunFolds` | src/app/transcript_projection.rs:160-232 | n calls with one header and nothing visible between show as one paragraph and, for n above one, one fold row stating n |
| `TranscriptRows.TurnCallsAccounted` | src/app/transcript_projection.rs:130-233 | adding up paragraphs and fold rows gives exactly the calls of the turn, for every turn |
| `TranscriptShown.TurnShowsEachEntry` | src/app/transcript_projection.rs:70-249 | apart from fold rows a turn shows for each entry, in order, exactly its own rows; a call is left to a fold row if and only if it goes on with a run of calls with its header |
| `TranscriptShown.ResultIsLast` | src/app/transcript_projection.rs:71-86 | a call has the last of the results given under its id |
| `TranscriptShown.BlockShowsLines` | src/app/transcript_projection.rs:103-122 | a block shows its lines, and only the last is marked, where its text is still streaming |
| `TranscriptShown.ParagraphSays` | src/app/transcript_projection.rs:284-345 | a paragraph names the tool first and its status last, failed if and only if the result was an error, then outcome and output |
| `TranscriptShown.OutputLineByLine` | src/app/transcript_projection.rs:322-331 | a line of output is shown unless it is blank or only a number |
| `TranscriptShown.OutputShown` | src/app/transcript_projection.rs:332-343 | up to three lines of output are shown in order and the others counted |
| `TranscriptProjection.ProjectCommittedTranscriptRows` | src/app/transcript_projection.rs:24-58 | the merge loop writes the notices, then turns and compaction rows in merged order |
| `TranscriptProjection.MergeKeepsAll` | src/app/transcript_projection.rs:34-55 | every turn and every record occurs exactly once, each kind in its own order |
| `TranscriptProjection.ItemShown` | src/app/transcript_projection.rs:34-55 | at its place a turn shows its rows and a record the notice of what was compacted |
| `TranscriptProjection.RecordBeforeTurnIff` | src/app/transcript_projection.rs:36-48 | a record precedes a turn if and only if it and all records before it are due by that turn, for any indices |
| `TranscriptProjection.OrderedRecordsBetweenTurns` | src/app/transcript_projection.rs:36-48 | with nondecreasing indices a record follows all earlier turns and precedes all turns at or after its index |
| `TranscriptProjection.InOrderIff` | src/app/commands/session.rs:296-326 | the projection shows a history in the order in which it happened if and only if no turn was committed since the last `/compact`, or none before it |
| `TranscriptProjection.InPlaceWithoutCommand` | src/app/model_update.rs:600-615 | without that command the rows are always those of the history |
| `TranscriptProjection.CompactedAfterNextTurn` | src/app/commands/session.rs:296-326 | the turn after a `/compact` that cleared one is shown above the compaction row |
| `BatchRun.LinesOverEveryRun` | src/batch_mode.rs:142-246 | over every run and in either format the output is, line for line, the account of the turns that ended, numbered and in order, with one summary of the turns it knows of where a JSONL task ended; task files are those of the turns |
| `BatchRun.AccountLength` | src/batch_mode.rs:142-246 | turns plus one line if done in JSONL, 2·turns − 1 lines in text mode |
| `BatchRun.FrozenOnceDone` | src/batch_mode.rs:291-331 | once done the status is frozen, no pulse is started, and nothing is written but the lines of further turns |
| `BatchRun.EndingOverEveryRun` | src/batch_mode.rs:291-331 | over every run: the task ends with the first terminal update, completed or failed as that is, or with the first input over the limit or clearing the notes, and the model is given exactly the other inputs up to then |
| `BatchRun.InputDoes` | src/batch_mode.rs:220-310 | what each kind of input does, and the record of clearing the notes |
| `BatchRun.EveryRequestAnswered` | src/batch_mode.rs:372-375 | every approval request is answered at once, always alike |
| `BatchRun.AttributedIff` | src/batch_mode.rs:343-360 | since the input that started the pulse, a file counts as changed if and only if a call that would change it got a good result of its id, with no other call or result of that id and no end of turn between |
| `BatchRun.RecordedIff` | src/batch_mode.rs:159-200 | either terminal update, in either format, adds one record: under the input if it is the first since, with exactly the files attributed since the input, which the task gains, and the commands answered in the turn, failed where their result was |
| `BatchMode.BatchMode.FinishTurn` | src/batch_mode.rs:159-200 | refines the end of a turn |
| `BatchMode.BatchMode.AppendSummary` | src/batch_mode.rs:202-218 | a summary line in JSONL mode only |
| `BatchMode.BatchMode.WithoutModel` | src/batch_mode.rs:220-246 | a turn answered without the model ends the task |
| `BatchMode.BatchMode.TryHandleMemoryClear` | src/batch_mode.rs:248-266 | clearing the notes needs auto-approval |
| `BatchMode.BatchMode.OnToolResult` | src/batch_mode.rs:350-360 | a result settles its call |
| `BatchMode.BatchMode.OnUserInput` | src/batch_mode.rs:291-310 | ignored once done, refused at the turn limit, else a fresh turn |
| `BatchMode.BatchMode.OnModelUpdate` | src/batch_mode.rs:313-383 | every update refines the state machine |
| `BatchMode.RunBatch` | src/batch_mode.rs:291-383 | a batch fed any events at all has written the account of its turns, knows their files, ended as the events say, gave the model the inputs it should, and answered every request alike |
| `BatchResponses.CollectsAll` | src/batch_mode.rs:313-383 | what batch mode collects is made of the text streamed and the text thought |
| `BatchResponses.ResponsesAgreeIff` | src/batch_mode.rs:313-383 | for every pulse: batch mode tells the response of the derived records if and only if no thinking was streamed and the text is heard in the order streamed; where blocks do not overlap, if and only if no thinking was streamed |
| `BatchResponses.ThinkingIsCollected` | src/batch_mode.rs:332-341 | a pulse in which the two differ: batch mode puts the thinking before the answer |
| `ToolEvidence.RenamedPathsAre` | src/pulse_evidence.rs:88-101 | every renaming field is looked at on its own |
| `ToolEvidence.FirstFieldIff` | src/pulse_evidence.rs:68-73 | the first key that is present decides, by what is left of its value without the margin |
| `ToolEvidence.ChangedFilesIff` | src/pulse_evidence.rs:75-104 | which tools change files, and which fields name them |
| `ToolEvidence.NoteChangedFiles` | src/pulse_evidence.rs:75-104 | inserts exactly the files the call is taken to change |
| `StepIds.SearchEndsIff` | src/pulse_evidence.rs:58-60 | the search for a free id gives up exactly when no number of rounds of the saturating counter ends it |
| `StepIds.NormalizeToolInvocationStepIds` | src/pulse_evidence.rs:51-66 | the nested loops renumber in place, changing nothing but step ids |
| `StepIds.RenumberedIsValid` | src/pulse_evidence.rs:51-66 | all resulting ids, across all pulses, are nonzero and pairwise different |
| `StepIds.KeptOrLargest` | src/pulse_evidence.rs:57-63 | an id that is nonzero and new is kept, any other becomes larger than every id before it |
| `StepIds.UnchangedIff` | src/pulse_evidence.rs:51-66 | a history is left alone if and only if it was valid |
| `StepIds.Idempotent` | src/pulse_evidence.rs:51-66 | renumbering twice is renumbering once |
| `StepIds.DivergesIff` | src/pulse_evidence.rs:58-60 | the renumbering runs for ever if and only if some invocation needs an id after the largest possible one is taken |
| `StepIds.EnoughRoom` | src/pulse_evidence.rs:51-66 | it ends whenever the largest id plus the number of invocations stays below the maximum |
| `StepIds.NoRoom` | src/pulse_evidence.rs:51-66 | it does not end whenever after some id more ids are missing or repeated than there are ids above it |
| `StepIds.LargestThenMissing` | src/pulse_evidence.rs:58-60 | a history on which it does not end |
| `StepIds.LoadHistory` | src/pulse_evidence.rs:51-66 | every history on which the renumbering ends gets usable ids and keeps everything else |

## Left out

Assumed of the surroundings:

- Counters that saturate (envelope numbers, access ticks, text block indices) need room, stated as `Room`, as a bound on
  the number of reads, or as the length of the run; lengths and depths are unbounded, so a nesting depth beyond 2^31 is
  not wrapped.
- `Instant` never runs backwards; the time of each activity is an argument, and stamps are distinct where it moves on.
- Channels deliver what is sent; the bounded peer channel of the accumulator may drop signals, so signals are modelled
  as offered.
- The outcome of file reads, metadata, the notes file, token counts, tool previews, outcome shortening, path basenames,
  alphanumeric tests, the stream parser and the text normaliser are parameters.
- JSON values appear only as the string fields the code reads; whether accumulated arguments parse is a parameter.
- Step ids given to command sessions, runtime ids of tool calls and time stamps are arguments of the events.

Not modelled:

- Patch approvals: the field that would hold one is never set outside the program's own tests.
- Parsing of typed approval selections and resume choices, slash command syntax, status lines, notices, scrolling,
  timings, working-set sidecars and automatic memory extraction in the terminal mode.
- A save of the task document that fails, other than the one before a fork; a load that fails.
- The responder of the local API's pending approval, which is replaced without an answer when a new request arrives.
- A completion that arrives late from an earlier pulse is taken, as the terminal mode takes it, for that of the current one.
- Token usage, instruction paths, task ids and session tasks in records and summaries; the order and repetition of
  changed files within one envelope.
- The content blocks and grammar tool calls of `normalize_content_block` and `normalize_tool_call_array`.
- The retry with a non-streaming request, response headers, error bodies and back-off around the delivery loop.
- Accepting a pending note by selector, and removing notes by command.
- How the entries of the picker are gathered and cached.
- The waiting placeholder of the active turn.
- The transcript's `Style` leaves the words of headers and outcomes open; a block of white space only adds rows without
  ending a run of equal calls, as in the program.
- The network, processes, git, diffs, key handling and rendering.

Weaker than could be asked:

- StepIds.LoadHistory: asks that the renumbering ends, because otherwise the program does not return.
- Normalizer.Normalizer.RecordToolCallArgumentsDelta: whether the accumulated arguments parse is a parameter, because the
  JSON parser is not part of this model.
- LocalApiProtocol.StreamOverEveryRun: asks for a disciplined producer, beside the exact conditions for all runs;
  `PulseRun.RunPulse` and `LocalApiPulses.OneEndPerPulse` show that the pulse task without a mid-stream error is one.
- PulseRoundTrip.PulseRecorded: asks for provider indices, because a larger one collides with the synthetic blocks.
