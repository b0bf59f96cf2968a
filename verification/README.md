# Verified model of a chat turn

This Dafny project models the path of one chat turn through the Wolf assistant and proves what the
analyst who reads the conversation can rely on:

    agent loop  ->  event stream  ->  stream manager  ->  archive effects  ->  conversation tree

Check it with `dafny verify dfyconfig.toml`.

## How the model is built

| modules | what they hold |
|---|---|
| `Branches`, `BranchLaws` | the conversation tree: the walks as loops, the mutators as pure functions, and what each of them does to the visible path |
| `AgentLoop`, `AgentRun`, `AgentLaws`, `AgentBound` | the loop with model, tools, synthesis and grounding validator as arbitrary oracles (`World`); a run is determined by its log of tool steps, and `Run` is proved against functions of that log |
| `AgentFacts`, `AgentConduct`, `AgentEvents` | what the loop asks, shows, stops for and answers, said of the model calls and tool results themselves |
| `Trace` | the grammar of the emitted events, an automaton shared by both sides |
| `Sse`, `Wire` | frames on the wire, written and read |
| `StreamSpec`, `ConversationStreams`, `ChatShell` | the stream manager and the shell as classes over dictionaries, each method tied to what one conversation sees of it, with every other conversation unchanged |
| `ClientRun`, `ClientInvariant`, `ClientLaws`, `LateVerdicts`, `Interleaving` | one conversation as a step machine, its invariant, and the reader's guarantees over all runs and all batchings of events into renders |
| `RunReading`, `EndToEnd`, `EditsAndRetries`, `OverTheWire`, `Unjudged` | both sides joined: what a run returns against what the tree ends up holding, with the wire between them; runs whose answer is judged by nothing |
| `Search`, `Ingest` | finding a message again; the deduplicating batch ingest |

The join works as follows. The classes are the imperative source: `hook.View(k)` and `SliceOf(k)` are
what conversation `k` sees, and each method's contract equates them after the call with a function of
their value before it and says that every other conversation is unchanged. `Interleaving.Drive` calls
these methods along any interleaving of the conversations, deletions included, and proves that the
objects then hold each conversation in the state in which the machine of `ClientRun` leaves it alone,
and that the histories sent are the ones that machine sends; so what is proved over all runs of that
machine holds of the objects. A render is one step that may happen anywhere: any
number of events may be batched before it.

What the machine takes for granted (`ClientRun.Enabled`): the user acts on a rendered state; Stop is
offered only while the run is shown as running; the navigator offers siblings only; after an abort
nothing more is received and the stream does not end cleanly, it is rejected; the server speaks the
grammar of `Trace`, which `AgentLaws.RunSettles` proves of every run.

Oracles and parameters: the model's replies and stream failures, tool outcomes, verdicts and their
snapshots, JSON text of payloads, lower-casing, content hashes, which flush raises, and the random ids
of nodes and loops, which are assumed fresh.

## Main results

- `EndToEnd.WholeTurn`: from any idle state, for every model, tool and validator behaviour and every
  batching of events into renders, a question adds exactly itself and one answer to the visible path;
  the answer is what the run returned, and so is the context of the next turn.
- `EndToEnd.RunReachesReader`: blocking, deferred and incremental grounding read the same.
- `EditsAndRetries.WholeEdit` and `EditsAndRetries.WholeRetry`: the same for an edited question and for
  another answer to an old one.
- `OverTheWire.TurnOverTheWire` and `OverTheWire.CutOverTheWire`: the same with the run's events
  written to the wire, read in any chunking, and cut anywhere.
- `Interleaving.Drive`: the shared dictionaries, sets and effects keep the conversations apart, over
  whole interleavings of the real handlers; every tree they ever hold is well formed.
- `ClientInvariant.InvAlways` and its consequences in `ClientLaws`: every reachable tree is well
  formed, no tree update ever throws, every answer belongs to one accepted submit.
- `AgentLaws.StepCountBounded` and `AgentBound.BoundAttained`: the loop without a step ceiling makes
  at most 2K+1 steps on K distinct tool calls, and that many for every K.
- `AgentConduct.FirstRequestExactly` and `AgentConduct.NextRequestExactly`: every request, message by
  message, from the history, the replies and what the tools gave back; `AgentConduct.GuardStops` and
  `AgentConduct.NothingElseStops`: when the loop stops; `AgentConduct.VolunteeredAnswerExactly` and
  `AgentConduct.ForcedAnswerExactly`: what it answers.
- `Sse.ChatStream` with `Sse.CutDelivers`, and `Wire.CutOnTheWire`: chunking is invisible, and a cut
  response yields exactly the events wholly written before the cut.
- `Search.HitBecomesVisible` and `BranchLaws.SurfaceActivePath`: whatever is found can be shown.
- `Ingest.Database.Ingest` with `Ingest.StoredExactly` and `Ingest.ResumeCompletes`: the ingest equals
  its simple form, up to the first batch with a bad chunk, and a repetition completes it
  (`Ingest.Database.IngestTwice`).

## Where code and promise differ

The model follows the code; each point is stated by the members named with it.

- **Verdicts that never come.** The loop grounds an answer as soon as it has a citation, and a lookup
  in the knowledge base has one even when it finds nothing (services/server/wolf_server/tools/knowledge.py:99-105, 156-167); the
  validator needs evidence (services/server/wolf_server/grounding/validator.py:283-286). So in an incremental run whose tool calls
  are all successful lookups without hits the judge yields no snapshot, the final event carries no text,
  the dashboard ignores it, and the answer keeps its pending mark for good
  (`Unjudged.VerdictsNeverComeExactly`, `EndToEnd.RunReachesReader`; `Unjudged.GreetingIsNeverJudged` is
  such a run). ADR 0026, lines 125-127, promises the indicator is cleared.
- **A judge that failed without being asked.** In deferred mode the same runs come back as not run, and
  the answer is marked as one whose judge failed (`Unjudged.NothingToJudgeIsMarked`), though
  services/dashboard/lib/types.ts:561-565 keeps that mark for failed judges and apart from "nothing to
  verify". The mark is set by late verdicts only, never in blocking mode.
- **Verdicts withdrawn.** For an arbitrary validator, the reader's counts depend on how events were
  batched exactly when a snapshot ran and the last one did not (`LateVerdicts.BatchingMattersExactly`).
  The validator that the server passes in builds every snapshot as one that ran (validator.py:472, 489),
  and then no batching can be seen (`RunReading.RanMeansSteady`, `EndToEnd.RanRunReachesReader`).
- **A retry does not show the model its previous attempt.** services/dashboard/lib/types.ts:406-409 and
  loop.py:304-309 expect the previous answer in the history; chat-shell.tsx:483 sends the path above it,
  whose last turn is the question that the request asks again (`ClientLaws.RetryContext`).
- **An early clean end of stream.** If the response ends before the answer without an error, the
  conversation shows as running and stays so until the page is reloaded, which resets the stream state
  (`ClientLaws.StillRunningExactly`, `ClientLaws.StuckForGood`, `OverTheWire.CutOverTheWire`).
- **A question without an answer.** With verdicts owed, the phase is done while the run is still on file;
  a question sent then is recorded and the submit refused (`ClientLaws.SubmitAccepted`). Strict
  alternation of user and assistant turns is therefore not an invariant and is not claimed.
- **Forced stops may be blank or old.** Without a readable synthesis the fallback takes the last
  assistant text of the transcript, which can be blank (`AgentLaws.ForcedTextBlankExactly`). It is this
  run's own exactly when some tool step came with text, and an answer of the replayed history otherwise
  (`AgentLaws.ForcedTextExactly`); `AgentBound.EarlierAnswerReturned` is a run that returns one.
- **"Always emits exactly one answer"** (loop.py:809) holds for the three normalised modes
  (`AgentLaws.AnswerEmittedExactly`).
- **One frame back.** Between the end of a run and its archiving, a retry shows the older answer again
  (`ClientLaws.FrameBeforeArchive`).
- **A deleted conversation** gets its stream entry back from the rejection of the aborted run exactly
  when a run was on file at the delete (`ClientLaws.DeletedRunLeavesEntry`,
  `Interleaving.DeleteThenHearBack`).
- **A bad chunk does roll back its batch.** The ingest's own description says otherwise
  (tools/seed_knowledge/__main__.py:69-71); the store commits once per batch
  (services/server/wolf_server/knowledge/store.py:156-201). A new chunk is stored exactly when no chunk
  of its batch or of an earlier one is bad (`Ingest.Database.Flush`, `Ingest.StoredExactly`,
  `Ingest.BadChunkRollsBackItsBatch`).
- **Strategy and model id** of an archived answer are always empty, since the answer event carries
  neither (`ClientLaws.AnswerReadsAsSent`).

## Model

| member | source | states |
|---|---|---|
| `Branches.ActivePathNodes` | services/dashboard/lib/branches.ts:38-48 | the walk stores exactly the records of the path that follows selections from the root, and terminates on every acyclic tree |
| `Branches.ActiveLeaf` | services/dashboard/lib/branches.ts:55-58 | the last node of that path, absent exactly when nothing is visible |
| `Branches.SiblingsOfNode` | services/dashboard/lib/branches.ts:70-86 | the stored records of the sibling list of a node, in order; nothing for an unknown id |
| `Branches.HistoryUpTo` | services/dashboard/lib/branches.ts:97-107 | the turns of the visible path strictly above the stop node, all of them when it is absent or hidden |
| `Branches.CollectChain` | services/dashboard/lib/branches.ts:269-280 | the chain of parents from the root down to the target, or the report that a parent is missing |
| `Branches.PointChain` | services/dashboard/lib/branches.ts:282-288 | every node of the chain but the last selects its successor in the chain |
| `Branches.SelectPathTo` | services/dashboard/lib/branches.ts:265-294 | the whole function equals the declarative re-pointing, and is the identity when the chain is broken |
| `BranchLaws.ActivePathShape` | services/dashboard/lib/branches.ts:38-58 | the active path of a well-formed tree starts at a root user message, goes parent to child without repeats, and ends at a true leaf; it is empty only without top-level messages |
| `BranchLaws.VisiblePrefixIsChain` | services/dashboard/lib/branches.ts:38-48 | the visible path through any visible node is that node's ancestor chain |
| `BranchLaws.AppendOutcome` | services/dashboard/lib/branches.ts:173-219 | when an append succeeds, and for which inputs it throws which of its three errors |
| `BranchLaws.AppendFrame` | services/dashboard/lib/branches.ts:173-219 | exactly one sibling list grows, by one id at its end, which becomes selected; every other list, selection and record is untouched |
| `BranchLaws.AppendKeepsWellFormed` | services/dashboard/lib/branches.ts:173-219 | a valid append keeps the tree well formed |
| `BranchLaws.AppendActivePath` | services/dashboard/lib/branches.ts:173-219 | the new path is the prefix through the parent plus the new node if the parent is visible, and is unchanged if it is not |
| `BranchLaws.ForkOutcome` | services/dashboard/lib/branches.ts:135-150 | fork is an append under the target's parent; for which inputs it throws which error |
| `BranchLaws.ForkKeepsOldBranch` | services/dashboard/lib/branches.ts:135-150 | the path selected below the old sibling is unchanged by a fork beside it |
| `BranchLaws.ForkThenBack` | services/dashboard/lib/branches.ts:135-256 | forking and switching back to the sibling that was selected restores the visible path and the path below every node |
| `BranchLaws.SwitchKeepsWellFormed` | services/dashboard/lib/branches.ts:231-256 | switching between siblings succeeds and keeps the tree well formed |
| `BranchLaws.SwitchActivePath` | services/dashboard/lib/branches.ts:231-256 | the path moves at the branch point only, onto what was selected below the sibling; it does not move when the branch point is hidden |
| `BranchLaws.SwitchLands` | services/dashboard/lib/branches.ts:231-256 | switching from a visible node shows the sibling where that node stood, under the same context |
| `BranchLaws.SwitchBack` | services/dashboard/lib/branches.ts:231-256 | switching away from the selected sibling and back is the identity |
| `BranchLaws.SurfaceFrame` | services/dashboard/lib/branches.ts:265-294 | only selections along the ancestor chain change, each to the next node of the chain |
| `BranchLaws.SurfaceKeepsWellFormed` | services/dashboard/lib/branches.ts:265-294 | surfacing any id keeps the tree well formed |
| `BranchLaws.SurfaceActivePath` | services/dashboard/lib/branches.ts:265-294 | from anywhere, the new path is the target's ancestor chain followed by the path selected below the target |
| `BranchLaws.SurfaceVisible` | services/dashboard/lib/branches.ts:265-294 | surfacing a visible node is the identity |
| `BranchLaws.SurfaceIdempotent` | services/dashboard/lib/branches.ts:265-294 | surfacing twice is surfacing once |
| `BranchLaws.FreshTurnHistory` | services/dashboard/components/chat-shell.tsx:281-311 | the context above a freshly appended question is the whole visible history before it |
| `BranchLaws.AnswerHistory` | services/dashboard/lib/branches.ts:97-219 | the context above an appended answer is the context of its question, then the question |
| `BranchLaws.ForkHistory` | services/dashboard/lib/branches.ts:97-150 | for a visible target, the history up to the forked node is the history up to the target |
| `BranchLaws.ForkHistoryExactly` | services/dashboard/lib/branches.ts:97-150 | the exact condition under which that equation holds for any target of a well-formed tree |
| `BranchLaws.HiddenForkIsShorter` | services/dashboard/lib/branches.ts:97-150 | forking at a hidden sibling of a visible node cuts the context short |
| `BranchLaws.PatchFrame` | services/dashboard/lib/branches.ts:385-415 | a late verdict keeps tree shape, well-formedness, selections, the active path and every other record; user nodes and unknown ids are left alone |
| `BranchLaws.PatchAbsorbs` | services/dashboard/lib/branches.ts:399-413 | a later patch that ran, or any patch after one that did not, erases the earlier one |
| `BranchLaws.PatchAbsorbsExactly` | services/dashboard/lib/branches.ts:399-413 | on an answer without counts these are the only such cases |
| `BranchLaws.PatchCommutesWithAppend` | services/dashboard/lib/branches.ts:173-415 | patching an existing node commutes with appending another, in result and in error |
| `BranchLaws.PatchCommutesWithFork` | services/dashboard/lib/branches.ts:135-415 | patching commutes with forking |
| `BranchLaws.PatchCommutesWithSwitch` | services/dashboard/lib/branches.ts:231-415 | patching commutes with switching branches |
| `BranchLaws.PatchCommutesWithSurface` | services/dashboard/lib/branches.ts:265-415 | patching commutes with surfacing a node |
| `Trace.CutShortIsBroken` | services/server/wolf_server/api/chat.py:268-332 | a run's stream cut short anywhere and closed with an error event still fits the grammar, and nothing may follow |
| `Trace.AnswersCounted` | services/server/wolf_server/agent/loop.py:809-810 | a stream that fits carries at most one answer, and one exactly when its stage says so |
| `Trace.StageCounts` | services/server/wolf_server/agent/loop.py:341-645 | the stage counts completed tool calls of any fitting stream, and its steps: one more than the current step, or none before the first |
| `AgentLoop.ChatOrStream` | services/server/wolf_server/agent/loop.py:724-768 | the deltas forwarded are the non-empty ones in order, and the reply is the last one the stream delivered; a broken or reply-less stream fails |
| `AgentLoop.RecordOutcome` | services/server/wolf_server/agent/loop.py:507-539 | each outcome is filed as citations, runbook hits, tool results or failures |
| `AgentLoop.CountCall` | services/server/wolf_server/agent/loop.py:474-477 | a signature counts as new exactly when no earlier call of the run had it |
| `AgentLoop.DispatchCall` | services/server/wolf_server/agent/loop.py:470-547 | one call: its two events, its result message and its evidence extend those of the calls before it |
| `AgentLoop.DispatchCalls` | services/server/wolf_server/agent/loop.py:468-549 | the dispatch loop of one step gathers exactly the outcomes of its calls, in order, and knows whether any call was new |
| `AgentRun.FinalizeAnswer` | services/server/wolf_server/agent/loop.py:793-944 | answer returned and events emitted, for every mode, evidence and validator outcome |
| `AgentRun.JudgeInBatches` | services/server/wolf_server/agent/loop.py:862-886 | one partial event per snapshot; the last snapshot counts |
| `AgentRun.SynthesizedStop` | services/server/wolf_server/agent/loop.py:647-720 | a forced stop returns the synthesis, else the last assistant text, else the fallback, with all tokens counted |
| `AgentRun.VolunteeredStop` | services/server/wolf_server/agent/loop.py:425-466 | a blank answer is re-synthesised once, then replaced by the fallback |
| `AgentRun.OpeningMessages` | services/server/wolf_server/agent/loop.py:284-310 | system prompt, the non-blank turns of the history in order, then the question |
| `AgentRun.FailGracefully` | services/server/wolf_server/agent/loop.py:362-400 | a failed call becomes an answer with the failure's text, or is raised again when nobody listens and the failure is the system's own |
| `AgentRun.RunTools` | services/server/wolf_server/agent/loop.py:468-549 | a tool step extends every account of the run by that step |
| `AgentRun.CheckGuards` | services/server/wolf_server/agent/loop.py:556-645 | no-progress, breaker, context-fit and checkpoint guards, in this order |
| `AgentRun.Run` | services/server/wolf_server/agent/loop.py:255-645 | the whole loop terminates under a breaker, or for a model drawing on finitely many signatures; its outcome, events and requests are those that one log determines |
| `AgentLaws.SignaturesFinite` | services/server/wolf_server/agent/loop.py:468-585 | in every log the number of steps is at most twice the distinct signatures, less one, plus the redundant streak |
| `AgentLaws.StepCountBounded` | services/server/wolf_server/agent/loop.py:352-645 | a run that used K distinct signatures reports at most 2K+1 steps, and never more than the breaker |
| `AgentLaws.LogBounded` | services/server/wolf_server/agent/loop.py:352-645 | a model drawing on a finite stock of signatures cannot keep the loop going for longer than that |
| `AgentLaws.LogUnique` | services/server/wolf_server/agent/loop.py:352-645 | one world and configuration has one complete log, so outcome and events are determined |
| `AgentBound.BoundAttained` | services/server/wolf_server/agent/loop.py:566-585 | for every K there is a run with K distinct signatures that reports exactly 2K+1 steps |
| `AgentLaws.EveryRequestPaired` | services/server/wolf_server/agent/loop.py:417-549 | in every request, forced syntheses included, an assistant message with calls is followed at once by one tool message answering them one for one, by id and in order |
| `AgentLaws.TokensBalance` | services/server/wolf_server/agent/loop.py:402-403 | reported tokens are the sums over all successful model calls, syntheses included, on every return path |
| `AgentLaws.EvidenceBalances` | services/server/wolf_server/agent/loop.py:507-539 | tool results, successful runbook calls and failures add up to the calls made |
| `AgentLaws.ToolCallsBalance` | services/server/wolf_server/agent/loop.py:468-549 | the reported tool-call count is that sum |
| `AgentLaws.ForcedTextNonEmpty` | services/server/wolf_server/agent/loop.py:679-691 | a forced stop never returns the empty string |
| `AgentLaws.ForcedTextBlankExactly` | services/server/wolf_server/agent/loop.py:679-691 | when a forced stop returns blank text |
| `AgentLaws.TranscriptFallback` | services/server/wolf_server/agent/loop.py:679-691 | the last assistant text of any transcript is the run's latest words, and an earlier answer of the history if it said nothing |
| `AgentLaws.ForcedTextExactly` | services/server/wolf_server/agent/loop.py:675-691 | where a forced answer comes from: a readable synthesis, else this run's latest words exactly when some step came with text, else an earlier answer or the fallback |
| `AgentBound.EarlierAnswerReturned` | services/server/wolf_server/agent/loop.py:679-691 | a run whose forced stop returns the last answer of the history |
| `AgentLaws.VolunteeredTextReadable` | services/server/wolf_server/agent/loop.py:425-437 | a volunteered answer is never blank |
| `AgentLaws.RunSettles` | services/server/wolf_server/agent/loop.py:341-645 | every streaming run returns, its events fit the grammar and settle it, and carry exactly one answer |
| `AgentLaws.AnswerEmittedExactly` | services/server/wolf_server/agent/loop.py:793-944 | exactly one answer event, except for an unnormalised mode with something to ground, which emits none |
| `AgentLaws.EventsMatchAccounts` | services/server/wolf_server/agent/loop.py:468-549 | the events show as many tool completions as the answer reports, and its steps |
| `AgentFacts.CallSucceedsExactly` | services/server/wolf_server/agent/loop.py:724-768 | a model call yields the last reply its stream delivered, if the stream did not break off |
| `AgentFacts.CallFailsExactly` | services/server/wolf_server/agent/loop.py:724-768 | it fails with what broke it off, or for want of a reply |
| `AgentFacts.DeltasSpellTheText` | services/server/wolf_server/agent/loop.py:740-756 | the deltas forwarded spell the text the stream spelled, none of them empty |
| `AgentFacts.MessagesTell` | services/server/wolf_server/agent/loop.py:530-547 | the model is told one result per call: the tool's payload if it succeeded with one, else the tool's error or the stock one |
| `AgentFacts.ToolEventsAt` | services/server/wolf_server/agent/loop.py:482-506 | each call is announced by name and id and reported with success, source and error as the tool gave them |
| `AgentFacts.EvidenceAt` | services/server/wolf_server/agent/loop.py:507-539 | what each call adds to citations, results, hits and failures, at its place |
| `AgentFacts.CitationsExactly` | services/server/wolf_server/agent/loop.py:507-516 | a citation is gathered exactly when a call that went well names it |
| `AgentFacts.SignatureTells` | services/server/wolf_server/agent/loop.py:472-477 | two calls count as the same exactly when name and arguments agree, for names without a colon |
| `AgentFacts.StreakExactly` | services/server/wolf_server/agent/loop.py:556-585 | the streak reaches two exactly when every call of the last two steps was made at an earlier step |
| `AgentConduct.EarlierStepsPassed` | services/server/wolf_server/agent/loop.py:556-641 | no step but the last filled the context, reached the breaker, or was the second in a row to bring nothing new |
| `AgentConduct.GuardStops` | services/server/wolf_server/agent/loop.py:566-641 | a step that does is the last: one more request, for a synthesis, and an answer that counts the steps taken |
| `AgentConduct.NothingElseStops` | services/server/wolf_server/agent/loop.py:352-425 | any other step is followed by another model call with the whole transcript |
| `AgentConduct.FirstRequestExactly` | services/server/wolf_server/agent/loop.py:284-310 | the first request holds the prompt, the readable turns of the history in order and by the right speaker, and the question |
| `AgentConduct.NextRequestExactly` | services/server/wolf_server/agent/loop.py:417-645 | each later request is the one before it, the reply with its calls, the result of every call as the tools gave it, and the nudges due |
| `AgentConduct.LastRequestExactly` | services/server/wolf_server/agent/loop.py:425-437 | after a reply without calls there is one more request exactly when that reply is blank |
| `AgentConduct.VolunteeredAnswerExactly` | services/server/wolf_server/agent/loop.py:425-455 | the answer a model volunteers is its own text; only if that is blank the synthesis, and only without one the fallback |
| `AgentConduct.ForcedAnswerExactly` | services/server/wolf_server/agent/loop.py:671-709 | a forced answer is the synthesis, else this run's latest words, else an earlier answer, else the fallback |
| `AgentConduct.EarlierAnswerExactly` | services/server/wolf_server/agent/loop.py:299-303 | the earlier answer is the last readable assistant turn of the history |
| `AgentConduct.FailedAnswerExactly` | services/server/wolf_server/agent/loop.py:362-400 | when the model call fails the answer says so and counts the steps before it |
| `AgentConduct.ExecutedAt` | services/server/wolf_server/agent/loop.py:468-549 | the calls of a run stand in the order of its steps, each with what its tool gave back |
| `AgentConduct.ValidatesExactly` | services/server/wolf_server/agent/loop.py:831-838 | the validator is asked exactly when there is one, the draft can be read, and some call named a source or failed |
| `AgentConduct.GroundedAnswerExactly` | services/server/wolf_server/agent/loop.py:928-944 | the answer returned is the draft with the text and counts of the verdict that ran, if one did |
| `AgentEvents.StepEventsExactly` | services/server/wolf_server/agent/loop.py:355-415 | each tool step on the stream: announcement, text, tokens of the reply, and its tools |
| `AgentEvents.LastCallExactly` | services/server/wolf_server/agent/loop.py:355-415 | the last model call on the stream: its text, and the tokens of its reply or how it failed |
| `AgentEvents.JudgingExactly` | services/server/wolf_server/agent/loop.py:842-944 | the events of the judging in blocking and deferred mode, and without a snapshot |
| `AgentEvents.SnapshotsSentExactly` | services/server/wolf_server/agent/loop.py:862-927 | every snapshot is sent as it comes and the last once more at the end |
| `AgentEvents.RunEventsParts` | services/server/wolf_server/agent/loop.py:341-645 | a run's events are those of its tool steps, those of its last model call, and the judging or the draft alone; none without a listener |
| `Text.TrimExactly` | services/dashboard/hooks/use-conversation-streams.ts:238-239 | trimming takes the spaces off both ends, all of them, and nothing else |
| `ConversationStreams.Streams.constructor` | services/dashboard/hooks/use-conversation-streams.ts:175-207 | no streams, no runs, every conversation neutral |
| `ConversationStreams.Streams.Submit` | services/dashboard/hooks/use-conversation-streams.ts:225-270 | a run starts exactly when none is on file and the question is not blank; other conversations are untouched |
| `ConversationStreams.Streams.HandleEvent` | services/dashboard/hooks/use-conversation-streams.ts:272-534 | each event's effect on the buffers and state of its conversation, and no effect on any other |
| `ConversationStreams.Streams.HandleVerdicts` | services/dashboard/hooks/use-conversation-streams.ts:408-440 | a verdict event becomes the patch on display when it carries text |
| `ConversationStreams.Streams.HandleTool` | services/dashboard/hooks/use-conversation-streams.ts:349-393 | a completed tool call extends the tool events and citations |
| `ConversationStreams.Streams.HandleAnswer` | services/dashboard/hooks/use-conversation-streams.ts:441-510 | the answer becomes a completion under the captured question, with gathered citations as a fallback |
| `ConversationStreams.Streams.Settle` | services/dashboard/hooks/use-conversation-streams.ts:535-597 | end of the stream: nothing, an interrupted completion with the partial text, or an error; the controller goes |
| `ConversationStreams.Streams.Stop` | services/dashboard/hooks/use-conversation-streams.ts:602-607 | stop aborts the run and leaves the state to the rejection |
| `ConversationStreams.Streams.Reset` | services/dashboard/hooks/use-conversation-streams.ts:609-626 | reset aborts and forgets one conversation only |
| `ConversationStreams.Streams.ClearCompletion` | services/dashboard/hooks/use-conversation-streams.ts:634-640 | the pending completion goes, the rest of the state stays |
| `ConversationStreams.Streams.RunningIds` | services/dashboard/hooks/use-conversation-streams.ts:642-648 | exactly the conversations whose phase is running |
| `ChatShell.Shell.ArchiveEffect` | services/dashboard/components/chat-shell.tsx:144-209 | every pending completion is archived once into its own conversation, in any order of the streams |
| `ChatShell.Shell.GroundingEffect` | services/dashboard/components/chat-shell.tsx:219-246 | every patch not yet applied is applied to the answer of its loop id in its own conversation |
| `ChatShell.Shell.Render` | services/dashboard/components/chat-shell.tsx:144-246 | a render applies archive then grounding to each conversation independently |
| `ChatShell.Shell.HandleSubmit` | services/dashboard/components/chat-shell.tsx:256-329 | question below the visible leaf, history sent as read before, run started; other conversations untouched |
| `ChatShell.Shell.HandleSubmitNew` | services/dashboard/components/chat-shell.tsx:294-311 | a submit with no conversation open seeds a new one with the question |
| `ChatShell.Shell.HandleEditUserMessage` | services/dashboard/components/chat-shell.tsx:508-543 | a fork of the edited question, with the history above it |
| `ChatShell.Shell.HandleRetryAssistant` | services/dashboard/components/chat-shell.tsx:475-493 | a run on the same question, with the history above the answer |
| `ChatShell.Shell.HandleSwitchBranch` | services/dashboard/components/chat-shell.tsx:550-561 | switching is the tree operation on one conversation |
| `ChatShell.Shell.HandleSelectFromHistory` | services/dashboard/components/chat-shell.tsx:353-363 | opening a hit surfaces its node in that conversation |
| `ChatShell.Shell.HandleStop` | services/dashboard/components/chat-shell.tsx:333-335 | stop reaches the active conversation's run only |
| `ChatShell.Shell.ConfirmDelete` | services/dashboard/components/chat-shell.tsx:416-430 | a deleted conversation leaves the list and its stream state goes; others are untouched |
| `ClientInvariant.StepInv` | services/dashboard/hooks/use-conversation-streams.ts:225-600 | every user action, event, stream end and render keeps the invariant that ties tree, buffers, run, patches and loop ids together |
| `ClientInvariant.InvAlways` | services/dashboard/hooks/use-conversation-streams.ts:225-600 | so it holds after every legal run, with renders anywhere |
| `ClientInvariant.PatchFindsItsAnswer` | services/dashboard/components/chat-shell.tsx:219-246 | the node a patch is applied to is the answer of the run that sent it |
| `ClientInvariant.ArchivePlaces` | services/dashboard/components/chat-shell.tsx:151-191 | archiving always succeeds and places the answer below the captured question |
| `ClientLaws.ReachableTreesWellFormed` | services/dashboard/lib/branches.ts:135-294 | every reachable tree is acyclic and well formed, roots are user messages, answers hang below user messages, and no tree update ever throws |
| `ClientLaws.AnswersBelongToRuns` | services/dashboard/components/chat-shell.tsx:144-209 | each answer belongs to one accepted submit, below the question captured then, and no two share one |
| `ClientLaws.NoMoreAnswersThanRuns` | services/dashboard/components/chat-shell.tsx:144-209 | never more answers than accepted submits, however often the effects run |
| `ClientLaws.RenderSettles` | services/dashboard/components/chat-shell.tsx:144-246 | rendering again changes nothing |
| `ClientLaws.SubmitAccepted` | services/dashboard/hooks/use-conversation-streams.ts:235-239 | a submit is answered exactly when no run is on file; one refused after the phase is done still records its question |
| `ClientLaws.DisplayIsBuffer` | services/dashboard/hooks/use-conversation-streams.ts:287-393 | text and tool events shown equal their buffers and are what the run's events add up to |
| `ClientLaws.TextSinceStep` | services/dashboard/hooks/use-conversation-streams.ts:287-316 | that text is the concatenation of the deltas since the latest step began |
| `ClientLaws.ToolsAt` | services/dashboard/hooks/use-conversation-streams.ts:349-393 | every completed tool call is shown, at its place |
| `ClientLaws.CitationsAreSources` | services/dashboard/hooks/use-conversation-streams.ts:360-380 | the citations gathered are the sources of the tool events shown |
| `ClientLaws.StartShowsQuestion` | services/dashboard/hooks/use-conversation-streams.ts:250-270 | an accepted run shows its question at once, with nothing streamed yet |
| `ClientLaws.SurfaceShows` | services/dashboard/components/chat-shell.tsx:353-363 | opening a search result shows the message right below its own ancestors |
| `ClientLaws.SwitchShows` | services/dashboard/components/chat-shell.tsx:550-561 | switching on the visible path shows the alternative in the same context |
| `ClientLaws.StopArchivesPartial` | services/dashboard/hooks/use-conversation-streams.ts:538-577 | stop archives exactly the text shown, with exactly the tool events completed and their sources, below the question, without verdicts |
| `ClientLaws.StillRunningExactly` | services/dashboard/hooks/use-conversation-streams.ts:583-597 | after a run is over the conversation shows as running exactly when the stream closed cleanly before the answer |
| `ClientLaws.StuckForGood` | services/dashboard/hooks/use-conversation-streams.ts:535-600 | and then no user action and no render gets it out |
| `ClientLaws.DeletedRunLeavesEntry` | services/dashboard/hooks/use-conversation-streams.ts:609-626 | after a delete the rejection of the run brings the stream entry back exactly when a run was on file, and never a tree |
| `ClientLaws.AnswerReadsAsSent` | services/dashboard/components/chat-shell.tsx:219-246 | once rendered, in every batching, an answer reads as its events say if the last verdict ran or none did; pending and unavailable marks exactly |
| `ClientLaws.HandoverSmooth` | services/dashboard/components/message-thread.tsx:139-147 | the nodes shown while running plus the archived answer are the path after archiving; nothing moves if the reader is elsewhere |
| `ClientLaws.HandoverOnAnswer` | services/dashboard/components/message-thread.tsx:139-147 | the same at the arrival of the answer event, from any reachable state |
| `ClientLaws.FrameBeforeArchive` | services/dashboard/components/message-thread.tsx:139-147 | when the one frame between end of run and archiving shows something else |
| `ClientLaws.SubmitContext` | services/dashboard/components/chat-shell.tsx:256-327 | the history sent with a question is the history recorded above it |
| `ClientLaws.EditContext` | services/dashboard/components/chat-shell.tsx:508-543 | the same for an edit of a visible question |
| `ClientLaws.RetryContext` | services/dashboard/components/chat-shell.tsx:475-493 | the same for a retry; the answer retried is not in it and the question is its last turn |
| `LateVerdicts.BatchingMattersExactly` | services/dashboard/lib/branches.ts:399-413 | all batchings of late verdicts into renders leave the same tree exactly when the last verdict ran or none did |
| `Interleaving.AskFresh` | services/dashboard/components/chat-shell.tsx:256-329 | a question, asked by the handler that fits, is the step of the machine, and the history handed over is the visible path, whenever a run starts |
| `Interleaving.AskAgain` | services/dashboard/components/chat-shell.tsx:475-543 | the same for an edit and a retry, with the history above the message |
| `Interleaving.Perform` | services/dashboard/components/chat-shell.tsx:256-561 | each user action, event and stream end, performed by its handler or callback with the controller its run captured, is the step of the machine on its conversation and nothing on the others, and sends the history that step sends |
| `Interleaving.Drive` | services/dashboard/hooks/use-conversation-streams.ts:209-224 | after any interleaving of handlers, callbacks, renders and deletions on the shared dictionaries, every conversation is in the state in which its own steps alone leave it, and was sent the histories that they send; a deleted one has no tree; every tree is well formed and no update threw |
| `Interleaving.DeleteThenHearBack` | services/dashboard/components/chat-shell.tsx:416-430 | on the objects: after a delete, the outstanding callback and a render, the stream entry is there exactly when a run was on file, and other conversations are only rendered |
| `RunReading.QuietBeforeAnswer` | services/server/wolf_server/agent/loop.py:341-466 | before its answer a fitting stream carries nothing meant to patch an answer |
| `RunReading.RunReadsAsReturned` | services/server/wolf_server/agent/loop.py:793-944 | in all three modes the events add up to the text, counts and figures of the answer that the run returned; their verdicts are steady except for one incremental case |
| `RunReading.RunReports` | services/server/wolf_server/agent/loop.py:502-506 | the events of a run report what came of each of its tool calls, in order |
| `RunReading.StreamedTextShown` | services/dashboard/hooks/use-conversation-streams.ts:287-316 | when the last model call is over, the text on display is the text it streamed |
| `EndToEnd.ReaderSeesTools` | services/dashboard/hooks/use-conversation-streams.ts:349-393 | the archived answer reports what came of each tool call of the run, in order |
| `EndToEnd.RunReachesReader` | services/server/wolf_server/agent/loop.py:793-944 | after the events of a run, however rendered, the archived answer holds the returned text and counts (one exception stated), tool events and figures; it waits for verdicts exactly when the incremental judge produced none |
| `EndToEnd.HeardKeeps` | services/dashboard/hooks/use-conversation-streams.ts:272-534 | from acceptance on, every fitting stream can be heard in any batching, and path and recorded turns move only by the answer |
| `EndToEnd.TurnCompletes` | services/dashboard/hooks/use-conversation-streams.ts:225-600 | a run heard to its end leaves the client idle with one answer archived, wherever the reader is |
| `EndToEnd.WholeTurn` | services/dashboard/components/chat-shell.tsx:256-329 | question, run, events, renders, end: the path grows by question and answer, and the next context is the old one, the question and the returned answer |
| `EndToEnd.CutTurn` | services/server/wolf_server/api/chat.py:268-332 | a run cut after any number of events: running forever exactly if it closed cleanly before the answer, an error otherwise |
| `RunReading.RanMeansSteady` | services/server/wolf_server/grounding/validator.py:458-500 | where every snapshot ran, as those of the server's validator do, no batching of verdicts can be seen |
| `EndToEnd.RanRunReachesReader` | services/server/wolf_server/agent/loop.py:793-944 | with such a validator the archived answer reads as the one returned, in all modes and without exception |
| `OverTheWire.TurnOverTheWire` | services/dashboard/components/chat-shell.tsx:256-329 | the whole turn with its events written, read in any chunking and heard: the model is shown the readable turns of the visible path and the question, and the next context is the history sent, the question sent and the returned answer |
| `OverTheWire.CutOverTheWire` | services/server/wolf_server/api/chat.py:268-332 | a response cut after any number of characters: exactly the events wholly written are heard; running forever exactly if it closed cleanly and the answer was not among them |
| `EditsAndRetries.AnswerLands` | services/dashboard/components/chat-shell.tsx:144-209 | the answer to a visible question, asked in any way, lands right below it and ends the context of the next turn |
| `EditsAndRetries.WholeEdit` | services/dashboard/components/chat-shell.tsx:508-543 | an edit from request to archived answer: the new version and its answer stand where the old version stood, in the context that was sent |
| `EditsAndRetries.WholeRetry` | services/dashboard/components/chat-shell.tsx:475-493 | a retry from request to archived answer: the new answer stands where the old one stood; the next context is the history sent and the answer |
| `Unjudged.NoEvidenceExactly` | services/server/wolf_server/agent/loop.py:507-539 | there is nothing to judge by exactly when every tool call was a successful knowledge lookup without hits |
| `Unjudged.VerdictsNeverComeExactly` | services/server/wolf_server/grounding/validator.py:262-287 | for a validator that needs evidence, announced verdicts never come exactly in incremental runs whose tool calls were all such lookups |
| `Unjudged.NothingToJudgeIsMarked` | services/server/wolf_server/grounding/validator.py:333-343 | the same runs in deferred mode are marked as ones whose judge failed |
| `Unjudged.GreetingIsNeverJudged` | services/server/wolf_server/agent/loop.py:828-840 | such a run: one lookup that finds nothing, and an answer |
| `Sse.ParseFrame` | services/dashboard/lib/api.ts:279-292 | a frame's last event name and joined data lines, with its ignored and malformed cases |
| `Sse.DrainBuffer` | services/dashboard/lib/api.ts:257-274 | the inner loop delivers the completed frames of the buffer and keeps the unfinished tail |
| `Sse.ChatStream` | services/dashboard/lib/api.ts:234-277 | for every chunking, what is delivered is what splitting the whole text at its successive leftmost blank lines delivers; the tail is dropped |
| `Sse.FramesConcat` | services/dashboard/lib/api.ts:257-274 | the frames of a text cut anywhere are those of its first part and those of its tail joined with the rest |
| `Sse.CutDelivers` | services/server/wolf_server/api/chat.py:209-212 | written events cut anywhere: exactly those wholly written are delivered, without done, and reading never fails |
| `Sse.FrameExactly` | services/dashboard/lib/api.ts:279-292 | line by line: the last name counts, data lines are joined, a frame without a name is ignored |
| `Sse.DeliverStopsExactly` | services/dashboard/lib/api.ts:265-292 | reading fails exactly at the first malformed frame, after everything before it was handed on |
| `Sse.RoundTrip` | services/server/wolf_server/api/chat.py:209-212 | written events come back in any chunking, minus done |
| `Wire.CutOnTheWire` | services/server/wolf_server/api/chat.py:268-332 | a run's response cut anywhere, in any chunking, yields a prefix of its loop events, and all of them when whole |
| `Search.SearchConversations` | services/dashboard/components/chats-history-overlay.tsx:607-656 | all chats for a blank query; otherwise one explained hit per matching chat, in order |
| `Search.SearchChat` | services/dashboard/components/chats-history-overlay.tsx:621-655 | the earliest matching node in insertion order, else the title, else nothing |
| `Search.IncludesExactly` | services/dashboard/components/chats-history-overlay.tsx:621-632 | the query is found wherever it stands in the text, and nothing else is |
| `Search.SearchKeepsOrder` | services/dashboard/components/chats-history-overlay.tsx:619-655 | at most one hit per chat, in the order of the chats |
| `Search.SearchComplete` | services/dashboard/components/chats-history-overlay.tsx:607-656 | a chat is listed exactly when its title or the text of any of its nodes, on any branch and by any speaker, holds the query |
| `Search.HitBecomesVisible` | services/dashboard/components/chats-history-overlay.tsx:607-656 | the matched node is the earliest that holds the query, quoted under its speaker, and selecting the hit makes it visible right below its own ancestors |
| `Search.NavigatorFor` | services/dashboard/components/message-thread.tsx:456-471 | a navigator exists exactly at a branch point and points at the node itself among its siblings |
| `Search.NavigatorReaches` | services/dashboard/components/message-thread.tsx:456-471 | from a visible node every listed alternative can be shown under the same context, and switching back restores the conversation |
| `Ingest.Database.ExistingSharedHashes` | tools/seed_knowledge/__main__.py:43-53 | the hashes of the shared rows only |
| `Ingest.Database.Flush` | services/server/wolf_server/knowledge/store.py:156-201 | a batch is checked, embedded and written row by row, and stored, as one commit, exactly when none of its chunks is bad |
| `Ingest.Database.Ingest` | tools/seed_knowledge/__main__.py:66-94 | the commits made are the batches before the first with a bad chunk, for any batch size; without one, inserted and skipped add up to the input |
| `Ingest.StoredExactly` | tools/seed_knowledge/__main__.py:66-101 | a new chunk is stored exactly when no chunk of its batch or of an earlier batch is bad |
| `Ingest.BadChunkRollsBackItsBatch` | tools/seed_knowledge/__main__.py:69-71 | a good chunk is lost with a bad one of its batch, and stored in a batch of its own |
| `Ingest.NewsDistinct` | tools/seed_knowledge/__main__.py:78-86 | what is inserted is new, without repeats, and covers every hash |
| `Ingest.NewsAt` | tools/seed_knowledge/__main__.py:80-86 | a chunk is inserted, at its place in the order, exactly when it is the first of a hash not stored |
| `Ingest.BatchesShape` | tools/seed_knowledge/__main__.py:86-93 | the batches concatenate to the input, are full except the last, and none is empty |
| `Ingest.BatchSizeKept` | tools/seed_knowledge/__main__.py:66-93 | the batches have the size asked for, and one chunk each when that is below one |
| `Ingest.SecondRunExactly` | tools/seed_knowledge/__main__.py:43-94 | a second run inserts nothing exactly when all that was inserted is shared |
| `Ingest.Database.IngestTwice` | tools/seed_knowledge/__main__.py:66-94 | two runs on one table: whatever befell the first, the commits are those of one clean run, and after a clean first run the second inserts nothing |
| `Ingest.ResumeCompletes` | tools/seed_knowledge/__main__.py:66-101 | a run that raised, followed by one that did not, leaves the commits of one clean run |

## Left out

- Narration lines, activity phrases, elapsed times, timestamps, titles, stars, renames and drafts.
- Coercion of JSON fields on the client, Pydantic validation and the size limits of a chat request.
- HTTP, fetch, UTF-8 decoding and the JSON text of payloads, which is a function pair with the round trip as a hypothesis.
- Line ends other than LF, and the event-stream fields other than `event` and `data`, as in the source.
- Exceptions raised inside a tool, the validator or an audit write: the run is then cut short by the endpoint, which `Trace.CutShortIsBroken` covers for every place of the cut.
- Audit records, logging, approval and execution of actions, the web-research prompt suffix.
- The wording of failure messages and nudges: which nudge is sent is modelled, its text is not.
- How a tool call's arguments are serialised for its signature: the model starts from the serialised text.
- React's state queue and its double invocation of updaters: an update applies at once, and a render runs both effects.
- An insertion into the tree that throws stops the dashboard in the source; the model records the fault and `ClientLaws.ReachableTreesWellFormed` proves it never happens.
- Deletion is not a step of the single-conversation machine, which ends there; `Interleaving.Drive` and `Interleaving.DeleteThenHearBack` say what happens to the objects.
- Persistence of conversations in browser storage and their migration.
- The snippet window around a search match; the match itself is modelled.
- The rows of the knowledge table hold content and owner only; embeddings, metadata and retrieval are not part of this model.
- The command line of the seeding tool and the replacement of shared chunks before a run.
- AgentRun.Run: without a breaker, termination assumes that the model draws on finitely many signatures, since the loop then has no other ceiling while the context fits.
- LateVerdicts.BatchingMattersExactly: covers verdicts heard after the answer was archived; `EndToEnd.RunReachesReader` covers every batching for steady verdicts.
- Interleaving.Drive: a move that is no legal step of its own conversation is not covered, nor a deleted conversation's id used again.
- Ingest.Database.Flush: a flush that fails after its commit is not modelled, nor the auxiliary embedding, whose failures the store swallows.
- Node ids are numbers in the model and random strings in the source; key order is insertion order, which JavaScript guarantees for such strings.
