# nanobot verification

A Dafny model of the stateful core of nanobot, with proofs of what that core is for: the conversation it keeps for
the model, the messages it delivers, the parameters it accepts, the work it closes, the requests it sends and the
jobs it runs. `dafny verify dfyconfig.toml` checks all of it.

Code that changes things step by step is a class or a method with a loop, proved against a specification function of
the same branches; the laws are lemmas about that function, over all inputs and all runs. Answers of models and tools,
clocks, hashes, croniter and token estimates are parameters, so every theorem holds for every answer. Every lemma turns
Dafny's automatic induction off, so each induction is written out in a body.

## The six components

**Conversation** (`Chat`, `SessionHistory`, `SessionStore`, `AgentTurns`, `TurnRecord`, `AgentLoop`, `MemoryArchive`,
`Consolidation`, `ConsolidationRounds`, `ConversationRuns`, `ConversationObjects`, `ConversationArchive`). The agent
loop appends call blocks, saving filters them into an append-only session, consolidation archives a prefix, and the
history window must never show a tool result without its call. `TurnRecord` says message by message what the model is
shown and what is saved; `ConsolidationRounds` when a consolidation starts, what each round takes and why it stops.
`ConversationRuns` is a state machine over turns, the two halves of a consolidation round (split where it awaits the
model), /new and restarts. In every run in which /new does not overtake a waiting round, the archived messages and the
visible ones together are all turns, in order, and the window needs no orphan trimming. `ConversationObjects` shows
that the methods on the session objects make these steps. `ConversationArchive` runs the machine together with the
memory store and other sessions: every message a turn saved stays visible, or in the history file, or in the snapshot
of a /new.

**Mochat delivery** (`DedupWindows`, `MochatDelay`, `MochatWatch`, `MochatRouting`, `MochatArrivals`). Three
deduplication caches refine one sliding window. The delay buffer is a small concurrent protocol, with a step for each
point where its tasks can interleave: entries are handed to dispatch exactly once, in order, and a waiting buffer
always has exactly one live timer. Watch payloads move a monotone cursor, and what they route is what the window
accepts. `MochatRouting` says what becomes of each accepted message, and `MochatArrivals` follows the messages of a
panel from its payloads through every interleaving of the buffer.

**Tool parameters** (`ToolParameters`, `ParameterCasts`, `ParameterRules`). Mutual recursion over schemas and JSON
values, against a separate conformance relation for the supported subset of JSON Schema Validation, draft 2020-12
(sections 6.1.1, 6.1.2, 6.2.2, 6.2.4, 6.3.1, 6.3.2 and 6.5.3), and a separate relation for what casting makes of a
value.

**Subagent requests** (`SubagentRequests`, `SubagentResults`, `SubagentRollup`, `RollupLinks`). A loop that turns
requests into result files, and the summary that reads them back.

**Providers** (`CodexStream`, `ProviderLinks`, `ProviderTexts`). Event-stream framing (section 9.2.6 of the WHATWG
HTML Living Standard, as far as the code follows it), reassembly of tool calls, and two rewritings of a history that
must keep each result linked to its call and send everything else as it is.

**Schedulers and loops** (`CronSchedule`, `CronOutcomes`, `GuardedRelease`, `MessageSplit`). The cron service, the
guarded release cycle and message splitting.

`Prelude` holds the few sequence and text functions that the modules share.

## Where the code falls short of what it says

The code is modelled as it is. Each of these is a lemma, and the exact condition is proved in both directions.

- `nanobot/session/manager.py:24-27` says consolidation does not change what get_history returns. It does so only when
  no user message of the archived chunk lies in the window: `ArchivingKeepsHistoryIff`, `ArchivingChangesHistory`.
- `nanobot/agent/memory.py:294` promises guaranteed persistence. A snapshot is lost exactly when none of the three
  replies came with an entry, the shared failure counter stood at most at one before each attempt, and nobody else
  archived the same messages; the attempts run out only when a foreign success resets that counter in between:
  `ArchivePersistsIff`, `ExhaustedIsDisturbed`, `ArchiveExhaustedIff`, `ForeignSuccessLosesSnapshot`.
- /new takes no consolidation lock. When it overtakes a waiting round, the round's save brings the cleared object back
  with an offset past its end; a turn saved in between is lost and later ones stay hidden:
  `NewIsSafeIffNothingWaits`, `OvertakenRoundDropsTurn`, `StaleOffsetHidesHistory`.
- Reloading a damaged session file keeps the old offset over fewer messages, loses the offset with the metadata line,
  or loses the whole session to one line that is JSON but no object, or not UTF-8: `ReloadKeepsWindowIff`,
  `DamageMovesWindow`.
- `nanobot/runtime/subagent_materializer.py:221-223` promises that stale queues disappear. Empty request objects and
  requests whose sanitized result name is taken stay, unless another key links them:
  `StaleAfterRunIff`, `NothingStaleAfterRunIff`, `EmptyRequestStaleIff`, `ClashingNameStaysStale`.
- A channel or chat id that brings a blank line into the runtime context leaves part of the context in the saved
  text: `PromptRoundTrip`. Every report of a subagent is saved with its whole context: `SubagentReportKeepsContext`.
- In the Codex conversion a result whose id starts with a bar loses its link, one without an id needs a call sent as
  call_0, and ids that share the part before the bar meet: `ConversionKeepsLinksIff`, `ConversionAddsNoLinks`,
  `CollapsedIdsLink`.
- A one-shot job whose time passed while the service was down gets no run when it starts and is never due after:
  `StartSchedulesOneShotIff`, `MissedIsNeverDue`.
- A first release that fails its health check is not rolled back: `FailedCycleRestoresIff`,
  `FirstFailureIsNotRolledBack`.

## Model

| member | source | states |
|---|---|---|
| Chat.PairedAppend | nanobot/agent/loop.py:592-627 | Two lists in which every tool result follows its own call, with nothing but results in between, stay so when one is appended to the other |
| Chat.PairedCut | nanobot/session/manager.py:79-85 | A paired list cut at any message that is not a tool result has no orphan result |
| SessionHistory.FindLegalStart | nanobot/session/manager.py:47-68 | The one-pass scan returns the least index from which no tool result lacks its call |
| SessionHistory.OrphanRulesOut | nanobot/session/manager.py:58-62 | Why the scan may jump: an orphan at i is an orphan of every window that starts at or before i |
| SessionHistory.HistoryIsLegal | nanobot/session/manager.py:70-94 | For every stored list, offset and limit, the history handed to the model has no orphan result |
| SessionHistory.TrimKeepsLongestLegalSuffix | nanobot/session/manager.py:81-85 | The trimmed window is the longest orphan-free suffix |
| SessionHistory.FullWindowNeedsNoTrim | nanobot/session/manager.py:70-94 | With paired blocks and an offset on a turn boundary the unlimited window needs no trimming, and past a boundary it is everything unconsolidated |
| SessionHistory.HistoryGrows | nanobot/session/manager.py:70-94 | A new turn is shown in full behind the history shown before it |
| SessionHistory.ShownFromFirstUser | nanobot/session/manager.py:72-94 | A window is shown from its first user message on, for every limit |
| SessionHistory.ArchivingKeepsHistoryIff | nanobot/session/manager.py:24-27 | Archiving a chunk leaves get_history as it was iff the part of the chunk in the window holds no user message, for every non-negative limit |
| SessionHistory.ArchivingChangesHistory | nanobot/session/manager.py:24-27 | An input on which it changes: one exchange archived before the next message |
| SessionStore.Session.AddMessage | nanobot/session/manager.py:36-45 | Appends the message, stamped unless it brings its own time, and changes nothing else |
| SessionStore.Session.GetHistory | nanobot/session/manager.py:70-94 | Returns the window specified by History, which is orphan-free |
| SessionStore.Session.Clear | nanobot/session/manager.py:96-100 | Empties the messages and resets the offset, keeping the metadata |
| SessionStore.DropLeadingNonUser | nanobot/session/manager.py:75-79 | The slice starts at the first user message when there is one |
| SessionStore.CopyForModel | nanobot/session/manager.py:87-94 | Only the keys a model may see are kept, message by message |
| SessionStore.SaveLoadRoundTrip | nanobot/session/manager.py:146-194 | Loading a saved file gives back exactly the saved session |
| SessionStore.ReloadDamaged | nanobot/session/manager.py:146-248 | What a damaged file is reloaded as: nothing with a fatal line or when nothing is left, else the surviving messages under the metadata and offset of the first line, if that survived |
| SessionStore.ReloadKeepsWindowIff | nanobot/session/manager.py:146-248 | With any lines damaged, the metadata line included, into blank lines, text that is not JSON, JSON that is not an object or bytes that are not UTF-8: exactly when the reloaded session shows the surviving unconsolidated messages and no others |
| SessionStore.DamageMovesWindow | nanobot/session/manager.py:231-245 | A metadata line that is not JSON shows archived messages again; an archived message that is not JSON hides an unconsolidated one |
| SessionStore.SessionManager.GetOrCreate | nanobot/session/manager.py:126-144 | Returns the cached object, else a fresh one holding what the file holds |
| SessionStore.SessionManager.Save | nanobot/session/manager.py:250-274 | The file holds the current value and the saved object becomes the cached one |
| SessionStore.SessionManager.Invalidate | nanobot/session/manager.py:276-278 | Removes the object from the cache only |
| AgentTurns.RunTools | nanobot/agent/loop.py:227-234 | Appends one result per call, in call order, under the call's id |
| AgentTurns.RunAgentLoop | nanobot/agent/loop.py:186-257 | The appended messages, tools used and final content are those of the specified loop, up to the iteration limit |
| AgentTurns.ToolsUsedAreCallsMade | nanobot/agent/loop.py:227-234 | The tools used are the names of the calls made and of the results appended, in order |
| AgentTurns.LastIsFirstWithoutCalls | nanobot/agent/loop.py:208-248 | The answer that ends the loop is the first without tool calls |
| AgentTurns.ReplyCases | nanobot/agent/loop.py:235-257 | When the reply is missing, when it is the limit note, and that a text reply is the last message appended while an error appends nothing |
| AgentTurns.TailEndsAtLast | nanobot/agent/loop.py:197-248 | The messages appended end with those of the last iteration |
| AgentTurns.SavedResults | nanobot/agent/loop.py:600-601 | Saving never drops a tool result nor changes its id |
| AgentTurns.SavedBlock | nanobot/agent/loop.py:221-234 | A saved call block is one assistant message answered call for call |
| AgentTurns.SavedTailPaired | nanobot/agent/loop.py:197-257 | Whatever the model answers, a saved loop tail is paired and its results answer its calls one for one, in order |
| AgentTurns.TurnIsPaired | nanobot/agent/loop.py:532-540 | Every turn the agent can save is paired, for all answers of the model and of the tools |
| AgentTurns.SkipLeavesTheTurn | nanobot/agent/loop.py:539 | Skipping 1 + len(history) messages leaves exactly the messages of the new turn |
| AgentTurns.SplitFindsText | nanobot/agent/loop.py:605-607 | Splitting at the first blank line finds the user text iff the context in front has no earlier blank line |
| AgentTurns.PromptRoundTrip | nanobot/agent/context.py:106-151 | Text that is not blank is stored as written iff channel and chat id carry no blank line into the context; nothing is stored iff the text is blank and they leave only whitespace behind the first blank line, as they do when they carry none |
| AgentTurns.MultimodalRoundTrip | nanobot/agent/context.py:140-179 | With images the context part goes, each image becomes its placeholder, and the text stays unless it opens with the context tag |
| AgentTurns.SubagentReportKeepsContext | nanobot/agent/loop.py:462-470 | A report delivered in the assistant role is stored with its runtime context |
| TurnRecord.LoopShowsIteration | nanobot/agent/loop.py:208-234 | In every iteration with calls the model is shown its answer as it came, and the result of each call, whole, under its id and name |
| TurnRecord.LoopEndsWith | nanobot/agent/loop.py:235-250 | Behind them stands the ending text without its think blocks, nothing for an error, and nothing else |
| TurnRecord.ReplyIs | nanobot/agent/loop.py:235-257 | The caller gets the ending text; for an error without text the apology; for a silent last iteration, or none that ended, the limit note; and nothing for an earlier silent answer |
| TurnRecord.PromptAsShown | nanobot/agent/context.py:126-151 | The prompt is the instructions, the history, and one message with context, images and text |
| TurnRecord.ContextAsShown | nanobot/agent/context.py:106-112 | The context names the time, and channel and chat when both are there |
| TurnRecord.SavedTurnShowsIteration | nanobot/agent/loop.py:592-627 | For all answers of model and tools, the saved turn holds every answer with calls as it came and every result under its call: whole up to 16000 characters, else the first 16000 and the mark |
| TurnRecord.SavedTurnEndsWith | nanobot/agent/loop.py:592-627 | Behind them it holds the ending text unless that is empty or an error, and nothing else |
| TurnRecord.SavedReport | nanobot/agent/loop.py:592-627 | A report in the assistant role opens the saved turn as it was delivered |
| TurnRecord.UserTextKept | nanobot/agent/loop.py:602-610 | A user text is stored as it came unless it opens with the tag; then what follows its first blank line is, if there is more than whitespace |
| TurnRecord.UserPartsKept | nanobot/agent/loop.py:611-625 | Of the parts of a user message all are stored but texts that open with the tag, embedded images as a note with their path; nothing when none is left |
| TurnRecord.OthersKept | nanobot/agent/loop.py:595-626 | Every other message is stored as it came, but for an empty answer without calls |
| AgentLoop.SaveTurn | nanobot/agent/loop.py:592-627 | The session grows by exactly the filtered turn |
| AgentLoop.ProcessTurn | nanobot/agent/loop.py:516-540 | The model is shown an orphan-free history; session and file end as the old value plus the saved turn |
| AgentLoop.ProcessNew | nanobot/agent/loop.py:487-497 | The snapshot is the unconsolidated part; the file is cleared and the cache entry gone |
| AgentLoop.NextPromptShowsUserText | nanobot/agent/loop.py:516-540 | What the user wrote opens its turn in the next prompt, behind the history shown before |
| MemoryArchive.ConsolidateOutcome | nanobot/agent/memory.py:114-208 | True is returned iff the reply saves or the third failure is reached, and then the chunk is in the history file; False adds one failure below the threshold |
| MemoryArchive.WhatIsWritten | nanobot/agent/memory.py:114-208 | What is appended and what the counter becomes: the entry of a reply that has one, and a raw dump behind it when the reply does not save and is the third failure in a row |
| MemoryArchive.MemoryStore.AppendHistory | nanobot/agent/memory.py:94-96 | The history file grows by the entry |
| MemoryArchive.MemoryStore.FailOrRaw | nanobot/agent/memory.py:201-208 | Counts the failure, or dumps the chunk raw and resets the counter |
| MemoryArchive.MemoryStore.ConsolidateChunk | nanobot/agent/memory.py:114-199 | Refines the specified outcome for every kind of reply |
| MemoryArchive.OthersOneByOne | nanobot/agent/memory.py:189-194 | The consolidations of others run one after the other, each on what the one before left |
| MemoryArchive.OthersOnlyAppend | nanobot/agent/memory.py:189-194 | Other users of the store only append to the history file |
| MemoryArchive.ArchivePersists | nanobot/agent/memory.py:293-300 | Without a foreign success in between the snapshot is always persisted and the last return is unreachable |
| MemoryArchive.ArchivePersistsIff | nanobot/agent/memory.py:293-300 | For every reply and interleaving, the snapshot is in the history file iff one of the three replies comes with an entry, or the shared counter stands at two or more before an attempt, or somebody else archived the same messages |
| MemoryArchive.AttemptsPersistIff | nanobot/agent/memory.py:293-300 | The same from any attempt on, by whether the attempts run out |
| MemoryArchive.ExhaustedIsDisturbed | nanobot/agent/memory.py:194-208 | The attempts run out only when a foreign success comes in between |
| MemoryArchive.OthersKeepCounter | nanobot/agent/memory.py:201-208 | The shared failure counter stays below the threshold under any consolidations of others |
| MemoryArchive.AttemptsKeepCounter | nanobot/agent/memory.py:201-208 | And under the attempts of an archive call |
| MemoryArchive.ArchiveExhaustedIff | nanobot/agent/memory.py:297-300 | The attempts run out iff no reply saves and the shared counter stands at most at one before each |
| MemoryArchive.ForeignSuccessLosesSnapshot | nanobot/agent/memory.py:194 | A success for another session before the last attempt: the call returns True and the snapshot is nowhere |
| MemoryArchive.PickConsolidationBoundary | nanobot/agent/memory.py:254-274 | The first user message that removes enough tokens, else the last one, with the tokens in front of it; None iff there is none |
| Consolidation.RoundConserves | nanobot/agent/memory.py:336-353 | One round keeps the conservation law and moves the offset exactly when the chunk is confirmed |
| Consolidation.RoundKeepsFile | nanobot/agent/memory.py:350-353 | After a round the session file, once written, holds the session as it is, whatever was saved at the await; only a failed round leaves it to the object of turns saved behind a /new, with the session cleared |
| Consolidation.ConsolidationKeepsFile | nanobot/agent/memory.py:302-357 | The same after a whole consolidation, whatever the other tasks do at the awaits |
| Consolidation.RoundsConserve | nanobot/agent/memory.py:323-357 | All rounds keep the law, at most five succeed |
| Consolidation.ConsolidationConserves | nanobot/agent/memory.py:302-357 | With any turns appended at the awaits, the passed messages are the confirmed chunks in order, each non-empty, persisted and ending before a user message |
| Consolidation.ClearedMidRound | nanobot/agent/memory.py:350-353 | A session cleared at the await comes back to file and cache, empty, with the old offset, when the round succeeds, for every session and cut; when it fails, turns saved behind the /new stay in file and cache |
| ConsolidationRounds.IdleBelowWindow | nanobot/agent/memory.py:302-321 | While the prompt fits the window, session, store, file and cache stay and nothing is archived |
| ConsolidationRounds.ArchivesIff | nanobot/agent/memory.py:302-357 | Something is archived iff the prompt overflows a positive window, a user message stands behind the first unconsolidated one, and the first answer saves or is the third failure |
| ConsolidationRounds.PickIsProper | nanobot/agent/memory.py:254-274 | The boundary is the first user message with at least the demanded tokens in front of it, else the last one; none iff there is no later user message |
| ConsolidationRounds.RoundLeaves | nanobot/agent/memory.py:336-353 | What one round leaves in session, store, chunks, file and cache, for everything that can happen at the await |
| ConsolidationRounds.ConsolidationTrace | nanobot/agent/memory.py:323-357 | An overflowing prompt leads to at most five rounds, each started above half the window and taking the proper cut; they stop at five, at half the window, without a cut, on an unconfirmed round or without a prompt |
| ConsolidationRounds.TraceIsUnique | nanobot/agent/memory.py:323-357 | There is only one such sequence of rounds |
| Consolidation.MemoryConsolidator.Await | nanobot/agent/memory.py:350 | The other tasks at the await: turns append and save, /new clears, saves and evicts, turns behind a /new go into another object, other sessions use the store |
| Consolidation.MemoryConsolidator.ClearAndEvict | nanobot/agent/loop.py:487-491 | /new empties the session, saves it and takes its key from the cache |
| Consolidation.MemoryConsolidator.TurnElsewhere | nanobot/session/manager.py:126-144 | A turn behind a /new reloads the file into another object, which then owns cache and file |
| Consolidation.MemoryConsolidator.Confirm | nanobot/agent/memory.py:352-353 | The offset moves, and file and cache end with this object |
| Consolidation.MemoryConsolidator.ArchiveMessages | nanobot/agent/memory.py:293-300 | Refines the retry loop, always returning True |
| Consolidation.MemoryConsolidator.ArchiveRound | nanobot/agent/memory.py:336-353 | One round on the objects: session, store, file and cache end as specified |
| Consolidation.MemoryConsolidator.MaybeConsolidateByTokens | nanobot/agent/memory.py:302-357 | The loop on the objects ends in the specified session, store, file and cache |
| ConversationRuns.TurnKeepsGood | nanobot/agent/loop.py:479-541 | A turn keeps the conversation invariant |
| ConversationRuns.RoundArchivesChunk | nanobot/agent/memory.py:327-353 | A round takes what lies in front of the boundary; confirmed it moves the offset there, saves and archives exactly that, unconfirmed it leaves everything |
| ConversationRuns.StartKeepsGood | nanobot/agent/memory.py:327-350 | Starting a round keeps it |
| ConversationRuns.FinishKeepsGood | nanobot/agent/memory.py:350-353 | Finishing a round, confirmed or not, keeps it |
| ConversationRuns.NewKeepsGood | nanobot/agent/loop.py:487-497 | /new keeps it while no round waits |
| ConversationRuns.RestartKeepsGood | nanobot/session/manager.py:126-144 | Forgetting every object and reloading from the file keeps it |
| ConversationRuns.StepKeepsGood | nanobot/agent/memory.py:302-357 | Every step keeps it |
| ConversationRuns.RunKeepsGood | nanobot/agent/memory.py:302-357 | Over every run in which /new overtakes no waiting round |
| ConversationRuns.ReachableHistory | nanobot/session/manager.py:70-94 | In every reached state results stand in the block of their call, the offset is in range, archived and visible messages together are what the turns since the last /new saved, in order, and the scan returns 0 on the unlimited window |
| ConversationRuns.NewIsSafeIffNothingWaits | nanobot/agent/loop.py:487-491 | /new followed by a confirmed round keeps the invariant iff no round was waiting |
| ConversationRuns.OvertakenRoundDropsTurn | nanobot/agent/memory.py:350-353 | The overtaken round's save puts the cleared object back; a turn saved in between is lost from cache and file |
| ConversationRuns.RunTurnsAppends | nanobot/agent/loop.py:539-540 | Turns alone append their messages and leave the offset |
| ConversationRuns.StaleOffsetHidesHistory | nanobot/session/manager.py:72-73 | With a stale offset the model sees nothing until the conversation outgrows it |
| ConversationObjects.Turn | nanobot/agent/loop.py:516-540 | Processing a message on the session objects of a key is the turn step of its runs |
| ConversationObjects.New | nanobot/agent/loop.py:487-497 | /new on the objects is the /new step, and hands on what was not archived |
| ConversationObjects.StartRound | nanobot/agent/memory.py:254-274 | Picking the boundary on an object is the step that starts a round |
| ConversationObjects.FinishRound | nanobot/agent/memory.py:352-353 | Moving the offset and saving on the object is the step that finishes a round |
| ConversationObjects.Restart | nanobot/session/manager.py:126-144 | A new process over the same files is the restart step |
| ConversationArchive.StoreGrows | nanobot/agent/memory.py:94-96 | Whatever other sessions add to the history file, the whole-run invariant stands |
| ConversationArchive.TurnKept | nanobot/agent/loop.py:539-540 | A saved turn keeps the invariant of session and store: the archived messages are the confirmed chunks in order, each in the history file, and every message ever saved is somewhere |
| ConversationArchive.AnswerKept | nanobot/agent/memory.py:350-353 | Every answer to a waiting round keeps it |
| ConversationArchive.ClearKept | nanobot/agent/loop.py:487-497 | /new keeps it when no round waits: what was shown is in the snapshot, and what was archived in the file |
| ConversationArchive.SnapshotKept | nanobot/agent/memory.py:293-300 | Every answer to an attempt at a snapshot keeps it: a snapshot leaves only for the file |
| ConversationArchive.RestartKept | nanobot/session/manager.py:126-144 | A restart keeps it |
| ConversationArchive.LoggedIsKept | nanobot/session/manager.py:24-27 | Every message since the last /new is shown or stands in the history file |
| ConversationArchive.AllKept | nanobot/agent/memory.py:302-357 | Over every run, with other sessions in the store, in which /new overtakes no waiting round |
| ConversationArchive.EveryMessageIsSomewhere | nanobot/agent/memory.py:293-357 | In every such run every message a turn ever saved is shown, in the history file, or in the snapshot of a /new still attempted or given up |
| ConversationArchive.WithoutNewNothingIsLost | nanobot/agent/memory.py:302-357 | Without /new, every message a turn ever saved is shown or stands in the history file |
| DedupWindows.MochatSeen.RememberMessageId | nanobot/channels/mochat.py:762-771 | Set and queue together refine the sliding window of one key; other keys are untouched |
| DedupWindows.TrimOldest | nanobot/channels/mochat.py:769-770 | Eviction keeps the set equal to the queue's elements and the queue to its last entries |
| DedupWindows.FeishuSeen.Check | nanobot/channels/feishu.py:1047-1055 | The ordered dictionary refines the same window |
| DedupWindows.QqSeen.Check | nanobot/channels/qq.py:158-161 | The bounded deque refines the same window |
| DedupWindows.WindowIsLastAccepted | nanobot/channels/mochat.py:762-771 | The window is always the last N accepted ids, all different |
| DedupWindows.RedeliveryGap | nanobot/channels/mochat.py:762-771 | Two deliveries of one id are more than N deliveries apart |
| DedupWindows.AllDelivered | nanobot/channels/mochat.py:762-771 | Every incoming id is delivered, and nothing else |
| DedupWindows.ExactlyOnceWithinWindow | nanobot/channels/mochat.py:762-771 | At most N different ids: each is delivered exactly once |
| MochatDelay.AdvanceKeepsInv | nanobot/channels/mochat.py:775-795 | Each step of a lock holder keeps the delivery invariant |
| MochatDelay.CutKeepsInv | nanobot/channels/mochat.py:794-797 | Taking the buffer as a batch and handing it on keeps it |
| MochatDelay.StopKeepsInv | nanobot/channels/mochat.py:816-820 | Stopping keeps it, recording what it drops |
| MochatDelay.StepKeepsInv | nanobot/channels/mochat.py:773-820 | Every step of every task keeps it |
| MochatDelay.RunKeepsInv | nanobot/channels/mochat.py:773-820 | Every interleaving keeps it |
| MochatDelay.EveryEntryHandedOnce | nanobot/channels/mochat.py:785-797 | Batches and buffer partition the arrivals in order; the handed batches are exactly those no stop dropped, each once and in order |
| MochatDelay.WithoutStopAllHanded | nanobot/channels/mochat.py:785-797 | Without a stop the i-th handed batch is the i-th batch, so what was handed and what is buffered are all the arrivals, in order |
| MochatDelay.OneLiveTimer | nanobot/channels/mochat.py:775-779 | Lock free and buffer non-empty: exactly one timer can still fire, the remembered one |
| MochatDelay.TimerDeliversBuffer | nanobot/channels/mochat.py:781-797 | Letting that timer run empties the buffer into one handed batch |
| MochatDelay.EnqueueAsBlock | nanobot/channels/mochat.py:775-779 | The locked block buffers the entry and replaces the timer |
| MochatDelay.FlushAsBlock | nanobot/channels/mochat.py:787-797 | The locked block takes everything buffered, the mention last, disarms the timer, and the batch is handed on |
| MochatDelay.DelayState.EnqueueDelayedEntry | nanobot/channels/mochat.py:773-779 | Refines the protected enqueue steps |
| MochatDelay.DelayState.FlushDelayedEntries | nanobot/channels/mochat.py:785-797 | Refines the protected flush steps and returns the batch |
| MochatDelay.DelayState.CancelRememberedTimer | nanobot/channels/mochat.py:790-792 | Cancels the remembered timer unless it is the current task |
| MochatDelay.DelayState.CancelDelayTimers | nanobot/channels/mochat.py:816-820 | Refines the stop step |
| MochatWatch.MochatChannel.MarkSessionCursor | nanobot/channels/mochat.py:873-878 | A cursor only moves forward; other sessions keep theirs |
| MochatWatch.MochatChannel.HandleWatchPayload | nanobot/channels/mochat.py:684-712 | The target after a payload and the routed actions are those of the specified step, early returns included; other targets are untouched |
| MochatWatch.MochatChannel.HandleEvent | nanobot/channels/mochat.py:705-712 | One event: the sequence number moves the cursor of session targets only |
| MochatWatch.MochatChannel.ProcessInboundEvent | nanobot/channels/mochat.py:714-758 | Which messages are dropped, remembered and routed, and where to |
| MochatWatch.SequenceIsMax | nanobot/channels/mochat.py:709-710 | An event moves the cursor to the maximum of cursor and sequence number |
| MochatWatch.CursorIsLargest | nanobot/channels/mochat.py:705-710 | After a list of events the cursor is the maximum of its start and their sequence numbers |
| MochatWatch.CursorIsMaximum | nanobot/channels/mochat.py:693-710 | Over any payloads a session cursor is the maximum of its start, the payload cursors and the sequence numbers looked at |
| MochatWatch.RoutedAreAccepted | nanobot/channels/mochat.py:705-728 | The ids routed of a list of events are those the sliding window accepts of the ids offered |
| MochatWatch.HandleAllRoutes | nanobot/channels/mochat.py:684-712 | Over any payloads the routing is that of all events looked at, in one list |
| MochatWatch.RoutedOnceWithinWindow | nanobot/channels/mochat.py:684-728 | Over any payloads of a target, routed messages with one id are more than the window apart, every offered id is routed, and exactly once while no more than the window are different |
| MochatRouting.EveryMessageIsRouted | nanobot/channels/mochat.py:714-758 | Over any payloads every accepted message gets the one action its target, mode, mention and requirement ask for |
| MochatRouting.DelayedPanelBatches | nanobot/channels/mochat.py:750-756 | In a panel that waits for mentions, batches and buffer are the accepted messages in order, every batch ends with its only mention, and none is in the buffer |
| MochatRouting.UndelayedDispatch | nanobot/channels/mochat.py:738-758 | Elsewhere every accepted message is dispatched at once and alone, but for those without a mention their panel requires |
| MochatRouting.HasCursorIff | nanobot/channels/mochat.py:684-712 | A session has a cursor iff it had one, a payload brought one, or a positive sequence number was looked at |
| MochatRouting.KeysAreDistinct | nanobot/channels/mochat.py:726-728 | The windows of a session and a panel, or of two targets, never meet |
| MochatArrivals.StepMoves | nanobot/channels/mochat.py:770-799 | A step of the buffer adds its arrival to the pending entries, or moves one pending entry into the buffer |
| MochatArrivals.ArrivalsAccountedFor | nanobot/channels/mochat.py:770-799 | Over every interleaving, what arrived is in a batch, in the buffer, or on its way there |
| MochatArrivals.ArrivalsInOrder | nanobot/channels/mochat.py:691-712 | And in order when each arrival waits for the one ahead, as under the lock of the target |
| MochatArrivals.MentionsCloseBatches | nanobot/channels/mochat.py:785-799 | Over every interleaving a mention is the last of its batch |
| MochatArrivals.PanelDelivery | nanobot/channels/mochat.py:684-799 | From payloads to dispatch: each accepted message is in exactly one batch, in the buffer or on its way, in order; undropped batches are handed on once and in order; a mention closes its batch |
| ToolParameters.FirstNonNullIs | nanobot/agent/tools/base.py:24-36 | A union resolves to its first non-null type, and to none iff all are null |
| ToolParameters.ValidateValue | nanobot/agent/tools/base.py:147-188 | The fault-collecting recursion refines the specified fault list |
| ToolParameters.ValidateObject | nanobot/agent/tools/base.py:175-182 | Missing and property faults of an object |
| ToolParameters.ValidateItems | nanobot/agent/tools/base.py:183-187 | Item faults of an array |
| ToolParameters.ScalarFaultsExact | nanobot/agent/tools/base.py:162-174 | No scalar fault iff enumeration, bounds and lengths are met |
| ToolParameters.ScalarFaultsReported | nanobot/agent/tools/base.py:162-174 | Each scalar fault is reported iff its keyword is violated |
| ToolParameters.ValidatorIsExact | nanobot/agent/tools/base.py:147-188 | No faults iff the value conforms, at every depth |
| ToolParameters.FaultsAreExactlyViolations | nanobot/agent/tools/base.py:147-188 | The reported faults are exactly the violations, each with its place |
| ToolParameters.CastObject | nanobot/agent/tools/base.py:77-91 | Rebuilds a dictionary entry by entry; other values pass unchanged |
| ToolParameters.CastKeepsShapeIff | nanobot/agent/tools/base.py:77-136 | Keys, key order and array lengths survive casting at every depth iff no object or array stands where the schema says string |
| ToolParameters.CastFixesConforming | nanobot/agent/tools/base.py:93-136 | A conforming value is cast to itself |
| ToolParameters.CastIsIdempotent | nanobot/agent/tools/base.py:93-136 | Casting twice is casting once, for every value and schema |
| ToolParameters.CastThenValidate | nanobot/agent/tools/base.py:69-145 | What validates on its own is cast to itself and still validates |
| ParameterCasts.CastIsExact | nanobot/agent/tools/base.py:93-136 | Casting gives exactly the value that the declarative relation asks for, at every depth |
| ParameterCasts.ParamsCastTo | nanobot/agent/tools/base.py:69-91 | The parameters of a call are cast entry by entry under an object schema and left alone under any other |
| ParameterCasts.FindIsFirst | nanobot/agent/tools/base.py:77-91 | A key is cast by the schema of the property with its name |
| ParameterCasts.UnknownIsNotFound | nanobot/agent/tools/base.py:86-89 | And a key without a property by none |
| ParameterCasts.IntegerTextAcceptedIff | nanobot/agent/tools/base.py:106-110 | Text for an integer validates after the cast iff it spells one that is listed and within the bounds |
| ParameterCasts.NumberTextAcceptedIff | nanobot/agent/tools/base.py:112-116 | Text for a number likewise; NaN passes every bound |
| ParameterCasts.BooleanTextAcceptedIff | nanobot/agent/tools/base.py:121-127 | Text for a boolean iff it is one of the six words and its value is listed |
| ParameterCasts.AnyTextAcceptedIff | nanobot/agent/tools/base.py:118-119 | Any other value for a string iff its text is listed and within the lengths |
| ParameterCasts.BareTypeAccepts | nanobot/agent/tools/base.py:153-160 | A bare type accepts exactly its values; a boolean is no number |
| ParameterRules.UnionAccepts | nanobot/agent/tools/base.py:25-36 | A union accepts what its first non-null name accepts, and null when it names null |
| ParameterRules.NullUnionAccepts | nanobot/agent/tools/base.py:25-36 | A union of nothing but null accepts everything |
| ParameterRules.RequiredAccepts | nanobot/agent/tools/base.py:177-179 | Required keys have to be there |
| ParameterRules.EnumerationAccepts | nanobot/agent/tools/base.py:163-164 | A listed value has to equal one of the list |
| ParameterRules.PropertyAccepts | nanobot/agent/tools/base.py:180-182 | The value of a property has to conform to its schema; other keys are free |
| ParameterRules.ItemsAccept | nanobot/agent/tools/base.py:183-187 | Every item has to conform to the schema of the items |
| ParameterRules.ParamsAcceptedIff | nanobot/agent/tools/base.py:138-145 | Parameters that are no object are refused, a schema of another type raises, and otherwise they are accepted iff they conform |
| ParameterRules.NumbersEqualIff | nanobot/agent/tools/base.py:163 | Numbers are equal by value across bool, int and float; NaN equals nothing |
| ParameterRules.ArraysEqualIff | nanobot/agent/tools/base.py:163 | Arrays are equal item by item |
| ParameterRules.ObjectsEqualIff | nanobot/agent/tools/base.py:163 | Objects are equal when they are of one size and each entry of the one is in the other |
| ParameterRules.PlainEqualIff | nanobot/agent/tools/base.py:163 | Nulls and texts equal only themselves |
| ParameterRules.KindsDiffer | nanobot/agent/tools/base.py:163 | An array, an object and a plain value are never equal |
| ParameterRules.EqualsItself | nanobot/agent/tools/base.py:163 | A value without NaN equals itself, so a list that names it accepts it |
| SubagentRequests.MaterializeRequests | nanobot/runtime/subagent_materializer.py:216-337 | The loop computes the specified results and counters, for any limit |
| SubagentRequests.MaterializeAccounts | nanobot/runtime/subagent_materializer.py:244-327 | No result is overwritten; terminalized = executed + blocked; terminalized + skipped = examined; one new file per terminalized request |
| SubagentRequests.RunEffects | nanobot/runtime/subagent_materializer.py:253-327 | An unlimited run names only its own requests and settles each of them |
| SubagentRequests.SettledRun | nanobot/runtime/subagent_materializer.py:261-271 | Going over settled requests writes nothing |
| SubagentRequests.LimitIsPrefix | nanobot/runtime/subagent_materializer.py:254-255 | A limited run is an unlimited run over the requests it examined |
| SubagentRequests.RerunDoesNothing | nanobot/runtime/subagent_materializer.py:253-327 | A rerun terminalizes nothing |
| SubagentRequests.ResumeCompletes | nanobot/runtime/subagent_materializer.py:253-327 | A limited run followed by an unlimited one leaves the results of one unlimited run |
| SubagentResults.ResultsWritten | nanobot/runtime/subagent_materializer.py:250-311 | A run with any limit writes a result with a new name iff an examined request awaits one with it; the record names the file, id, cycle and task of exactly one, the first such request, with "completed" iff it was executed, else "blocked" |
| SubagentResults.CountersAreResults | nanobot/runtime/subagent_materializer.py:246-316 | executed and blocked are the numbers of new results with those statuses, terminalized their sum, and skipped the other examined requests |
| SubagentResults.LimitIsKept | nanobot/runtime/subagent_materializer.py:253-254 | The limit is never passed, and a run stops short only when it is reached |
| SubagentResults.SafeKeyNames | nanobot/runtime/subagent_materializer.py:41-48 | The result file carries a safe key, the request id, else the cycle, else the file's own, and the stem for a key of nothing but unsafe characters |
| SubagentResults.StrippedOfDashes | nanobot/runtime/subagent_materializer.py:45-48 | What is left of a key lies between dashes and has none at its ends |
| SubagentRequests.LowerAt | nanobot/runtime/subagent_materializer.py:260 | Statuses are compared letter by letter in lower case |
| SubagentRollup.BuildTelemetryIndex | nanobot/runtime/state.py:557-598 | The index holds, per key, the first terminal telemetry record with that key |
| SubagentRollup.BuildIndex | nanobot/runtime/state.py:650-679 | Each result index holds the first result with a key |
| SubagentRollup.BuildRecord | nanobot/runtime/state.py:607-697 | Status and link of one request through the four indexes, in order of precedence |
| SubagentRollup.BuildRecords | nanobot/runtime/state.py:600-697 | All request records, from the indexes built over all files |
| SubagentRollup.Rollup | nanobot/runtime/state.py:706-721 | The queued and stale counts of the records |
| SubagentRollup.StaleIsQueued | nanobot/runtime/state.py:706-721 | A stale request counts as queued |
| SubagentRollup.StaleAtMostQueued | nanobot/runtime/state.py:706-721 | In every state the stale count is at most the queued count |
| SubagentRollup.KeysAfterRun | nanobot/runtime/subagent_materializer.py:267-271 | The result files after a run are the old ones and one per pending request name |
| SubagentRollup.NamedAfterRunIff | nanobot/runtime/subagent_materializer.py:264-321 | A request is named by a result iff one named it before, or it was pending and its file name was free at its turn |
| SubagentRollup.NamedIsNotStale | nanobot/runtime/state.py:672-720 | A request named by a result is never stale |
| SubagentRollup.StaleAfterRunIff | nanobot/runtime/subagent_materializer.py:216-224 | After an unlimited run a request is stale iff it counts as queued, is old enough, will have no other link, was not named before, and is an empty object or finds its result file name taken: told from the results, the requests and the telemetry there before the run |
| SubagentRollup.NothingStaleAfterRunIff | nanobot/runtime/subagent_materializer.py:216-224 | The stale count after an unlimited run is 0 iff no request meets that condition |
| SubagentRollup.NothingStaleAfterRun | nanobot/runtime/subagent_materializer.py:216-224 | So it is 0 when no request is an empty object and every pending request finds its file name free |
| SubagentRollup.StaleIff | nanobot/runtime/state.py:684-720 | A request is stale iff its own status is queued, it is old enough, and neither path, id, cycle, task nor telemetry links it |
| SubagentRollup.HeldAfterIff | nanobot/runtime/subagent_materializer.py:264-321 | After an unlimited run a result holds an id, cycle or task iff one held it before, or the run writes a result for a request with it |
| SubagentRollup.ListedIff | nanobot/runtime/state.py:650-679 | In an exact listing, a path, id, cycle or task is linked iff a result holds it |
| RollupLinks.LinkedRecord | nanobot/runtime/state.py:680-697 | A request is linked to the first result file by id, else by path, else by cycle, else, without an id, by task, and reports its status in lower case |
| RollupLinks.UnansweredRecord | nanobot/runtime/state.py:615-648 | Without a result the first finished telemetry file links it, "completed" for a request with an id; without either it keeps its own status |
| RollupLinks.CountsAreNumbers | nanobot/runtime/state.py:706-721 | The counts are the numbers of queued and of queued, old and unlinked records |
| SubagentRollup.LinkedAfterRunIff | nanobot/runtime/state.py:672-697 | Whether id, cycle, task or telemetry will link a request after the run is told from what is there before it |
| SubagentRollup.EmptyRequestStaleIff | nanobot/runtime/subagent_materializer.py:256-259 | After an unlimited run an empty request object is stale iff it is old enough and no result named it before |
| SubagentRollup.ClashingNameStaysStale | nanobot/runtime/subagent_materializer.py:45-48 | Two keys with one sanitized name: the later request stays stale, in every exact listing |
| CodexStream.IterSse | nanobot/providers/openai_codex_provider.py:230-247 | Reads the lines into the specified payloads and yields those that decode |
| CodexStream.StreamIsReadBlockwise | nanobot/providers/openai_codex_provider.py:230-247 | A framed stream yields each block's payload in order; an unfinished block is discarded |
| CodexStream.FramingRoundTripIff | nanobot/providers/openai_codex_provider.py:230-247 | A text sent one line per data field is received unchanged iff its lines have no whitespace at their ends, the first and last are not empty, and it is not the end marker |
| CodexStream.FramedText | nanobot/providers/openai_codex_provider.py:235-241 | What arrives of any text sent that way |
| CodexStream.EmittedIds | nanobot/providers/openai_codex_provider.py:279-297 | Every call read has a call id and an item id |
| CodexStream.ConsumeSse | nanobot/providers/openai_codex_provider.py:250-304 | The reassembly loop refines the fold over the events and fails iff an error event occurs |
| CodexStream.CallsAreIndependent | nanobot/providers/openai_codex_provider.py:256-297 | Calls and buffer of an id are those of its own substream |
| CodexStream.ContentIsAllText | nanobot/providers/openai_codex_provider.py:269-270 | The text is the concatenation of the text deltas |
| CodexStream.FinishIsLastCompletion | nanobot/providers/openai_codex_provider.py:298-311 | The last completion event decides: "length" iff incomplete, "error" iff failed or cancelled, else "stop" |
| CodexStream.StopsWithoutCompletion | nanobot/providers/openai_codex_provider.py:254 | And "stop" without one |
| CodexStream.CallsAreFinished | nanobot/providers/openai_codex_provider.py:279-297 | The calls read are those that were finished, in order |
| CodexStream.UnannouncedCall | nanobot/providers/openai_codex_provider.py:279-297 | A call finished without having been added is what its own item says, with the defaults |
| CodexStream.OverriddenCall | nanobot/providers/openai_codex_provider.py:258-297 | A call that was added and then given its arguments outright is finished with those and the deltas behind them, under the id and name it was added with |
| CodexStream.DeltasAppend | nanobot/providers/openai_codex_provider.py:271-274 | Deltas append to the arguments of their own call |
| CodexStream.DoneOverrides | nanobot/providers/openai_codex_provider.py:275-278 | A done event replaces the arguments; later deltas append to it |
| CodexStream.AddedDeltasDone | nanobot/providers/openai_codex_provider.py:258-297 | Added, deltas and done yield one call whose arguments are the initial ones followed by the deltas |
| ProviderLinks.MapId | nanobot/providers/litellm_provider.py:187-190 | The memo returns the shortened id whether or not it was known |
| ProviderLinks.MapCalls | nanobot/providers/litellm_provider.py:195-204 | All call ids of a message go through the same memo |
| ProviderLinks.SanitizeMessages | nanobot/providers/litellm_provider.py:180-208 | The list is rewritten message by message with one id map |
| ProviderLinks.NormalizedIsSafe | nanobot/providers/litellm_provider.py:171-178 | A normalized id is nine alphanumeric characters |
| ProviderLinks.SanitizeKeepsLinks | nanobot/providers/litellm_provider.py:180-208 | No result is orphaned by shortening, whatever the hash; the results keep safe ids |
| ProviderLinks.SanitizeAddsNoLinks | nanobot/providers/litellm_provider.py:180-208 | Without a hash collision an orphan stays an orphan |
| ProviderLinks.SplitsBackIff | nanobot/providers/openai_codex_provider.py:216-222 | call|item splits back iff call has no bar |
| ProviderLinks.AppendAssistant | nanobot/providers/openai_codex_provider.py:153-180 | Text first, then one call item per call |
| ProviderLinks.ConvertMessages | nanobot/providers/openai_codex_provider.py:137-194 | Instructions are the last system text; items are the messages converted in order |
| ProviderLinks.ConvertUserMessage | nanobot/providers/openai_codex_provider.py:197-213 | Text and images with a url are sent in order; a message without any still has an empty text |
| ProviderLinks.CallInConvert | nanobot/providers/openai_codex_provider.py:164-180 | The calls among the items are those of the messages, under the ids they are sent with |
| ProviderLinks.DeclaredCallConverted | nanobot/providers/openai_codex_provider.py:164-180 | A declared call appears under the call part of its id |
| ProviderLinks.ConversionLinksIff | nanobot/providers/openai_codex_provider.py:137-194 | Any list converts to linked items iff every result finds a call sent before it under its call id |
| ProviderLinks.ConversionKeepsLinksIff | nanobot/providers/openai_codex_provider.py:137-194 | An orphan-free history converts to linked items iff no result id starts with a bar and every result without an id follows a call sent as call_0 |
| ProviderLinks.ConversionAddsNoLinks | nanobot/providers/openai_codex_provider.py:164-191 | When the part before the bar identifies calls, the items are linked iff the history has no orphan and every link survives |
| ProviderLinks.CollapsedIdsLink | nanobot/providers/openai_codex_provider.py:216-222 | Otherwise an orphan can be linked: c|1 and c|2 meet |
| ProviderLinks.CallsAndOutputsInOrder | nanobot/providers/openai_codex_provider.py:141-192 | Calls and outputs are those of the messages, in one order |
| ProviderLinks.StreamedCallReturnsIff | nanobot/providers/openai_codex_provider.py:216-222 | A call read from a stream, stored under its joined id and sent again is the same call iff its call id has no bar |
| ProviderLinks.SentHistoryIsLinked | nanobot/session/manager.py:70-94 | Any session's history is orphan-free as sent to LiteLLM, and to Codex iff every link survives the conversion |
| ProviderTexts.HistoryIsSent | nanobot/providers/openai_codex_provider.py:137-222 | Every message of any history is sent in full and in order: texts, images with a url, calls with name, arguments and the ids they read as, results with their content under the id of their call |
| ProviderTexts.InstructionsAreLast | nanobot/providers/openai_codex_provider.py:145-147 | The instructions are the text of the last system message |
| ProviderTexts.NoInstructions | nanobot/providers/openai_codex_provider.py:138 | And empty without one |
| ProviderTexts.DigitsSpell | nanobot/providers/openai_codex_provider.py:161-170 | The number in a substituted id is the message index in decimal |
| ProviderTexts.OnlyIdsChange | nanobot/providers/litellm_provider.py:172-213 | For LiteLLM nothing but ids changes: nine letters and digits stay, another becomes the first nine of its digest, a missing one stays missing |
| CronSchedule.ComputeNextRun | nanobot/cron/service.py:20-46 | A next run lies strictly in the future |
| CronSchedule.ExecuteFind | nanobot/cron/service.py:265-304 | Executing a job changes or removes that job alone |
| CronSchedule.TickRunsDueOnce | nanobot/cron/service.py:247-263 | A tick runs each due job exactly once and no other |
| CronSchedule.TickLeavesNothingDue | nanobot/cron/service.py:247-304 | After a tick no enabled job is due at or before the tick time |
| CronSchedule.NextWake | nanobot/cron/service.py:220-226 | The minimum next run over the enabled jobs |
| CronSchedule.TickKeepsHistories | nanobot/cron/service.py:287-293 | Each history stays the last 20 of the full run log |
| CronSchedule.ApplyKeepsGood | nanobot/cron/service.py:195-395 | Every public operation keeps unique ids, histories and the timer |
| CronSchedule.RunKeepsGood | nanobot/cron/service.py:195-395 | So does every run of operations |
| CronSchedule.RunSnoc | nanobot/cron/service.py:195-395 | A run is its operations one after the other |
| CronSchedule.TimerStandsAtEarliestRun | nanobot/cron/service.py:228-245 | A live timer exists iff the service runs and a run is scheduled, and stands at the earliest one |
| CronSchedule.ExecutedOneShotIsIdle | nanobot/cron/service.py:295-301 | An executed one-shot is removed or has no next run |
| CronSchedule.OneShotStaysIdle | nanobot/cron/service.py:295-382 | It is never due again unless enabled again, in every run |
| CronSchedule.StartSchedulesOneShotIff | nanobot/cron/service.py:195-218 | Starting schedules an enabled one-shot iff its time lies ahead |
| CronSchedule.MissedIsNeverDue | nanobot/cron/service.py:20-23 | A missed one-shot is never due over every run whose starts, and whose enabling of it, come after its time |
| CronOutcomes.NextRunIs | nanobot/cron/service.py:20-46 | The next run of each kind of schedule: its time if that lies ahead, now plus the interval, or the next match |
| CronOutcomes.TickOutcome | nanobot/cron/service.py:247-306 | A tick runs every enabled job whose time has come, removes or disables one-shots, reschedules the others, and records outcome and history; other jobs stay |
| CronOutcomes.RunNowOutcome | nanobot/cron/service.py:384-395 | Running a job by hand does the same to it alone, unless it is disabled and not forced |
| CronOutcomes.StartOutcome | nanobot/cron/service.py:195-218 | Starting gives every enabled job its next run and touches nothing else |
| CronOutcomes.AddOutcome | nanobot/cron/service.py:314-352 | A job with a time zone is refused unless it is a cron job with a known one; otherwise it is appended, enabled, with its next run |
| CronOutcomes.EnableOutcome | nanobot/cron/service.py:368-382 | Enabling changes the flag, the time of change and the next run of that job alone |
| CronOutcomes.RemoveOutcome | nanobot/cron/service.py:354-366 | Removing takes away the jobs with the id and keeps the others in order |
| CronOutcomes.ArmedWhen | nanobot/cron/service.py:195-395 | The timer is armed at the time of every operation that changed something, and after the callback of a run |
| CronSchedule.CronService.ArmTimer | nanobot/cron/service.py:228-245 | The timer follows the earliest run, none when stopped |
| CronSchedule.CronService.StartService | nanobot/cron/service.py:195-202 | Recomputes every enabled job and arms |
| CronSchedule.CronService.StopService | nanobot/cron/service.py:204-209 | Stops and disarms |
| CronSchedule.CronService.ExecuteJob | nanobot/cron/service.py:265-304 | The executed job gets its record, its next run, or is removed |
| CronSchedule.CronService.OnTimer | nanobot/cron/service.py:247-263 | Refines the tick |
| CronSchedule.CronService.AddJob | nanobot/cron/service.py:314-352 | Refuses a schedule that cannot run; otherwise appends and arms |
| CronSchedule.CronService.RemoveJob | nanobot/cron/service.py:354-366 | Removes every job with the id and arms iff there was one |
| CronSchedule.CronService.EnableJob | nanobot/cron/service.py:368-382 | Sets or clears the next run with the flag |
| CronSchedule.CronService.RunJob | nanobot/cron/service.py:384-395 | Runs an enabled or forced job, then arms |
| MessageSplit.FindCut | nanobot/utils/helpers.py:76-84 | The cut is at the last newline after index 0, else at the last such space when there is no newline, else at the limit when there is neither |
| MessageSplit.SplitMessage | nanobot/utils/helpers.py:58-87 | The loop computes the specified chunks |
| MessageSplit.CutIsTheProperOne | nanobot/utils/helpers.py:76-84 | The rule determines exactly one cut, which is inside a word only without a break after index 0 |
| MessageSplit.SplitIsFaithful | nanobot/utils/helpers.py:58-87 | Chunks woven with blank gaps are the text; each chunk is non-empty and fits |
| MessageSplit.EveryCutIsProper | nanobot/utils/helpers.py:74-86 | Every chunk ends at the proper cut of what was left |
| MessageSplit.ZeroLimitMakesNoProgress | nanobot/utils/helpers.py:74-86 | With limit 0 an iteration leaves such a text as it is |
| GuardedRelease.FailedCycleRestoresIff | scripts/guarded_self_evolve.py:102-117 | A failed check restores the deployed content iff there was a predecessor the candidate did not overwrite with other content |
| GuardedRelease.CurrentIsLatestHealthy | scripts/guarded_self_evolve.py:76-182 | Over all cycles with fresh ids the link designates the latest healthy candidate, else the initial release, content intact |
| GuardedRelease.GatesHold | scripts/guarded_self_evolve.py:78-182 | Applied are exactly the clean and visible candidates, merged exactly the healthy, exported, non-trivial ones, in order |
| GuardedRelease.RefusedAreRecorded | scripts/guarded_self_evolve.py:78-88 | Every refused candidate is recorded with its reason, in order, and nothing else is |
| GuardedRelease.AppliedWereGated | scripts/guarded_self_evolve.py:78-88 | Whatever a run applied is the candidate of some cycle and was clean and remote-visible; and every such candidate is applied |
| GuardedRelease.MergesWereGated | scripts/guarded_self_evolve.py:124-182 | Every merge belongs to a cycle whose candidate was applied, healthy, exported with a change, and was the current and latest healthy release when the cycle ended |
| GuardedRelease.GatedAreMerged | scripts/guarded_self_evolve.py:155-168 | Every such cycle is merged |
| GuardedRelease.FirstFailureIsNotRolledBack | scripts/guarded_self_evolve.py:103-106 | Without a predecessor a failing candidate stays current |
| GuardedRelease.Runtime.ApplyCandidateRelease | nanobot/runtime/autoevolve.py:537-573 | Refuses and records an inapplicable candidate; otherwise unpacks, relinks and returns the predecessor |
| GuardedRelease.Runtime.RollbackRelease | nanobot/runtime/autoevolve.py:605-621 | The link designates the given release |
| GuardedRelease.Runtime.GuardedCycle | scripts/guarded_self_evolve.py:76-185 | One cycle ends in the specified state and exit code |

## Left out

- AgentLoop.ProcessTurn: does not model the two consolidation calls around a turn; `ConversationRuns` interleaves
  consolidation with turns instead.
- SubagentRollup.Rollup: counts requests only; the queued count of the source also adds running telemetry records, and
  the rollup state, labels and active-task linkage are not modelled.
- CronSchedule.CronService.ExecuteJob: jobs are values in the list, so the list and a job object held by a running
  callback are not aliases; no operation runs while a callback awaits, and the store file is not edited from outside.
- MochatDelay.DelayState.CancelDelayTimers: stopping is modelled for one target and when the lock is free; the source
  never suspends while holding it.
- Consolidation.MemoryConsolidator.MaybeConsolidateByTokens: the lock per session key is not a member; one
  consolidation per session at a time is what the state machine assumes of it.
- ProviderLinks.MapId: an absent call id and an empty one are the same value here; the source hashes the empty one.
- ProviderLinks.SanitizeMessages: the keys a provider does not take are not part of the message, so dropping them is
  not modelled.
- CodexStream.ConsumeSse: events arrive decoded; the JSON text of call arguments is kept as text.
- SessionStore.SessionManager.GetOrCreate: the migration of a file from the legacy directory is not modelled.
- SessionStore.Session.AddMessage: the session's updated_at is not modelled; loading a file drops it.
- SubagentRequests.MaterializeRequests: a result record has the fields that link it and its status; summary, key
  learnings, blocker and executor data are not modelled.
- MochatWatch.MochatChannel.MarkSessionCursor: the debounced save of the cursors to their file is not modelled.
- MochatWatch.MochatChannel.ProcessInboundEvent: the entry's text, names and timestamp are not built; the route stands
  for carrying it out, which MochatDelay models.
- GuardedRelease.Runtime.GuardedCycle: the state, learning, pull-request and issue records are not modelled.
- SessionStore.SaveLoadRoundTrip: files hold decoded lines under the session key; JSON text, sanitized file names
  and the timestamps of the session are not modelled.
- MessageSplit.SplitMessage: a negative limit is not modelled; the limit 0 has its own lemma.
- Failures of writing the memory, history and session files.
- A turn and /new for one session run one after the other, as the processing lock arranges; process_direct, which
  bypasses that lock, is not modelled.
- The retry with another tool_choice is folded into the final reply of a consolidation.
- Restoring a runtime checkpoint (nanobot/agent/loop.py:573-590): no code emits one.
- Lower-casing and the letters of schedule and result statuses cover ASCII only; the boolean words of a cast come
  from a parameter.
- Replacing empty content and stripping internal keys before a history is sent (nanobot/providers/base.py:101-146).
- An empty tool-call id counts as missing, as the truth tests of the source have it.
- Wording of error messages, fixed replies, prompts and log lines.
- LLM calls, HTTP, websockets, subprocesses, git, tar, real time, uuid, sha1, tiktoken and croniter: parameters.
- The card and tool-hint formatting of Feishu and the markdown renderers of the other channels: dominated by regular
  expressions.
- Channels other than Mochat, Feishu and QQ: their deduplication repeats the same window and the rest is I/O.
- The CLI, configuration, provider registry, network checks, the rest of the runtime state report, promotion and the
  proof scripts: long field fallbacks that would only add easy members.
