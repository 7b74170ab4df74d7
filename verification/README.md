# Command center: verified models of its stateful core

This project models, in Dafny, the parts of the command center whose behaviour depends on long histories:
what was recorded, merged, evicted, dispatched, cut or counted before. Everything is stated over all inputs, all
runs or all interleavings.

| group | modules | what is modelled |
|---|---|---|
| conversation store | `Json`, `OrderedDict`, `Sequences`, `Clipping`, `Conversation`, `Eviction`, `EvictionOrder`, `StoreOps`, `DeltaText`, `ClippingLimits`, `JsonText`, `EntrySizes`, `EventWrites`, `ItemWrites`, `Truncation`, `StoreSession`, `StoreInvariant`, `EventCursor`, `HydrateRace`, `Provenance`, `StoreHistory`, `SnapshotTrims`, `LateReadRun`, `LateCalls`, `ConversationStore` | the bounded in-memory store of Codex conversations: byte accounting, eviction by provenance, snapshots that race with live events, deletion tombstones, the event ring and its cursors |
| work control plane | `WorkLedger`, `LedgerStore`, `LedgerValues`, `WorkGraph`, `EngineHost`, `NeverReplay`, `DrainBound`, `Retirement`, `Settlement` | the durable ledger of work items, the recursive graph query, and the engine host that drives the ledger while workers crash, restart and drain |
| streams | `TerminalPump`, `PeerFrames`, `TurnFold`, `ToolRows`, `Journal`, `JournalLookup`, `Envelope` | incremental readers against a one-shot reading of the whole stream, and the message header against its parser |
| arithmetic and bounded containers | `Productivity`, `WorkSessions`, `AlertHook`, `ByteBudgetCache` | interval unions and day splitting, estimated work sessions, the alert limiter, the byte-budgeted LRU cache |

How the models are built:

- An object whose methods update its fields is a class (`CodexConversationStore`, `Ledger`, `AcpSession`, `Terminal`,
  `JournalCache`, `Clipper`, `Hook`, `Cache`). Each method is proved equal to a function of the old state; the
  promises are theorems about those functions. A loop of the source is a loop with invariants.
- A section under a lock and a SQLite transaction are atomic steps. `EngineHost` is a step relation: every method is cut at its ledger
  calls, its lock section and its engine call, any other thread may run in between, and a crash ends all threads.
- Time, ids, the JSON reader and printer, and the file contents are parameters.
- `OrderedDict` keeps Python's insertion order: entry sequences with distinct keys.

Where the code does not do what its comments or tests say, the model follows the code, and a theorem says exactly when the
two agree:

- A copy reported as not clipped differs from its input when a key is longer than 256 characters; two such keys can collapse into one
  (`Clipping.HonestClipping`, `Clipping.LongKeysCollapseSilently`).
- `hydrate` promises not to overwrite newer events, but it trims after every history row: a row's trim can evict a newer item, and a
  later row then stores the snapshot's version of it. An entry that survives goes back if and only if that happened to it
  (`SnapshotTrims.HydrateAdvancesIff`); a run from the empty store turns a completed item into an incomplete one without its text, with the
  default limits too (`LateReadRun.SnapshotUndoesCompletion`, `LateReadRun.DefaultsAreTight`).
- A reader scoped to a deleted thread is never told to resync, so it can miss a notification that names no thread. Over all runs that end with
  the same counter and oldest number, such readers are complete if and only if the cursor passes the gap test that is waived, or so few events
  follow it that no full ring can have dropped the next one (`EventCursor.DeletedScopeExactly`, `EventCursor.DeletedScopeLosesGlobalEvent`).
- The comment on `work.reconcile` (ccc_worker.py:188-190) says reclaiming and retiring never fight over one item. Both run in the sweep thread
  and in the call's own thread (ccc_worker.py:334-356), and retiring transitions unconditionally: it cancels the item if and only if the item is
  then neither completed nor failed, so a run reclaimed in between is cancelled while it is live
  (`Retirement.RetireCancelsIff`, `Retirement.RetireClosesOnlyUncertainIff`, `Retirement.RetirementFightsReclaim`).
- "Every tool has exactly one rich row" fails when an update ends the tool before its announcement: the tool then gets two
  (`TurnFold.OneRowPerTool`).
- The frame printer checks the length of user lines and not of token lines, so an oversize token makes the reader drop the
  rest of the stream (`PeerFrames.RoundTrip`). What the reader yields depends on how the bytes were chunked if and only if its cap is more than
  one below the receive size (`PeerFrames.ChunkingIsIrrelevantIff`).
- Any id `uuid.UUID` accepts is valid in an attribution record, but only 36-character spellings with four dashes are read back from a header
  (`Envelope.HeaderRoundTrip`).
- Estimated work sessions overlap when the tail is longer than the gap (`WorkSessions.DisjointIffTailFits`); the
  defaults, 30 and 5 minutes, are on the safe side.
- `put` with an entry bound below one evicts the new value too and still returns True (`ByteBudgetCache.StoreOutcome`).
- A clock that steps back makes the alert hook forget: the hourly limit, the retention of keys, and agreement with the full history hold for every
  choice of keys if and only if no reading comes back within a window of one that had expired
  (`AlertHook.RateHoldsIff`, `AlertHook.KeysHoldIff`, `AlertHook.ForgettingIsInvisibleIff`; `AlertHook.ClockSetBackForgets` is such a run).

## Model

| member | source | states |
|---|---|---|
| `Clipping.HonestClipping` | ccc_server/codex_conversation.py:60-86 | the copy holds fewer than 4096 non-null nodes, at most 256Ki characters in string values and only keys of at most 256 characters; a copy not reported as clipped equals the input if and only if the input's keys have at most 256 characters |
| `Clipping.LongKeysCollapseSilently` | ccc_server/codex_conversation.py:60-86 | two keys that agree on their first 256 characters become one entry and the copy is not reported as clipped |
| `Clipping.Clipper.Visit` | ccc_server/codex_conversation.py:64-84 | the closure over two counters and a flag computes the walk with the budget threaded through the whole recursion |
| `ClippingLimits.UncutIff` | ccc_server/codex_conversation.py:60-86 | a copy is reported as not clipped if and only if every node is at most 16 levels down, among the first 4095, has less than 256 KiB of text before it and at most 512 entries, and, as a string, is no longer than the text limit and what is left of the 256 KiB |
| `ClippingLimits.SmallIsUncut` | ccc_server/codex_conversation.py:60-86 | in particular whenever the value has fewer than 4096 nodes, less than 256 KiB of text and no node over the limits |
| `JsonText.DumpLenIsLength` | ccc_server/codex_conversation.py:120-121 | the length the byte accounting adds up is the UTF-8 length of the JSON text printed, escapes, separators and all |
| `Conversation.PutTurnOk` | ccc_server/codex_conversation.py:112-123 | replacing one turn keeps the accounting exact when the byte count moves by the difference of the two turns |
| `Conversation.AssignThreadOk` | ccc_server/codex_conversation.py:112-123 | writing any fields at any sequence number, with or without a snapshot bound, keeps a thread's byte count exact and its identity fixed |
| `Conversation.PutItemOk` | ccc_server/codex_conversation.py:167-182 | storing, merging or refusing an item keeps the byte count exact |
| `Eviction.MinAt` | ccc_server/codex_conversation.py:102-103 | the first key in dictionary order among those with the least rank |
| `Eviction.MaxOver` | ccc_server/codex_conversation.py:97-100 | the largest provenance in a dictionary, or 0 when there is none above it |
| `EvictionOrder.SortedIsStableSort` | ccc_server/codex_conversation.py:144-150 | the eviction order ascends by provenance, is a permutation of the candidates and keeps ties in order |
| `EvictionOrder.TiesByRank` | ccc_server/codex_conversation.py:144-150 | among entries of equal provenance items are evicted first, then the thread's fields, then its turns' fields |
| `EvictionOrder.ShortestSufficientPrefix` | ccc_server/codex_conversation.py:150-159 | byte pressure evicts a prefix of the sorted candidates that is sufficient or everything, and no shorter prefix is sufficient |
| `EvictionOrder.EvictedIsOlder` | ccc_server/codex_conversation.py:144-159 | no entry evicted under byte pressure is newer than an entry kept |
| `EvictionOrder.OldestTurnsGo` | ccc_server/codex_conversation.py:128-136 | a turn dropped for the turn cap is no newer than any turn kept, and kept turns are unchanged |
| `EvictionOrder.OldestItemsGo` | ccc_server/codex_conversation.py:137-141 | an item dropped for its turn's cap is no newer than any item kept there |
| `EvictionOrder.TrimEstablishes` | ccc_server/codex_conversation.py:125-165 | after a trim both caps hold, the byte count is exact, and the thread is within budget or only its id is left |
| `EvictionOrder.BudgetIsMet` | ccc_server/codex_conversation.py:125-165 | with a budget of at least 1674 bytes the budget is met without exception |
| `Truncation.TrimReports` | ccc_server/codex_conversation.py:125-165 | a trim sets the truncation flag if and only if it removes something |
| `DeltaText.MergeOver` | ccc_server/codex_conversation.py:175-176 | `{**previous, **item}` is the item when it holds the previous keys first and in order |
| `DeltaText.DeltaAppends` | ccc_server/codex_conversation.py:316-351 | one text delta appends to its field and changes no other field of the item, unless storing the item cuts it |
| `DeltaText.DeltasConcatenate` | ccc_server/codex_conversation.py:232-351 | over any run of text delta events, each with its trim, if storing cuts nothing the item's text is its earlier text followed by every delta in order, or, if a trim evicted it on the way, the deltas since its last eviction; no other field changes |
| `StoreInvariant.SumByLookup` | ccc_server/codex_conversation.py:224-226 | two dictionaries with the same lookups hold the same total in whatever order |
| `StoreInvariant.ReorderOk` | ccc_server/codex_conversation.py:224-226 | putting a thread's turns in history order changes no turn and no byte count |
| `StoreInvariant.HydrateOk` | ccc_server/codex_conversation.py:184-230 | merging any snapshot at any cursor keeps the store's invariant |
| `StoreInvariant.RecordOk` | ccc_server/codex_conversation.py:232-314 | recording any event keeps the store's invariant |
| `StoreInvariant.TombstoneIsDeleted` | ccc_server/codex_conversation.py:240-264 | a deletion leaves a thread that reads as deleted |
| `StoreInvariant.OldestThreadGoes` | ccc_server/codex_conversation.py:96-103 | a thread dropped for the store's cap is no newer than any thread kept, and kept threads are unchanged |
| `StoreInvariant.ReachableIsOk` | ccc_server/codex_conversation.py:15-314 | in every reachable state the thread cap holds, every byte count is 64 plus the sizes of all live entries, and every thread is trimmed or is a deletion's remnant |
| `StoreSession.SessionIsLastConnect` | ccc_server/codex_conversation.py:40-58 | over every run the generation is that of the last well-named connect, and the store is connected unless that generation was disconnected since |
| `StoreSession.ConnectForgets` | ccc_server/codex_conversation.py:40-52 | a connect to another generation leaves no event, no thread and a counter at zero; one to the same generation changes nothing else |
| `StoreSession.SnapshotAccepted` | ccc_server/codex_conversation.py:184-202 | a malformed snapshot raises; one of another generation or of a deleted thread is refused and changes nothing; any other is accepted, touches no event, no number and no other thread except those the cap drops |
| `EntrySizes.ReachableBytes` | ccc_server/codex_conversation.py:112-182 | in every reachable state a thread counts 64 bytes, and for each field and item it holds 64 and the UTF-8 length of its printed JSON |
| `EventCursor.TrackRunOk` | ccc_server/codex_conversation.py:232-272 | over every run the ring is the unpurged part of the record above what it dropped, with consecutive numbers |
| `EventCursor.PollIsComplete` | ccc_server/codex_conversation.py:365-376 | a reader in its own generation, not scoped to a deleted thread and not told to resync, gets exactly the in-scope unpurged events above its cursor, in order |
| `EventCursor.DeletedScopeExactly` | ccc_server/codex_conversation.py:365-376 | the gap test is waived for a deleted scope; for given counter, oldest number and cursor, readers of deleted threads are complete in every run that ends so if and only if the cursor passes the gap test, or fewer events follow the next number than the ring holds, or exactly as many and the ring does not begin right behind it |
| `EventCursor.TrackRunFloorOk` | ccc_server/codex_conversation.py:232-272 | over every run, whatever the ring has dropped was followed by at least a full ring of events |
| `EventCursor.DeletedScopeLosesGlobalEvent` | ccc_server/codex_conversation.py:365-376 | for every capacity a run from the empty store in which the waiver loses an event |
| `EventCursor.PollsNeverMissOrRepeat` | ccc_server/codex_conversation.py:365-376 | successive polls that follow the returned cursor together return every unpurged in-scope event once, in increasing order |
| `EventCursor.PollsAlongARun` | ccc_server/codex_conversation.py:243-272 | the same for polls taken at any points of any run of calls within one generation, ring eviction and mid-ring purges included |
| `HydrateRace.SettleCommutes` | ccc_server/codex_conversation.py:112-123 | on one metadata entry a snapshot's write and a newer event's write commute |
| `HydrateRace.MergeTurnView` | ccc_server/codex_conversation.py:203-214 | one history row writes its own turn's metadata, opens it last, and changes no other turn |
| `HydrateRace.HydrateView` | ccc_server/codex_conversation.py:184-230 | the metadata, provenance and turn order a whole snapshot leaves before any trim, entry by entry |
| `HydrateRace.EventView` | ccc_server/codex_conversation.py:274-314 | the metadata, provenance and turn order one event leaves before its trim, entry by entry |
| `EventWrites.BoundedWellFormed` | ccc_server/codex_conversation.py:60-86 | whatever goes in, no object of a bounded copy repeats a key |
| `EventWrites.EventSays` | ccc_server/codex_conversation.py:274-314 | before its trim an event gives each key of its thread and turn the value its name says, or leaves it |
| `EventWrites.RecordWrites` | ccc_server/codex_conversation.py:232-314 | one `record` call, trims included, by event name: status, token usage, name, archived, deleted and goal, a turn's plan, explanation, diff or own fields, and every other key of `params.thread`; a key still held afterwards is what was said of it, stamped with the new number, or what it was |
| `EventWrites.TouchedIsLast` | ccc_server/codex_conversation.py:88-94 | the thread an event names stands last in the store, unless the thread cap drops it at once |
| `EventWrites.DeletionWrites` | ccc_server/codex_conversation.py:240-264 | a deletion leaves the identity, archived false, deleted true and the working directory given or held, and nothing else |
| `EventWrites.LastSaidStays` | ccc_server/codex_conversation.py:184-314 | over every run a key still held is what the last call that said something about it said |
| `EventWrites.ArchivedIffLastArchived` | ccc_server/codex_conversation.py:287-289 | over every run a thread reads as archived if and only if the last event that archived or unarchived it archived it, when no other write to the key came between |
| `ItemWrites.ItemTakes` | ccc_server/codex_conversation.py:167-182 | an item is refused only where it would reopen a completed one, and otherwise stored as a copy of what was sent over what was held |
| `ItemWrites.UncutCopy` | ccc_server/codex_conversation.py:60-86 | such a copy is an object without repeated or overlong keys and, unless it was cut, holds exactly that under every key |
| `ItemWrites.ReachableIsSound` | ccc_server/codex_conversation.py:167-351 | in every reachable state items are objects without repeated or overlong keys, and their recorded size is that of their printed form |
| `ItemWrites.ItemEventWrites` | ccc_server/codex_conversation.py:305-308 | `item/started` and `item/completed` by one `record` call: the turn's other items stay, the item is a copy of what was sent over what was held and is complete if and only if it completed; a completed item is not started again |
| `ItemWrites.DeltaBuildsSaid` | ccc_server/codex_conversation.py:316-351 | what a delta builds, key by key, for text, reasoning parts, file patches and progress messages, and which deltas write nothing |
| `ItemWrites.DeltaEventWrites` | ccc_server/codex_conversation.py:316-351 | the same by one `record` call: under every key the item is a copy of what the delta says, and the turn's other items stay |
| `ItemWrites.TurnEventMarks` | ccc_server/codex_conversation.py:294-298 | a turn that starts or completes writes only items it lists, numbered as the event is, and complete if and only if the turn completes |
| `ItemWrites.RowMarks` | ccc_server/codex_conversation.py:203-220 | a history row writes only items among those it lists last, at the cursor of the snapshot, and as complete if and only if its status is completed, failed or interrupted |
| `Truncation.RecordReports` | ccc_server/codex_conversation.py:232-314 | a recorded event leaves its thread truncated if and only if it was, its parameters were cut, an item was cut as it was stored, or the trim removed something |
| `Truncation.SnapshotReports` | ccc_server/codex_conversation.py:184-230 | a snapshot leaves its thread truncated if and only if it was, its fields were cut, it lists more turns than are kept, a row or its trim cut or removed something, or the last trim did |
| `HydrateRace.EventRace` | ccc_server/codex_conversation.py:184-314 | before any trim, a snapshot and one newer event commute as far as metadata, provenance and turn order show |
| `HydrateRace.LateEqualsEarly` | ccc_server/codex_conversation.py:184-314 | the same for any number of events |
| `Provenance.TrimIdle` | ccc_server/codex_conversation.py:125-165 | a thread within its limits is left alone |
| `Provenance.LateHydrateEqualsEarlyHydrate` | ccc_server/codex_conversation.py:184-314 | with trims as the code runs them and no eviction in either order, a snapshot applied after newer events shows what it shows when applied before them |
| `LateCalls.LateCallEqualsEarlyCall` | ccc_server/codex_conversation.py:184-314 | the same for calls on the store, with events of other threads in between: a `hydrate` after any run of `record` calls leaves the same numbers, the same other threads and the same view of its own thread as before them, when no limit evicts anything and no event leaves the thread deleted |
| `LateCalls.RecordsRoomy` | ccc_server/codex_conversation.py:232-314 | what one `record` call leaves of every thread, and when it takes a number, while the thread cap evicts nothing |
| `Provenance.EventOnlyAdvances` | ccc_server/codex_conversation.py:274-351 | before its trim, an event numbered above everything held lowers no provenance, forgets nothing and never makes a completed item incomplete |
| `StoreHistory.TrimOnlyRemoves` | ccc_server/codex_conversation.py:125-165 | every entry left by a trim is an unchanged entry of the thread before it |
| `StoreHistory.ApplyOutcome` | ccc_server/codex_conversation.py:40-314 | what each call leaves of each thread: the untouched thread, nothing, or the result of the thread-level operation |
| `StoreHistory.ReachableUpTo` | ccc_server/codex_conversation.py:184-314 | when hydrates use cursors the store has reached, no provenance ever runs ahead of the counter that numbers events |
| `StoreHistory.RecordNeverRegresses` | ccc_server/codex_conversation.py:232-314 | no event other than a deletion, trims included, lowers the provenance of an entry that survives or un-completes an item |
| `StoreHistory.DeletionLeavesTombstone` | ccc_server/codex_conversation.py:240-266 | a recorded deletion leaves a tombstone unless the thread cap drops it at once |
| `StoreHistory.TombstoneIsFrozen` | ccc_server/codex_conversation.py:192-269 | every later call keeps a held tombstone as it is or drops it, unless it deletes the thread again |
| `SnapshotTrims.ItemThroughRows` | ccc_server/codex_conversation.py:202-223 | an item through the loop over history rows, trims included: what all its rows make of it, or, once a trim evicted it, what the rows after its last eviction make of nothing |
| `SnapshotTrims.MetaThroughRows` | ccc_server/codex_conversation.py:202-223 | a turn's metadata key through the same loop, likewise |
| `SnapshotTrims.HydrateAdvancesIff` | ccc_server/codex_conversation.py:184-228 | of the entries still held after a snapshot with all its trims, an item or turn key has lost provenance, its completion or a version above the cursor if and only if a row's trim evicted it and a later row wrote it again, at the cursor; the thread's own metadata never has |
| `SnapshotTrims.HydrateCallAdvancesIff` | ccc_server/codex_conversation.py:184-230 | the same for what one `hydrate` call leaves of a stored thread |
| `SnapshotTrims.OnlyLaterRowsUndo` | ccc_server/codex_conversation.py:202-223 | a check on the snapshot alone: an item that no row after the first lists, or a key of a turn that no row after the first names, is never undone |
| `SnapshotTrims.QuietSnapshotNeverOverwritesNewer` | ccc_server/codex_conversation.py:184-226 | when no row's trim has anything to evict, every entry left is not older, not un-completed, and untouched if its provenance was above the cursor |
| `LateReadRun.SnapshotUndoesCompletion` | ccc_server/codex_conversation.py:184-228 | a run from the empty store, any number of completions that fill the budget and then an early read, after which the item completed by event 1 is incomplete, without its text and at provenance 0 |
| `LateReadRun.TightTextsExist` | ccc_server/codex_conversation.py:15-29 | texts that fill a budget to the byte, one of them or many |
| `LateReadRun.DefaultsAreTight` | ccc_server/codex_conversation.py:15-29 | such texts exist for the limits of the store the program builds: 32 texts within 65536 characters |
| `ConversationStore.CodexConversationStore.constructor` | ccc_server/codex_conversation.py:16-29 | a new store is empty and satisfies the invariant |
| `ConversationStore.CodexConversationStore.Metadata` | ccc_server/codex_conversation.py:112-123 | the loop over fields equals the fold of single assignments and costs |
| `ConversationStore.CodexConversationStore.CapThread` | ccc_server/codex_conversation.py:131-141 | the cap loops drop oldest turns, then oldest items turn by turn |
| `ConversationStore.CodexConversationStore.TrimThread` | ccc_server/codex_conversation.py:125-165 | the trim loops equal the trim whose results the eviction theorems describe |
| `ConversationStore.CodexConversationStore.TrimGlobal` | ccc_server/codex_conversation.py:96-103 | drops oldest threads until the cap holds |
| `ConversationStore.CodexConversationStore.MergeItems` | ccc_server/codex_conversation.py:216-222 | the loop over a row's items keeps versions newer than the snapshot |
| `ConversationStore.CodexConversationStore.MergeHistory` | ccc_server/codex_conversation.py:202-223 | the loop over history rows, with its skips and its per-row trims |
| `ConversationStore.CodexConversationStore.ConnectTo` | ccc_server/codex_conversation.py:40-49 | a new generation clears the store, the same one keeps it, an invalid one is refused and changes nothing |
| `ConversationStore.CodexConversationStore.DisconnectFrom` | ccc_server/codex_conversation.py:51-54 | only the current generation can disconnect |
| `ConversationStore.CodexConversationStore.InvalidateHistory` | ccc_server/codex_conversation.py:56-58 | forgets one thread and keeps the invariant |
| `ConversationStore.CodexConversationStore.HydrateFrom` | ccc_server/codex_conversation.py:184-230 | result and whole new state of a snapshot merge, refusals and errors included, with the invariant kept |
| `ConversationStore.CodexConversationStore.RecordEvent` | ccc_server/codex_conversation.py:232-314 | result and whole new state of a recorded event, deletions, reverts and errors included, with the invariant kept |
| `ConversationStore.CodexConversationStore.PollEvents` | ccc_server/codex_conversation.py:365-376 | the filter loop returns the poll whose completeness `EventCursor` proves |
| `WorkLedger.AttemptsBounded` | control_plane.py:495-553 | an item's attempt is at most one more than the times it re-entered the queue, and at least one in every state but queued and cancelled |
| `WorkLedger.CompletedIsFinal` | control_plane.py:32-46 | once the log has completed an item, nothing later in the log changes its state or attempt |
| `WorkLedger.SubmitOk` | control_plane.py:303-384 | a submission, refused or not, keeps log and table in agreement and the graph a forest |
| `WorkLedger.TransitionOk` | control_plane.py:474-553 | a transition keeps log and table in agreement |
| `WorkLedger.RenewOk` | control_plane.py:555-573 | renewing a lease keeps the ledger consistent |
| `WorkLedger.RecoverOk` | control_plane.py:575-606 | recovery makes exactly the active items of other owners uncertain, requeues nothing and keeps every attempt |
| `WorkLedger.RecoverRows` | control_plane.py:564-606 | recovery makes the rows of orphaned work uncertain, without a lease and with its own error, and leaves every other row as it was |
| `LedgerValues.CallWrites` | control_plane.py:303-606 | an accepted call writes the row of its item with what it supplies, and every other row, or the row under a refused call, is as it was |
| `LedgerValues.LatestIsLast` | control_plane.py:303-606 | the value last supplied is that of an accepted call after which no accepted call supplies one |
| `LedgerValues.RowIsLastSupplied` | control_plane.py:303-606 | over every sequence of calls a row's result, error, owner, state and times are those last supplied for it, or those of its submission; a lease ends at least a second after the call that supplied it and lasts while the item is active; what was submitted never changes |
| `LedgerValues.TableIsWhatWasCalled` | control_plane.py:270-384 | over every sequence of calls the rows stand in the order submitted, the edges are those of submissions with a parent, and the drain record is the last one set, with at most 500 characters of reason |
| `WorkLedger.SubmitIsIdempotent` | control_plane.py:331-337 | submitting a used idempotency key again changes nothing and creates nothing |
| `LedgerStore.ReachableIsOk` | control_plane.py:162-606 | in every reachable state folding an item's events gives its state and attempt; leases exist only in dispatching and running; terminal items have a completion time; keys are unique; the graph is a forest |
| `LedgerStore.LogOnlyGrows` | control_plane.py:162-606 | no call removes or changes a logged event |
| `LedgerStore.CompletedStays` | control_plane.py:32-46 | whatever is called after it, a completed item stays completed with the same attempt |
| `LedgerStore.Ledger.constructor` | control_plane.py:165-168 | a new ledger is empty and consistent |
| `LedgerStore.Ledger.FindKey` | control_plane.py:332-337 | the search returns the row with the idempotency key, or nothing exactly when there is none |
| `LedgerStore.Ledger.SubmitItem` | control_plane.py:303-384 | result, errors and whole new state of a submission; the row that holds the key is returned, with whether it was created |
| `LedgerStore.Ledger.TransitionItem` | control_plane.py:474-553 | result, errors and whole new state of a transition; a refused one changes nothing |
| `LedgerStore.Ledger.Renew` | control_plane.py:555-573 | result, errors and whole new state of a lease renewal |
| `LedgerStore.Ledger.FindOrphans` | control_plane.py:575-587 | the active items owned by other epochs, in order |
| `LedgerStore.Ledger.RecoverOrphanedRunning` | control_plane.py:575-606 | the whole new state of recovery, and that the ids returned are exactly the orphans |
| `LedgerStore.Ledger.SetDrainState` | control_plane.py:278-286 | only the drain record changes: the flag, at most 500 characters of the reason, and a request time exactly when drain is on |
| `LedgerStore.Ledger.Children` | control_plane.py:454-472 | exactly the children in the wanted states, each once |
| `WorkGraph.DepthIsUnique` | control_plane.py:608-637 | an item has one depth below a root |
| `WorkGraph.BelowIsLater` | control_plane.py:338-373 | everything below an item was inserted after it |
| `WorkGraph.OneOlderParent` | control_plane.py:338-373 | every child has exactly one parent, inserted strictly earlier |
| `WorkGraph.Walk` | control_plane.py:611-624 | the recursive union, which removes no repeated rows, terminates and lists each reachable item once with its true depth |
| `WorkGraph.Graph` | control_plane.py:608-642 | the same for the whole query on any consistent ledger |
| `NeverReplay.StepOk` | worker_engines.py:107-393 | every step of every thread keeps the host's invariant: one holder of the dispatch lock, a seen queued item still waiting, and a paid attempt for every engine call made or pending |
| `NeverReplay.NeverReplayed` | worker_engines.py:107-393 | over every interleaving, crash, restart and drain toggle, engine calls of an item are at most its attempts, attempts at most one more than its requeues, requeues at most the operator's retries; without a retry an item is sent at most once |
| `NeverReplay.ClaimTable` | worker_engines.py:319-329 | a claim by the lock holder succeeds exactly when the item is still queued, and then raises one attempt and no other |
| `NeverReplay.RestartStep` | ccc_worker.py:55-68 | a crash followed by a fresh epoch and recovery keeps the invariant |
| `Settlement.ReplySettles` | worker_engines.py:353-392 | a reply settled on work in flight leaves it failed, running or completed as the reply failed, was accepted or was final; other work is untouched |
| `Settlement.AcceptedIsTracked` | worker_engines.py:376-385 | accepted work gets a tracker of its own |
| `Settlement.OrderSettles` | worker_engines.py:279-312 | an operator's order on uncertain work gives the state ordered; on work that moved on it is carried out if and only if the transition graph has that edge |
| `Settlement.TrackerSettles` | worker_engines.py:768-823 | a tracker that saw its work finish completes it; one that fails or lost the lease leaves it uncertain |
| `Settlement.EntersBy` | worker_engines.py:107-392 | over every step, work enters a state only by a step listed for it |
| `Settlement.StateIsWarranted` | worker_engines.py:107-392 | over every interleaving and restart: completed work was reported done by its engine, seen finished by its tracker or declared complete; failed work was refused by its engine or declared failed; running work was accepted or has live evidence; cancelled work was found stale or cancelled; none is interrupted |
| `Settlement.RunningIsTracked` | worker_engines.py:157-202 | over every interleaving and restart, what the ledger calls running has a live thread that tracks it |
| `DrainBound.OnlyClaimsEnter` | worker_engines.py:107-393 | no step but a dispatcher's claim puts an item into dispatching |
| `DrainBound.DrainStopsDispatch` | worker_engines.py:319-329 | while drain stays on at most one item enters dispatching, and none unless a dispatcher was past its check when drain was set |
| `DrainBound.DrainTurnsBack` | worker_engines.py:130-140 | reading drain as on ends the thread, or sends it on to the rest of its queue, gives up a lock taken for this item alone, and claims and calls nothing |
| `DrainBound.DispatchReachesEngine` | worker_engines.py:130-349 | with drain off and the lock free, a submitted or retried item that is still queued reaches its engine, with one more attempt and one more call, and the lock is free again |
| `DrainBound.AbandonedStaysDispatching` | worker_engines.py:326-342 | work abandoned between its claim and its engine call stays dispatching, its attempt spent, and leaves no lock behind |
| `Retirement.RetireCancelsIff` | worker_engines.py:204-242 | a retirement leaves an item cancelled if and only if it was neither completed nor failed at the transition |
| `Retirement.RetireClosesOnlyUncertainIff` | worker_engines.py:204-242 | it changes the state of uncertain work only, if and only if the row is at that moment uncertain, or already cancelled, completed or failed |
| `Retirement.RaceCancelsLiveWork` | worker_engines.py:204-242 | from any host whose item is uncertain and untouched for 900 seconds: listed as stale, reclaimed as running by the other thread, and then cancelled while it runs |
| `Retirement.RetirementFightsReclaim` | ccc_worker.py:185-200 | the same on a run from boot: the item was sent, orphaned by a restart, listed and reclaimed a quarter of an hour later, and cancelled |
| `TerminalPump.BoundaryIsNotTail` | ccc_server/acp.py:1313-1318 | in well-formed UTF-8 the character boundaries are the end and the bytes that are not continuation bytes |
| `TerminalPump.CutIsLongestSuffix` | ccc_server/acp.py:1306-1321 | what is kept is the longest suffix that fits the limit and starts on a character boundary of the stream, and something is cut if and only if the limit is exceeded |
| `TerminalPump.CutIncrementally` | ccc_server/acp.py:1306-1321 | cutting what was kept plus the next chunk is cutting everything read |
| `TerminalPump.Terminal.constructor` | ccc_server/acp.py:1437-1446 | the enforced limit is at least 4096 |
| `TerminalPump.Terminal.Absorb` | ccc_server/acp.py:1310-1321 | the new buffer and the truncation flag after one chunk |
| `TerminalPump.Terminal.Pump` | ccc_server/acp.py:1297-1323 | after any chunks read from a well-formed stream, also when the last read ends inside a character, the buffer is the cut of everything read, and `truncated` holds if and only if bytes were dropped |
| `PeerFrames.DrainAhead` | ccc_peer_inbound.py:66-73 | lines taken early give the frames they give in the whole stream |
| `PeerFrames.ChunkingIsIrrelevant` | ccc_peer_inbound.py:37-73 | with a line cap of at least one less than the receive size the frames are those of the whole stream |
| `PeerFrames.ChunkingIsIrrelevantIff` | ccc_peer_inbound.py:37-73 | any two deliveries of the same bytes give the same frames if and only if the cap is at least one less than the receive size |
| `PeerFrames.SmallCapDependsOnChunks` | ccc_peer_inbound.py:55-73 | an overlong last line behind a newline is parsed in one chunk and refused in two |
| `PeerFrames.DrainLines` | ccc_peer_inbound.py:66-73 | the inner loop takes the complete lines up to the first oversize one |
| `PeerFrames.ReadFrames` | ccc_peer_inbound.py:21-73 | the receive loop equals the reader of which the chunking theorems speak |
| `PeerFrames.BuildFrameLines` | ccc_peer_uds.py:208-224 | an optional token line and a user line of at most 1 MiB, or an error when the user line is longer |
| `PeerFrames.LinesRead` | ccc_peer_inbound.py:37-81 | printed lines read as the frames they spell, up to the first oversize one |
| `PeerFrames.RoundTrip` | ccc_peer_uds.py:208-224 | however the printed lines are chunked the reader yields the frames sent, all of them if and only if every token line fits |
| `TurnFold.HandleCarries` | ccc_server/acp.py:1587-1694 | an update adds exactly its own chunk to the text shown and accumulating, and only appends rows |
| `TurnFold.TurnConservesStream` | ccc_server/acp.py:2112-2174 | a turn ended by its response has emitted text that concatenates to the message chunks, thinking that concatenates to the thought chunks, and the same final text; earlier rows are unchanged |
| `TurnFold.PromptThenStream` | ccc_server/acp.py:2623-2660 | a whole turn: the prompt's own row comes next, then rows with exactly the text and thoughts streamed |
| `TurnFold.ToolRowsCounted` | ccc_server/acp.py:1608-1694 | each mentioned tool has one row plus one for each announcement that came after its row |
| `TurnFold.OneRowPerTool` | ccc_server/acp.py:1608-1694 | a tool announced once has exactly one row if and only if no update ended it before the announcement, and otherwise two |
| `ToolRows.ToolRowsHold` | ccc_server/acp.py:1607-1694 | all tool rows of a finished turn, in order and with contents: one for each update that ended a tool since its announcement, showing what had been said by then, and with the response one for each tool still open; title, kind, status, detail, input, diff and output are those last given, with the announcement's defaults, and output is cut to 1200 characters |
| `ToolRows.PlanAndTextRowsHold` | ccc_server/acp.py:1488-1520 | the plan rows are the plans that differed from the one in force; an assistant row holds a thinking block, a text block or both in that order, none empty |
| `ToolRows.ResultRowEnds` | ccc_server/acp.py:2112-2174 | a turn ends with an error row carrying the message, or with the stop reason, which is not repeated, or with no row when another client holds the session |
| `TurnFold.TextPrecedesTool` | ccc_server/acp.py:1608-1640 | when a tool is announced, all text and thoughts received before are in rows and none of its own rows is |
| `TurnFold.AcpSession.Activate` | ccc_server/acp.py:2623-2660 | the prompt becomes a row, and a turn is open with empty accumulators |
| `TurnFold.AcpSession.FlushTurnText` | ccc_server/acp.py:1488-1520 | at most one row, and both accumulators are reset |
| `TurnFold.AcpSession.HandleUpdate` | ccc_server/acp.py:1547-1747 | the whole new session after one live update |
| `TurnFold.AcpSession.FinalizeTurn` | ccc_server/acp.py:2112-2174 | the whole new session after the prompt's response |
| `Journal.SplitAtBoundary` | sender_envelope.py:443-446 | splitting a stretch of file at a line boundary splits its lines |
| `Journal.IncrementalEqualsRebuild` | sender_envelope.py:425-449 | after any sequence of appends, half-written lines included, replacements of the file and index calls, the cached index, if it is of the file in place, is the fold from nothing over the complete lines read, and the offset is a line boundary |
| `Journal.IndexIsCurrent` | sender_envelope.py:425-449 | an index call covers every complete line the file held when it was called |
| `Journal.SnapshotIsLatestLongest` | sender_envelope.py:397-409 | a message's snapshot is the latest among its rows with the longest relay chain |
| `JournalLookup.StrippedIs` | sender_envelope.py:414 | a key is stripped of the opening tag and one closing bracket, whichever it has |
| `JournalLookup.AliasIsLatest` | sender_envelope.py:411-414 | a key leads somewhere if and only if a known node's row lists a nonempty key that strips to it, and then to the message of the last such row |
| `JournalLookup.AliasResolves` | sender_envelope.py:403-414 | whatever a key leads to has a snapshot |
| `JournalLookup.SendIsLatest` | sender_envelope.py:415-420 | a recipient is known if and only if a dashboard send to it was recorded, and of each message the time and digest of its last send whose time is a number |
| `Journal.JournalCache.IndexFile` | sender_envelope.py:425-449 | result and new cache entry of one index call, with its restart when the inode changed |
| `Envelope.LabelClean` | sender_envelope.py:346-347 | a label has at most 60 characters, no bracket, parenthesis or middle dot, and no blank but the space |
| `Envelope.LabelIsWords` | sender_envelope.py:346-347 | a label is the words between blanks, brackets, parentheses and middle dots, joined by single spaces and cut to 60 characters |
| `Envelope.HeaderRoundTrip` | sender_envelope.py:295-355 | parsing a printed header recovers label, kind, id and reply address, if and only if the id has 36 hexadecimal digits and dashes that `uuid.UUID` accepts |
| `Envelope.SplitIsLines` | sender_envelope.py:337-343 | splitting at newlines gives lines without newlines that join to the text |
| `Envelope.CarriedLines` | sender_envelope.py:358-371 | the header sits first, or second after an `orig_msg_id:` line, where stripping finds it, and no other line moves |
| `Envelope.StripCarry` | sender_envelope.py:337-371 | stripping a carried text is stripping the original |
| `Envelope.CarryReplaces` | sender_envelope.py:358-371 | a second carrier replaces the first |
| `Envelope.StripHeader` | sender_envelope.py:337-343 | the loop removes the first header among the first five lines |
| `Envelope.CarryHeader` | sender_envelope.py:358-371 | commands and disabled emission leave the text alone, a human author only strips it, others get one header |
| `Productivity.CoveredDependsOnMembers` | productivity.py:237-243 | the covered time depends on the nonempty intervals and not on their order or repetition |
| `Productivity.NetAtMostGross` | productivity.py:237-256 | the union is at most the total length |
| `Productivity.UnionSeconds` | productivity.py:237-256 | the sorted sweep returns the number of instants covered by at least one interval |
| `Productivity.SplitIsThePartition` | productivity.py:275-291 | the split is the only chain of nonempty adjacent pieces with one piece for each day the interval meets |
| `Productivity.SplitByDay` | productivity.py:275-291 | the loop terminates and returns that split |
| `Productivity.NetIsBusyTime` | productivity.py:511-547 | the summary's intervals cover exactly the instants of the requested days at which some turn was running |
| `Productivity.ReportAddsUp` | productivity.py:549-650 | summary net, gross and parallel time are the sums of the days'; parallel is gross minus net without clamping; no day has more net time than a day |
| `Productivity.FileValid` | productivity.py:524-530 | the inner loop files each piece under its day |
| `Productivity.FilePieces` | productivity.py:511-547 | the loop over turns files exactly the pieces that lie in the range |
| `Productivity.SummaryGross` | productivity.py:639-646 | the summary adds up the days' gross time |
| `Productivity.Aggregate` | productivity.py:449-650 | the report's agent times for any turns, and an error for a range that ends before it starts |
| `WorkSessions.SessionsCutAtGaps` | productivity.py:259-274 | neighbouring prompts share a session if and only if they are at most the gap apart, and sessions are further apart than the gap |
| `WorkSessions.EveryPromptIsInASession` | productivity.py:259-274 | every prompt lies in a session, and sessions begin and end at prompts |
| `WorkSessions.DisjointIffTailFits` | productivity.py:259-274 | sessions never overlap, whatever the prompts, if and only if the tail is at most the gap |
| `WorkSessions.WorkIsCountedOnce` | productivity.py:562-570 | then the sum of session lengths, which the days use, equals the union, which the projects use |
| `WorkSessions.EstimateWorkIntervals` | productivity.py:259-274 | the loop returns those sessions |
| `AlertHook.PruningIsInvisible` | ccc_server/alert_hook.py:87-106 | with a clock that never steps back, every outcome and reported count is the one the full history of earlier calls dictates |
| `AlertHook.RateHoldsIff` | ccc_server/alert_hook.py:99-104 | for given clock readings, no eleven alerts go out within an hour, whatever keys are chosen at whichever of the readings, if and only if no reading comes back within an hour of one that had expired |
| `AlertHook.KeysHoldIff` | ccc_server/alert_hook.py:92-97 | likewise, no key is handled twice within the retention if and only if no reading comes back within the retention of one that had expired |
| `AlertHook.ForgettingIsInvisibleIff` | ccc_server/alert_hook.py:87-106 | outcomes and counts agree with the full history for every choice of keys if and only if the readings are steady over both windows |
| `AlertHook.AtMostTenPerHour` | ccc_server/alert_hook.py:87-106 | no eleven alerts go out within less than 3600 seconds |
| `AlertHook.DuplicateIff` | ccc_server/alert_hook.py:92-97 | a call is a duplicate if and only if an earlier call handled its key within the retention |
| `AlertHook.HeldBackIsConserved` | ccc_server/alert_hook.py:99-104 | rate-limited calls are the pending count plus all counts reported, whatever the clock does |
| `AlertHook.ClockSetBackForgets` | ccc_server/alert_hook.py:92-101 | a run from the empty state: ten alerts at time zero, one an hour later, and with the clock set back an eleventh at time zero |
| `AlertHook.Hook.Reserve` | ccc_server/alert_hook.py:87-106 | outcome, count and whole new persisted state |
| `ByteBudgetCache.EvictLeavesLongestSuffix` | ccc_server/bounded_cache.py:52-55 | eviction leaves the longest suffix in recency order that satisfies both bounds |
| `ByteBudgetCache.StoreOutcome` | ccc_server/bounded_cache.py:44-56 | the key is held afterwards, and last, if and only if its value fits and an entry is allowed |
| `ByteBudgetCache.RunBounded` | ccc_server/bounded_cache.py:36-72 | after every run both bounds hold, or nothing is held |
| `ByteBudgetCache.CacheRefinesMap` | ccc_server/bounded_cache.py:36-72 | after every run a hit returns what an unbounded map would, and entries stand in the order of their last use |
| `ByteBudgetCache.Cache.Drop` | ccc_server/bounded_cache.py:69-72 | removes the entry, and the byte count follows |
| `ByteBudgetCache.Cache.Lookup` | ccc_server/bounded_cache.py:36-42 | returns the held value and makes the key the most recent |
| `ByteBudgetCache.Cache.Keep` | ccc_server/bounded_cache.py:44-56 | the whole new state of `put`, with exact bytes and both bounds |
| `ByteBudgetCache.Cache.Remove` | ccc_server/bounded_cache.py:58-62 | returns and removes the entry |
| `ByteBudgetCache.Cache.Reset` | ccc_server/bounded_cache.py:64-67 | nothing is held |

## Left out

Conversation store:

- `snapshot`, the copies made for readers and the wall-clock stamp of events.
- Python errors of the store: an unhashable item id or a numeric `items` value raises in the original; here such items are refused like other malformed ones.
- `pyStr`, Python's `str()` of a JSON value that is not a string, is a parameter.
- The byte bound of a deletion tombstone: it is not trimmed, so it is exempt, as `StoreInvariant.ReachableIsOk` says.
- LateCalls.LateCallEqualsEarlyCall: compares metadata, provenance and turn order, not item contents, and asks that no trim and no cap evicts anything.
- Provenance.LateHydrateEqualsEarlyHydrate: compares metadata, provenance and turn order, not item contents, which events extend from what is held.
- HydrateRace.HydrateView: speaks of the merge before any trim; `SnapshotTrims` says what the trims add.
- HydrateRace.EventView: speaks of the event before its trim and through the fields the event assigns; `EventWrites.RecordWrites` says by name what they are, trims included.
- HydrateRace.EventRace: compares merges without trims.
- Provenance.EventOnlyAdvances: speaks of the event before its trim, which may remove entries and changes none (`StoreHistory.TrimOnlyRemoves`).
- DeltaText.DeltasConcatenate: speaks of deltas that append to a text field and of runs in which no store cuts the item; for reasoning parts, file patches and progress messages `ItemWrites.DeltaEventWrites` speaks of one event at a time.
- HydrateRace.LateEqualsEarly: speaks of merges without trims; the theorem with trims asks that they evict nothing in either order.

Work control plane:

- SQLite itself, file modes, the socket server and its token; listing caps and orderings, `bind_session`, `update_payload`, `latest_for_session`, `summary`; the gate that retires accounts.
- `work.transition`, the raw call that moves items outside the engine host, is not a step of the never-replay and drain theorems.
- `EngineHost` is a step relation on values and not a class, because its threads interleave between ledger calls. Live evidence and the children a tracker waits for are arbitrary choices of the environment, and so is the moment at which the rows of one listing are read.
- An interrupted item cannot be reclaimed: the ledger refuses `interrupted` to `running`, which the step relation reproduces; the exception's way through the rest of the loop is not followed.
- The order of rows in `WorkGraph.Graph`, the fields joined to each row, and the list of edges returned beside them.

Streams:

- TerminalPump.Terminal.Pump: speaks of streams of well-formed UTF-8; for other bytes only the single step is specified.
- PeerFrames.ReadFrames: has no first-line deadline and no socket errors.
- TurnFold.AcpSession.HandleUpdate: live updates only; replayed history, usage figures and bubble deltas are left out.
- TurnFold.AcpSession.FinalizeTurn: has no usage figures, and does not put a remotely refused prompt back into the queue.
- Line numbers and the file of an ACP transcript, and the rollback of a turn whose prompt could not be sent.
- Turns ended by the death of the process, replayed history, usage figures, bubble previews, tool titles and diffs, and two prompts at once in one ACP session.
- A journal replaced between the stat and the read of one index call, or by a file that reuses an inode; rows whose types are wrong midway through `_journal_add`; the journal writer and `lookup`.
- The older full-JSON header and the `\w` class of regular expressions are parameters; `from_text` is not modelled.
- Envelope.StripCarry: holds for authors that are not human; a human author's text is stripped once more by the second strip.

Arithmetic and containers:

- Time zones with daylight saving, rounding to seconds, token shares, per-project buckets, weekly slices, trends and everything from Git.
- WorkSessions.DisjointIffTailFits: takes gap and tail as whole non-negative minutes.
- Reading and writing the alert state file; a state lost midway starts empty.
- ByteBudgetCache.CacheRefinesMap: says what a hit returns; a miss may be an eviction.
