# Verified models of the A2X SDK

Dafny models of the stateful core of the `@a2x/sdk` package, with machine-checked proofs
of what that core is for. `dafny verify dfyconfig.toml` checks everything.

What is modelled, file by file:

- **The payer's `batch-settlement` channel protocol.** `ChannelFold` (the deterministic
  fold of a settlement receipt into a channel record), `Reconcile` (the reconcile call over
  a storage that may fail), `AttemptLease` (the promise-chained lease), `BatchAttempt` (one
  attempt and the two request paths that drive it). `AttemptProtocol` is the whole protocol
  as a state machine: each storage call of each attempt and of each manual reconcile is a
  step of its own, any of them may fail or half-land, a crash loses everything but storage,
  and the merchant's receipts are arbitrary. Over its runs: bounded spend
  (`AttemptBounds`), no signing over an open voucher (`AttemptSafety`, made exact by
  `AttemptOverlap`), replay safety and its converse (`AttemptReplay`), what a quarantine does
  to the attempts behind it (`AttemptQuarantine`), and the concrete runs that show what the
  documented exclusions are for (`AttemptCounterexamples`).
- **The server's task execution.** `Artifacts`, `ArtifactIds`, `Tasks`, `Executors` (the
  blocking and the streaming executor), `StreamFold`, `StreamEqualsSend`, `StreamRecord`,
  `StreamClient`, `Turns` and `TurnOutcome` (the two methods leave the same task, told from
  what the agent said; the record never lags behind the stream, a client that folds the stream
  holds the record, and turns only add);
  `PumpMachine` and `PumpProtocol` (the streaming pump as steps racing any number of
  cancels, resubscribers and failing store calls), `PumpExceptions` (when it converges,
  and the two ways a turn can lose something), `PumpEndings` (which status it ends in, and
  that it says so), `PumpUninterrupted` (the step machine left alone is the fold);
  `TaskEventBus` and `BusRefinement` (the bus behind the resubscribers), `TaskStore`,
  `Paging`.
- **The merchant's lifecycle store.** `MerchantStore`, `MerchantLifecycle`,
  `MerchantRecency` (eviction is by last use).
- **Three self-contained algorithms.** `CanonicalJson` and `Selector`, `Sse`,
  `AuthNormalizer`.
- `Options`, `OrderedMaps` (JavaScript's `Map`) and `Decimal` are shared.

Where the source changes state in place, the model is a class whose methods are proved
against functions on its state, and the properties are proved of those functions and of
runs of them. Protocols with `await` points are state machines; a step is the code between
two suspensions, and the theorems quantify over every sequence of enabled steps.

## What the proofs found

Properties that hold only under a condition are stated with that condition and with a
proof that it is needed.

- **A manual reconcile that overlaps a submission loses the submitted record.** The
  per-channel reconciliation lock does not cover the marker writes of an attempt. If a
  submitted record is stored between the read and the write of a fold for another attempt
  on that channel, and the fold's guards let it through, the fold's write erases it and the
  next signing is not refused (`AttemptOverlap.OverlapErasesTheMark`, for every run; a
  concrete one is `AttemptCounterexamples.UndisciplinedRunSignsTwice`). The documentation
  tells manual callers to avoid exactly this (packages/a2x/src/x402/client.ts:941-945).
  Without such an overlap every open voucher keeps its trace, across crashes and failing
  storage.
- **The same overlap the other way round reopens an earlier voucher.** If a manual fold
  makes its attempt the latest one settled while another attempt stands between the read
  and the write of a marker (a submitted record, its removal, a quarantine), that write
  brings the earlier stamp back and the earlier receipts fold again
  (`AttemptReplay.OvertakenWriteReopens`, for every run; a concrete one is
  `AttemptCounterexamples.OverlappingWindowsReopenReplay`). Nothing else does: every other
  overlap is harmless, and without this one no run reopens an earlier voucher
  (`AttemptReplay.ReplayChangesNothing`, `AttemptReplay.ReplayIsClosedExactly`).
- **The streaming pump can leave a task working**, in one way only: the executor's
  generator throws and the single write that records the failure is lost. Interaction-ending
  statuses are retried after a failed write, that failure is not
  (`PumpProtocol.Converges`, `PumpExceptions.ThrowAndLostWriteStrand`). The default
  executor's generator catches its own errors.
- **A cancel can drop an artifact a subscriber has received.** The comment at
  packages/a2x/src/transport/request-handler.ts:1019-1022 says that persisting before
  publishing prevents it; but the cancel writes its own snapshot's artifact list back, so
  an artifact stored and published between the cancel's read and write is lost whenever
  that snapshot carried a list (`PumpProtocol.CancelArtifacts`,
  `PumpExceptions.CancelDropsPublished`).
- **The two methods agree on tasks with distinct artifact ids**, which every fold
  preserves; on a list with repeated ids they can differ, exactly when the turn produced
  nothing and the list changes under its own merge
  (`StreamEqualsSend.StreamEqualsSendExactly`).
- **An attempt that owns a record may lower it** by folding a second accepted receipt
  (`ChannelFold.OwnedRewriteMayLower`), so monotonicity is stated against the attempt's
  snapshot.
- The interface comment on the event bus (packages/a2x/src/a2x/task-event-bus.ts:22-27)
  says that future subscribers of a closed task end and later publishes are no-ops. The
  in-memory bus keeps no such state: `TaskEventBus` follows the code, and a later
  subscriber ends when its execution completes, as `PumpProtocol` models it.

## Model

| member | source | states |
|---|---|---|
| `ChannelFold.FiguresFollowCharges` | packages/a2x/src/x402/client.ts:1401-1442 | under one attempt, two vouched receipts commit figures exactly as far apart as the charges they name, and one naming none commits at least as much as any other |
| `ChannelFold.ReceiptFitsOneSnapshot` | packages/a2x/src/x402/client.ts:1401-1442 | if two attempts vouch for one receipt they were signed from the same cumulative (with a charge) or have the same ceiling (without), and they commit the same figure |
| `ChannelFold.CommitBounds` | packages/a2x/src/x402/client.ts:1401-1424 | with the ceiling at snapshot cumulative plus the request amount, every committed cumulative lies between the two, and the balance is at least the snapshot's plus this attempt's deposit, whatever the merchant reports |
| `ChannelFold.FoldIgnoresStore` | packages/a2x/src/x402/client.ts:1227-1305 | the fold's money fields and stamp depend on binding and receipt only, never on the stored record |
| `ChannelFold.FoldSources` | packages/a2x/src/x402/client.ts:1227-1305 | the claim comes from the receipt when it reports a natural number and else from the snapshot, the signed maximum and its signature always from the snapshot, the stamp from the binding |
| `ChannelFold.FoldIdempotent` | packages/a2x/src/x402/client.ts:1117-1163 | folding a receipt over the fold's own output is let through by the guards and changes nothing |
| `ChannelFold.RepairsExactly` | packages/a2x/src/x402/client.ts:1117-1155 | if and only if: which stored records a receipt may rewrite (its own; or one without a higher cumulative that is unstamped or carries the snapshot's stamp, except that an unfunded zero receipt creates no record) |
| `ChannelFold.FoldKeepsForeignTraces` | packages/a2x/src/x402/client.ts:1273-1303 | a fold clears its own pending record and quarantine marker and an ownerless one, and keeps every other attempt's |
| `ChannelFold.OwnedRewriteMayLower` | packages/a2x/src/x402/client.ts:1117-1163 | ownership is not monotone: a second accepted receipt of the same attempt rewrites its record to a lower cumulative |
| `Reconcile.CollectBounds` | packages/a2x/src/x402/client.ts:979-1063 | the loop over bindings, refusing or dropping as it goes |
| `Reconcile.AllowedExactly` | packages/a2x/src/x402/client.ts:979-1063 | if and only if: the call is refused for a binding with a canonical channel that omits its snapshot, has no attempt id or a figure that is no natural number, or repeats a channel; exactly the other bindings with canonical channels and readable bounds take part, each with its own bounds |
| `Reconcile.KeyIgnoresCase` | packages/a2x/src/x402/client.ts:983 | channel keys differ exactly when the ids differ in more than the case of letters |
| `Reconcile.RefusalIsFinal` | packages/a2x/src/x402/client.ts:979-1063 | a refused binding refuses the call whatever bindings follow |
| `Reconcile.CollectRelevant` | packages/a2x/src/x402/client.ts:1071-1102 | the loop over receipts keeps, in order, exactly those a binding vouches for |
| `Reconcile.RelevantFacts` | packages/a2x/src/x402/client.ts:1071-1102 | every kept receipt succeeded, names a bound channel canonically and carries the figure that binding's bounds accept |
| `Reconcile.ReconcileBatchSettlement` | packages/a2x/src/x402/client.ts:947-1176 | the whole call against a storage whose gets and sets may fail or half-land: bounds errors write nothing, otherwise the new storage, the applied list and the failure count are those of the receipt-by-receipt fold |
| `Reconcile.OtherChannelsUntouched` | packages/a2x/src/x402/client.ts:1071-1168 | a record whose channel no binding names is never written, whatever the receipts say |
| `Reconcile.HealthyOutcome` | packages/a2x/src/x402/client.ts:1106-1168 | without storage failures a channel ends as the fold of the last receipt vouched for it over the record the call found, exactly when some receipt passes the guards |
| `Reconcile.FaultyOutcome` | packages/a2x/src/x402/client.ts:1106-1168 | under any pattern of failures a record is what it was or a fold of one of the receipts over what it was |
| `Reconcile.RetryConverges` | packages/a2x/src/x402/client.ts:1156-1163 | after any failures, lost or half-acknowledged writes, one healthy retry of the same call leaves what an undisturbed call would have left, and repeating it changes nothing |
| `Reconcile.AppliedExactlyWhenOpen` | packages/a2x/src/x402/client.ts:935-939 | for one binding an undisturbed call reports an empty `applied` exactly when no vouched receipt passes the guards |
| `AttemptLease.OneHolderInOrder` | packages/a2x/src/x402/batch-attempt.ts:62-97 | in every reachable state at most one call holds the lease; all earlier calls have settled and all later ones wait |
| `AttemptLease.PoisonReaches` | packages/a2x/src/x402/batch-attempt.ts:71-84 | after a release carrying an error, each call chained behind it either still waits or has thrown that same error |
| `AttemptLease.PoisonedNeverHolds` | packages/a2x/src/x402/batch-attempt.ts:71-84 | over whole runs, a call chained before the queue drained behind an erroneous release never holds the lease, before or after |
| `AttemptLease.NeverWedged` | packages/a2x/src/x402/batch-attempt.ts:62-97 | until the queue drains there is exactly one call that holds or can resume |
| `AttemptLease.DrainedAcquires` | packages/a2x/src/x402/batch-attempt.ts:62-97 | once drained, a new call acquires without an error, whatever happened before |
| `AttemptLease.CleanChainGrantsAll` | packages/a2x/src/x402/client.ts:1313-1337 | the per-channel reconciliation lock is the same chain without errors: every call that resumes holds it, alone and in order of arrival |
| `AttemptLease.RunIsMonotone` | packages/a2x/src/x402/batch-attempt.ts:85-96 | a settled call's outcome never changes; releasing twice does nothing |
| `AttemptQuarantine.QuarantineStopsQueue` | packages/a2x/src/x402/batch-attempt.ts:308-362 | over whole runs of the protocol: no call queued behind a quarantined attempt becomes a live attempt before the process dies, however the marker write went; it waits or has thrown that attempt's id and reason |
| `AttemptLease.LeaseQueue.Enqueue` | packages/a2x/src/x402/batch-attempt.ts:62-75 | the call up to its await appends itself behind the stored tail |
| `AttemptLease.LeaseQueue.Proceed` | packages/a2x/src/x402/batch-attempt.ts:75-89 | the resumed call holds the lease, or rethrows its predecessor's error and passes it on |
| `AttemptLease.LeaseQueue.Unlock` | packages/a2x/src/x402/batch-attempt.ts:85-96 | the release function settles a holder once and clears the map entry it still owns |
| `BatchAttempt.MarkersTrace` | packages/a2x/src/x402/batch-attempt.ts:234-260 | the two marker writes leave the writer's own mark with its binding, reason and task, keep another attempt's pending record, and change nothing else of the record, its stamp included |
| `BatchAttempt.MarkersCover` | packages/a2x/src/x402/batch-attempt.ts:236-238 | a marker is laid over the record read, or else over the snapshot the voucher was signed from, or else over nothing |
| `BatchAttempt.ClearingKeepsRest` | packages/a2x/src/x402/batch-attempt.ts:271-283 | clearing takes the submitted record away and nothing else |
| `BatchAttempt.X402BatchAttempt.MarkSubmitted` | packages/a2x/src/x402/batch-attempt.ts:234-256 | the durable record is stored before submission or the call fails; a resolved or marked attempt is left alone |
| `BatchAttempt.X402BatchAttempt.AcceptRetry` | packages/a2x/src/x402/batch-attempt.ts:262-284 | a provably rejected attempt clears its own pending record only, and releases the lease cleanly even when storage fails |
| `BatchAttempt.X402BatchAttempt.Dispose` | packages/a2x/src/x402/batch-attempt.ts:302-306 | an unsent attempt releases the lease cleanly and writes nothing |
| `BatchAttempt.X402BatchAttempt.Quarantine` | packages/a2x/src/x402/batch-attempt.ts:308-362 | a quarantine writes its own marker over the record (a failing write is swallowed), keeps another attempt's pending record, and releases the lease with the error |
| `BatchAttempt.X402BatchAttempt.Close` | packages/a2x/src/x402/batch-attempt.ts:290-300 | an attempt whose response ended without proof quarantines its channel unless already resolved |
| `BatchAttempt.X402BatchAttempt.Observe` | packages/a2x/src/x402/batch-attempt.ts:173-232 | what a response proves decides the outcome: folded resolves the attempt, answers true and releases the lease cleanly; nothing proven leaves everything as it is; a broken proof quarantines with its reason; an accounted attempt stays accounted under any storage failures |
| `BatchAttempt.ProofExactly` | packages/a2x/src/x402/batch-attempt.ts:180-218 | on a healthy storage a response proves the fold if and only if one of its receipts gets past the guards over the stored record; if none does nothing is written, and a completed or terminal response is broken as having no matching receipt, any other proves nothing |
| `BatchAttempt.FailuresBreakProof` | packages/a2x/src/x402/batch-attempt.ts:189-218 | a response is broken as a failed write if and only if the reconcile call was made and refused its binding or met a failing storage call |
| `BatchAttempt.ReconcileAccounts` | packages/a2x/src/x402/client.ts:1106-1168 | what one attempt's reconcile can do to its own record: nothing, or a fold stamped with its id |
| `BatchAttempt.BlockingRound` | packages/a2x/src/client/a2x-client.ts:567-640 | one paid round of `sendMessage`, whatever storage call fails: the voucher leaves only behind its durable record and stays accounted for unless rejected; it is rejected if and only if a prompt answers it and the response proves nothing, the lease is released cleanly if and only if it was never sent, rejected or folded, and the round throws exactly where a quarantine is not absorbed |
| `BatchAttempt.StreamRound` | packages/a2x/src/client/a2x-client.ts:656-831 | the same for one paid response of `sendMessageStream`, with receipts, reprompts, errors and early closing in any order and storage failures of its own for every event: the first event that proves or breaks the fold or prompts again decides, and without one the attempt is quarantined |
| `AttemptProtocol.ShapeStep` | packages/a2x/src/x402/batch-attempt.ts:62-363 | every step of the protocol (each storage call its own step, any of them failing, and crashes) keeps the lease, the ledger and the live attempts consistent |
| `AttemptProtocol.OneLive` | packages/a2x/src/x402/batch-attempt.ts:62-97 | the lease admits one live attempt for each storage |
| `AttemptProtocol.WriteFrame` | packages/a2x/src/x402/batch-attempt.ts:234-363 | what one storage write of the protocol changes, and that it changes nothing else |
| `AttemptBounds.SpendIsBounded` | packages/a2x/src/x402/client.ts:1227-1263 | over every run, with forged receipts, races and crashes: a channel's cumulative is at most the sum of the amounts signed by its settled attempts, and its balance at least the deposits they funded |
| `AttemptBounds.EveryFoldIsBounded` | packages/a2x/src/x402/client.ts:1401-1424 | over every run, whatever a fold stores lies between the attempt's snapshot and its ceiling, over a balance of snapshot plus deposit |
| `AttemptBounds.SpendWithinSettled` | packages/a2x/src/x402/client.ts:1227-1263 | a record's line of descent visits distinct settled attempts of its own channel |
| `AttemptBounds.FoldSound` | packages/a2x/src/x402/client.ts:1227-1305 | the fold of any receipt keeps that bound |
| `AttemptSafety.EveryOpenVoucherIsTraced` | packages/a2x/src/x402/batch-attempt.ts:234-363 | in every state of a run in which no submitted record of a so far unsettled voucher is stored inside the open manual fold of another attempt that its guards let through, each voucher handed over and neither folded nor rejected has its own pending record or quarantine marker in storage |
| `AttemptSafety.NeverSignsOverOpenVoucher` | packages/a2x/src/x402/client.ts:763-816 | so no such run signs a voucher on a channel with an unresolved one |
| `AttemptSafety.TrackedRun` | packages/a2x/src/x402/client.ts:788-805 | the invariant behind both, across crashes, failed and half-landed writes and repairs |
| `AttemptOverlap.OverlapErasesTheMark` | packages/a2x/src/x402/client.ts:940-945 | that premise is exact: in any state of any run, whenever a submitted record breaks it, storing the open fold leaves the voucher handed over, neither folded nor rejected, and with no trace |
| `AttemptReplay.ReplayChangesNothing` | packages/a2x/src/x402/client.ts:1112-1143 | over every run in which no manual fold restamps a channel between the read and the write of an attempt's marker: once an attempt has folded, no receipt folds under an earlier voucher on its channel at any later time, even at an equal cumulative |
| `AttemptReplay.OvertakenWriteReopens` | packages/a2x/src/x402/batch-attempt.ts:234-363 | the converse, over every run: when a manual fold does restamp the channel inside such a window and the marker write lands, the fold stays settled but the stamp before it is back, naming an earlier voucher of the channel all whose receipts fold again (or none, and then every voucher's do, save a zero unfunded one) |
| `AttemptReplay.ReplayIsClosedExactly` | packages/a2x/src/x402/client.ts:1112-1143 | if and only if: on a channel that has settled, a manual fold and then the landing marker write it found under way leave the earlier vouchers closed exactly when the fold did not restamp the record |
| `AttemptReplay.ReplayedCallWritesNothing` | packages/a2x/src/x402/client.ts:1106-1168 | after a run without such an overtaking fold, a whole reconcile call under an earlier attempt's binding, with any receipts and any storage failures, writes nothing and reports nothing applied |
| `AttemptCounterexamples.UndisciplinedRunSignsTwice` | packages/a2x/src/x402/client.ts:940-945 | a concrete run, all storage calls succeeding, that signs over an unresolved voucher when a manual caller overlaps a submission |
| `AttemptCounterexamples.OverlappingWindowsReopenReplay` | packages/a2x/src/x402/client.ts:940-945 | a concrete run in which overlapping windows let an earlier attempt's receipt fold after a later one |
| `Artifacts.UpdateWritesOne` | packages/a2x/src/a2x/task-store.ts:150-176 | one artifact update writes the artifact with its id, leaves every other artifact and the order alone and keeps ids distinct, appending or replacing |
| `Artifacts.UpdateMembers` | packages/a2x/src/a2x/task-store.ts:150-176 | the list after an update holds exactly the other artifacts and the one written |
| `Artifacts.MergeFresh` | packages/a2x/src/transport/request-handler.ts:2054-2071 | folding artifacts with new ids adds them behind the prior ones, untouched |
| `Artifacts.MergeSelf` | packages/a2x/src/transport/request-handler.ts:2054-2071 | folding a list with distinct ids into itself changes nothing |
| `Artifacts.MergeIds` | packages/a2x/src/transport/request-handler.ts:2054-2071 | a merge carries exactly the ids of both lists and keeps ids distinct |
| `ArtifactIds.TurnIdsAreUnique` | packages/a2x/src/a2x/agent-executor.ts:587-624 | whatever a turn asks for and in whatever order: no id repeats one the task carries, two calls share an id exactly when both ask for the text artifact, and the text id does not depend on when it is first asked for |
| `ArtifactIds.FirstFreeIsLeast` | packages/a2x/src/a2x/agent-executor.ts:604-623 | both search loops find the least free counter; each taken id met is one element fewer of a finite set |
| `ArtifactIds.ArtifactIdAllocator.Next` | packages/a2x/src/a2x/agent-executor.ts:604-611 | the do-while loop over counters, terminating on the finite taken set |
| `ArtifactIds.ArtifactIdAllocator.Text` | packages/a2x/src/a2x/agent-executor.ts:599-602 | the text id is claimed once and then stable |
| `ArtifactIds.ArtifactIdAllocator.ClaimId` | packages/a2x/src/a2x/agent-executor.ts:613-623 | the base id if free, else the first free suffix from 2 |
| `ArtifactIds.TextIdIgnoresCounters` | packages/a2x/src/a2x/agent-executor.ts:599-623 | file and data ids never decide the text id |
| `Executors.Execute` | packages/a2x/src/a2x/agent-executor.ts:67-237 | the blocking executor's loop, descriptor conflicts and thrown generators included, leaves the specified task |
| `Executors.ExecuteStream` | packages/a2x/src/a2x/agent-executor.ts:257-532 | the streaming executor's loop yields the specified events, with the artifact list assigned before the closing status |
| `Executors.AttachArtifacts` | packages/a2x/src/a2x/agent-executor.ts:632-654 | collected parts and the joined text replace the task's list; a turn that produced nothing leaves it alone |
| `Executors.GatherSticks` | packages/a2x/src/a2x/agent-executor.ts:99-189 | no event after the one that halts the turn is looked at |
| `Executors.StatusKeepsEvent` | packages/a2x/src/a2x/agent-executor.ts:127-188 | the stored status keeps a lifecycle event's kind, metadata and text; only an omitted request text becomes the generic line |
| `Executors.PartKeepsContent` | packages/a2x/src/a2x/agent-executor.ts:108-128 | a part keeps its content; an empty media type is an absent one |
| `StreamRecord.MergeEntriesKeeps` | packages/a2x/src/a2x/agent-executor.ts:711-730 | merged metadata keeps every key's value and takes the incoming value of a new key |
| `StreamRecord.ConflictsExactly` | packages/a2x/src/a2x/agent-executor.ts:711-730 | if and only if: a conflict is reported when some incoming entry repeats an earlier key, of either side, with another value |
| `StreamRecord.MergedDescriptor` | packages/a2x/src/a2x/agent-executor.ts:679-733 | if and only if: descriptors conflict over a name, a description or a metadata key; otherwise fields accumulate, extensions as a union without repetition |
| `StreamRecord.MergedCovers` | packages/a2x/src/a2x/agent-executor.ts:687-733 | a later text descriptor loses no field of an earlier one |
| `StreamEqualsSend.SendMessage` | packages/a2x/src/transport/request-handler.ts:673-741 | `message/send`: working is stored first, a terminal record stops it, the executed snapshot is merged over the prior artifacts and written back |
| `StreamEqualsSend.StreamMessage` | packages/a2x/src/transport/request-handler.ts:1028-1112 | the pump's loop over the executor's events, each folded in and written before the next |
| `StreamEqualsSend.StreamLeavesWhatSendLeaves` | packages/a2x/src/transport/request-handler.ts:714-741 | for every agent run and every task with distinct artifact ids, `message/stream` and `message/send` leave the same stored task, terminal or input-required, and the stream's interaction has ended |
| `StreamEqualsSend.StreamEqualsSendExactly` | packages/a2x/src/transport/request-handler.ts:734-737 | without distinct ids: they agree if and only if the turn produced something or the task's own list, merged into itself, is unchanged |
| `TurnOutcome.TurnEndsAsAgentSaid` | packages/a2x/src/a2x/agent-executor.ts:99-237 | for every agent run on an open task, both methods store the status of the first event that ended the turn (input required, completed, failed, with its text and metadata, or failed over an unmergeable descriptor), or without one that of the generator's end |
| `TurnOutcome.TurnStates` | packages/a2x/src/a2x/agent-executor.ts:99-237 | if and only if: the stored task is completed when the agent was done or returned, input-required when an event asked for input, and otherwise failed |
| `TurnOutcome.TurnStoresWhatAgentSaid` | packages/a2x/src/a2x/agent-executor.ts:99-128 | behind the untouched prior artifacts both methods store exactly what the agent said before the turn ended: a file or data artifact for each such event, in order, with its content, descriptor and id family, then one artifact with the joined text |
| `TurnOutcome.GatherCollects` | packages/a2x/src/a2x/agent-executor.ts:99-189 | if and only if: a turn is still running when no event so far ended it and all descriptors merged |
| `StreamRecord.TurnOnlyAdds` | packages/a2x/src/transport/request-handler.ts:714-753 | a turn leaves the prior artifacts untouched, followed by what it produced, ids distinct again, and no other task field changed but the status |
| `StreamRecord.RecordNeverLags` | packages/a2x/src/transport/request-handler.ts:1015-1027 | at every moment of a running stream the record holds exactly the prior artifacts, the parts sent and the text chunks sent so far |
| `Turns.ConversationOnlyAdds` | packages/a2x/src/transport/request-handler.ts:634-648 | over any sequence of turns on a task, by either method: the record does not depend on the methods, nothing an earlier turn produced is dropped, changed or moved, ids stay distinct, and each turn stops |
| `StreamClient.ClientHoldsTheRecord` | packages/a2x/src/transport/request-handler.ts:1079-1101 | a client that folds the streamed updates holds the stored artifacts: the very ones when the agent was done or returned, otherwise all but the text, which has the stored id, descriptor and text in the chunks it came in |
| `StreamRecord.GatherIsFresh` | packages/a2x/src/a2x/agent-executor.ts:587-624 | a turn's artifacts carry ids of their own |
| `StreamFold.AbsorbLosesNothing` | packages/a2x/src/transport/request-handler.ts:1031-1053 | folding in the executor's assigned list loses nothing accumulated, for any executor: every id stays, and artifacts the list does not name stay as they were |
| `PumpMachine.StepKeeps` | packages/a2x/src/transport/request-handler.ts:998-1263 | every step of the pump keeps what convergence rests on: an ended interaction is settled, and an unsettled one still has a closing write ahead unless the run is excused |
| `PumpMachine.EvolveKeeps` | packages/a2x/src/transport/request-handler.ts:1414-1419 | so does every write by a cancel, at any step boundary |
| `PumpMachine.StepTells` | packages/a2x/src/transport/request-handler.ts:1063-1101 | a published status is the one its write or read was answered with; a terminal one is published only while it is the stored one, and after the pump has seen a terminal record only that record's status is |
| `PumpProtocol.StoredBeforePublished` | packages/a2x/src/transport/request-handler.ts:1079-1101 | over every run, whatever is published was in a record the store held before: the same status, or an artifact with that content (ending with it, when appended) |
| `PumpMachine.StepCloses` | packages/a2x/src/transport/request-handler.ts:1247-1263 | the bus is closed only as the pump returns, with the task settled or the run excused |
| `PumpProtocol.TerminalClosesChannels` | packages/a2x/src/transport/request-handler.ts:1247-1263 | with its last step the pump ends every attached resubscriber's channel if and only if it has seen a terminal record or an error is left over, so always once a terminal status was published |
| `PumpMachine.ClosingWriteCarriesAll` | packages/a2x/src/transport/request-handler.ts:1125-1223 | a closing write stores everything accumulated, also what an event's own lost write did not |
| `PumpMachine.StepRespectsTerminal` | packages/a2x/src/a2x/task-store.ts:242-247 | no step of the pump changes a stored terminal status |
| `PumpProtocol.Converges` | packages/a2x/src/transport/request-handler.ts:998-1263 | a returned pump leaves a settled task under any interleaving of cancels and faults, unless more than one of its store calls failed, or the executor's generator threw and the one write recording it was lost |
| `PumpEndings.EveryStatusIsSourced` | packages/a2x/src/transport/request-handler.ts:998-1263 | over every run the stored status is the task's own, one the executor emitted, one a cancel requested, a failure with the message of an error the generator threw (or of a failed store call), or, only if the generator ended silently, canceled |
| `PumpEndings.UndisturbedEnding` | packages/a2x/src/transport/request-handler.ts:1112-1240 | from any reachable moment of an open turn, with no cancel and no failing store call to come, a returned pump has stored and published as final exactly what its generator's end calls for: an ending event's status, failed with the error thrown, the stored one when exhausted while waiting for input, else canceled |
| `PumpEndings.EndingSurvivesOneFault` | packages/a2x/src/transport/request-handler.ts:1147-1169 | if the write of an interaction-ending status fails once, landed or not, with no cancel and no further fault but that of its recovery read, a returned pump has stored that very status and published it as final, not recorded the turn as failed |
| `PumpEndings.FaultlessTurnsConclude` | packages/a2x/src/transport/request-handler.ts:998-1263 | over every run in which none of the pump's store calls fails, whatever cancels race it: a returned pump has ended the interaction and published a final status, the stored one if terminal |
| `PumpExceptions.ConvergesWithoutThrow` | packages/a2x/src/transport/request-handler.ts:1147-1240 | with an executor whose generator does not throw and at most one failing store call, the pump leaves a settled task and no resubscriber is turned away |
| `PumpExceptions.DefaultExecutorStops` | packages/a2x/src/a2x/agent-executor.ts:257-532 | the default executor meets the pump's assumptions: `final: true` only where the turn stops, nothing after the stopping status, and it always stops |
| `PumpExceptions.PumpReturns` | packages/a2x/src/transport/request-handler.ts:1117-1263 | once the generator has ended each pump step brings its return nearer |
| `PumpExceptions.PumpNeverStuck` | packages/a2x/src/transport/request-handler.ts:998-1263 | until it has returned the pump always has a step |
| `PumpExceptions.ThrowAndLostWriteStrand` | packages/a2x/src/transport/request-handler.ts:1171-1240 | the exception is real at every unsettled moment: a throw and one lost write leave the task as it was, with nothing published |
| `PumpProtocol.OneTerminalWinner` | packages/a2x/src/transport/request-handler.ts:825-845 | every published terminal status is the stored one, every status published after it is the same, and a cancel succeeded only if the task is in the terminal state it asked for |
| `PumpProtocol.CancelSucceeds` | packages/a2x/src/transport/request-handler.ts:1402-1451 | a cancel whose healthy write finds the task open stores the requested status and succeeds; one that comes too late succeeds if and only if the task ended in the state it asked for |
| `PumpProtocol.TerminalStays` | packages/a2x/src/a2x/task-store.ts:242-247 | over every run a stored terminal status never changes |
| `PumpProtocol.RunKeeps` | packages/a2x/src/transport/request-handler.ts:825-845 | the invariant of pump, cancels and resubscribers over every run |
| `PumpProtocol.ResubscriberSeesOneEnding` | packages/a2x/src/transport/request-handler.ts:1265-1377 | a resubscriber that stays gets exactly one interaction-ending status, last; if terminal it is the stored one; it is turned away only in an excused run |
| `PumpProtocol.ResubscriberFinishes` | packages/a2x/src/transport/request-handler.ts:1320-1377 | once the execution is over each resubscriber has a next step until it is answered, and only finitely many |
| `PumpProtocol.EndedIsAnsweredAtOnce` | packages/a2x/src/transport/request-handler.ts:1270-1309 | a resubscriber that read a settled task is answered with its status as it attaches whenever the interaction or the execution has ended or the status is terminal |
| `PumpProtocol.CancelArtifacts` | packages/a2x/src/transport/request-handler.ts:1414-1419 | a cancel's write keeps the artifacts streamed since its snapshot if and only if the snapshot had no list or the list is still current |
| `PumpExceptions.CancelDropsPublished` | packages/a2x/src/transport/request-handler.ts:1019-1022 | so cancellation can make the record lag behind published content: a new artifact published between a cancel's read and its write is dropped whenever the snapshot had a list |
| `PumpUninterrupted.UninterruptedTurn` | packages/a2x/src/transport/request-handler.ts:998-1263 | the step-by-step pump, left alone with the default executor, returns with the record `message/send` would have left, every event it yielded published once and in order |
| `TaskEventBus.ExactDelivery` | packages/a2x/src/a2x/task-event-bus.ts:53-142 | for every interleaving, delivered events, then the value resolved to the waiter, then the queue equal the events published between attach and close; a waiting subscriber's queue is empty |
| `TaskEventBus.ClosedDrains` | packages/a2x/src/a2x/task-event-bus.ts:112-120 | after a close or abort a consumer that keeps asking receives everything queued, then the end |
| `BusRefinement.ConsumerRefines` | packages/a2x/src/a2x/task-event-bus.ts:108-126 | each step of the subscriber's generator delivers the next event of the resubscriber's channel, waits, or ends it when empty and closed |
| `BusRefinement.PublishRefines` | packages/a2x/src/a2x/task-event-bus.ts:53-66 | a publish is what the resubscriber's channel hears |
| `BusRefinement.CloseRefines` | packages/a2x/src/a2x/task-event-bus.ts:68-79 | a close or abort ends the resubscriber's channel and keeps what it holds |
| `BusRefinement.ReadsToFirstEnding` | packages/a2x/src/transport/request-handler.ts:1330-1344 | the resubscriber passes on, in order, everything up to the first interaction-ending event of its channel and nothing behind it; without one it passes on all and asks the store |
| `TaskEventBus.InMemoryTaskEventBus.Publish` | packages/a2x/src/a2x/task-event-bus.ts:53-66 | every subscriber of the task receives the event and no other subscriber changes |
| `TaskEventBus.InMemoryTaskEventBus.Close` | packages/a2x/src/a2x/task-event-bus.ts:68-79 | every subscriber of the task is closed and its waiter resolved |
| `TaskEventBus.InMemoryTaskEventBus.Subscribe` | packages/a2x/src/a2x/task-event-bus.ts:81-107 | attaching behind the others, without replay; an aborted signal ends it at once |
| `TaskEventBus.InMemoryTaskEventBus.Detach` | packages/a2x/src/a2x/task-event-bus.ts:127-138 | the generator's `finally` detaches exactly this subscriber |
| `TaskStore.CreateFacts` | packages/a2x/src/a2x/task-store.ts:210-226 | after a create the store is within its cap or holds no terminal task; only terminal tasks went |
| `TaskStore.EvictFacts` | packages/a2x/src/a2x/task-store.ts:351-363 | eviction removes terminal tasks only, oldest first, and as few as make room |
| `TaskStore.SweepFacts` | packages/a2x/src/a2x/task-store.ts:339-348 | the sweep removes exactly the terminal tasks whose time is up |
| `TaskStore.WroteFacts` | packages/a2x/src/a2x/task-store.ts:234-266 | a write keeps the timestamp index exact, refuses a status on a terminal task, and touches no other task |
| `TaskStore.WriteLeaves` | packages/a2x/src/a2x/task-store.ts:234-266 | what a write leaves: given fields replace, others stay, metadata merges by key, the time of becoming terminal is recorded; a missing task or a refused status changes nothing |
| `TaskStore.TerminalIsFinal` | packages/a2x/src/a2x/task-store.ts:234-266 | over any run of store operations the index holds exactly the stored terminal tasks and a terminal status never changes while it is stored |
| `TaskStore.InMemoryTaskStore.CreateTask` | packages/a2x/src/a2x/task-store.ts:210-226 | sweep, make room, insert |
| `TaskStore.InMemoryTaskStore.UpdateTask` | packages/a2x/src/a2x/task-store.ts:234-266 | a missing or terminal task is refused, anything else is updated in place |
| `TaskStore.InMemoryTaskStore.EvictIfOverCapacity` | packages/a2x/src/a2x/task-store.ts:351-363 | the eviction loop over entries sorted by entry time |
| `TaskStore.InMemoryTaskStore.EvictExpired` | packages/a2x/src/a2x/task-store.ts:339-348 | the expiry loop |
| `TaskStore.InMemoryTaskStore.ListTasks` | packages/a2x/src/a2x/task-store.ts:273-319 | the page of the matching tasks in insertion order, after a sweep |
| `Paging.PagesCoverOnce` | packages/a2x/src/a2x/task-store.ts:273-319 | following the page tokens over an unchanged store stops and reads every matching task once, in order |
| `Paging.NextTokenAdvances` | packages/a2x/src/a2x/task-store.ts:314-319 | a non-empty token decodes to a later offset and its page was not empty |
| `Paging.PageCounts` | packages/a2x/src/a2x/task-store.ts:273-319 | a page names the number of matching tasks and its size (as asked within 1 and 100, else 50), and only the last page holds fewer |
| `Paging.TokenStarts` | packages/a2x/src/a2x/task-store.ts:366-370 | a safe numeral token starts the page at its number, any other starts over |
| `Paging.Filter` | packages/a2x/src/a2x/task-store.ts:280-303 | the filter keeps the matching tasks in order |
| `MerchantStore.InMemoryX402Store.PutEntry` | packages/a2x/src/x402/store.ts:314-330 | purge, make room at the cap for a new key, insert as most recent |
| `MerchantStore.InMemoryX402Store.GetEntry` | packages/a2x/src/x402/store.ts:332-343 | an expired entry is dropped, a live one becomes the most recent |
| `MerchantStore.InMemoryX402Store.UpdateIfStatus` | packages/a2x/src/x402/store.ts:363-376 | the conditional lifecycle write |
| `MerchantStore.InMemoryX402Store.UpdateMerchantDeliveryIfStatus` | packages/a2x/src/x402/store.ts:378-425 | the conditional delivery write with its marker, deadline and timing conditions |
| `MerchantStore.PutEvictsOldest` | packages/a2x/src/x402/store.ts:314-330 | a put stores its entry within the cap and drops a live entry only at the cap, for a new key, and then the least recently used one |
| `MerchantRecency.VictimIsLeastRecentlyUsed` | packages/a2x/src/x402/store.ts:314-343 | over any run of puts, gets, conditional writes and deletes, a live entry a new offer evicts was used before every live entry that stays |
| `MerchantStore.PurgedFacts` | packages/a2x/src/x402/store.ts:437-444 | the purge removes exactly the expired entries |
| `MerchantLifecycle.Lifecycle` | packages/a2x/src/x402/context.ts:616-652 | under any interleaving of classify, verify, settle and delivery writes on one offer: completed and rejected are never left, the first receipt stays, markers are write-once and never both set |
| `MerchantLifecycle.OneSettlementRecorded` | packages/a2x/src/x402/context.ts:773-820 | however many turns settle at once, at most one receipt is recorded and a completed entry carries exactly that one |
| `MerchantLifecycle.FirstAcceptedIsRecorded` | packages/a2x/src/x402/context.ts:773-820 | and none is lost: what is recorded is the first accepted settlement that found the entry live and not final, and while stored the entry is completed if and only if there was one |
| `MerchantLifecycle.FindingLeaves` | packages/a2x/src/x402/context.ts:616-820 | what each finding leaves of a live entry: an accepted settlement completes every entry not final, verifying marks it verified, refusals fail it at their point with code and reason, and classifying applies to offered and failed entries only |
| `MerchantLifecycle.RecordEvolves` | packages/a2x/src/x402/context.ts:989-1005 | every lifecycle write keeps an entry well formed and moves it forward only |
| `MerchantLifecycle.DeliverEvolves` | packages/a2x/src/x402/store.ts:378-425 | so does every delivery write |
| `MerchantLifecycle.DeliveryHonoursCondition` | packages/a2x/src/x402/store.ts:378-425 | a delivery write that reports success met its condition before its deadline and the entry's expiry, left the requested markers set and touched no other entry |
| `MerchantLifecycle.DeliverySucceedsExactly` | packages/a2x/src/x402/store.ts:378-425 | if and only if: which delivery writes succeed, and what each field of the delivery is afterwards, the markers write-once |
| `MerchantLifecycle.MeterOnlyUndercharges` | packages/a2x/src/x402/context.ts:854-897 | a metered charge is the greatest amount within everything metered, offered and signed |
| `MerchantLifecycle.MeterRefusesExactly` | packages/a2x/src/x402/context.ts:859-893 | if and only if: metering is refused for a scheme that binds one amount, or when the reading or the offer is no plain decimal integer; a signed cap that is none is passed over |
| `CanonicalJson.CanonicalIsInjective` | packages/a2x/src/client/a2x-client.ts:156-175 | two JSON values print alike if and only if they are equal up to the order of object keys |
| `CanonicalJson.SameIsCanonical` | packages/a2x/src/client/a2x-client.ts:156-175 | values equal up to key order are printed, or refused, alike |
| `CanonicalJson.TextPrefix` | packages/a2x/src/client/a2x-client.ts:156-175 | the text of a value says where it ends: it determines the value and whatever follows |
| `CanonicalJson.SameIffNorm` | packages/a2x/src/client/a2x-client.ts:166-172 | sorting keys identifies exactly the values that differ in key order alone |
| `Selector.SelectRequirement` | packages/a2x/src/client/a2x-client.ts:1029-1088 | the selection as coded: filter, fingerprint map, identity, then fingerprint |
| `Selector.OnlyAffordableIsSigned` | packages/a2x/src/client/a2x-client.ts:1029-1080 | whatever the selector permutes, mutates or returns, what is signed is one of the merchant's offers, unchanged, that names its amount under its version's key alone, at most the caller's cap, and for batch settlement meets the deposit policy |
| `Selector.EveryPayableOfferIsSelectable` | packages/a2x/src/client/a2x-client.ts:1029-1080 | conversely every offer meeting that is signed when the selector returns the copy it was handed of it |
| `Selector.CopySelectsItsOffer` | packages/a2x/src/client/a2x-client.ts:1074-1077 | another copy selects the offer within the policy it equals up to key order, and nothing if and only if it equals none |
| `Selector.DefaultNeedsConsent` | packages/a2x/src/x402/client.ts:875-896 | without a selector the first usable `exact` offer within the policy is signed; without one the first `upto` offer if allowed; then `batch-settlement` if allowed and configured; otherwise none |
| `Sse.ParseStream` | packages/a2x/src/client/sse-parser.ts:199-208 | the read loop leaves the events and remainder of the whole text |
| `Sse.ExtractContinues` | packages/a2x/src/client/sse-parser.ts:47-82 | extracting from a prefix and then from the remainder plus the rest is extracting from the whole |
| `Sse.ChunksDoNotMatter` | packages/a2x/src/client/sse-parser.ts:199-208 | event extraction does not depend on chunk boundaries |
| `Sse.RoundTrip` | packages/a2x/src/transport/sse-handler.ts:36-39 | one-line payloads framed, concatenated and cut anywhere parse back to the same payloads with nothing left over |
| `Sse.WriteFrames` | packages/a2x/src/transport/sse-handler.ts:27-65 | one frame for each value yielded until the reader cancels, and one error frame for a generator that throws on a stream not cancelled |
| `Sse.NamedEventParses` | packages/a2x/src/client/sse-parser.ts:57-78 | a named event with any number of data lines is read back with its name and joined lines, in either spelling; without data it is dropped |
| `Sse.OtherLinesAreIgnored` | packages/a2x/src/client/sse-parser.ts:57-74 | comments and unknown fields change nothing, wherever they stand in a block |
| `Sse.JoinedLinesSplit` | packages/a2x/src/client/sse-parser.ts:75-78 | the joined text of an event splits back into its data lines |
| `Sse.QuotedIsOneLine` | packages/a2x/src/transport/sse-handler.ts:36-39 | strings as `JSON.stringify` writes them are one line, so such payloads meet the premise of the round trip |
| `Sse.ExtractEvents` | packages/a2x/src/client/sse-parser.ts:47-82 | the loop over blocks and lines |
| `Sse.BlankHasNoData` | packages/a2x/src/client/sse-parser.ts:58 | skipping blank blocks drops nothing |
| `AuthNormalizer.HasConflictingDestinations` | packages/a2x/src/client/auth-normalizer.ts:102-120 | the one-pass test is the pairwise conflict |
| `AuthNormalizer.ClashIsSamePlace` | packages/a2x/src/client/auth-normalizer.ts:86-100 | two credentials clash exactly when they are written to the same place of a request, header names without regard to case, or one is the whole Cookie header and the other a cookie |
| `AuthNormalizer.ConflictIgnoresOrder` | packages/a2x/src/client/auth-normalizer.ts:102-120 | a conflict does not depend on the order of the credentials |
| `AuthNormalizer.NormalizeRequirements` | packages/a2x/src/client/auth-normalizer.ts:133-195 | the whole loop; it never returns more than 256 groups |
| `AuthNormalizer.NormalizedIsExact` | packages/a2x/src/client/auth-normalizer.ts:133-195 | the returned groups are exactly the conflict-free members of the Cartesian products of the fully supported requirements, the anonymous group for an empty one |
| `AuthNormalizer.NormalizedInOrder` | packages/a2x/src/client/auth-normalizer.ts:133-195 | order and multiplicity: requirement by requirement, the conflict-free choices of the product in lexicographic order |
| `AuthNormalizer.ExpandRequirement` | packages/a2x/src/client/auth-normalizer.ts:157-188 | the inner loop stops at an unsupported scheme and refuses before building too many groups |
| `AuthNormalizer.ExpandWithin` | packages/a2x/src/client/auth-normalizer.ts:173-187 | every list built on the way, the expansion of each prefix of the requirement, stays within the remaining budget |
| `AuthNormalizer.RefusedExactlyOverBudget` | packages/a2x/src/client/auth-normalizer.ts:141-188 | a supported requirement throws if and only if its full product would push the list past 256 groups |

## Left out

- Executors.ExecuteStream: the generator is modelled by the list of values it yields with the task snapshot each status event is read with; suspension between yields is modelled in `PumpMachine`, where an arbitrary executor stands behind `Emit`, `Exhaust` and `Throw`.
- StreamEqualsSend.SendMessage: the stored task is a value here, not an entry of the `TaskStore` class, and the store is healthy; failing stores and races are in `PumpProtocol`.
- StreamEqualsSend.StreamMessage: likewise, with nobody else writing; `PumpUninterrupted` ties it to the step machine.
- PumpExceptions.ConvergesWithoutThrow: recovery reads may fail without limit, but the pump's writes and its read after exhaustion count toward the one allowed failure; cancels are assumed to ask for a state at which a turn stops, as the default executor does.
- PumpProtocol.ResubscriberSeesOneEnding: a subscriber is its untaken events and whether its channel ended, which `BusRefinement` proves of the bus; the resubscriber's own store reads do not fail.
- PumpEndings.EveryStatusIsSourced: the message of a failing store call is one constant text.
- AttemptSafety.EveryOpenVoucherIsTraced: false of runs in which a submitted record is stored inside an open manual fold of another attempt that is going to be stored; `AttemptOverlap.OverlapErasesTheMark` proves that each such record is lost.
- AttemptReplay.ReplayChangesNothing: false of runs in which a manual fold restamps a channel inside an attempt's open marker write; `AttemptReplay.OvertakenWriteReopens` proves that each such fold is forgotten once that write lands.
- Paging.PagesCoverOnce: page tokens are decimal numerals; the other spellings `Number` accepts ("1e2", "0x10", surrounding blanks) are not modelled, nor are `historyLength` and `includeArtifacts`, which only trim the copies returned. A list is no longer than a JavaScript array can be.
- TaskStore.InMemoryTaskStore.ListTasks: the context, status and timestamp filters are one predicate on tasks; `historyLength` and `includeArtifacts` are not modelled.
- MerchantStore.PutEvictsOldest: the cap is at least one entry: a cap of zero still keeps the entry just put, as the code does.
- MerchantLifecycle.Lifecycle: the unconditional `update` and a new `put` for the same task are outside its runs; the pipeline uses neither after the offer.
- CanonicalJson.CanonicalIsInjective: a number is the text JavaScript prints for it, so 0 and -0 are one value; strings are sequences of Unicode scalar values, without lone surrogates, and keys sort by scalar value instead of by UTF-16 unit, which changes the order of some keys but not which values print alike.
- Selector.SelectRequirement: `BigInt`, the network tests and the selector itself are parameters; structured cloning is the identity on values.
- Sse.RoundTrip: the text is already decoded; UTF-8 decoding across chunk boundaries is the platform's. What the client does with each parsed event (unwrapping envelopes, legacy event names, mappers) is not modelled.
- AuthNormalizer.NormalizedIsExact: normalizing one raw scheme is a parameter (absent, malformed, or a list of alternatives), and lower-casing is ASCII.
- Timestamps and generated message ids are not part of a status; a JSON value compared deeply is a string.
- Amounts are integers behind an already performed parse, so the text forms `BigInt` accepts are not modelled.
- Signing, EIP-712 and Permit2, the facilitator and the `@x402/*` peers: a signed payload is its channel, ceiling and deposit, and verify and settle are arbitrary answers.
- Separate processes sharing one channel storage, deletion of channel records and operator edits are outside the code's own contract.
- Detached unary execution (`blocking: false`) under cancel: it may record working after the cancel was read, so the convergence claims are about the streaming pump.
- Push notifications, request validation, HTTP, routing, agent cards, response mapping, security scheme classes, LLM agents, tools, plugins, sessions and the CLI would add only easy members or are library-bound.
