# Verified model of the Team controllers

This Dafny project models the durable, crash-aware machinery behind one Team's chat turn and the stores it relies
on, and proves what that machinery is for: effects at most once, pauses that change nothing, stops that really stop,
teardowns that can always be retried, tenants that never share a database. Run `dafny verify dfyconfig.toml`.

How things are modelled:

- Objects that change in place are classes. Each method is proved to compute a function from the state before to the
  state after, and the results below are lemmas about those functions, over all runs and interleavings.
- SQL tables and files are maps that survive a crash; a write can fail before or after it took effect. Everything
  held in memory is lost in a crash.
- Docker, Postgres, the Brain and the Powers are oracles: functions, or verdicts and schedules that say when a call
  fails. Clocks, random ids and new keys are arguments.
- SHA-256 is injective: a digest is the value it commits to. AES-GCM is symbolic: a sealed value opens only under
  its key and its exact associated data.
- Concurrency is a state machine whose steps are the sections under one lock, in any interleaving.

| module | what it covers |
|---|---|
| `PowerJournal`, `JournalOutcomes`, `AtMostOnce` | the idempotency journal, each call's outcomes, and at-most-once effects over runs with crashes |
| `ChatOrchestrator`, `ChatTurn`, `PauseTransparency`, `TurnBounds`, `PausedTurnExample` | the bounded loop between Brain and Powers, its durable batches, pausing, bounds |
| `TurnEffects` | which Powers a turn runs, on what input and answers, and how soon a stop ends it |
| `WorkloadIdentity` | the container, image and private-state generations each operation commits to, when they change |
| `AutoApproval`, `HumanAnswers`, `ChatTurnEngine` | the auto-approval loop, human submissions, pause dispatch, account admission |
| `ContinuationCodec`, `ContinuationReader`, `StoredPauses`, `ManyAnswers`, `ContinuationStore` | paused turns as encrypted records, and back |
| `ChatRuntime`, `ChatStop`, `StopProgress` | tokens, marks, active Powers, and stop against a running turn |
| `ChallengeStore`, `PkceChallenges`, `OAuthAccounts`, `EncryptedState` | one-use challenges, PKCE, OAuth accounts, encrypted records |
| `PgTenancy`, `CleanupState`, `Teardown` | the Postgres driver's tenants, and destroying a Team |
| `RateLimiter`, `ProxyAdmission`, `RpcFrames`, `JsonTree` | bounded admission and bounded parsing |
| `PrivateFiles`, `Tokens`, `Formats`, `Text`, `Sets`, `Wrappers` | what several components share |

Where the code does not keep what it seems to promise, the model follows the code, and the lemmas named here give an
input that shows it or the condition under which the promise is kept, most of them both:

- A stop is successful although a Power may still execute, if that Power's own thread had failed to prove its
  termination (`ChatStop.SuccessfulStopCanLeavePower`); exactly these Powers remain, until their container is halted
  or their Team cleared (`ChatStop.SuccessfulStopLeavesExactly`).
- A refused put can leave its records behind, when only the directory sync after the atomic replace failed, or a key
  without records (`EncryptedState.RefusedPutsThatLeaveSomething`, `ContinuationStore.RefusedPutsThatLeaveSomething`);
  `RefusedPutLeavesExactly` in both modules says exactly when.
- A command that times out raises an exception that the Postgres compensation does not catch, so a role or database
  can stay behind and block every retry (`PgTenancy.TimeoutLeavesRoleBehind`); the verdicts that leave both stores as
  they were are exactly those of `PgTenancy.RefusedProvisionRestoresExactly` and
  `PgTenancy.RefusedCreateAppRestoresExactly`.
- A Team whose principal was never registered can never be destroyed completely, even if nothing fails
  (`Teardown.UncommittedForGood`); every other can (`Teardown.FaultFreeDestroyCompletesExactly`,
  `Teardown.DestructionNeedsProvisioning`).
- The continuation encoder does not count answer logs, the decoder does, and a turn can get that far
  (`ManyAnswers.ReachablePauseIsLost`); a record decodes exactly when it is well-formed (`ContinuationCodec.RoundTrip`).
- The decoder accepts inference settings and a schema number written differently from how they are encoded
  (`ContinuationCodec.DecodeExactly`).
- The rate limit fails when a window is seen again after another (`RateLimiter.OutOfOrderClocksExceedLimit`); with a
  limit of one that is exactly when it fails (`RateLimiter.LimitHoldsExactly`).
- Deleting an OAuth account resets its generation, so a record put after the delete can be overwritten unseen
  (`OAuthAccounts.DeleteThenPutCanBeLost`); without a delete in between none is (`OAuthAccounts.WriteLosesNoPut`).
- A token shared by two Teams moves a principal from one to the other (`PgTenancy.SharedTokenStealsRecord`), and names
  of different Teams can collide (`PgTenancy.NamesCanCollide`).

## Model

| member | source | states |
|---|---|---|
| PowerJournal.PowerJournal.PrepareBatch | team/power_journal.py:381-429 | commits a batch idempotently, one per generation, within the journal's capacity; any other batch of a pending generation conflicts; a failed transaction changes nothing |
| PowerJournal.PowerJournal.Begin | team/power_journal.py:431-468 | grants a prepared operation once, returns a completed result, and refuses one whose effect is uncertain |
| PowerJournal.PowerJournal.Complete | team/power_journal.py:483-517 | stores the result of an executing operation once; repeating the same result is accepted, another conflicts |
| PowerJournal.PowerJournal.Suspend | team/power_journal.py:519-551 | releases an executing operation so that it may be granted again |
| PowerJournal.PowerJournal.Delivered | team/power_journal.py:553-584 | deletes a batch only when every operation has completed with a readable result |
| PowerJournal.PowerJournal.Purge | team/power_journal.py:586-596 | deletes everything of one generation and nothing else |
| PowerJournal.PowerJournal.IsDurable | team/power_journal.py:128-142 | accepts exactly the results within the depth, node and byte limits |
| JournalOutcomes.PreparationIsExact | team/power_journal.py:381-429 | a generation takes one batch while there is room, the same one again and no other; a new batch starts with every operation prepared |
| JournalOutcomes.BeginIsExact | team/power_journal.py:431-468 | exactly a prepared operation is granted, exactly a completed one answered with its result, and an executing one is uncertain |
| JournalOutcomes.CompletionIsExact | team/power_journal.py:483-517 | exactly an executing operation takes a result; a completed one accepts only the result it has |
| JournalOutcomes.SuspensionIsExact | team/power_journal.py:519-551 | exactly an executing operation is released, and a completed one is refused |
| JournalOutcomes.DeliveryIsExact | team/power_journal.py:553-584 | a batch is delivered exactly if all its operations have completed or it is gone already, and then nothing of it is left |
| JournalOutcomes.StrangersAreRefused | team/power_journal.py:337-379 | a handle of another batch, or an operation outside it, conflicts and changes nothing |
| JournalOutcomes.CorruptionIsReported | team/power_journal.py:440-468 | rows the schema should not allow are reported, and nothing is granted, answered or delivered from them |
| JournalOutcomes.UnfinishedResultConflicts | team/power_journal.py:483-551 | an unfinished operation that already has a result is neither completed nor released |
| JsonTree.Visit | team/power_journal.py:101-125 | the recursive walk with a shared budget succeeds exactly on trees within depth, node and key limits, whatever order members are visited in |
| JsonTree.WithinLimits | team/local_chat_continuations.py:100-126 | the budgeted check is exactly the structural limit |
| AtMostOnce.TransactionKeepsTables | team/power_journal.py:313-335 | every transaction keeps the tables as the schema and the handle rules require |
| AtMostOnce.TransactionConserves | team/power_journal.py:431-551 | one transaction inside one batch incarnation: a grant is paid for by a suspension or stays outstanding |
| AtMostOnce.GrantsAreConserved | team/power_journal.py:381-584 | over any run, the grants of an operation equal its effective suspensions plus one exactly while it is executing or completed |
| AtMostOnce.AtMostOneGrantWithoutSuspension | team/power_journal.py:431-468 | in a fresh batch without suspensions every operation is granted at most once, whoever asks |
| AtMostOnce.PendingBatchBlocksOthers | team/power_journal.py:381-429 | while a batch is pending, preparing a different one changes nothing and conflicts |
| AtMostOnce.AtMostOneClientPerOperation | team/power_execution.py:128-144 | in every reachable state at most one client is between the grant of an operation and its outcome |
| AtMostOnce.CrashLosesEveryExecution | team/power_journal.py:431-468 | a crash leaves every executing operation executing with nobody responsible for it |
| AtMostOnce.LostEffectIsNeverRepeated | team/power_journal.py:431-551 | an operation left executing is never granted again; only purging its generation ends that |
| AtMostOnce.PurgeRemovesExactly | team/power_journal.py:586-596 | a purge succeeds exactly on a working database; then nothing of its generation is left and every other one is as before |
| AtMostOnce.PurgeEndsLostEffect | team/container_policy/hosted_lifecycle.py:413-414 | after a lost effect a purge makes room: a valid batch can be prepared for the generation and each of its operations is granted again |
| AtMostOnce.StuckBatchIsFrozen | team/power_execution.py:119-156 | once an effect may have been lost, no row of its generation changes and nothing is granted over any interleaving of clients that work through their batches in order |
| AtMostOnce.LaterOperationCouldBeGranted | team/power_journal.py:431-468 | the order is needed: the journal itself would still grant a later prepared operation of the stuck batch |
| ChatOrchestrator.Received | team/brain_runtime_client.py:163-213 | only turns within the closed response contract are used |
| TurnEffects.ReceivedIsExact | team/brain_runtime_client.py:163-213 | a turn is used exactly if the Brain answered it and it is a non-blank reply with nothing to run, or 1 to 64 named requests without a reply |
| ChatOrchestrator.ValidateBatch | team/chat_orchestrator.py:79-112 | an accepted suspension is non-empty, keeps every interrupt id in order and repeats none |
| ChatOrchestrator.ContinuationKeepsPosition | team/chat_orchestrator.py:140-148 | a continuation restores exactly the position it was taken at |
| ChatTurn.PowerOperationCommits | team/power_execution.py:43-73 | two operations are equal exactly when request, workload, image and every private-state generation are equal |
| WorkloadIdentity.OperationIsBound | team/power_execution.py:106-117 | the operations a turn prepares and invokes are those made from the bound container, image and private-state generations |
| WorkloadIdentity.SameOperation | team/power_execution.py:43-73 | two workloads give a request the same operation exactly if they give it the same identity |
| WorkloadIdentity.PendingBatchIsAcceptedExactly | team/power_journal.py:381-405 | a pending batch is prepared again exactly if no identity in it changed, every request is ready and the journal answers; its tables stay |
| WorkloadIdentity.ChangedIdentityConflicts | team/power_execution.py:128-136 | an operation is looked up exactly while its identity is the prepared one; otherwise it conflicts and nothing has happened |
| WorkloadIdentity.ChangedWorkloadNeverResumes | team/chat_orchestrator.py:207-219 | a turn paused inside a batch and resumed after an identity in it changed runs nothing, sends nothing, leaves the journal alone and does not finish |
| ChatTurn.PowerBatch.Prepare | team/power_execution.py:119-126 | prepares all operations or none, through one journal transaction |
| ChatTurn.PowerBatch.Invoke | team/power_execution.py:128-144 | executes a Power only on a grant for the operation as prepared, and records what came of it |
| ChatTurn.PowerBatch.Delivered | team/power_execution.py:146-156 | only the batch as prepared can be acknowledged |
| ChatTurn.ValidateWhole | team/chat_orchestrator.py:79-112 | the two loops compute the whole-batch validation: no input is validated before all contracts are declared and all ids are new |
| ChatTurn.InvokeBatch | team/chat_orchestrator.py:150-172 | the loop over a prepared batch does what the recursive specification does, polling for a stop and a changed context before each Power |
| ChatTurn.HandOver | team/chat_orchestrator.py:174-183 | resumes the Brain once with all results, refuses repeated interrupts, then acknowledges the batch |
| ChatTurn.DriveTurn | team/chat_orchestrator.py:115-185 | the bounded loop computes the specified turn from any continuation |
| ChatTurn.StartTurn | team/chat_orchestrator.py:188-204 | starting a turn is driving it from the Brain's first response |
| TurnEffects.DriveRunsOnlyJustified | team/chat_orchestrator.py:79-172 | every Power a segment runs is declared, gets the input its validator returned and exactly the answers given, in a batch that was not to be paused before; a pause that asks carries the question of the Power that ran last |
| TurnEffects.InvokeIsExact | team/power_execution.py:128-144 | one invocation by the state of its operation: a prepared one is granted, run once and recorded; one that fails or whose outcome cannot be recorded stays executing; a completed one is answered; nothing else runs anything |
| TurnEffects.HandAcknowledgesLast | team/chat_orchestrator.py:174-183 | a batch is acknowledged exactly once the Brain has taken its results and asked for nothing again; until then the journal stays as it is |
| TurnEffects.JournalAtTheEnd | team/chat_orchestrator.py:126-183 | when the Brain fails the batch it did not take is still pending, and a pause before a batch leaves nothing of it in the journal |
| TurnEffects.HaltEndsBatch | team/chat_orchestrator.py:150-158 | once stopped, or once the context has changed, a batch ends at its next poll with nothing more run |
| TurnEffects.HaltEndsTurn | team/chat_orchestrator.py:126-176 | once stopped, or once the context has changed, a turn does nothing more from its next poll on, is not finished, and gets there within a few ticks |
| TurnEffects.StopAllowsOneMore | team/chat_orchestrator.py:150-158 | after a stop that stays, at most one Power runs beyond those granted before it |
| TurnEffects.HaltedTurnNeverStarts | team/chat_orchestrator.py:188-204 | a turn stopped before it starts does nothing |
| PauseTransparency.InvokeNext | team/power_execution.py:128-144 | the next operation of a batch completes, is suspended with the journal as before, or fails the segment |
| PauseTransparency.InvokeCompleted | team/power_journal.py:431-468 | an operation that has completed is answered from the journal without executing or changing anything |
| PauseTransparency.DriveKeeps | team/chat_orchestrator.py:115-185 | a segment that finishes ends as the fault-free reference turn does; one that pauses leaves a state from which that reference turn goes on unchanged |
| PauseTransparency.ResumeTurnKeeps | team/chat_orchestrator.py:207-219 | however often a turn pauses and is continued, if it finishes it ends as the reference turn with its final answers |
| PauseTransparency.QuietDrive | team/chat_orchestrator.py:115-185 | where the reference turn ends, the turn without pauses or faults ends the same, executing nothing twice |
| PauseTransparency.PausingIsTransparent | team/chat_orchestrator.py:115-219 | a turn paused before or inside batches any number of times, with only continuation, answers and journal surviving, has the outcome, the results sent to the Brain and the completing executions of the unpaused turn |
| PausedTurnExample.PausedTurnFinishes | team/chat_orchestrator.py:115-219 | a concrete turn pauses inside a batch, is answered, continued and finishes, so the assumptions of transparency are met |
| TurnBounds.DriveKeepsBounds | team/chat_orchestrator.py:126-183 | every pause of a segment is within bounds and the Brain is resumed at most 8 - round index times |
| TurnBounds.EveryPauseIsBounded | team/chat_orchestrator.py:115-219 | over any number of pauses: round index 0 to 7, seen interrupts ascending, as many as invoked Powers, at most 512, disjoint from the pending batch, at most 8 resumes |
| TurnBounds.CompletingExecutionsAreTheOutcome | team/chat_orchestrator.py:149-183 | the completing executions of a finished turn are exactly the Powers its outcome lists, in order, one per interrupt |
| TurnBounds.CrashInsideIsStuck | team/power_execution.py:137-144 | a crash between grant and outcome leaves a stuck operation |
| TurnBounds.StuckGenerationIsFrozen | team/power_journal.py:446-450 | once an operation is stuck, no segment of any turn executes a Power, changes the journal or resumes the Brain |
| AutoApproval.Requirement | team/assistant_human/approval_flow.py:28-80 | an approval request is accepted only for the next answer of its Power, at most 63 |
| AutoApproval.RequirementExactly | team/assistant_human/approval_flow.py:28-80 | an approval request is accepted as exactly the requirement whose payload it is, for the paused Power and its next answer |
| AutoApproval.Judge | team/assistant_human/hosted_chat_segment.py:155-188 | an automatic answer is given only to an approval of the paused Power within the ordinal limit |
| AutoApproval.JudgeExactly | team/assistant_human/hosted_chat_segment.py:155-188 | each verdict with its exact condition: granted exactly if the requirement runs once and the human has granted that very one; asked exactly if it is in order and not granted so |
| AutoApproval.OnlyGrantedIsApproved | team/assistant_human/hosted_chat_segment.py:394-443 | however the loop ends, no Power was run with and no turn continued on an answer that was neither given before nor granted once for that Power and ordinal |
| AutoApproval.EveryStretchIsChecked | team/assistant_human/hosted_chat_segment.py:394-420 | the Team's identity is checked before each stretch and its credential after it |
| AutoApproval.PauseAdvances | team/chat_orchestrator.py:126-172 | a pause is in a later round, or in the same round with the same batch, and asks about that batch |
| AutoApproval.AutomaticAnswerDecreases | team/assistant_human/hosted_chat_segment.py:397-431 | every automatic answer lowers the pair of rounds left and answers left in the current batch |
| AutoApproval.RunHostedSegment | team/assistant_human/hosted_chat_segment.py:394-443 | the unbounded loop terminates and computes the specified segment |
| AutoApproval.AskedApprovalIsNext | team/assistant_human/hosted_chat_segment.py:408-442 | an approval that reaches the human is for the paused Power and its next ordinal |
| AutoApproval.AnswersOnlyGrow | team/assistant_human/hosted_chat_segment.py:421-424 | the loop only appends true answers and never passes 64 per Power |
| AutoApproval.HostedResumes | team/assistant_human/hosted_chat_segment.py:394-443 | the loop is a sequence of resumptions with the answer true |
| AutoApproval.AutoApprovalIsTransparent | team/assistant_human/hosted_chat_segment.py:394-443 | an auto-approved turn that finishes is the turn that had those approvals from the start |
| HumanAnswers.SubmissionIsExact | team/assistant_human/hosted_chat_api.py:401-416 | a submission succeeds exactly at the ordinal after the stored answers, appends one answer, and cannot be replayed |
| HumanAnswers.SubmissionAnswers | team/assistant_human/hosted_chat_api.py:474-503 | the resumed log is the log at the pause with the answer appended for the Power that asked |
| HumanAnswers.LifeResumes | team/assistant_human/hosted_chat_api.py:368-438 | segments, automatic approvals and submissions together are one resumed turn |
| HumanAnswers.HostedLifeIsTransparent | team/assistant_human/hosted_chat_api.py:441-523 | the whole life of a hosted turn, with any number of submissions, ends as the turn that had all answers from the start |
| ChatTurnEngine.OneGateIsOnly | team/chat_turn_engine.py:229-230 | the gate count is one exactly when one kind of requirement is present |
| ChatTurnEngine.Dispatch | team/chat_turn_engine.py:253-269 | a paused turn goes to the handler of its only kind of requirement, and to none otherwise |
| ChatTurnEngine.AdmissionConsumesItsChallenge | team/chat_turn_engine.py:114-145 | an admitted continuation consumed the very challenge it was decided on; missing accounts leave it; a changed identity removes it |
| ChatTurnEngine.AdmissionIsExact | team/chat_turn_engine.py:114-145 | each outcome with its exact condition: admitted exactly if the challenge is live and the Team's, state and identity are valid, no account is missing, and the same challenge is live when it is claimed |
| ContinuationCodec.NormalizedIsCanonical | team/inference_config.py:48-55 | normalizing an inference configuration is idempotent |
| ContinuationCodec.ContinuationExactly | team/local_chat_continuations.py:304-355 | a Brain continuation decodes exactly from the encoding of a well-formed one |
| ContinuationCodec.IdentityExactly | team/local_chat_continuations.py:358-406 | a Team identity decodes exactly from its encoding, up to the spelling of provider and model |
| ContinuationCodec.PendingExactly | team/local_chat_continuations.py:409-461 | a pending chat decodes exactly from its encoding |
| ContinuationCodec.RequirementExactly | team/local_chat_continuations.py:471-608 | each of the four requirement decoders accepts exactly the encodings of well-formed requirements of its kind |
| ContinuationCodec.RequirementFitsBudget | team/local_chat_continuations.py:187-196 | the structure budget never refuses a well-formed requirement |
| ContinuationCodec.WellFormedEncodes | team/local_chat_continuations.py:237-261 | a well-formed value is encoded exactly when its release bindings hold and its payload fits |
| ContinuationCodec.DecodeExactly | team/local_chat_continuations.py:611-635 | a record decodes to a value exactly when the value is well-formed, has the record's kind and bindings, and encodes to its payload up to the spelling of schema number and inference |
| ContinuationCodec.RoundTrip | team/local_chat_continuations.py:237-261 | an encoded value decodes to itself with its own bindings exactly when it is well-formed |
| ContinuationReader.ReadContinuation | team/local_chat_continuations.py:304-355 | the item-by-item decoder computes the specified decoding |
| ContinuationReader.ReadIdentity | team/local_chat_continuations.py:358-406 | the item-by-item decoder computes the specified decoding |
| ContinuationReader.ReadPending | team/local_chat_continuations.py:409-461 | the item-by-item decoder computes the specified decoding |
| ContinuationReader.Read | team/local_chat_continuations.py:611-635 | the whole decoder computes the specified decoding |
| StoredPauses.PauseFitsDecoder | team/local_chat_continuations.py:304-355 | a reachable pause is decodable exactly when its Power inputs respect the structure limits |
| StoredPauses.EveryPauseFitsDecoder | team/local_chat_continuations.py:287-355 | the same over any number of pauses of any turn |
| StoredPauses.AnswersSurviveStorage | team/assistant_human/hosted_chat_segment.py:191-197 | the sorted answer log loses no answer and reads back to the same answers |
| StoredPauses.AnswersInIsExact | team/assistant_human/hosted_chat_segment.py:191-202 | a stored log is read exactly if it repeats no interrupt, and then as exactly what it lists |
| StoredPauses.StoredPauseResumes | team/local_chat_continuations.py:611-635 | a turn resumed from its decoded record goes on exactly as from memory |
| StoredPauses.TooManyAnswerLogsAreLost | team/local_chat_continuations.py:434-451 | a pause with answers for more than 64 interrupts is encoded but never decodes |
| ManyAnswers.SixtyFiveAnswersAreReachable | team/chat_orchestrator.py:115-219 | 64 Powers that each ask once and a second round that asks again pause a turn with answers for 65 interrupts |
| ManyAnswers.ReachablePauseIsLost | team/local_chat_continuations.py:434-451 | that pause is written without complaint and its record never decodes |
| ContinuationStore.EncryptedContinuationStore.Put | team/local_chat_continuation_store.py:363-428 | seals one record per Team under its own metadata and next generation, within capacity and time limit |
| ContinuationStore.EncryptedContinuationStore.Active | team/local_chat_continuation_store.py:464-476 | removes the expired records for good and opens all others in Team order |
| ContinuationStore.EncryptedContinuationStore.Delete | team/local_chat_continuation_store.py:482-498 | removes a record only for the challenge it belongs to |
| ContinuationStore.EncryptedContinuationStore.Clear | team/local_chat_continuation_store.py:500-510 | removes every record with one write |
| ContinuationStore.PutIsExact | team/local_chat_continuation_store.py:363-428 | a put succeeds exactly for a named, bound, short-lived and bounded request with room, a key and an acknowledged write |
| ContinuationStore.NewRecordIs | team/local_chat_continuation_store.py:388-420 | a record has the next generation, its bindings in order and exactly once, and opens under its own metadata only |
| ContinuationStore.ExpiryIsExact | team/local_chat_continuation_store.py:464-475 | after a successful expiry a Team has a record exactly if it had one that is not expired, unchanged |
| ContinuationStore.DeletionIsExact | team/local_chat_continuation_store.py:482-498 | a deletion removes the record exactly if it is of the named challenge, and says so |
| ContinuationStore.ClearingIsExact | team/local_chat_continuation_store.py:500-510 | a successful clearing leaves no record, and reports how many there were |
| ContinuationStore.ExpiredNeverReturns | team/local_chat_continuation_store.py:464-476 | over any run without a new put of its Team, an expired record that was removed never comes back |
| ContinuationStore.RunKeepsTimely | team/local_chat_continuation_store.py:363-385 | no stored pause outlives the latest clock reading of a put by more than the time limit |
| ContinuationStore.RefusedPutLeavesExactly | team/local_chat_continuation_store.py:363-428 | a refused put changes the records exactly if every check passed and only the acknowledgement of the write failed, and the key file exactly if one was created on the way |
| ContinuationStore.RefusedPutsThatLeaveSomething | team/private_state.py:84-126 | two refused puts on an empty disk, one leaving its record and one leaving only a key |
| ContinuationStore.RunKeepsSealed | team/local_chat_continuation_store.py:352-476 | in every durable state, after any failed write or crash, every record opens under its own metadata with the key on disk, which never changes |
| ContinuationStore.SparedRecordSurvives | team/local_chat_continuation_store.py:464-498 | a record that has not expired and was neither replaced nor deleted stays as it was |
| ContinuationStore.StoredPauseIsRecovered | team/local_chat_continuation_store.py:363-476 | a stored pause is found again by any later reader and decodes to the pause that was stored |
| ChallengeStore.ChallengeStore.ExpireDue | team/challenge_store.py:177-182 | removes exactly the challenges that are due, with their Team entries |
| ChallengeStore.ChallengeStore.CreateFor | team/challenge_store.py:61-84 | adds one challenge with an unused id, unless the Team has one or the store is full |
| ChallengeStore.ChallengeStore.GetFor | team/challenge_store.py:86-91 | shows a live challenge to its own Team without consuming it |
| ChallengeStore.ChallengeStore.RestoreFor | team/challenge_store.py:93-126 | rehydrates one challenge for at most the time limit |
| ChallengeStore.ChallengeStore.ClaimAfter | team/challenge_store.py:138-156 | hands over a live challenge of the Team only after its transaction commits |
| ChallengeStore.ChallengeStore.CancelFor | team/challenge_store.py:158-162 | removes the Team's challenge and its entry |
| ChallengeStore.ClaimIsTransactional | team/challenge_store.py:138-156 | a claim succeeds exactly for a live challenge of that Team with a successful commit; otherwise only due challenges are gone |
| ChallengeStore.AdditionIsExact | team/challenge_store.py:61-126 | a challenge is created or restored exactly for a well-formed request of a Team without a live one, while there is room; each refusal has its exact condition |
| ChallengeStore.CurrentIsExact | team/challenge_store.py:128-133 | the current challenge of a Team is its live one, if it has one |
| ChallengeStore.CancellationIsExact | team/challenge_store.py:158-162 | a cancellation removes the Team's challenge and nothing else, and says whether it had one |
| ChallengeStore.StepKeepsInverse | team/challenge_store.py:61-182 | every operation keeps id map and Team map mutual inverses within capacity |
| ChallengeStore.RunKeepsInverse | team/challenge_store.py:61-182 | the same in every reachable state |
| ChallengeStore.ChallengesAreConserved | team/challenge_store.py:61-182 | per id, creations and restorations equal claims, expiries, cancellations and what is pending |
| ChallengeStore.ClaimedAtMostOnce | team/challenge_store.py:138-156 | a challenge created once is claimed at most once |
| ChallengeStore.RunKeepsTimely | team/challenge_store.py:93-126 | no challenge outlives the latest clock reading by more than the time limit, with clocks in any order |
| PkceChallenges.PkceChallengeStore.CreateFor | team/oauth_pkce_challenges.py:168-217 | issues a challenge after the binding, total, session and Team checks in that order |
| PkceChallenges.PkceChallengeStore.ClaimExactly | team/oauth_pkce_challenges.py:219-251 | releases a verifier only to its complete binding and leaves a mismatched challenge pending |
| PkceChallenges.PkceChallengeStore.ClaimFromCallback | team/oauth_pkce_challenges.py:253-284 | releases a verifier to the state and session alone |
| PkceChallenges.PkceChallengeStore.CancelOfSession | team/oauth_pkce_challenges.py:286-296 | removes exactly the challenges of one session |
| PkceChallenges.PkceChallengeStore.CancelOfTeam | team/oauth_pkce_challenges.py:298-304 | removes exactly the challenges of one Team |
| PkceChallenges.RunKeepsOk | team/oauth_pkce_challenges.py:151-311 | after any sequence of operations the binding index is the exact inverse of the pending map and total, session and Team limits hold |
| PkceChallenges.IssueIsExact | team/oauth_pkce_challenges.py:168-217 | a challenge is issued exactly within all four quotas of live challenges, and the first quota that fails is reported |
| PkceChallenges.CancellationIsExact | team/oauth_pkce_challenges.py:286-304 | a cancellation removes exactly the states of its session or Team, and counts them |
| PkceChallenges.ClaimReleasesMatchingVerifier | team/oauth_pkce_challenges.py:219-284 | a verifier is released exactly to a live state with matching bindings, and hashes to the published challenge |
| PkceChallenges.StatesAreConserved | team/oauth_pkce_challenges.py:151-311 | every issued state is released, discarded or still pending, and only one of these |
| PkceChallenges.VerifierReleasedAtMostOnce | team/oauth_pkce_challenges.py:219-284 | a state issued once releases its verifier at most once |
| PkceChallenges.ReleaseAnswersChallenge | team/oauth_pkce_challenges.py:191-217 | a verifier released after any further operations answers the challenge issued for its state |
| ChatRuntime.ChatRuntime.BeginTurn | team/assistant_human/hosted_chat_api.py:47-50 | makes the token the Team's active one |
| ChatRuntime.ChatRuntime.EndTurn | team/assistant_human/hosted_chat_api.py:53-59 | forgets the Team's turn, its Power and the token's mark in one section |
| ChatRuntime.ChatRuntime.RegisterPower | team/assistant_human/hosted_assistants.py:252-258 | registers only for the active, unmarked token without another active Power |
| ChatRuntime.ChatRuntime.ReleasePower | team/assistant_human/hosted_assistants.py:261-264 | releases exactly the registration it was made for |
| ChatRuntime.ChatRuntime.CommitTerminal | team/runtime_state.py:314-322 | refuses a marked token and otherwise retires the Team's active token |
| ChatRuntime.ChatRuntime.MarkCancelled | team/assistant_human/hosted_chat_api.py:559-565 | marks the active token only when it belongs to the container being stopped |
| ChatRuntime.ChatRuntime.ClearTeam | team/runtime_state.py:296-306 | forgets everything of one Team and nothing of another |
| ChatRuntime.BeginEndRestores | team/assistant_human/hosted_chat_api.py:46-59 | beginning and ending a turn leaves no trace |
| ChatRuntime.EndForgets | team/assistant_human/hosted_chat_api.py:53-59 | the end of a turn forgets the entries of its Team and its own mark, and nothing else |
| ChatRuntime.RegisterIsExact | team/assistant_human/hosted_assistants.py:252-258 | a Power is registered exactly for the Team's active, unmarked token while it has no other |
| ChatRuntime.ReleaseUndoesRegister | team/assistant_human/hosted_assistants.py:252-264 | a release undoes its own registration and no other |
| ChatRuntime.CommitIsExact | team/runtime_state.py:314-322 | a turn commits exactly if it is not marked, and is then no longer active |
| ChatRuntime.MarkIsExact | team/assistant_human/hosted_chat_api.py:552-565 | a stop marks exactly the active turn of the container it was asked to stop |
| ChatRuntime.MarkExcludesCommit | team/runtime_state.py:314-322 | mark and commit exclude each other, whichever comes first, and after the mark nothing registers |
| ChatRuntime.ClearForgets | team/runtime_state.py:296-306 | clearing forgets everything of one Team, its mark and blocked workloads included, and nothing of another |
| ChatStop.EveryReachableStateIsOk | team/assistant_human/hosted_chat_api.py:30-59 | every interleaving of turns, Powers, stops and clearing keeps tokens, registrations, running Powers, stops and challenges in step |
| ChatStop.SuccessfulStopLeavesExactly | team/assistant_human/hosted_chat_api.py:526-565 | over runs from the start, after a successful stop a Power of the stopped turn may still execute exactly if that turn itself gave up on it without proof of termination and its container was not halted nor its Team cleared since |
| ChatStop.SuccessfulStopLeavesNothingRunning | team/assistant_human/hosted_chat_api.py:526-565 | if no termination of the turn stayed unproved, no Power of it executes after a successful stop |
| ChatStop.SuccessfulStopCanLeavePower | team/assistant_human/hosted_assistants.py:282-288 | a run in which a stop succeeds although a Power of its turn still executes |
| ChatStop.MarkedTurnCannotRegister | team/assistant_human/hosted_assistants.py:252-258 | registering for a marked token changes nothing |
| ChatStop.NothingRegistersAfterMark | team/assistant_human/hosted_assistants.py:252-264 | after the mark a turn holds only containers it held before |
| ChatStop.MarkedTurnCannotCommit | team/runtime_state.py:314-322 | a marked turn's commit is rejected and a committed token is never marked |
| ChatStop.UncommittedTurnLeavesNoChallenge | team/chat_turn_engine.py:237-250 | once a turn has ended, a challenge it created is still pending only if the turn committed |
| ChatStop.EveryCancelledTokenIsActive | team/runtime_state.py:296-322 | every cancelled token is some Team's active token |
| ChatStop.DroppedChallengeIsNeverClaimed | team/assistant_human/hosted_chat_api.py:545-551 | a challenge removed by a stop is never claimed |
| StopProgress.CommitIsDecidedByMark | team/chat_turn_engine.py:237-250 | a turn settles as committed exactly if its context matches and no stop has marked it |
| StopProgress.PersistAndRollBack | team/chat_turn_engine.py:237-250 | a persisted challenge is new, and rolling back a refused commit removes exactly it |
| StopProgress.ClaimTakesChallenge | team/challenge_store.py:138-156 | a claim takes the pending challenge of its Team and kind, which was never claimed before |
| StopProgress.UndisturbedTurnCommits | team/assistant_human/hosted_chat_api.py:30-59 | a turn nobody disturbs executes its Power, commits, and leaves nothing behind but its history |
| StopProgress.UndisturbedStopEndsTurn | team/assistant_human/hosted_chat_api.py:526-565 | a stop that nothing fails removes every pending challenge of the Team, marks the turn and halts the container of its Power |
| OAuthAccounts.OAuthAccountStore.JoinFlight | team/oauth_account_store.py:411-415 | joins the account's lock, creating it on first use |
| OAuthAccounts.OAuthAccountStore.LeaveFlight | team/oauth_account_store.py:419-424 | leaves the lock and removes its entry with the last user |
| OAuthAccounts.OAuthAccountStore.Put | team/oauth_account_store.py:548-603 | stores the next generation of an account within the Assistant's and the file's capacity, whatever becomes of the write |
| OAuthAccounts.OAuthAccountStore.Swap | team/oauth_account_store.py:636-654 | writes refreshed tokens only over the generation they came from; a failed write is reported even when it took effect |
| OAuthAccounts.OAuthAccountStore.Drop | team/oauth_account_store.py:783-791 | deletes only the generation whose tokens were revoked; a failed write is reported even when it took effect |
| OAuthAccounts.OAuthAccountStore.RetainDeclared | team/oauth_account_store.py:718-738 | discards exactly the undeclared accounts of one Assistant in one write, and writes nothing when there are none |
| OAuthAccounts.RetentionIsExact | team/oauth_account_store.py:718-738 | exactly the undeclared accounts of one Assistant go; without any, nothing is written and nothing reported |
| OAuthAccounts.ReadIsExact | team/oauth_account_store.py:617-634 | an access token is handed out without a callback exactly if it is usable and outlives the refresh window; the provider is called exactly for a usable one that does not and can be refreshed |
| OAuthAccounts.UndisturbedRefreshCompletes | team/oauth_account_store.py:605-655 | a thread nobody disturbs joins the lock, refreshes, stores what it was given and leaves no entry behind |
| OAuthAccounts.RunKeepsInv | team/oauth_account_store.py:411-424 | every lock counts exactly its threads and every thread of an account uses the lock in the table |
| OAuthAccounts.SingleFlight | team/oauth_account_store.py:605-655 | at most one thread is inside the refresh or revocation callback of an account |
| OAuthAccounts.EntriesExistWhileUsed | team/oauth_account_store.py:411-424 | the table has an entry for an account exactly while some thread uses it |
| OAuthAccounts.WaitersShareOneLock | team/oauth_account_store.py:411-424 | two threads of one account always use the same lock |
| OAuthAccounts.GenerationIdentifiesRecord | team/oauth_account_store.py:571-592 | while an account is not deleted its generation identifies its record |
| OAuthAccounts.WriteLosesNoPut | team/oauth_account_store.py:636-654 | with no delete since the read, a write back or a deletion changes the file only over the very record that was read, even when the write is reported as failed |
| OAuthAccounts.WriteSucceedsExactly | team/oauth_account_store.py:436-441 | a finished callback succeeds exactly when declaration, status and generation are as read and the write is acknowledged, and changes the file exactly when the write took effect |
| OAuthAccounts.RunKeepsLimits | team/oauth_account_store.py:291-318 | in every reachable state no Assistant has more than 16 accounts and the file no more than 4096 records |
| OAuthAccounts.DeleteThenPutCanBeLost | team/oauth_account_store.py:571-573 | a run in which an account is removed and put again during a refresh, and the refreshed tokens replace what was put |
| EncryptedState.EncryptedStore.AnyRecords | team/private_state.py:155-165 | true exactly when some nested record exists |
| EncryptedState.EncryptedStore.ReadKey | team/private_state.py:117-126 | creates a key only when allowed and never replaces one |
| EncryptedState.EncryptedStore.PutForAssistants | team/assistant_secret_store.py:254-301 | one transaction seals all values with next generations and replaces the state once |
| EncryptedState.EncryptedStore.Remove | team/assistant_secret_store.py:357-400 | removes exactly what is named, prunes emptied levels, and writes only when something changed |
| EncryptedState.EncryptedStore.ResolveMany | team/assistant_secret_store.py:307-338 | resolves all requested values or none |
| EncryptedState.PutIsExact | team/assistant_secret_store.py:254-301 | a put succeeds exactly with a key, within both limits and with an acknowledged write; a missing key of existing records is an error |
| EncryptedState.RemovalIsExact | team/assistant_secret_store.py:357-400 | a removal reports success exactly if it found and wrote something, and then exactly the records it names are gone |
| EncryptedState.RunKeepsLimits | team/assistant_secret_store.py:146-177 | in every durable state no Assistant and not the file has more records than allowed |
| EncryptedState.RunKeepsSealed | team/private_state.py:117-165 | in every durable state, after any failed write or crash, records imply the key, which never changes and opens each under its own slot and generation |
| EncryptedState.PutThenResolve | team/assistant_secret_store.py:254-338 | after a put the new values resolve and every other slot is as before |
| EncryptedState.StoredValuesResolve | team/assistant_secret_store.py:307-338 | a value resolves exactly when it is stored |
| PrivateFiles.KeyIsWrittenOnce | team/private_state.py:117-126 | a key that exists never changes, and the key file changes exactly when one is created, acknowledged or not |
| EncryptedState.RefusedPutLeavesExactly | team/assistant_secret_store.py:254-301 | a refused put changes the records exactly if everything up to the acknowledgement of the state write succeeded, and the key file exactly if one was created on the way |
| EncryptedState.RefusedPutsThatLeaveSomething | team/private_state.py:84-126 | two refused puts on an empty disk, one leaving its record and one leaving only a key |
| EncryptedState.MovedRecordIsRefused | team/oauth_account_store.py:321-342 | a record opens under no other slot, generation or metadata |
| PgTenancy.AppDatabasesDiffer | pg/validate.py:66-70 | within one namespace different Apps have different databases |
| PgTenancy.NamesCanCollide | pg/validate.py:62-70 | a Team's database name can be another Team's App database name |
| PgTenancy.PgDriver.CreateDbAndRole | pg/pg_client.py:130-169 | creates database and role together, compensating for a failed command |
| PgTenancy.PgDriver.Cleanup | pg/pg_client.py:113-127 | drops only what this attempt created, trying both even when one fails |
| PgTenancy.PgDriver.DropDbAndRole | pg/pg_client.py:206-212 | drops the database and then its role |
| PgTenancy.PgDriver.ProvisionTeam | pg/app.py:41-63 | provisions a Team's database and commits its principal, or compensates |
| PgTenancy.PgDriver.CreateApp | pg/app.py:66-88 | provisions an App database in the principal's namespace, or compensates |
| PgTenancy.PgDriver.DropApp | pg/app.py:91-106 | drops a registered App database, or proves it absent |
| PgTenancy.PgDriver.DropTeam | pg/app.py:109-120 | drops each registered database and then retires the principal |
| PgTenancy.PgDriver.FinalizeTeam | pg/app.py:123-126 | removes only a retired principal |
| PgTenancy.ProvisionIsExact | pg/pg_client.py:113-179 | provisioning never drops anything that existed, registers the principal exactly if it succeeds, and adds exactly its own database and role |
| PgTenancy.CreateAppIsExact | pg/app.py:66-88 | the same for creating an App database |
| PgTenancy.FaultFreeProvisioning | pg/app.py:41-63 | without faults a Team is provisioned exactly if its name is free, or is its own already with both objects |
| PgTenancy.FaultFreeAppCreation | pg/app.py:66-88 | the same for an App of an active principal; a name that exists without being registered is refused |
| PgTenancy.AppDropIsExact | pg/app.py:91-106 | what a drop reports is what it did, whatever failed; without faults a registered database goes, an absent one is reported, and a foreign one refused |
| PgTenancy.TeamDropIsGuarded | pg/app.py:109-120 | a Team is dropped only for its own token, once the registry could be read; otherwise nothing is touched |
| PgTenancy.FinalizationIsExact | pg/app.py:123-126 | a finalization succeeds exactly if nothing of the Team is registered, or only what was retired, which is then removed |
| PgTenancy.CommitIsExact | pg/principal_store.py:73-192 | the registry changes exactly if it could be read, the change is allowed, and it could be written |
| PgTenancy.CompensationReports | pg/pg_client.py:113-127 | a compensation reports the problem it compensates for exactly if every owed drop succeeds, a timeout if one timed out, and its own failure otherwise |
| PgTenancy.CreateRestoresExactly | pg/pg_client.py:113-169 | a refused creation of a new name leaves the stores unchanged exactly if a query failed, CREATE ROLE failed first and without effect, or the first failure is one that is compensated and every owed drop takes effect in time |
| PgTenancy.RefusedProvisionRestoresExactly | pg/app.py:41-63 | a refused provisioning leaves both stores unchanged exactly if it created nothing new or the verdicts it met, up to and after the registry commit, restore them |
| PgTenancy.RefusedCreateAppRestoresExactly | pg/app.py:66-88 | the same for creating an App database |
| PgTenancy.TimeoutLeavesRoleBehind | pg/pg_client.py:56-62 | a command that times out escapes the compensation: its role stays and every retry fails |
| PgTenancy.StepKeepsTenancy | pg/principal_store.py:73-192 | each operation keeps registered databases existing and unshared, one record per Team and distinct, surviving namespaces, and leaves every other Team's databases alone |
| PgTenancy.RunKeepsTenancy | pg/app.py:41-126 | the same over every run in which tokens of different Teams differ and drops meet no fault, even when names collide |
| PgTenancy.SharedTokenStealsRecord | pg/principal_store.py:86-95 | a successful registration takes another Team's record away exactly if its token is already that Team's |
| CleanupState.CleanupStore.Begin | team/cleanup_state.py:170-195 | creates one anchor per Team or returns the pending one of the same owner and Brain |
| CleanupState.CleanupStore.MarkDbDropped | team/cleanup_state.py:198-213 | records the drop only on the exact pending record |
| CleanupState.CleanupStore.Finish | team/cleanup_state.py:216-228 | removes only the exact record |
| CleanupState.BeginIsExact | team/cleanup_state.py:170-195 | a new anchor is made exactly while there is room and none is pending; a pending one is returned exactly to its own owner and Brain |
| CleanupState.MarkIsExact | team/cleanup_state.py:198-213 | only the exact pending record is marked, and only its phase changes |
| CleanupState.FinishIsExact | team/cleanup_state.py:216-228 | only the exact pending record is removed; one that is gone counts as removed |
| CleanupState.RunKeepsRecords | team/cleanup_state.py:170-228 | in every reachable state all records are valid and within capacity |
| CleanupState.AnchorIsImmutable | team/cleanup_state.py:170-213 | until it is finished an anchor keeps owner, Brain and nonce, and a recorded drop stays recorded |
| Teardown.HostedTeam.RunStages | team/container_policy/hosted_lifecycle.py:241-252 | runs the removal stages in order up to the first that fails |
| Teardown.HostedTeam.DropDatabase | team/container_policy/hosted_lifecycle.py:198-211 | drops the databases unless that is on record, then records it |
| Teardown.HostedTeam.Finalize | team/pgdriver_client.py:107-115 | finalizes the principal, forgets its token, and only then removes the record |
| Teardown.HostedTeam.Teardown | team/container_policy/hosted_lifecycle.py:229-260 | the whole teardown in its order, with the outcome it reports |
| Teardown.HostedTeam.Destroy | team/container_policy/hosted_lifecycle.py:373-429 | anchors, stops, locks, forgets the conversation and tears down |
| Teardown.StageIsExact | team/container_policy/hosted_lifecycle.py:115-195 | each stage reports success exactly if it did its work, and leaves exactly what it says it left |
| Teardown.DropPhaseIsExact | team/container_policy/hosted_lifecycle.py:198-211 | the databases are dropped once, and recorded only after the fact |
| Teardown.FinalPhaseIsExact | team/container_policy/hosted_lifecycle.py:214-226 | the token goes only after the principal, and the record only after the token |
| Teardown.TeardownReports | team/container_policy/hosted_lifecycle.py:229-260 | a foreign or uninspected Team is left alone, and what is reported is true |
| Teardown.DestroyKeepsOrder | team/container_policy/hosted_lifecycle.py:373-429 | whatever fails, the conversation is forgotten only under the chat lock with the Brain stopped, and nothing of the Team goes before the whole conversation has |
| Teardown.DropTeamForward | pg/app.py:109-120 | whatever fails while a Team is dropped, its principal stays until everything it lost is really gone |
| Teardown.AttemptRecovers | team/container_policy/hosted_lifecycle.py:229-260 | any attempt keeps the retry anchor until nothing is left; complete means nothing is left; without faults it completes |
| Teardown.DestroyRecovers | team/container_policy/hosted_lifecycle.py:373-429 | the same for a whole destroy request, including the conversation |
| Teardown.AnchorOutlivesRemovals | team/cleanup_state.py:170-228 | after any number of failed attempts the cleanup record exists from before the first removal until nothing is left |
| Teardown.TeardownConverges | team/container_policy/hosted_lifecycle.py:229-260 | after any number of failed attempts an authorized one without faults completes, and no artifact, principal, token, record or owned database is left |
| Teardown.ProvisionedIsConsistent | team/container_policy/hosted_lifecycle.py:263-341 | a Team whose provisioning committed starts in a state from which teardown recovers |
| Teardown.UncommittedNeverCompletes | team/container_policy/hosted_lifecycle.py:373-429 | the destruction of a Team whose principal was never registered never completes, whatever happens in it, and leaves the Team as unregistered |
| Teardown.UncommittedForGood | team/container_policy/hosted_lifecycle.py:373-429 | the same after any number of attempts |
| Teardown.FaultFreeDestroyCompletesExactly | team/container_policy/hosted_lifecycle.py:373-429 | an authorized destruction in which nothing fails completes exactly if the provisioning had committed |
| Teardown.ConsistentIsSound | team/container_policy/hosted_lifecycle.py:373-429 | this covers every state reached from a committed provisioning, none of which is uncommitted while a destruction is authorized |
| Teardown.HostedTeam.Provision | team/pgdriver_client.py:53-77 | writes a token before the driver is called and presents the same one on a retry |
| Teardown.ProvisioningCommits | team/pgdriver_client.py:71-77 | the driver registers a principal exactly when it accepts the request; a refusal leaves the Team unregistered |
| Teardown.DestructionNeedsProvisioning | team/pgdriver_client.py:53-115 | a Team never provisioned before can be destroyed, nothing failing, exactly if its provisioning was accepted |
| ProxyAdmission.Server.AcquireRequestSlot | app-egress/app.py:276-286 | admits within both limits or changes nothing |
| ProxyAdmission.Server.ReleaseRequestSlot | app-egress/app.py:288-296 | returns the permit and forgets one connection of the source |
| ProxyAdmission.AdmissionIsExact | app-egress/app.py:276-296 | a connection is admitted exactly while fewer than the maximum hold a permit and its source has fewer live ones than its share |
| ProxyAdmission.AcquireReleaseRestores | app-egress/app.py:276-296 | admission followed by release leaves no trace |
| ProxyAdmission.ReleaseIsAlwaysReady | app-egress/app.py:288-296 | a release never finds its source uncounted |
| ProxyAdmission.RunKeepsInv | app-egress/app.py:276-316 | with acceptor and workers interleaved, permits plus holders are the maximum, each source is counted as often as it is live and within its limit, and no connection releases twice |
| ProxyAdmission.AllPermitsReturn | app-egress/app.py:312-316 | when every admitted connection has ended all permits are back |
| RateLimiter.FixedWindowRateLimiter.Consume | team/runtime_state.py:201-218 | admits or returns the seconds to wait, pruning other windows |
| RateLimiter.CountersCountAdmissions | team/runtime_state.py:205-217 | for clock readings in any order, the counters are the admissions since the current window was last entered, and there are no others |
| RateLimiter.AdmittedExactlyWithinStay | team/runtime_state.py:211-217 | for clock readings in any order, a call is admitted exactly while fewer than limit calls of its key were admitted since its window was last entered |
| RateLimiter.InOrderIsContiguous | team/runtime_state.py:203-205 | with clock readings in order no window is seen again after another |
| RateLimiter.AdmissionIsExact | team/runtime_state.py:211-217 | if no window is seen again after another, a call is admitted exactly while fewer than limit calls of its key were admitted in its window |
| RateLimiter.AtMostLimitPerWindow | team/runtime_state.py:201-218 | if no window is seen again after another, at most limit admissions per key and window |
| RateLimiter.LimitHoldsExactly | team/runtime_state.py:201-218 | that condition is exact: one key with a limit of one is kept to it exactly if no window is seen again |
| RateLimiter.AtMostTwiceLimitPerInterval | team/runtime_state.py:201-218 | under the same condition, at most twice the limit in any interval of one window's length |
| RateLimiter.WaitingReachesLaterWindow | team/runtime_state.py:214-216 | waiting the returned seconds, at most one window, always reaches a later window |
| RateLimiter.OutOfOrderClocksExceedLimit | team/runtime_state.py:203-210 | three clock readings that return to a window admit two calls under a limit of one |
| RpcFrames.ReadExact | team/power_execution.py:396-406 | reads all the bytes asked for or reports the end of the stream, whatever the pieces |
| RpcFrames.ReadFrames | team/power_execution.py:409-435 | computes the meaning of the whole stream for every way of cutting it into pieces |
| RpcFrames.FramesRoundTrip | team/power_execution.py:409-435 | frames within the limit are read as exactly the two concatenations |
| RpcFrames.FramesParse | team/power_execution.py:424-434 | frames are accepted exactly when their payloads together are within the limit |
| RpcFrames.AcceptedExactly | team/power_execution.py:409-435 | bytes are accepted exactly if they are some frames, one after the other, whose payloads fit |
| RpcFrames.HeaderDecides | team/power_execution.py:418-434 | a frame of an unknown stream, or one that is too long, is refused on its header alone |
| RpcFrames.TruncationIsRefused | team/power_execution.py:416-430 | a stream cut anywhere is accepted exactly when it is cut between frames |

## Left out

- PauseTransparency.PausingIsTransparent: declared Powers, Power identities and the replies of Brain and Powers are fixed for one turn; what happens to a turn whose identities change while a batch is pending is `WorkloadIdentity.ChangedWorkloadNeverResumes`.
- AtMostOnce.LostEffectIsNeverRepeated: purging a generation is only allowed while no client is in flight on it, as the chat lock ensures in `team/container_policy/hosted_lifecycle.py`.
- ChatStop.SuccessfulStopLeavesExactly: containers are started again only by operations that hold the chat lock of their Team, and a Team's runtime state is cleared only after its containers are removed.
- PgTenancy.RunKeepsTenancy: drops that meet a fault can leave a registered name without a database until they are retried, so runs with faulty drops are covered by `Teardown` instead.
- OAuthAccounts.WriteLosesNoPut: holds for runs in which the account is not deleted between the read and the write.
- OAuthAccounts.OAuthAccountStore.Put: the byte limit of the state file counts as a write that fails before it took effect; sealing and the key file are in `EncryptedState`.
- RateLimiter.AtMostLimitPerWindow: holds when no window is seen again after another; the clock is read before the guard is taken, so the code does not ensure that.
- ContinuationCodec.RoundTrip: values and trees, not JSON text; lone surrogates and number spelling are not modelled, and the length of the text is a parameter.
- Regular expressions are predicates on strings; printable characters and lower-casing are parameters.
- The validation of OAuth session bindings, provider intents and token sets happens before the modelled operations.
- Docker, HTTP and SQLite themselves, file ownership checks, fsync details, audit logs and health checks.
- The local controller's copies of the chat and stop logic; `team/container_policy/hosted_resources.py` is not part of this model.
- Account disconnection over HTTP, OAuth callbacks, manifests, catalogs, container arguments, route tables and proxies' policies.
- `egress/app.py`, whose server repeats the modelled one, team storage, approval grants, the LRU caches and the App deployment of `apps/app.py`.
- The principal registry's unused `remove` and the migration that drops the historical global reader.
- Creating a Team is modelled up to its Postgres principal; networks, isolation and capacity reservation are not.
