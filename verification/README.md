# The attached worker, verified

This project models the attached-worker side of the system and proves what it promises over
whole runs: with any replies of the session and the publisher, any failed or ambiguous file
action, crashes, retries and interleavings.

Each core is a specification made of functions, theorems about every run of it, and, where
the program updates state in place, a class whose methods are proved equal to the
specification.

| module | what it models |
|---|---|
| `InlineCheckpoint`, `InlineJournal`, `InlineReceipt` | the one-shot inline receipt: a plan, four monotone facts, a durable compare-and-swap, and the sends it permits |
| `Environment`, `Adapter`, `AdapterObject` | the adapter between session and daemon, with an adversarial session |
| `LocalRecords`, `LocalStore`, `LocalShape`, `LocalRuns`, `LocalUpdates`, `LocalDurable`, `LocalLogout`, `LocalResume`, `LocalReceipts`, `LocalDirectory` | the installation directory with file faults and crashes |
| `GenerationOwner` | acknowledgement of credential generations, racing with retirement |
| `Json`, `BoundedJson` | the budgeted size counter against the full JSON text |
| `Supervisor`, `Daemon` | certified cleanup; drain, cancel and counters |
| `TriggerDrain`, `DeploymentLock`, `Profile`, `Transcript` | the request drain gate, the deployment lock, the pinned profile, the proof transcripts |

How the environment enters:

- Foreign calls (session, publisher, clock, launcher, server) answer through an oracle or a
  record of outcomes that every theorem quantifies over.
- A file action is durable, visible with a failed directory sync, or failed before the
  change. A successful directory sync makes everything visible durable. After a crash the
  directory shows, for each file on its own, some content since the last successful sync
  (a reordering crash), or one earlier content as a whole (an ordered crash). Each theorem
  says which crashes it covers. A crash may also leave a temporary file, after which every
  operation refuses.
- Digests and key fingerprints are injective constructors. Time is a number; the zero time
  is refused wherever the program refuses it.

Results that go against a first reading of the code:

- An acknowledgement that removes the receipt file but is told that the removal failed
  leaves memory and disk in disagreement although the attempt is not blocked, and the
  attempt can never finish (`InlineReceipt.StrandedExactly`,
  `InlineReceipt.StrandedForever`). This covers the call that records the acknowledgement
  and removes the file in one go.
- Sealing a record that already shows writes nothing, so a Prepare whose record an earlier
  process left unsynced is sent without a durable burn bit
  (`InlineReceipt.PrepareIsDurableExactly`).
- Logout writes its manifest without validating it; it is readable exactly when the clock
  is not before the creation time (`LocalLogout.WrittenManifestIsReadable`).
- A repeated logout syncs nothing, so its reported success is durable only under the
  condition of `LocalResume.ReportedLogoutIsDurableExactly`. `LocalResume.UnsyncedLogoutCanBeUndone`
  shows the failure, and with it a load that falls; `LocalDurable.LoadsNeverFallExactly`
  says exactly when no later load is older.
- A logout of an installation whose update was not synced need not be resumable: an
  ordered crash can leave the old manifest beside the new secret
  (`LocalResume.UnsyncedUpdateStopsLogout`). `LocalResume.LogoutFinishesExactly` says
  exactly from which directories a logout can always be finished.
- A half-done update or initialization is never repaired by any call
  (`LocalUpdates.HalfDoneIsStuck`, `LocalUpdates.HalfDoneStaysExactly`).
- On a file system that reorders unsynced directory changes a durable logout intent is not
  final: a crash can bring the whole installation back
  (`LocalResume.ReorderedCrashRevives`), exactly when the unsynced contents can be split
  (`LocalLogout.CrashKeepsPendingExactly`).
- On such a file system a logout can also become impossible to finish, or be answered as
  done with the receipt still on disk. `LocalResume.ReorderedCrashFinishesExactly` and
  `LocalResume.ReorderedCrashAnswersExactly` say exactly when.

## Model

| member | source | states |
|---|---|---|
| `InlineCheckpoint.InitialIsValid` | internal/attachedworkerdaemontransport/inline_receipt_v2.go:76-79 | the record an attempt seals first is valid whenever its plan is |
| `InlineCheckpoint.ExtendAdvances` | internal/attachedworkerdaemontransport/inline_receipt_v2.go:161-179 | every successor the adapter builds by adding one admissible fact is an admissible advance of its predecessor |
| `InlineCheckpoint.AdvanceIsOneFact` | internal/attachedworkeroutput/inline_checkpoint_v2.go:100-143 | an advance is a repeat or adds exactly one of the four facts at the next revision, and conversely (if and only if) |
| `InlineCheckpoint.ChainIsMonotone` | internal/attachedworkeroutput/inline_checkpoint_v2.go:100-143 | along any chain of advances the plan and the canonical digest never change, no bit is cleared, the acknowledged one included, and equal revisions are equal records |
| `InlineJournal.AppliedOncePerRevision` | internal/attachedworkerlocal/inline_receipt_checkpoint_v2.go:29-87 | over every sequence of seals, advances, exact retries, retirements, ambiguous writes and crashes, one seal's lifetime reports each revision as applied at most once, in rising order and with one plan |
| `InlineJournal.AppliedIsDurable` | internal/attachedworkerlocal/inline_receipt_checkpoint_v2.go:83-86 | after an advance that was reported as applied every crash shows exactly the new record |
| `InlineJournal.AppliedExactly` | internal/attachedworkerlocal/inline_receipt_checkpoint_v2.go:66-86 | an advance is reported as applied if and only if it is admissible, not a repeat, the expected record is visible and the write was synced |
| `InlineReceipt.OneShotSends` | internal/attachedworkerdaemontransport/inline_receipt_v2.go:42-113 | over every run of completions and acknowledgements, from any journal and with any replies and journal faults: at most one Prepare, one Submit and one Reconcile, each with its burn bit already recorded, for one plan, in time; the bit is durable too, except for a Prepare that found its own record unsynced in the journal |
| `InlineReceipt.FactsArePermanent` | internal/attachedworkerdaemontransport/inline_receipt_v2.go:161-179 | over every continuation of a run the plan, the completion and a known canonical digest stay, and no burned or acknowledged bit is cleared |
| `InlineReceipt.MemoryEqualsDisk` | internal/attachedworkerdaemontransport/inline_receipt_v2.go:161-179 | over every run from any journal, unless blocked, the attempt's memory equals the record that shows until an acknowledged record was removed; it is durable as soon as a fact was added, or from the start when no unsynced record showed |
| `InlineReceipt.PrepareIsDurableExactly` | internal/attachedworkerdaemontransport/inline_receipt_v2.go:88-113 | a Prepare is sent with its burn bit durable if and only if the journal did not show an unsynced record of an earlier process |
| `InlineReceipt.EarlierRecordPreparesAgain` | internal/attachedworkerdaemontransport/inline_receipt_v2.go:88-113 | a process that finds the first record of an earlier process prepares again without writing, so one Prepare is a promise of one process |
| `InlineReceipt.NewEvidenceWasSaid` | internal/attachedworkerdaemontransport/inline_receipt_v2.go:181-222 | new evidence is the digest of a ready answer that the publisher gave during this call for exactly the sealed nonce, fingerprint and expiry |
| `InlineReceipt.SendsRespectTime` | internal/attachedworkerdaemontransport/inline_receipt_v2.go:195-245 | over every run: a body was sent only before its plan expired and with a capability; metadata was asked for only within the caller's deadline, and after expiry only on a ready session |
| `InlineReceipt.BodyIsStamped` | internal/attachedworkerdaemontransport/inline_receipt_v2.go:195-222 | the recorded time of a body is the clock at the check that allowed it |
| `InlineReceipt.MetadataIsStamped` | internal/attachedworkerdaemontransport/inline_receipt_v2.go:224-245 | the recorded moment of a metadata request is the clock, the deadline and the session at the check that allowed it |
| `InlineReceipt.PublishKeeps` | internal/attachedworkerdaemontransport/inline_receipt_v2.go:42-113 | a publication keeps the invariant; returned evidence is the durably recorded digest of the same completion, and a new attempt carries the offered plan |
| `InlineReceipt.ExchangeKeeps` | internal/attachedworkerdaemontransport/inline_receipt_v2.go:181-266 | resolving and reconciling call each other along a measure of unburned bits and never send a second Prepare |
| `InlineReceipt.AcknowledgeKeeps` | internal/attachedworkerdaemontransport/inline_receipt_v2.go:271-297 | an acknowledgement keeps the invariant and reports success only for a retired record |
| `InlineReceipt.StrandedExactly` | internal/attachedworkerdaemontransport/inline_receipt_v2.go:271-297 | an acknowledgement strands its attempt if and only if the file was removed but the removal was reported as failed, both when the same call first records the acknowledgement and when an earlier one did |
| `InlineReceipt.StrandedForever` | internal/attachedworkerdaemontransport/inline_receipt_v2.go:271-297 | no later call in any environment ends the stranded state or sends anything |
| `InlineReceipt.AcknowledgeSucceeds` | internal/attachedworkerdaemontransport/inline_receipt_v2.go:271-297 | while local writes succeed, an acknowledgement of known evidence retires the record |
| `InlineReceipt.GrantedBodyCompletes` | internal/attachedworkerdaemontransport/inline_receipt_v2.go:181-222 | a cooperative publisher that grants the body leads to evidence after exactly one Prepare and one Submit |
| `InlineReceipt.LostPrepareRecovers` | internal/attachedworkerdaemontransport/inline_receipt_v2.go:224-266 | without artifacts a lost Prepare reply is recovered by one metadata reconciliation before expiry and deadline, and a repeated completion returns the digest without any further send |
| `InlineReceipt.LostGrantRecovers` | internal/attachedworkerdaemontransport/inline_receipt_v2.go:181-266 | with artifacts, before the plan expires, the reconciliation grants the body: one Prepare, one Reconcile, one Submit, and the digest is returned |
| `InlineReceipt.ExpiredRecoversExactly` | internal/attachedworkerdaemontransport/inline_receipt_v2.go:224-266 | after the plan expired a later completion on a ready session sends one metadata request, and a ready answer recovers the evidence if and only if there is no body or it was sent |
| `InlineReceipt.InlineOwner.Learn` | internal/attachedworkerdaemontransport/inline_receipt_v2.go:161-179 | durably adds one fact, or blocks, changing memory, journal and sends exactly as the specification that carries the theorems |
| `InlineReceipt.InlineOwner.Resolve` | internal/attachedworkerdaemontransport/inline_receipt_v2.go:181-222 | interprets one reply, changing memory, journal and sends exactly as the specification that carries the theorems |
| `InlineReceipt.InlineOwner.Reconcile` | internal/attachedworkerdaemontransport/inline_receipt_v2.go:224-266 | spends the one metadata reconciliation, changing memory, journal and sends exactly as the specification that carries the theorems |
| `InlineReceipt.InlineOwner.PublishReceipt` | internal/attachedworkerdaemontransport/inline_receipt_v2.go:42-113 | publishes one completion, changing memory, journal and sends exactly as the specification that carries the theorems |
| `InlineReceipt.InlineOwner.AcknowledgeReceipt` | internal/attachedworkerdaemontransport/inline_receipt_v2.go:271-297 | records the acknowledgement and retires the record, changing memory, journal and sends exactly as the specification that carries the theorems |
| `Adapter.EveryRunIsOrderly` | internal/attachedworkerdaemontransport/adapter.go:317-381 | for every journal the adapter starts with, every sequence of calls and every behaviour of session, process, publisher and disk, every event had its preconditions: hand-out only after every earlier accepted attempt had a matching TerminalAck and while no Cancel is pending; CancelAck once and only after a local cancel or without a hand-out; no Terminal while a Cancel is unacknowledged; consecutive frame numbers; Drained after TerminalAck |
| `Adapter.AtMostOneCancelAck` | internal/attachedworkerdaemontransport/adapter.go:791-803 | no run, from any journal, sends two CancelAcks for one attempt |
| `Adapter.TerminalsAreIdentical` | internal/attachedworkerdaemontransport/adapter.go:863-970 | once an attempt has a receipt every later Terminal of it equals the first in binding, sequences, status, result and evidence, from any journal |
| `Adapter.AckBitFollowsTerminalAck` | internal/attachedworkerdaemontransport/inline_receipt_v2.go:271-297 | from any journal the sends of the attempt stay one-shot inside the adapter; from one without an acknowledged record, as the program starts, the durable acknowledged bit is set only for an attempt whose matching TerminalAck was seen |
| `Adapter.ClassifyIsHonest` | internal/attachedworkerdaemontransport/adapter.go:1226-1240 | success is reported if and only if the run was clean, cancellation if and only if a Cancel asked for it and the cancelled run is fully cleaned up |
| `Adapter.CompleteOwnedKeeps` | internal/attachedworkerdaemontransport/adapter.go:863-970 | a completion keeps every promise about the trace, the active attempt and its receipt |
| `Adapter.ClaimKeeps` | internal/attachedworkerdaemontransport/adapter.go:698-789 | a claim, accepted, cancelled or failed, keeps every promise |
| `Adapter.PollKeeps` | internal/attachedworkerdaemontransport/adapter.go:488-578 | an active-control poll, with Cancel, Drain or anything else, keeps every promise |
| `Adapter.ApplyCancelKeeps` | internal/attachedworkerdaemontransport/adapter.go:667-696 | applying a remote Cancel keeps every promise |
| `Adapter.OfferIsHandedOut` | internal/attachedworkerdaemontransport/adapter.go:698-789 | a cooperative session leads from an offer to exactly one hand-out with the attempt's identity |
| `Adapter.ConcludeSucceeds` | internal/attachedworkerdaemontransport/adapter.go:922-970 | once the evidence is known and the Terminal is acknowledged exactly, retirement, drain and release follow |
| `Adapter.TerminalCompletes` | internal/attachedworkerdaemontransport/adapter.go:863-970 | under every composition and after any cancel or drain: an authorized completion whose Terminal is acknowledged exactly, with the local steps succeeding, completes the attempt, acknowledges a pending drain, frees the adapter, and repeating it succeeds without any effect |
| `AdapterObject.DaemonTransport.AcknowledgeCancel` | internal/attachedworkerdaemontransport/adapter.go:791-803 | sends one CancelAck, changing the adapter's fields and trace exactly as the specification that carries the theorems |
| `AdapterObject.DaemonTransport.CollectEvidence` | internal/attachedworkerdaemontransport/adapter.go:903-921 | obtains the evidence, changing the adapter's fields and trace exactly as the specification that carries the theorems |
| `AdapterObject.DaemonTransport.SendTerminal` | internal/attachedworkerdaemontransport/adapter.go:922-933 | sends the Terminal and accepts only its acknowledgement, changing the adapter's fields and trace exactly as the specification that carries the theorems |
| `AdapterObject.DaemonTransport.RetireReceipts` | internal/attachedworkerdaemontransport/adapter.go:934-943 | retires the receipt, changing the adapter's fields and trace exactly as the specification that carries the theorems |
| `AdapterObject.DaemonTransport.SendDrained` | internal/attachedworkerdaemontransport/adapter.go:944-959 | acknowledges a pending drain, changing the adapter's fields and trace exactly as the specification that carries the theorems |
| `AdapterObject.DaemonTransport.Conclude` | internal/attachedworkerdaemontransport/adapter.go:922-970 | sends, retires and frees the attempt, changing the adapter's fields and trace exactly as the specification that carries the theorems |
| `AdapterObject.DaemonTransport.CompleteOwned` | internal/attachedworkerdaemontransport/adapter.go:863-970 | completes the owned attempt, changing the adapter's fields and trace exactly as the specification that carries the theorems |
| `AdapterObject.DaemonTransport.Materialize` | internal/attachedworkerdaemontransport/adapter.go:754-789 | materializes and hands out, changing the adapter's fields and trace exactly as the specification that carries the theorems |
| `AdapterObject.DaemonTransport.AcceptAttempt` | internal/attachedworkerdaemontransport/adapter.go:717-739 | makes a granted attempt the active one, changing the adapter's fields and trace exactly as the specification that carries the theorems |
| `AdapterObject.DaemonTransport.AbandonClaim` | internal/attachedworkerdaemontransport/adapter.go:740-750 | acknowledges and reports a claim that was answered by Cancel, changing the adapter's fields and trace exactly as the specification that carries the theorems |
| `AdapterObject.DaemonTransport.ClaimAndMaterialize` | internal/attachedworkerdaemontransport/adapter.go:698-789 | claims an offer, changing the adapter's fields and trace exactly as the specification that carries the theorems |
| `AdapterObject.DaemonTransport.Next` | internal/attachedworkerdaemontransport/adapter.go:317-381 | polls for work, changing the adapter's fields and trace exactly as the specification that carries the theorems |
| `AdapterObject.DaemonTransport.PollActiveControl` | internal/attachedworkerdaemontransport/adapter.go:488-578 | polls for control of the active attempt, changing the adapter's fields and trace exactly as the specification that carries the theorems |
| `AdapterObject.DaemonTransport.ApplyCancel` | internal/attachedworkerdaemontransport/adapter.go:667-696 | applies a Cancel locally, changing the adapter's fields and trace exactly as the specification that carries the theorems |
| `AdapterObject.DaemonTransport.Complete` | internal/attachedworkerdaemontransport/adapter.go:383-401 | completes under the gate, changing the adapter's fields and trace exactly as the specification that carries the theorems |
| `AdapterObject.DaemonTransport.constructor` | internal/attachedworkerdaemontransport/adapter.go:251-280 | a new adapter has no attempt, a free gate and an empty trace, over whatever journal is there |
| `LocalRuns.ServedPairsAreCommits` | internal/attachedworkerlocal/store.go:437-506 | over every run with faults and reordering crashes anywhere, an active load and a load of the secret only read a manifest and a secret of one commit |
| `LocalRuns.ServedRevisionsNeverFall` | internal/attachedworkerlocal/store.go:214-276 | revisions of successive active loads never fall, over every run with faults and reordering crashes anywhere |
| `LocalRuns.CommitKeeps` | internal/attachedworkerlocal/store.go:269-275 | writing the secret before the manifest keeps every crash state unmatched or matched within one commit |
| `LocalRuns.InitializeKeeps` | internal/attachedworkerlocal/store.go:39-86 | initialization keeps the pairing invariant |
| `LocalRuns.UpdateKeeps` | internal/attachedworkerlocal/store.go:214-276 | an update keeps the pairing invariant |
| `LocalRuns.LogoutKeeps` | internal/attachedworkerlocal/lifecycle.go:226-369 | a logout keeps the pairing invariant |
| `LocalRuns.CrashKeeps` | internal/attachedworkerlocal/store.go:601-660 | a crash that leaves any mixture of unsynced contents keeps the pairing invariant |
| `LocalDurable.LoadsNeverFallExactly` | internal/attachedworkerlocal/store.go:437-506 | in every state of every run in which a load, active or logged out, succeeds: no later load of any continuation is older if and only if the unsynced contents hold no older manifest together with a secret of its own |
| `LocalDurable.ActiveLoadsNeverFall` | internal/attachedworkerlocal/store.go:437-506 | in every state of every run an active load meets that condition, so no later load of either kind is older |
| `LocalDurable.ReachableIsOk` | internal/attachedworkerlocal/store.go:214-276 | over every run the unsynced contents stay explained: manifests rise in order and every secret belongs to a manifest among them or a commit under way |
| `LocalDurable.DurableLoadsNeverFall` | internal/attachedworkerlocal/store.go:437-506 | after any load from a directory whose manifest, secret and intent are durable, reached by a run or not, no later load of any run is older |
| `LocalShape.OpKeepsShape` | internal/attachedworkerlocal/store.go:601-660 | every operation with any faults changes the directory only by the listed edits, so it keeps every property that those edits keep |
| `LocalShape.StepsKeepShape` | internal/attachedworkerlocal/store.go:601-660 | so does every run with reordering crashes, for a property that such crashes keep |
| `LocalUpdates.HalfDoneUpdateFailsClosed` | internal/attachedworkerlocal/store.go:261-275 | in every reachable directory, durable or not, whatever the four file actions of an update do and whatever a reordering crash leaves: every file is one that was there or the new one, and the directory loads only with the old pair or the new pair |
| `LocalUpdates.HalfDoneStaysExactly` | internal/attachedworkerlocal/store.go:437-487 | in every state of every run that shows a half-done commit: over every continuation with any calls, faults and crashes the directory stays half-done if and only if the unsynced contents hold neither a manifest with its own secret nor the directory before its first secret, and then nothing is served or committed any more |
| `LocalUpdates.HalfDoneIsStuck` | internal/attachedworkerlocal/store.go:437-487 | every call with every fault leaves a half-done commit as it is |
| `LocalUpdates.UpdateCommits` | internal/attachedworkerlocal/store.go:233-276 | a successful update is durable, loads the next revision of the same installation, found no receipt, and changed a key exactly when its generation changed |
| `LocalUpdates.InitializeCommits` | internal/attachedworkerlocal/store.go:39-86 | a successful initialization is durable and loads its pair |
| `LocalUpdates.ObservationCommits` | internal/attachedworkerlocal/store.go:306-344 | a successful observation is durable, keeps the installation loadable, continues the revisions and lets no counter fall |
| `LocalUpdates.ReconnectCommits` | internal/attachedworkerlocal/checkpoint.go:29-66 | a successful reconnect checkpoint is durable, keeps the installation loadable and replaces exactly the expected revision |
| `LocalUpdates.RetirementsCommit` | internal/attachedworkerlocal/store.go:349-376 | a successful retirement removes only the expected record and keeps the installation loadable |
| `LocalLogout.CrashKeepsPendingExactly` | internal/attachedworkerlocal/lifecycle.go:298-369 | every crash, even a reordering one, leaves a pending logout pending if and only if the contents since the last sync cannot be split: none of them lacks the intent while one shows the old manifest, and none holds anything while one shows the logged-out manifest |
| `LocalLogout.DurableIntentIsFinal` | internal/attachedworkerlocal/lifecycle.go:226-369 | once the intent is durable, every run of any operations, faults and crashes that are ordered or strike contents that cannot be split stays in that logout: nothing is served and no commit begins |
| `LocalResume.ReorderedCrashRevives` | internal/attachedworkerlocal/lifecycle.go:298-369 | a reordering crash that strikes split contents can bring the untouched installation back after its intent was durable: it loads and serves its secret |
| `LocalResume.RevivableIsReached` | internal/attachedworkerlocal/lifecycle.go:298-369 | three attempts, of which only the write of the intent is synced, reach exactly those contents |
| `LocalLogout.PendingExcludesOthers` | internal/attachedworkerlocal/store.go:437-487 | while a logout is pending no load, update, checkpoint write or retirement succeeds or changes a file; only a finished logout loads |
| `LocalLogout.OtherRequestRefused` | internal/attachedworkerlocal/lifecycle.go:459-463 | a different logout request is refused without touching a file |
| `LocalLogout.AttemptGrows` | internal/attachedworkerlocal/lifecycle.go:226-369 | an attempt from an untouched or pending directory, synced or not and with any faults, adds only pending contents, and every success returns the same result |
| `LocalLogout.SameRequestKeepsPending` | internal/attachedworkerlocal/lifecycle.go:226-369 | any attempt of the same request, with any faults and any clock, keeps the logout pending, and every success returns the same result |
| `LocalResume.LogoutFinishesExactly` | internal/attachedworkerlocal/lifecycle.go:226-369 | in every state of every run, with faults and reordering crashes anywhere, from which the request could start or go on: after any further attempts and crashes, ordered or striking contents that cannot be torn apart, the request run again ends with the logged-out manifest and nothing else, if and only if every unsynced content is untouched or pending; before it has started, if and only if every one is the untouched installation |
| `LocalResume.UnsyncedUpdateStopsLogout` | internal/attachedworkerlocal/store.go:261-275 | so it can fail: an update whose manifest write was not synced loads, its installation is logged out, and an ordered crash leaves the old manifest beside the new secret, for which every later attempt is refused |
| `LocalResume.RetriesAreResumable` | internal/attachedworkerlocal/lifecycle.go:226-369 | any attempts of the request and any such crashes, in any order, with or without a crash between two attempts, leave only untouched or pending contents |
| `LocalResume.CrashKeepsResumableExactly` | internal/attachedworkerlocal/lifecycle.go:298-369 | every crash, even a reordering one, leaves such contents untouched or pending if and only if they cannot be torn apart: whole everywhere if the active manifest may show without the intent, empty everywhere if the logged-out one may show |
| `LocalResume.CrashedAttemptsAreResumable` | internal/attachedworkerlocal/lifecycle.go:298-369 | any number of attempts, from a directory that is untouched in every unsynced content or durable and pending, each cut short after any file step by a crash, even a reordering one, leaves it so |
| `LocalResume.LogoutFinishes` | internal/attachedworkerlocal/lifecycle.go:265-369 | from such a directory, without temporary file and with a clock that has not gone back, the request succeeds: logged-out manifest, no secret, observation, checkpoint, receipt or intent |
| `LocalLogout.WrittenManifestIsReadable` | internal/attachedworkerlocal/lifecycle.go:347-364 | the manifest that a logout writes without validating it can be read back if and only if the clock is not before its creation time |
| `LocalResume.ReportedLogoutIsDurableExactly` | internal/attachedworkerlocal/lifecycle.go:265-294 | a reported success is durable if and only if it did not merely repeat a logout that is visible but not yet durable |
| `LocalResume.UnsyncedLogoutCanBeUndone` | internal/attachedworkerlocal/lifecycle.go:226-369 | attempts whose syncs all fail end in a reported success, after which the logged-out manifest loads, and which an ordered crash takes back entirely, so that the older manifest loads again |
| `LocalResume.ReorderedCrashFinishesExactly` | internal/attachedworkerlocal/lifecycle.go:265-309 | after a crash that reordered unsynced changes of a logout, its intent durable or not, the same request ends with the logged-out manifest and no secret, observation, checkpoint, receipt or intent if and only if the directory shows the old manifest with the intent or a consistent installation, or a logged-out manifest without any of those holdings |
| `LocalResume.ReorderedCrashAnswersExactly` | internal/attachedworkerlocal/lifecycle.go:265-309 | the same request is answered as done if and only if that holds with a receipt allowed under the logged-out manifest |
| `LocalResume.ReceiptCanSurviveLogout` | internal/attachedworkerlocal/lifecycle.go:265-294 | so a logout can be answered as done with the receipt still on disk |
| `LocalResume.SurvivalIsReached` | internal/attachedworkerlocal/lifecycle.go:298-369 | three attempts, of which only the write of the intent is synced, reach the contents from which that happens |
| `LocalResume.ReorderedCrashStrands` | internal/attachedworkerlocal/lifecycle.go:302-309 | after a durable intent such a crash can leave a directory for which the same request is not answered as done |
| `LocalReceipts.SealedUntilRemoved` | internal/attachedworkerlocal/receipt_checkpoint.go:39-149 | over every run with faults and reordering crashes a sealed receipt stays, with its plan, manifest and secret, until a logout or an exact retirement, and no commit begins |
| `LocalReceipts.ReceiptBlocksCommits` | internal/attachedworkerlocal/store.go:245-252 | while a receipt file exists no initialization or update begins and no seal overwrites it |
| `LocalReceipts.RetiresExactly` | internal/attachedworkerlocal/receipt_checkpoint.go:117-149 | a retirement removes the record if and only if the store is consistent, payload and connection match exactly, an inline record is acknowledged, and the unlink happened |
| `LocalReceipts.SealOutcome` | internal/attachedworkerlocal/receipt_checkpoint.go:39-91 | a seal that wrote its record is durable at once; a repeat wrote nothing |
| `LocalReceipts.AppliedAdvancesRise` | internal/attachedworkerlocal/inline_receipt_checkpoint_v2.go:29-87 | over every run of the whole store, with any other operations, faults, logouts and reordering crashes: two advances reported as applied with no seal written between them have one plan and rising revisions, so one seal applies each revision at most once |
| `LocalReceipts.AdvanceRefinesJournal` | internal/attachedworkerlocal/inline_receipt_checkpoint_v2.go:29-87 | the store's advance is the journal's compare-and-swap: same winner, same failure, same crash contents |
| `LocalReceipts.SealRefinesJournal` | internal/attachedworkerlocal/inline_receipt_checkpoint_v2.go:16-22 | the store's seal of an inline record is the journal's seal |
| `LocalReceipts.RetireRefinesJournal` | internal/attachedworkerlocal/inline_receipt_checkpoint_v2.go:111-120 | the store's retirement of an acknowledged inline record is the journal's |
| `LocalDirectory.Directory.Write` | internal/attachedworkerlocal/store.go:601-639 | one atomic write: directory contents, crash contents and error exactly as the specification that carries the theorems |
| `LocalDirectory.Directory.Remove` | internal/attachedworkerlocal/store.go:641-660 | one durable removal: directory contents, crash contents and error exactly as the specification that carries the theorems |
| `LocalDirectory.Directory.CommitPair` | internal/attachedworkerlocal/store.go:269-275 | secret first, manifest second: directory contents, crash contents and error exactly as the specification that carries the theorems |
| `LocalDirectory.Directory.InitializePair` | internal/attachedworkerlocal/store.go:39-86 | first initialization: directory contents, crash contents and error exactly as the specification that carries the theorems |
| `LocalDirectory.Directory.UpdatePair` | internal/attachedworkerlocal/store.go:214-276 | generation update: directory contents, crash contents and error exactly as the specification that carries the theorems |
| `LocalDirectory.Directory.Observe` | internal/attachedworkerlocal/store.go:306-344 | observation write: directory contents, crash contents and error exactly as the specification that carries the theorems |
| `LocalDirectory.Directory.Seal` | internal/attachedworkerlocal/receipt_checkpoint.go:39-91 | receipt seal: directory contents, crash contents and error exactly as the specification that carries the theorems |
| `LocalDirectory.Directory.Advance` | internal/attachedworkerlocal/inline_receipt_checkpoint_v2.go:29-87 | receipt compare-and-swap: directory contents, crash contents and error exactly as the specification that carries the theorems |
| `LocalDirectory.Directory.Retire` | internal/attachedworkerlocal/receipt_checkpoint.go:117-149 | receipt retirement: directory contents, crash contents and error exactly as the specification that carries the theorems |
| `LocalDirectory.Directory.RemoveAllHoldings` | internal/attachedworkerlocal/lifecycle.go:335-346 | removal of observation, checkpoints and secret: directory contents, crash contents and error exactly as the specification that carries the theorems |
| `LocalDirectory.Directory.Finish` | internal/attachedworkerlocal/lifecycle.go:327-368 | the part of a logout after its intent: directory contents, crash contents and error exactly as the specification that carries the theorems |
| `LocalDirectory.Directory.LogOut` | internal/attachedworkerlocal/lifecycle.go:226-369 | logout: directory contents, crash contents and error exactly as the specification that carries the theorems |
| `LocalDirectory.Directory.Repeat` | internal/attachedworkerlocal/lifecycle.go:265-294 | logout of a logged-out installation: directory contents, crash contents and error exactly as the specification that carries the theorems |
| `GenerationOwner.EveryRunIsOrderly` | internal/attachedresourcegenerationsession/owner.go:217-329 | for every interleaving of synchronization, checks, retirement, close and monotone local heads, with any server answers, every entry of the trace had its preconditions |
| `GenerationOwner.PublishedOnce` | internal/attachedresourcegenerationsession/owner.go:259-275 | no target is published twice; published targets only move on |
| `GenerationOwner.AcksAreEarned` | internal/attachedresourcegenerationsession/owner.go:290-303 | every acknowledged head was reported by the server, equals the local head read again, and follows the previous acknowledgement: a usable one by exactly one generation, the first on a new connection at one |
| `GenerationOwner.ReconnectOnlyReadsOnce` | internal/attachedresourcegenerationsession/owner.go:246-258 | before its first acknowledgement a reconnected owner publishes nothing and sends at most one read |
| `GenerationOwner.NothingAfterRetirement` | internal/attachedresourcegenerationsession/owner.go:361-407 | after retirement or close begins nothing is acknowledged or accepted as new input |
| `GenerationOwner.AcceptedWasAcked` | internal/attachedresourcegenerationsession/owner.go:308-329 | accepted input names an acknowledged head that is not revoked |
| `GenerationOwner.OwnerObject.DecideTarget` | internal/attachedresourcegenerationsession/owner.go:241-274 | the deciding critical section, exactly as the specification |
| `GenerationOwner.OwnerObject.SettleAck` | internal/attachedresourcegenerationsession/owner.go:295-302 | the acknowledging critical section, exactly as the specification |
| `GenerationOwner.OwnerObject.RetireOwner` | internal/attachedresourcegenerationsession/owner.go:365-370 | the retiring critical section, exactly as the specification |
| `GenerationOwner.OwnerObject.BeginCloseOwner` | internal/attachedresourcegenerationsession/owner.go:385-395 | the closing critical section, exactly as the specification |
| `BoundedJson.BoundedJsonAllocation` | internal/attachedworkerdaemon/verified_attached_input.go:109-276 | the counter accepts if and only if the limit is in range, the shape is supported and the length of the full JSON text is at most the limit |
| `BoundedJson.Budget.Quoted` | internal/attachedworkerdaemon/verified_attached_input.go:121-148 | the length of the quoted string, or one more than the budget exactly when it does not fit |
| `BoundedJson.Budget.Measure` | internal/attachedworkerdaemon/verified_attached_input.go:159-274 | accepts if and only if the value is supported at this depth and its text fits the remaining budget, and then consumes exactly its length |
| `BoundedJson.Budget.MeasureItems` | internal/attachedworkerdaemon/verified_attached_input.go:216-228 | the same for a list, with its commas and its bound |
| `BoundedJson.Budget.MeasureFields` | internal/attachedworkerdaemon/verified_attached_input.go:229-270 | the same for a struct, with its commas, names and omitted fields |
| `BoundedJson.Budget.MeasureField` | internal/attachedworkerdaemon/verified_attached_input.go:255-268 | the same for one written field |
| `BoundedJson.Budget.Consume` | internal/attachedworkerdaemon/verified_attached_input.go:114-120 | takes from the budget exactly what fits |
| `BoundedJson.RuneCostIsLength` | internal/attachedworkerdaemon/verified_attached_input.go:127-142 | the counted bytes of a rune are the bytes of its escape, never fewer than its own |
| `BoundedJson.EscapeGrows` | internal/attachedworkerdaemon/verified_attached_input.go:122-124 | an escaped string is never shorter than the string, so the early exit is exact |
| `BoundedJson.Base64Length` | internal/attachedworkerdaemon/verified_attached_input.go:209-213 | the counted length of a byte slice is the length of its padded base64 text |
| `Json.Base64RoundTrip` | internal/attachedworkerdaemon/verified_attached_input.go:209-213 | the padded base64 text of the encoder model decodes to the same bytes |
| `Json.EscapeRoundTrip` | internal/attachedworkerdaemon/verified_attached_input.go:121-148 | reading back the escaped text of a well-formed UTF-8 string gives the string, so the text whose length is counted is an encoding |
| `Supervisor.Run` | internal/attachedworkerdaemon/supervisor.go:290-494 | no error if and only if the process launched, was reaped and everything created was confirmed gone; certified cleanup if and only if everything created was confirmed gone; a native root is removed only after teardown, release, conduit, socket and readers are confirmed; descendants reported reaped were last seen gone |
| `Supervisor.Body` | internal/attachedworkerdaemon/supervisor.go:574-656 | the body returns without an error if and only if the process launched, its group was seen gone and the boundary was torn down |
| `Supervisor.TeardownBoundary` | internal/attachedworkerdaemon/supervisor.go:658-699 | teardown succeeds if and only if a look found the boundary dead after stops that all succeeded; success means that the last look found it dead |
| `Supervisor.FinishReader` | internal/attachedworkerdaemon/supervisor.go:1032-1054 | a reader is complete if and only if it never ran or ended before its pipe was closed |
| `Supervisor.Reap` | internal/attachedworkerdaemon/supervisor.go:595-647 | success if and only if the process was waited for and its group was last seen gone |
| `Supervisor.DeferBoundary` | internal/attachedworkerdaemon/supervisor.go:479-494 | the boundary is torn down unless already tried and released in any case |
| `Supervisor.DeferSocket` | internal/attachedworkerdaemon/supervisor.go:437-448 | conduit and socket are clean if and only if both stops succeeded |
| `Supervisor.DeferReaders` | internal/attachedworkerdaemon/supervisor.go:372-401 | both readers joined, if and only if complete |
| `Supervisor.Unwind` | internal/attachedworkerdaemon/supervisor.go:357-494 | the deferred actions before the root, in reverse order of registration |
| `Supervisor.Launch` | internal/attachedworkerdaemon/supervisor.go:341-577 | what exists when the process has or has not started |
| `Supervisor.BoundedBuffer.Write` | internal/attachedworkerdaemon/supervisor.go:929-947 | the buffer holds exactly the first limit bytes of everything written, and overflow is reported exactly when the stream passes the limit |
| `Daemon.NoAttemptWhileDraining` | internal/attachedworkerdaemon/daemon.go:281-293 | in every interleaving no attempt begins between the start of a drain and the stop of the run |
| `Daemon.CancelFiresAtMostOnce` | internal/attachedworkerdaemon/daemon.go:295-341 | the external cancel of an attempt is issued at most once |
| `Daemon.ShutdownCancelsExactlyOnce` | internal/attachedworkerdaemon/daemon.go:369-399 | if a shutdown hits an attempt before its cancel is uninstalled, even before it is installed, the cancel was issued exactly once when it is uninstalled |
| `Daemon.CountersBalance` | internal/attachedworkerdaemon/daemon.go:343-367 | over every run and restart the counters are exactly the attempts that began, finished, and finished with a confirmed success or failure; accepted equals completed plus one if active; a stopped daemon is not active |
| `Daemon.CountersRiseOverRuns` | internal/attachedworkerdaemon/daemon.go:343-367 | no counter ever falls |
| `Daemon.StatusIsNeverRejected` | internal/attachedworkerdaemontransport/runtime.go:733-747 | over every run the status is never rejected and its observation satisfies the counter and stopped-is-not-active rules |
| `Daemon.LaterObservationsFollow` | internal/attachedworkerlocal/store.go:323-338 | a later observation of the same daemon, with the next revision, is one the store accepts after the earlier one |
| `Daemon.DaemonObject.Begin` | internal/attachedworkerdaemon/daemon.go:232-244 | begin of a run: every field exactly as the specification that the interleavings use |
| `Daemon.DaemonObject.Finish` | internal/attachedworkerdaemon/daemon.go:246-263 | end of a run: every field exactly as the specification that the interleavings use |
| `Daemon.DaemonObject.Accept` | internal/attachedworkerdaemon/daemon.go:281-293 | begin of an attempt: every field exactly as the specification that the interleavings use |
| `Daemon.DaemonObject.Install` | internal/attachedworkerdaemon/daemon.go:295-306 | installation of the cancel function: every field exactly as the specification that the interleavings use |
| `Daemon.DaemonObject.Uninstall` | internal/attachedworkerdaemon/daemon.go:295-306 | removal of the cancel function: every field exactly as the specification that the interleavings use |
| `Daemon.DaemonObject.Cancel` | internal/attachedworkerdaemon/daemon.go:312-341 | cancellation of the exact active attempt: every field exactly as the specification that the interleavings use |
| `Daemon.DaemonObject.Complete` | internal/attachedworkerdaemon/daemon.go:343-367 | end of an attempt: every field exactly as the specification that the interleavings use |
| `Daemon.DaemonObject.Drain` | internal/attachedworkerdaemon/daemon.go:369-399 | start of a drain or shutdown: every field exactly as the specification that the interleavings use |
| `Daemon.DaemonObject.LastFailure` | internal/attachedworkerdaemon/daemon.go:358-365 | the failure code kept after an attempt: every field exactly as the specification that the interleavings use |
| `TriggerDrain.ClosedAtMostOnce` | cmd/worker-runtime/local_execution.go:145-191 | the done channel is closed at most once, and exactly when the gate is stopping without active callbacks |
| `TriggerDrain.NeverRisesAfterStopping` | cmd/worker-runtime/local_execution.go:145-175 | the number of active callbacks never rises after stopping begins |
| `TriggerDrain.CloseWithoutErrorIsFinal` | cmd/worker-runtime/local_execution.go:177-204 | a close without an error means that no callback runs then or ever after |
| `TriggerDrain.DependenciesOutliveCallbacks` | cmd/worker-runtime/main.go:60-79 | dependencies are never closed under a running callback |
| `TriggerDrain.DrainedCloseSucceeds` | cmd/worker-runtime/local_execution.go:161-204 | once the last callback finished, a waiting close returns without an error |
| `TriggerDrain.DrainObject.BeginCallback` | cmd/worker-runtime/local_execution.go:152-158 | admission under the mutex, exactly as the specification |
| `TriggerDrain.DrainObject.FinishCallback` | cmd/worker-runtime/local_execution.go:166-171 | completion under the mutex, exactly as the specification |
| `TriggerDrain.DrainObject.StartClose` | cmd/worker-runtime/local_execution.go:184-191 | start of the close under the mutex, exactly as the specification |
| `DeploymentLock.LosersNeverReturn` | cmd/deployment-lock/main.go:84-197 | a process that was superseded or released never passes the fence check again in any continuation of any run, although fences restart at one |
| `DeploymentLock.HolderLosesOnlyAfterExpiry` | cmd/deployment-lock/main.go:98-120 | a holder stops passing only by its own release or by another's claim at or after the last written expiry |
| `DeploymentLock.ClaimRespectsExpiry` | cmd/deployment-lock/main.go:98-107 | a claim over another owner's row changes it only at or after its expiry and with the next fence |
| `DeploymentLock.AtMostOnePasses` | cmd/deployment-lock/main.go:180-197 | at most one process passes the fence check in any state, because the row names one owner |
| `DeploymentLock.ReusedOwnerRevivesItsFence` | cmd/deployment-lock/main.go:199-206 | without unique owners a stale fence can pass again |
| `DeploymentLock.LockTable.ClaimRow` | cmd/deployment-lock/main.go:84-120 | the claim transaction on the row, exactly as the specification |
| `DeploymentLock.LockTable.RenewRow` | cmd/deployment-lock/main.go:140-158 | the renewal transaction on the row, exactly as the specification |
| `DeploymentLock.LockTable.ReleaseRow` | cmd/deployment-lock/main.go:160-178 | the release transaction on the row, exactly as the specification |
| `Profile.AcceptsExactlyReconnections` | internal/attachedworkeractivation/profile.go:251-271 | a profile pinned at the first manifest of a chain of committed updates accepts the last if and only if every update raised the connection generation by one and left the enrollment alone, and the launch configuration is the pinned one |
| `Profile.UpdatesSucceed` | internal/attachedworkerlocal/store.go:233-244 | every store update that begins to write, reported as successful or not, is such a chain step from the manifest that loads |
| `Profile.CommitsAreRooted` | internal/attachedworkerlocal/store.go:233-276 | over every run with faults and reordering crashes, every commit that began starts an installation at revision one or is a chain step from an earlier commit |
| `Profile.CommitEndsChain` | internal/attachedworkerlocal/store.go:233-276 | so every commit ends a chain of commits from the start of its installation |
| `Profile.ChainBounds` | internal/attachedworkerlocal/store.go:696-698 | what a chain of updates does to revision, generations and installation |
| `Transcript.UniquelyDecodable` | internal/attachedworker/service.go:596-609 | two field lists, each field under 2^32 bytes, with equal transcripts are equal |
| `Transcript.RoundTrip` | internal/attachedworker/service.go:596-609 | the transcript of such a field list decodes to it |
| `Transcript.EncodeTranscript` | internal/attachedworker/service.go:596-609 | the encoder's loop builds that transcript |
| `Transcript.BigEndianRoundTrip` | internal/attachedworker/service.go:611-617 | big-endian numbers within their width decode to themselves |
| `Transcript.ClaimTranscriptFixesFields` | internal/attachedworker/service.go:280-300 | equal claim transcripts have equal signed fields |
| `Transcript.RotationTranscriptFixesFields` | internal/attachedworker/service.go:353-365 | equal rotation transcripts have equal signed fields |
| `Transcript.ClaimIsNeverRotation` | internal/attachedworker/service.go:280-365 | a claim transcript never equals a rotation transcript |

## Left out

- The first receipt form (`publishReceipt` in the adapter): its evidence and its retirement are answers of the oracle, because it has no burn bits.
- The HTTP clients and handlers, bootstrap, bearer parsing, the session package itself: the session is an adversary.
- Identifier, digest-format, OCI, harness and media-type checks: `wellFormed` flags of the records.
- Launcher internals, signals, sockets, file modes, links and ownership: only their success or failure.
- Lock acquisition and failed reads of the local store: an operation without its locks changes nothing, and a failed lock release only changes what the caller is told (the receipt journal models that case).
- Corrupted or foreign files in the directory: only the program's own records and leftover temporary files occur.
- The encoded-size bounds of state files and receipts.
- Read-only reports such as `UninstallPlan`.
- Real time and timers: any bounded wait may time out, and clocks are arguments.
- Poll cancellation and the wake channel of the daemon, panics of a runner, and wrap-around of its 64-bit counters.
- The order of the two halves of a failed observation read, and coalescing of status updates.
- Reflection in the JSON counter: values are given as a datatype, a time by its text; struct tags are flags, and a field tagged with a lone dash and a comma is taken as hidden.
- Database errors other than a lost or an unreported commit of the deployment lock.
- Signatures and hashing.
- Supervisor.Run: exit codes, output snapshots, deadline flags and failure codes of the result are not modelled, because no property here speaks about them.
- InlineReceipt.OneShotSends: counts the sends of one process; a later process that finds the first record seals it without a write and prepares again (`InlineReceipt.EarlierRecordPreparesAgain`), and one that finds a further record is refused.
- InlineReceipt.LostGrantRecovers: speaks about reconciliations before the plan expires; `InlineReceipt.ExpiredRecoversExactly` covers those after it.
- LocalLogout.DurableIntentIsFinal: excludes reordering crashes that strike contents which can be split, because for exactly those it is false (`LocalResume.ReorderedCrashRevives`, `LocalLogout.CrashKeepsPendingExactly`).
- LocalResume.CrashedAttemptsAreResumable: starts from a directory that no crash can tear apart; `LocalResume.LogoutFinishesExactly` covers every reachable start.
- LocalDurable.DurableLoadsNeverFall: needs no reachable directory, at the price of durable files; `LocalDurable.LoadsNeverFallExactly` is the exact statement for every reachable one.
- LocalRuns.ServedRevisionsNeverFall: speaks about active loads; a logged-out load that is not yet durable can be followed by an older active one (`LocalResume.UnsyncedLogoutCanBeUndone`), exactly under the condition of `LocalDurable.LoadsNeverFallExactly`.
