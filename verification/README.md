# Verification of the dashboard daemon's stateful core

This project models six parts of the dashboard daemon and proves what they keep over
every input, every run or every interleaving of their steps. Each part follows the form
of its source: stores and hubs that update fields are Dafny classes whose methods are
proved against specification functions, the first-send protocol is a transition system
over its `await` boundaries, and the canonical printer is a pure function.

**The first send** (`Drafts`, `DraftsCoherence`, `DraftChanges`, `DraftEnvelope`, `DraftStore`,
`FirstSend*`). A durable store of session drafts and send tickets, and an executor that
materializes a session and admits the first prompt. `Drafts` says what each mutation makes of
the records; `DraftStore` is the store itself, with its two maps, its file and the rollback of
`#serialize`. `FirstSend` is the whole protocol: memory, file, the write in flight, the sends
let in but not run yet, one program counter per executor, a drain, failing writes, crashes that
lose or keep the write in flight, and restarts. A run may interleave any of these at every
`await`; ghost counters record how often a ticket's prompt was offered and taken. A failing
write throws before or after its rename published the file, and memory is restored either way.
The lengths of the records' compact and indented JSON are arbitrary functions: a write whose
compact text is over the limit can only throw, and a start sets a file aside whose indented
text is. The theorems of `FirstSendSafety` hold for all runs in which every throw spares the
interrupted tickets: each ticket that comes back as interrupted must have an executor past its
checkpoint that will still act on it. `FirstSendFault` and `FirstSendDrain` prove what the
promise needs. `FirstSendOutcome` proves that an undisturbed outcome is the runtime's answer,
`FirstSendProgress` that no live ticket is left behind, and `FirstSendRetry` and `DraftChanges`
what retries, races and the retention keep. A throw leaves some interrupted ticket without an
executor if and only if it does not spare them all, whoever waited for the write; and at most
one admission holds in every continuation if and only if none of the tickets it leaves comes
back, which in a process that serves is the same, and in one that drains depends on launches
and repeated sends it let in before. Both families of throws that do not spare are reached by
runs: the executor's own last write, and a client's cancel whose doubt the executor has read
and left on. A ticket id is never issued twice.

**Canonical JSON** (`CanonicalJson`, `Sorting`). The printer under every idempotency
fingerprint, over null, booleans, safe integers, strings, arrays and objects (sections 4, 5 and
7 of RFC 8259). Equal texts mean equal values up to key order, whatever the locale; the
converse holds exactly when `localeCompare` ties no two keys of one object.

**The blob store** (`Sums`, `BlobDisk`, `BlobSteps`, `BlobRecovery`, `BlobStore`, `BlobRuns`).
Manifests, content-addressed objects shared by aliases, references with a json and a bin file,
and the reverse index. Memory and files are separate, and every file operation appends the
files it leaves to a ghost history, so a crash is a stop at any point of the history. The hash
is an arbitrary function of the content; no property needs it to be injective.

**The authorization ledger** (`Ledger`, `LedgerInvariant`, `LedgerRoles`, `LedgerRuns`,
`LedgerAuthority`, `LedgerAudit`, `AuthorizationService`). Policies, the bounded audit log,
idempotency receipts, eviction by bytes and rollback. Writes are published, fail before, or end
unknown; runs contain all three and restarts. The length of the state's JSON is an arbitrary
function, so the eviction results hold for any encoding.

**The in-process hub and the controller coordinator** (`ReplayLog`, `RichHub`,
`ControllerCoordinator`). The replay ring against the log of everything ever published, what
each listener saw, and the exclusive controller, with handovers between participants.

**Paging, stitching and remote commands** (`InventoryPaging`, `TranscriptStitch`,
`RemoteCommands`, `RemoteOutcomes`). Filtered paging against the plain filter of the whole
list, small pages against one large page, and the in-flight table against every frame ever
written and every settlement ever made.

## Where the code does less than it promises

Each of these is a theorem; where a promise fails only sometimes, the exact condition is proved.

- A failing write that does not spare an interrupted ticket loses at-most-once admission
  (`FirstSendFault.ThrowAbandons`, `AdmittedTwice`, `CancelAdmitsTwice`,
  `FirstSendDrain.ThrowKeepsPromise`).
- The draft store measures the compact JSON of its records, writes the indented JSON, and
  measures that when it starts: a state that was written and acknowledged can be set aside
  unread by the next start, with its live tickets (`DraftEnvelope.RestoresWhatWasWritten`,
  `FirstSendSafety.HistoryMovesForward`, `FirstSendWitness.WrittenTicketIsLost`).
- A write that throws after its file was published lets file and memory disagree, and the next
  write takes the file's record back: the file can say succeeded and later indeterminate
  (`FirstSendSafety.LandedThrowTears`, `NextWriteTakesBack`, `FirstSendFault.SuccessTakenBack`).
- An executor can finish and leave its ticket live: exactly when the runtime returned another
  session than the target, or when the write that fails is the first one or the last resort
  (`FirstSendFault.FinishesLive`, `ThrowFinishesLive`).
- A quarantined draft file leaves in memory the records read before the refused one, which may
  be a draft that says it is materializing and has no ticket
  (`DraftEnvelope.QuarantineLeavesNothing`, `QuarantineKeepsHalfTheRecords`).
- The default `maxRecoveryBytes` is below one allowed blob, and session inbox directories are
  counted but never removed, so a store that broke no limit may refuse to start
  (`BlobRecovery.CrashStatesAccepted` with `DefaultsDoNotCoverRecovery`,
  `BlobStore.UploadBlocksRecovery` and `InboxesBlockRecovery`).
- `transferOwnership` does not look at the grant cap, and no mutation looks at the characters of
  its idempotency key; the reader refuses a policy over the cap and a key with a carriage return,
  a newline or a null, and the next start fails (`LedgerRoles.AnswerCapped`,
  `LedgerRuns.RestartAlwaysWorks`, `OverflowBlocksRestart`, `OverflowHappens`,
  `UnreadableKeyBlocksRestart`, `UnreadableKeyHappens`).
- An event published between `open` and the first `subscribe` reaches neither the pending
  replay nor the listener (`RichHub.ReplayThenLive`), and where only events too large to retain
  lie between, a gap is reported although nothing was lost (`ReplayLog.GapWithoutLoss`).
- A coordinator's revision falls when the last participant leaves, and then a stale expected
  revision can pass the check again (`ControllerCoordinator.StaleRevisionPasses`); a call that is
  awaited meanwhile counts on the forgotten record
  (`ControllerCoordinator.DashboardControllerCoordinator.CallParticipant`, `Transfer`).
- A listing that stops on the scan limit can hide sessions and give no cursor to go on with,
  unless the next `maxScanPages` records fill the answer or hold all that is visible
  (`InventoryPaging.HidesNothingExactly`, `ScanLimitHides`).
- Stitching newer records without a cursor repeats the newest page
  (`TranscriptStitch.NewerWithoutCursor`).
- A remote command rejected for lack of capacity or of a connection is remembered under its
  idempotency key: the retry that the rejection invites gets it again until the table has
  forgotten it, and is sent after that (`RemoteCommands.RejectionIsRemembered`).

## Model

| member | source | states |
|---|---|---|
| FirstSendSafety.RunKeeps | src/dashboard-session-materializer.ts:79-321 | Every state reached by any interleaving of clients, executors, drains, throwing writes that spare interrupted tickets, published or not, writes too large to publish, crashes, restarts, and restarts that set the file aside, meets the protocol invariant. |
| FirstSendSafety.StepKeeps | src/dashboard-session-materializer.ts:164-289 | Each single step keeps the invariant. |
| FirstSendSafety.AdmittedAtMostOnce | src/dashboard-session-materializer.ts:206-219 | In every run a ticket's prompt is admitted at most once, its executors commit at most four transitions over all crashes, and an admitted ticket's checkpoint is on disk. |
| FirstSendSafety.OutcomesAreTruthful | src/dashboard-session-materializer.ts:205-263 | In memory and on disk: succeeded means exactly one taken admission, failed none taken, cancelled none even offered, and a taken one is only ever behind succeeded, indeterminate or still interrupted. |
| FirstSendSafety.AlwaysCoherent | src/dashboard-session-drafts.ts:350-565 | In every run both versions of the records are coherent, and a stored draft is materializing exactly while a live ticket of it exists. |
| FirstSendSafety.HistoryMovesForward | src/dashboard-session-drafts.ts:518-589 | Along every run in which no published write that touches the ticket throws, from a state where file and memory agree on it: its phase, progress and target in the file never go back, a terminal record never changes, a ticket that left never returns, and one that left had ended first if and only if no start set aside a file over the limit with the live ticket in it. |
| FirstSendSafety.StepMoves | src/dashboard-session-drafts.ts:518-699 | One such step keeps file and memory in agreement on a stored ticket, and moves it only forward, or prunes a terminal one for good, if and only if it is not a start that finds the live ticket in a file over the limit. |
| FirstSendSafety.AlwaysLevel | src/dashboard-session-drafts.ts:732-753 | Without such a throw file and memory agree on every ticket in every state of every run. |
| FirstSendSafety.LandedThrowTears | src/durability.ts:1040-1058 | A write that throws after publication ends that agreement on a ticket if and only if it touches the ticket. |
| FirstSendSafety.NextWriteTakesBack | src/dashboard-session-drafts.ts:732-753 | The next landed write that leaves the ticket alone moves its file record forward if and only if file and memory agree on it. |
| FirstSendExecutor.ExecuteKeeps | src/dashboard-session-materializer.ts:164-289 | Every executor step, whatever the runtime answers, keeps the invariant. |
| FirstSendExecutor.IndeterminateIsNeverRefused | src/dashboard-session-materializer.ts:266-289 | The store never refuses an indeterminate outcome for an interrupted ticket. |
| FirstSendClients.ClientStepsKeep | src/dashboard-session-drafts.ts:291-495 | Create, cancel and submit at any moment of an execution keep the invariant, also a send that was let in before a drain and runs after it. |
| FirstSendControl.CommitKeeps | src/dashboard-session-drafts.ts:732-753 | A write that lands keeps the invariant for whoever waited for it. |
| FirstSendControl.ThrowKeeps | src/dashboard-session-drafts.ts:732-753 | A sparing write that throws, before or after publication, with the maps restored under executors that may have read the lost records, keeps the invariant. |
| FirstSendControl.CrashKeeps | src/dashboard-session-drafts.ts:660-671 | A crash before or after the write in flight landed keeps the invariant. |
| FirstSendControl.RestartKeeps | src/dashboard-session-drafts.ts:567-589 | Recovery, from the file or from nothing where its indented text is over the limit, and the relaunch of resumable tickets keep the invariant, whether or not the recovered records could be written. |
| FirstSendWitness.RecoverableCanSucceed | src/dashboard-session-materializer.ts:164-250 | A ticket left to its executor, queued or interrupted before its checkpoint, with room in the file for what becomes of it, can reach a stored success with exactly one taken admission, so the safety theorems are not empty. |
| FirstSendOutcome.OutcomeIsTheAnswer | src/dashboard-session-materializer.ts:204-263 | In every run in which, between the checkpoint of a ticket and the write of its outcome, the draft is not cancelled, the process does not stop, and no call of the runtime or write of the executor throws: an offered prompt's recorded outcome, in memory and on file, is succeeded if and only if the prompt was taken, and failed with the error that the runtime gave if and only if it was not. |
| FirstSendOutcome.RecoverableCanBeRefused | src/dashboard-session-materializer.ts:220-231 | Such a ticket can also end in a stored failure with the runtime's error, after one offered admission and none taken. |
| FirstSendOutcome.ErrorsAlwaysTell | src/dashboard-session-materializer.ts:240-263 | In every run, in memory and on file, a ticket has an error if and only if it failed or is in doubt: a failed one the user's cancel or the runtime's error, one in doubt which doubt. |
| FirstSendOutcome.DrainStopsExecutors | src/dashboard-session-materializer.ts:136-141 | An executor that has not acquired its controller when a drain begins never offers its prompt, in any continuation, as long as it runs; one that has not asked for its session never asks for it. |
| FirstSendOutcome.DrainLetsNothingIn | src/dashboard-session-materializer.ts:105-116 | While a process drains it lets no send in. |
| FirstSendProgress.OnlyTheTarget | src/dashboard-session-materializer.ts:181-219 | In every run an executor prepares, acquires and offers the prompt to no session but its ticket's target, whatever session the runtime gave it. |
| FirstSendProgress.NeverStuck | src/dashboard-session-materializer.ts:92-122 | In every run of clients, executors, drains, crashes and restarts in which no write throws and the runtime opens the target sessions, every ticket in memory has ended, or has an executor at work on it, or is about to get one. |
| FirstSendProgress.RestartServes | src/dashboard-session-materializer.ts:92-103 | A start launches an executor for every ticket that it leaves live. |
| FirstSendRetry.SendRetried | src/dashboard-session-drafts.ts:437-446 | Once a send was written, over every run with failing writes, crashes and restarts, as long as its ticket is in memory: the same send gets that ticket, still of that request, and changes nothing; other content under the key is refused. |
| FirstSendRetry.CreationRetried | src/dashboard-session-drafts.ts:298-305 | The same for a creation, unless the pruned draft's id was used for another draft. |
| FirstSendRetry.CancelRetried | src/dashboard-session-drafts.ts:361-366 | The same for a cancel; the draft stays cancelled or in doubt, and no cancel ever changes it again. |
| FirstSendRetry.StaleChangeNeverWrites | src/dashboard-session-drafts.ts:367-369 | Of two sends or cancels that expect the same revision of a draft at most one is ever written, over every run. |
| FirstSendWitness.DoubtHappens | src/dashboard-session-materializer.ts:240-263 | A run without any fault reaches a write that records doubt after one admission. |
| FirstSendWitness.WrittenTicketIsLost | src/dashboard-session-drafts.ts:567-589 | Under every limits that let one draft and one ticket be written and not be read back, a run acknowledges a written send, and the process that starts next has neither draft nor ticket, for good. |
| FirstSendWitness.SomeLimitsAreTight | src/dashboard-session-drafts.ts:660-671 | There are such limits. |
| FirstSendFault.NeverAbandoned | src/dashboard-session-materializer.ts:152-162 | While every throw spares the interrupted tickets, none is ever without an executor past its checkpoint. |
| FirstSendFault.ThrowAbandons | src/dashboard-session-drafts.ts:732-753 | For every waiting owner and every write, published or not: a throw leaves some interrupted ticket without an executor if and only if it does not spare them all. |
| FirstSendDrain.ThrowKeepsPromise | src/dashboard-session-materializer.ts:105-162 | In a process that serves or drains: at most one admission holds in every continuation of a throw if no ticket it leaves unattended comes back, and, where another checkpoint fits in the file, only then; in a process that serves that is the same as sparing every interrupted ticket. |
| FirstSendDrain.CalmRun | src/dashboard-session-materializer.ts:152-162 | A draining process whose unattended tickets do not come back stays safe over every continuation: each dormant ticket stays so, or is attended again, until a stop. |
| FirstSendFault.UnattendedIsAdmittedAgain | src/dashboard-session-materializer.ts:152-162 | Wherever an interrupted ticket is left without an executor that will act on it and comes back, some continuation brings it to two admissions. |
| FirstSendFault.AbandonedIsAdmittedAgain | src/dashboard-session-materializer.ts:105-122 | Wherever a ticket is abandoned, a repeated send that is let in, or was before a drain, leads to one more admission. |
| FirstSendFault.AdmittedTwice | src/dashboard-session-materializer.ts:273-289 | A run ends in two admissions through the throw of an executor's own last write, under any limits with room for one draft and one ticket. |
| FirstSendFault.CancelAdmitsTwice | src/dashboard-session-drafts.ts:373-395 | So does a run through the throw of a cancel whose recorded doubt the executor had read. |
| FirstSendFault.CancelIsSpared | src/dashboard-session-drafts.ts:373-395 | A cancel that records doubt while the executor waits for its admission may throw without harm. |
| FirstSendFault.SuccessTakenBack | src/dashboard-session-materializer.ts:219-263 | A run in which the file says succeeded and later indeterminate. |
| FirstSendFault.FinishesLive | src/dashboard-session-materializer.ts:200-203 | An executor's step ends it with its ticket live if and only if its last resort names another session than the target. |
| FirstSendFault.ThrowFinishesLive | src/dashboard-session-materializer.ts:266-289 | A throw ends the waiting executor with its ticket live if and only if the write was its first or its last resort. |
| DraftsCoherence.LiveTicketExactlyWhileMaterializing | src/dashboard-session-drafts.ts:350-565 | In coherent records a draft is materializing exactly while it has a live ticket, and never has two tickets. |
| DraftsCoherence.CreateKeeps | src/dashboard-session-drafts.ts:291-341 | Creating keeps drafts and tickets coherent, create keys included. |
| DraftsCoherence.CancelKeeps | src/dashboard-session-drafts.ts:350-422 | Cancelling at any phase keeps the draft's mirror of its ticket. |
| DraftsCoherence.SubmitKeeps | src/dashboard-session-drafts.ts:424-495 | Submitting keeps coherence through the prune it begins with. |
| DraftsCoherence.TransitionKeeps | src/dashboard-session-drafts.ts:518-565 | Every accepted transition keeps coherence; any session equals the target. |
| DraftsCoherence.MarkKeeps | src/dashboard-session-drafts.ts:591-630 | Marking interrupted tickets at recovery keeps coherence. |
| DraftsCoherence.PruneKeeps | src/dashboard-session-drafts.ts:681-699 | Pruning never separates a draft from its ticket. |
| DraftChanges.MutationsStamp | src/dashboard-session-drafts.ts:291-565 | Every creation, cancel, send and transition stamps with its clock what it changes, counts each changed draft one revision up, keeps its spec, and leaves everything else as it was. |
| DraftChanges.InterruptionIsRecorded | src/dashboard-session-drafts.ts:591-630 | A start makes of an interrupted ticket, and of its draft's mirror, an indeterminate one with the reason, changes nothing else of it, and prunes neither. |
| DraftChanges.EndedStays | src/dashboard-session-drafts.ts:681-699 | What has ended and is on file stays as it is, in memory and on file, over every run whose clocks stay within its retention and that sets no file aside. |
| DraftChanges.NothingOlderStays | src/dashboard-session-drafts.ts:681-699 | A creation, a send and a start leave nothing that ended before the retention, but for drafts that still have a ticket. |
| DraftStore.StartsTheSame | src/dashboard-session-drafts.ts:567-589 | A second start at the same time finds exactly what the first one wrote, if that can be read back, and has nothing to write. |
| DraftEnvelope.RestoresWhatWasWritten | src/dashboard-session-drafts.ts:567-671 | Reading a written file gives back the same drafts and tickets, in whatever order they were listed, if and only if its indented text is within the limit that the write applied to the compact text; else nothing is left. |
| DraftEnvelope.FileTellsStoresApart | src/dashboard-session-drafts.ts:660-671 | Different records never have the same file. |
| DraftEnvelope.RestoredIsStorable | src/dashboard-session-drafts.ts:632-658 | Whatever a file says, what is restored from it can be written again. |
| DraftEnvelope.QuarantineLeavesNothing | src/dashboard-session-drafts.ts:567-658 | A quarantined file leaves nothing in memory if and only if it is too large, lists too many records, or its first draft is missing or refused. |
| DraftEnvelope.QuarantineKeepsHalfTheRecords | src/dashboard-session-drafts.ts:567-589 | A quarantined file can leave incoherent records in memory. |
| DraftStore.FileDashboardSessionDraftStore.WriteState | src/dashboard-session-drafts.ts:660-671 | Records whose compact text is over the limit are refused and leave the file; else it lists exactly the records, also when the write throws after publication, and only an earlier throw leaves it untouched. |
| DraftStore.FileDashboardSessionDraftStore.PruneRecords | src/dashboard-session-drafts.ts:681-699 | The two pruning loops leave exactly the retained records. |
| DraftStore.FileDashboardSessionDraftStore.MarkRecovered | src/dashboard-session-drafts.ts:591-630 | In any order, exactly the interrupted tickets are marked, each draft mirrors one of its own after one revision for each, and whether there were any is reported. |
| DraftStore.FileDashboardSessionDraftStore.CreateDraft | src/dashboard-session-drafts.ts:291-341 | Reply, records and file are the specification's; a throw leaves both maps as before, and the file old or new by when it came; what is left is coherent and writable. |
| DraftStore.FileDashboardSessionDraftStore.CancelOne | src/dashboard-session-drafts.ts:350-422 | The same for cancelling, in place on draft and ticket. |
| DraftStore.FileDashboardSessionDraftStore.SubmitOne | src/dashboard-session-drafts.ts:424-495 | The same for submitting; the reply for a known key comes from the one matching ticket. |
| DraftStore.FileDashboardSessionDraftStore.TransitionOne | src/dashboard-session-drafts.ts:518-565 | The same for an executor's transition. |
| DraftStore.FileDashboardSessionDraftStore.Restore | src/dashboard-session-drafts.ts:571-658 | The file is measured first; the reading loop then takes records up to the first refused one. |
| DraftStore.FileDashboardSessionDraftStore.Load | src/dashboard-session-drafts.ts:567-589 | Loading any file gives its recovered records, writes only when something was marked or quarantined, and returns exactly the resumable tickets. |
| CanonicalJson.SameTextSameMeaning | src/dashboard-session-drafts.ts:1272-1281 | Two values with one text are equal up to key order, under any `localeCompare`. |
| CanonicalJson.SameMeaningSameText | src/dashboard-session-drafts.ts:1272-1281 | A value prints like all its reorderings if and only if no two keys of one object tie. |
| CanonicalJson.KeyOrderHidden | src/dashboard-session-drafts.ts:1274-1279 | Without ties, values equal up to key order print to one text. |
| CanonicalJson.TieShows | src/dashboard-session-drafts.ts:1275-1276 | With a tie anywhere inside, some reordering of the value prints differently. |
| CanonicalJson.UndefinedElementCollides | src/dashboard-session-drafts.ts:1273 | An array of one undefined prints like the empty array, which is why such arrays are outside the two statements above. |
| CanonicalJson.DigitsRoundTrip | src/dashboard-session-drafts.ts:1280 | Reading back the printed digits gives the number. |
| CanonicalJson.EscapeRoundTrip | src/dashboard-session-drafts.ts:1280 | Reading back a printed string, by section 7 of RFC 8259, gives the string. |
| CanonicalJson.SendFingerprintMeans | src/dashboard-session-drafts.ts:431-435 | Two sends share a fingerprint if and only if draft, revision and message agree. |
| CanonicalJson.CancelFingerprintMeans | src/dashboard-session-drafts.ts:357 | Two cancels share a fingerprint if and only if draft and revision agree. |
| CanonicalJson.CreateFingerprintMeans | src/dashboard-session-drafts.ts:296 | Two creates share a fingerprint if and only if the draft ids agree and the specs agree up to key order, where the spec ties no keys. |
| Sorting.SortStable | src/dashboard-session-drafts.ts:1276 | Tied keys keep their insertion order. |
| Sorting.SortForgetsOrder | src/dashboard-session-drafts.ts:1276 | Without ties the sorted members do not depend on their insertion order. |
| BlobSteps.ObjectsWithinQuota | src/blob-store.ts:334-347 | Between operations an object exists exactly for the digests of settled blobs, each whole, and all object bytes together are within `maxTotalBytes`. |
| BlobSteps.ReservingKeeps | src/blob-store.ts:313-356 | A reservation that passes the checks keeps every count, the agreement of aliases and the byte quota over distinct digests. |
| BlobSteps.RemovingBlobKeeps | src/blob-store.ts:914-930 | Removing a blob without references keeps all of them. |
| BlobSteps.ReferringKeeps | src/blob-store.ts:523-596 | A new reference to an available blob keeps the reference limits. |
| BlobRecovery.CrashStatesAccepted | src/blob-store.ts:691-827 | The files of any crash are accepted if and only if the recovery limits cover the records and objects and no more session directories exist than references may. |
| BlobRecovery.SweptIsClean | src/blob-store.ts:763-797 | Sweeping orphans from the files of a crash re-establishes the store's invariant for the same committed records. |
| BlobRecovery.OneBlobBlocksRecovery | src/blob-store.ts:783-788 | Where `maxRecoveryBytes` is below the blob limit, one settled blob can make the next start fail. |
| BlobStore.UploadBlocksRecovery | src/blob-store.ts:783-788 | An empty store, one reservation and one upload within every limit leave files that are refused, for every blob larger than `maxRecoveryBytes`. |
| BlobRecovery.DefaultsDoNotCoverRecovery | src/blob-store.ts:43-57 | The default limits are such. |
| BlobStore.InboxesBlockRecovery | src/blob-store.ts:829-850 | An empty store, through which enough sessions went, each with one blob reserved, uploaded, referred to and deleted within every limit, has no record left and files that are refused. |
| BlobStore.CrashAnywhereIsRecovered | src/blob-store.ts:691-891 | At every point of every operation's history, recovery accepts exactly when the limits suffice, and leaves clean files of the committed records. |
| BlobStore.IndexingKeeps | src/blob-store.ts:592-593 | Adding a reference keeps the reverse index the exact inverse without empty sets. |
| BlobStore.UnindexingKeeps | src/blob-store.ts:932-940 | So does removing one. |
| BlobStore.WriteAll | src/blob-store.ts:1293-1300 | However short the single writes are, the whole value is written once and in order. |
| BlobStore.Receive | src/blob-store.ts:430-462 | A stream is taken if and only if it did not break off and its whole content has the reserved length and hash. |
| BlobStore.FileBlobStore.ReservedBytes | src/blob-store.ts:334-343 | The loop counts each digest once and sums its declared sizes. |
| BlobStore.FileBlobStore.Reserve | src/blob-store.ts:298-372 | A reservation, its replay or its exact refusal; everything else stays; every file state on the way is recoverable. |
| BlobStore.FileBlobStore.UploadContent | src/blob-store.ts:389-495 | Content settles its blob once, by the key and session of the reservation and before it expires: available if and only if the policy allows it, else quarantined under the policy's code; aliases share one object, and a refused stream leaves no file behind. |
| BlobStore.FileBlobStore.Materialize | src/blob-store.ts:523-596 | A reference gets its content and record, is replayed, or refused for the exact reason. |
| BlobStore.FileBlobStore.DeleteBlob | src/blob-store.ts:632-644 | Deletes exactly an unreferenced blob of the session. |
| BlobStore.FileBlobStore.DeleteReference | src/blob-store.ts:646-660 | Deletes exactly that reference and then prunes. |
| BlobStore.FileBlobStore.DeleteGeneration | src/blob-store.ts:662-684 | Exactly the other sessions' and generations' references and blobs survive, and the number removed is returned. |
| BlobStore.FileBlobStore.Prune | src/blob-store.ts:893-912 | The survivors are exactly the unexpired references and the blobs unexpired or still referenced by one. |
| BlobStore.FileBlobStore.RemoveBlob | src/blob-store.ts:914-930 | An alias's object stays while another settled blob has the digest. |
| BlobStore.FileBlobStore.RemoveReference | src/blob-store.ts:932-940 | Only that reference goes, record before content. |
| BlobStore.FileBlobStore.Scan | src/blob-store.ts:691-827 | The loading loops accept exactly the acceptable files, and then exactly the orphans are gone. |
| BlobStore.FileBlobStore.Load | src/blob-store.ts:691-827 | Loading after any crash succeeds if and only if the limits suffice, and keeps every committed, unexpired record; a crash while loading is recoverable too. |
| BlobRuns.Perform | src/blob-store.ts:298-684 | Each method of the store performs its step of a run over the committed records. |
| BlobRuns.QuarantinedIsNeverReferred | src/blob-store.ts:482-491 | Over any run that does not drop it, a blob with quarantined content stays so, under its code, and no reference to it ever exists. |
| BlobRuns.RefusedContentIsNeverReferred | src/blob-store.ts:482-491 | Where the policy judges by content, no run from an empty store hands out content that the policy refuses, through whatever aliases and ids. |
| BlobRuns.DropsExactly | src/blob-store.ts:893-912 | An operation drops a blob if and only if it deletes it, or the blob has expired and so has every reference to it; until then content, owner, key and, once settled, everything about it stays. |
| BlobRuns.DropsReferenceExactly | src/blob-store.ts:893-912 | A reference goes if and only if it was deleted or expired, and until then stays as it is. |
| BlobRuns.RunMovesForward | src/blob-store.ts:389-495 | The same over any run: a blob keeps its content and owner, its upload key once set, and once settled everything. |
| BlobRuns.SessionsApart | src/blob-store.ts:404-405 | No operation of one session and generation changes an unexpired blob or reference of another, whatever ids it names. |
| BlobRuns.ReservationRepeats | src/blob-store.ts:303-312 | A granted reservation is granted again and changes nothing, over any run that does not drop the blob. |
| BlobRuns.UploadRepeats | src/blob-store.ts:406-422 | Over any such run the same upload gets the settled blob, and one under another key is refused. |
| LedgerInvariant.ApplyKeeps | src/dashboard-authorization.ts:222-459 | Every mutation keeps consecutive audit numbers, unique resource keys, unique grantees, owners outside their grants, and unique receipts. |
| LedgerInvariant.FitKeeps | src/dashboard-authorization.ts:667-684 | Eviction by bytes keeps them, every policy, and a suffix of the receipts. |
| LedgerInvariant.ResourceKeyTells | src/dashboard-authorization.ts:1065-1067 | Two resources never share a key. |
| LedgerRoles.OthersKeepTheirRoles | src/dashboard-authorization.ts:539-552 | No mutation changes anyone's role on another resource, nor an administrator's. |
| LedgerRoles.SetGrantGives | src/dashboard-authorization.ts:267-322 | The grantee gets exactly the role; everyone else keeps theirs. |
| LedgerRoles.RevokeGrantTakes | src/dashboard-authorization.ts:324-362 | Only the grantee loses access, and an owner never does. |
| LedgerRoles.TransferMoves | src/dashboard-authorization.ts:364-416 | The new owner is administrator, the old one has exactly the stated role, everyone else keeps theirs. |
| LedgerRoles.NewResourceIsTheOwners | src/dashboard-authorization.ts:223-265 | A registered or adopted resource belongs to its owner alone. |
| LedgerRoles.AnswerCapped | src/dashboard-authorization.ts:393-399 | A mutation's result respects the grant cap if and only if it is not a transfer at the cap that keeps the old owner. |
| LedgerRoles.TransferAtCapBlocksReload | src/dashboard-authorization.ts:393-399 | Such a transfer is written and then refused. |
| LedgerAuthority.OnlyAdministratorsChange | src/dashboard-authorization.ts:554-562 | An operation changes the records only for an administrator of the resource who has seen its last revision, or opens a resource nobody has; adopting is an administrator's. |
| LedgerAuthority.OthersLearnNothing | src/dashboard-authorization.ts:1069-1071 | Anybody else gets one and the same answer, whatever the records are. |
| LedgerAuthority.PowerlessChangeNothing | src/dashboard-authorization.ts:554-562 | Along any run, with failing and unknown writes and restarts, in which no administrator of a resource acts on it, nobody's role on it changes. |
| LedgerAuthority.StaleRevisionNeverChanges | src/dashboard-authorization.ts:288-296 | Once a change of a policy was published, no run leads to a state in which an operation that expects the same revision changes anything. |
| LedgerAuthority.ChangeCounts | src/dashboard-authorization.ts:601-636 | A mutation that changes who has access counts the policy's revision up by one and keeps when it was created; any other leaves the policy as it is. |
| LedgerAuthority.RefusedExactly | src/dashboard-authorization.ts:288-312 | Every refusal of a mutation has its exact cause: not an administrator or no such resource, another revision, a grant to the owner, or one more grantee than the cap allows. |
| LedgerAudit.AuditTellsRoles | src/dashboard-authorization.ts:564-745 | In every run from an empty ledger, as long as no event was dropped, the audit log read from its beginning gives exactly the role of every member on every registered resource. |
| LedgerAudit.EventTells | src/dashboard-authorization.ts:591-622 | The event of a mutation names its actor and resource and tells how it changed everybody's role. |
| LedgerAudit.KeepsTheNewest | src/dashboard-authorization.ts:658-745 | Exactly the newest receipts and audit events that the limits allow are kept, and the dropped events are counted. |
| LedgerRuns.RunKeeps | src/dashboard-authorization.ts:667-706 | Over all runs with failing and unknown writes and restarts: the ledger invariant in memory and on file, and retained receipts are a suffix of receipt history. |
| LedgerRuns.RetryIsSilent | src/dashboard-authorization.ts:638-656 | A retry under a retained receipt is answered with the first result, or refused for other content, and changes nothing. |
| LedgerRuns.RetryAfterAnyRun | src/dashboard-authorization.ts:601-665 | The same after any later run, for a mutation that was published before it. |
| LedgerRuns.FitIsMinimal | src/dashboard-authorization.ts:667-684 | A write forgets receipts oldest first, then audit events, each only because the state was too large with it, and is refused if and only if all of that is not enough. |
| LedgerRuns.RestartAlwaysWorks | src/dashboard-authorization.ts:522-527 | A run without a transfer at the cap and without a mutation under an unreadable key can always be restarted, whatever its writes did. |
| LedgerRuns.OverflowBlocksRestart | src/dashboard-authorization.ts:393-399 | The first published transfer at the cap makes the next restart fail. |
| LedgerRuns.OverflowHappens | src/dashboard-authorization.ts:393-399 | For every cap some run of published writes from an empty ledger ends in a restart that fails. |
| LedgerRuns.UnreadableKeyBlocksRestart | src/dashboard-authorization.ts:965-976 | The first published mutation under an unreadable key makes the next restart fail if and only if the byte limit left its receipt in the file. |
| LedgerRuns.UnreadableKeyHappens | src/dashboard-authorization.ts:1073-1087 | A run of two published writes within every cap, the second a grant under a key with a newline, ends in a restart that fails. |
| AuthorizationService.DashboardAuthorizationService.Perform | src/dashboard-authorization.ts:686-706 | The service does exactly the run step and gives its reply; a failed write rolls state and index back. |
| AuthorizationService.DashboardAuthorizationService.WriteState | src/dashboard-authorization.ts:667-684 | The eviction loops write the fitted state or leave the file. |
| AuthorizationService.DashboardAuthorizationService.RecordFact | src/dashboard-authorization.ts:728-745 | The trimming loop drops exactly the excess and counts it. |
| AuthorizationService.DashboardAuthorizationService.Reindex | src/dashboard-authorization.ts:533-537 | The index maps exactly each resource key to its policy. |
| AuthorizationService.DashboardAuthorizationService.EffectiveRole | src/dashboard-authorization.ts:539-552 | The role read through the index is the role of the policies. |
| ReplayLog.ReplayNeverSkips | src/dashboard-backend.ts:1039-1067 | For a cursor of this identity replay gives exactly the published events after it, or a gap, with the exact condition between the two. |
| ReplayLog.EvictedShowsAsGap | src/dashboard-backend.ts:1029-1035 | A published event after the cursor that was evicted always shows as a gap. |
| ReplayLog.GapWithoutLoss | src/dashboard-backend.ts:1055-1063 | A gap is reported although nothing published was lost if and only if everything between the cursor and the retained events was too large to retain. |
| RichHub.ReplayThenLive | src/dashboard-backend.ts:1158-1172 | A channel's first listener saw the whole log from the cursor if and only if nothing was published between open and subscribe. |
| RichHub.GapThenLive | src/dashboard-backend.ts:1158-1172 | Where the channel was told of a gap instead, its first listener sees nothing that was published before it came, and everything since. |
| RichHub.InProcessRichHub.Publish | src/dashboard-backend.ts:999-1037 | Every event is numbered, every listener hears it once, the ring agrees with the log and `replayBytes` with the ring. |
| RichHub.InProcessRichHub.Evict | src/dashboard-backend.ts:1029-1035 | The ring keeps the longest suffix within both limits. |
| RichHub.InProcessRichHub.Open | src/dashboard-backend.ts:793-844 | Control is granted exactly when free; the new channel is owed the log after its cursor where the cursor names this hub's identity and is still retained, and otherwise no event and exactly one gap, first, with its reason: malformed or expired, another host, another session or generation; and its denial. |
| RichHub.InProcessRichHub.Subscribe | src/dashboard-backend.ts:1158-1163 | The first listener takes what was pending, once; every listener hears all that is published while it listens. |
| RichHub.InProcessRichHub.Unsubscribe | src/dashboard-backend.ts:1158-1163 | Exactly that listener hears no more. |
| RichHub.InProcessRichHub.RequestControl | src/dashboard-backend.ts:901-923 | Granted exactly when free or already held; a refusal is heard by that channel only. |
| RichHub.InProcessRichHub.ReleaseControl | src/dashboard-backend.ts:925-941 | Only the holder can release, and all listeners hear it. |
| RichHub.InProcessRichHub.Remove | src/dashboard-backend.ts:966-985 | The last channel disposes the hub; a departing controller frees control. |
| RichHub.InProcessRichHub.OneController | src/dashboard-backend.ts:901-941 | At most one live channel is controller, and it is the recorded one. |
| ControllerCoordinator.HandoverAddsNoHolder | src/dashboard-controller-coordinator.ts:174-191 | From any holders among whom is the participant found, or from none: at no moment of a handover are there more of them, or more than one where there was none, whatever the backends answer; a completed grant puts exactly the target in the place of the one found. |
| ControllerCoordinator.DashboardControllerCoordinator.Transfer | src/dashboard-controller-coordinator.ts:133-199 | Grants only after a completed release, for the right target, with each outcome's exact condition; while each call is awaited participants come and go, and a completed call counts exactly where the last one did not leave. |
| ControllerCoordinator.DashboardControllerCoordinator.CallParticipant | src/dashboard-controller-coordinator.ts:107-131 | One request or release, while participants come and go, counted exactly when it completed and the last one did not leave meanwhile; a record appears even for an unknown resource. |
| ControllerCoordinator.DashboardControllerCoordinator.ApplyIdentityRole | src/dashboard-controller-coordinator.ts:201-232 | Without a role all participants of the identity are closed; a reader's controllers are closed exactly where their release did not complete. |
| ControllerCoordinator.DashboardControllerCoordinator.Register | src/dashboard-controller-coordinator.ts:52-75 | Admission of a participant with both capacities. |
| ControllerCoordinator.DashboardControllerCoordinator.Unregister | src/dashboard-controller-coordinator.ts:74-80 | The record goes with its last participant. |
| ControllerCoordinator.StaleRevisionPasses | src/dashboard-controller-coordinator.ts:133-145 | Over any run with a change: a revision no larger than the stale one means the last participant has left since, and the stale one can be reached again without another departure if and only if it is not exceeded. |
| TranscriptStitch.PagedTranscript | src/dashboard-remote-backend.ts:408-460 | Pages of at most three records stitch to the one page of the requested limit, with its end cursors, in both directions, against any service of contiguous windows. |
| TranscriptStitch.ReadsOn | src/dashboard-remote-backend.ts:420-442 | Each page continues the window, and the loop stops only at its end. |
| TranscriptStitch.NewerWithoutCursor | src/dashboard-remote-backend.ts:413-431 | Newer records without a cursor stitch to that page if and only if one small page is enough. |
| InventoryPaging.EffectiveAny | src/dashboard-authorization-enforcer.ts:280-292 | The strongest role over the references, if any suffices. |
| InventoryPaging.Scan | src/dashboard-authorization-enforcer.ts:214-246 | The scan loop takes exactly the filter of what it read, and stops short only at its scan limit. |
| InventoryPaging.DashboardAuthorizationEnforcer.ListSessions | src/dashboard-authorization-enforcer.ts:183-268 | Pages by cursor deliver, in order and without duplicates, a prefix of the plain authorized filter; a page with a next cursor is full; and where the condition below held before the request, an answer without a cursor completes the filter. |
| InventoryPaging.PageThenPage | src/dashboard-authorization-enforcer.ts:183-317 | After a page with a next cursor at time t, and any other requests before t plus the cursors' life that store fewer cursors than there is room for: the cursor is accepted from the same principal and query before that time, and its page goes on exactly where the first ended. |
| InventoryPaging.Follow | src/dashboard-authorization-enforcer.ts:183-317 | Following cursors in time, with any other requests in between: while fewer cursors are stored than there is room for no page is refused; every page but the last is full; and where the scans suffice for each request the pages are, in order, exactly what the principal may see. |
| InventoryPaging.OnePageIsEnough | src/dashboard-authorization-enforcer.ts:222-227 | Where everything is visible and the backend fills its pages, one page is enough for every request below the largest page. |
| InventoryPaging.HidesNothingExactly | src/dashboard-authorization-enforcer.ts:215-246 | A request completes the filter or gives a cursor, however the backend cuts its list into pages, if and only if as many records as there are pages to read fill the answer with what was buffered, or nothing visible lies beyond them. |
| InventoryPaging.ScanLimitHides | src/dashboard-authorization-enforcer.ts:219-246 | A listing that answers nothing and gives no cursor, although the principal sees a session. |
| InventoryPaging.DashboardAuthorizationEnforcer.StoreCursor | src/dashboard-authorization-enforcer.ts:294-317 | The oldest cursors make room, and every retained cursor still knows what it delivered. |
| InventoryPaging.DashboardAuthorizationEnforcer.PruneCursors | src/dashboard-authorization-enforcer.ts:319-323 | Exactly the unexpired cursors stay. |
| RemoteCommands.RemoteRichHub.SendCommand | src/dashboard-remote-rich-hub.ts:689-767 | The sending step of the run: refused for capacity, then for the connection, else written once to the current socket. |
| RemoteCommands.RemoteRichHub.Command | src/dashboard-remote-rich-hub.ts:210-251 | The run's command step and its reply; capacity, and a socket that is not open, are the exact causes of their rejections. |
| RemoteCommands.RemoteRichHub.OnResponse | src/dashboard-remote-rich-hub.ts:561-579 | The run's response step, for commands by id and for extension answers in order. |
| RemoteCommands.RemoteRichHub.OnTreeNavigateResult | src/dashboard-remote-rich-hub.ts:581-604 | The run's step for a tree navigation: error, result or neither. |
| RemoteCommands.RemoteRichHub.OnTimeout | src/dashboard-remote-rich-hub.ts:710-721 | The run's timeout step. |
| RemoteCommands.RemoteRichHub.OnDisconnect | src/dashboard-remote-rich-hub.ts:628-638 | The run's disconnect step, of the current socket only. |
| RemoteCommands.RemoteRichHub.FailInFlight | src/dashboard-remote-rich-hub.ts:875-894 | The loops settle every command, extension answer and control waiter in flight, each once. |
| RemoteCommands.RemoteRichHub.Close | src/dashboard-remote-rich-hub.ts:381-396 | The run's disposal step. |
| RemoteCommands.RemoteRichHub.AskExtension | src/dashboard-remote-rich-hub.ts:323-350 | The run's step for an extension answer. |
| RemoteCommands.RemoteRichHub.SendControl | src/dashboard-remote-rich-hub.ts:775-803 | The run's step for a control transition, one at a time. |
| RemoteCommands.RemoteRichHub.OnAskTimeout | src/dashboard-remote-rich-hub.ts:326-335 | The run's step for an extension answer that is late: it leaves its queue and the socket is no longer open. |
| RemoteCommands.RemoteRichHub.OnControlTimeout | src/dashboard-remote-rich-hub.ts:785-794 | The same for a control transition. |
| RemoteCommands.RemoteRichHub.OnControl | src/dashboard-remote-rich-hub.ts:606-617 | The run's step for a control frame, which answers the one that waits. |
| RemoteCommands.RemoteRichHub.OnClosing | src/dashboard-remote-rich-hub.ts:912-921 | The run's step for a socket that is being closed: sends are refused from here on, what is in flight stays. |
| RemoteCommands.RemoteRichHub.OnReady | src/dashboard-remote-rich-hub.ts:398-412 | The run's connect step: a new socket with nothing in flight. |
| RemoteCommands.RunGrows | src/dashboard-remote-rich-hub.ts:561-638 | Over every run of commands, answers, timeouts, disconnects and reconnects: no command is written again, nothing settled is settled again, the in-flight bound holds. |
| RemoteCommands.AllSettled | src/dashboard-remote-rich-hub.ts:628-638 | From the moment the socket's close is seen until the next one is ready, every command and request ever made has exactly one outcome and was written at most once. |
| RemoteCommands.KeyReturnsLate | src/dashboard-remote-rich-hub.ts:242-249 | A remembered key is remembered again only after as many others as the table has room for. |
| RemoteCommands.RejectionIsRemembered | src/dashboard-remote-rich-hub.ts:242-249 | Over any run after a rejection for capacity or connection: the identical command gets it again without a frame if fewer other keys were remembered than the table has room for; else it is sent, unless one in between was. |
| RemoteOutcomes.OutcomeExactly | src/dashboard-remote-rich-hub.ts:561-638 | Over any run a command in flight has an outcome if and only if some step gave it while it was still in flight: its response, its tree answer, its timer, the loss of the socket or disposal; and until then it is in flight. |
| RemoteOutcomes.AnsweredExactly | src/dashboard-remote-rich-hub.ts:561-604 | It was answered with some data if and only if a response to its id, or a result of its tree navigation, came with them on the current socket while it was in flight. |
| RemoteOutcomes.FirstAnswerDecides | src/dashboard-remote-rich-hub.ts:573-579 | The same for extension answers and control transitions: the first step that ends one decides its one outcome. |
| RemoteOutcomes.AnsweredInOrder | src/dashboard-remote-rich-hub.ts:573-579 | Extension answers come in the order of their requests: once the later of two was answered by the extension the earlier one waits no longer. |
| RemoteOutcomes.RetryIsSilent | src/dashboard-remote-rich-hub.ts:242-249 | As long as its key is remembered, over any run, the same command gets the first reply, rejection or promise, and other content is refused; no frame is written and nothing changes. |
| RemoteOutcomes.WrittenExactly | src/dashboard-remote-rich-hub.ts:210-251 | A command's frame is written if and only if it is the controller's or only reads, its key is not remembered, the hub is not disposed, there is room in flight and the socket is open and takes it. |
| RemoteOutcomes.NothingIsWritten | src/dashboard-remote-rich-hub.ts:912-921 | From the moment a socket is being closed until the next one is ready, no command frame is written. |
| RemoteOutcomes.OpensAndCloses | src/dashboard-remote-rich-hub.ts:326-335 | A socket ceases to be open exactly by its loss, its closing from this side, a late extension answer or control transition, and disposal. |

## Left out

- DraftStore.FileDashboardSessionDraftStore.Load: where a foreign file has two interrupted tickets for one draft, the source visits them in file order and the draft mirrors the last; here it mirrors one of them.
- FirstSendDrain.ThrowKeepsPromise: where another checkpoint of a ticket that comes back does not fit in the file, whether the promise breaks depends on what else makes room; only one direction is stated there.
- Time: an operation reads one clock value where the source may read several; an upload whose reservation expires between prune and check is not distinguished.
- Draft store: the quarantine's file name, and the validators of requests and specs; reads that bypass the queue appear only as the executor's reads. The limits are the same at every start.
- Draft store: identifiers and texts are opaque tokens, and the digest of a request is a constructor over its text.
- FirstSend.Do: the executor is a transition system on values rather than methods of a class, because its steps interleave with everything else at every `await`.
- First send: the runtime adapter over the multiplexer (`MultiplexerDashboardSessionDraftRuntime`) and its `discard`, which appear as answers of the environment.
- CanonicalJson: numbers that are not safe integers, strings with lone surrogates, and the hash itself, which is taken as injective.
- Blob store: I/O errors that do not stop the process, record files that do not parse, permissions and symbolic links, public reference counts, and reads of content.
- BlobStore.FileBlobStore.DropManifest: the memory entry goes together with its file, so a caller that sees one without the other between the two awaits is not modelled; the same holds for the other deletions.
- BlobRuns.RunMovesForward: runs are of whole operations; a crash inside one leaves the records of a point of its history, which `BlobStore.CrashAnywhereIsRecovered` and `BlobStore.FileBlobStore.Load` cover.
- Ledger: audit queries and policy listing, which only filter; a receipt keeps the request where the source keeps the hash of its JSON. The length of an idempotency key, which writer and reader bound alike, is not modelled.
- In-process hub: extension views, snapshots, leases, and the command results kept by key, whose table is the one modelled for remote commands.
- Coordinator: registrations and departures while an identity's role is applied. `state` only reads.
- Remote hub: replay and controller exclusivity. There `open` decides before an await and records after it, and evicting an event without a cursor does not move the base cursor, so neither holds as stated for the in-process hub. The reconnect schedule is left out too.
- Enforcer: registration of sessions and the not-found mapping; policy and backend list are fixed while cursors are followed.
- The TUI hub has the shapes of the Rich hub with less state.
- HTTP and WebSocket handling, TLS, command line, configuration, request validators, ETags, diagnostics and the ACP translation would add only easy members.
