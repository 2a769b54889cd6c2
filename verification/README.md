# Model of an end-to-end encrypted recipe book

The system keeps recipes as CRDT documents on several devices. A Go server stores encrypted
snapshots and relays them; a TypeScript client merges snapshots, decides when to push, and offers
search, scaling and export. This project models the parts where the order of steps, or an index off
by one, decides whether data survives, and proves what those parts guarantee.

| files | what they model |
|---|---|
| `DocumentLog`, `SyncMessages` | the rows of one document, and table `sync_messages` with the statements on it |
| `SyncProtocol`, `SyncInvariant`, `SyncGuarantees`, `SyncReconverge` | the synchronisation of one document as a state machine of interleaved steps, its invariant, and its guarantees |
| `SyncCompaction`, `SyncReopen`, `SyncStale`, `SyncMissed` | what compaction can lose, closing and reopening a document, a run that records a stale number, and a run whose failing relay a device misses |
| `PushQueueSpec`, `PushQueue`, `PushWorld` | the client's push queue: its functions, the class, and the state machine of the queue inside the client |
| `PushLedger`, `PushDeadline`, `PushFlags`, `PushProgress`, `PushFair`, `PushForgets` | what holds over every run of that machine: what is sent and stored, when timers fire, which flags stay, that the queue goes on under every fair schedule, and two runs that forget an edit |
| `Vaults`, `VaultOwners`, `Purge`, `VaultQueries` | vault membership, roles and account purge: tables on values, their invariants, and the methods on the tables |
| `Hub`, `OutboundQueue`, `Limiters` | the hub's nested maps, the outbound pipeline of a connection, the two rate limiters |
| `Fuzzy`, `TextDiff`, `IngredientTable`, `Quantity`, `QuantityBounds`, `QuantityScaling` | fzf scoring, the single-splice text diff, the ingredient table, quantities |
| `Text`, `Wrappers` | string operations of ECMAScript, and small shared definitions |

An Automerge document is the set of changes it holds, and a merge is a union. In the synchronisation
model one event is one SQL statement, one change of the hub, one message put on a queue, or one
stretch of client code between two awaits. A socket can drop at any moment with any part of what is
under way lost, and a device can reconnect. `history` is a history variable with every row ever
stored. Code that updates state in place is a class whose methods are proved against functions on
values; the theorems are about those functions.

Where the code does not do what its comments or names suggest, the code is modelled and a theorem
says, for all inputs, exactly when the expected property holds:

- The queue's header (`frontend/src/sync/push-queue.ts:10`) says that every local change eventually
  reaches the server. An ack clears the flag whatever it acknowledges, so an edit made between a
  push and its ack keeps its flag only if the flag's write was still queued when the ack came:
  `PushFlags.AckForgetsIff`. The other order, with a closed socket when the debounce timer fires,
  leaves an edit that nothing pushes any more: `PushForgets.EditCanBeForgotten`.
- A `caught_up` clears a flag when the heads of the last push match, on the ground that the server
  has the data (`frontend/src/sync/push-queue.ts:279`). A socket that closes while the push is
  encrypted discards the message, and the heads are stored all the same. The server has every change
  exactly when it has stored a message saved after the latest edit: `PushLedger.CaughtUpClearsIff`.
  `PushForgets.CaughtUpCanForget` is a run that ends with an edit nothing pushes any more.
- `BroadcastVaultDoc` logs the first 12 characters of a user id, 20 of a document id and 8 of a device
  id, and panics on a shorter one (`backend/internal/sync/hub.go:112` and `:124`), which the handlers
  accept. `Hub.Hub.BroadcastVaultDoc` says exactly when and who is then served,
  `Hub.NeverPanicsIff` which ids are safe. Nor does a failing member lookup
  (`backend/internal/sync/client.go:605-609`) keep the empty list from being used. Either loses a stored
  and acknowledged snapshot for subscribed devices: `SyncGuarantees.StepKeepsReachesIff` and
  `SyncMissed.RelayCanMiss`.
- A stored snapshot need not contain every acknowledged edit: it does, throughout a run, exactly
  when every push contains the snapshot that is newest when it is stored
  (`SyncCompaction.NewestIsCompleteIff`), which a device's push does exactly when that snapshot was
  merged before (`SyncCompaction.PushHasNewestIff`). Two pushes that do not know each other and one
  compaction remove an acknowledged edit from the log until its author pushes again:
  `SyncCompaction.AckedEditCanLeaveLog`.
- A `caught_up` that arrives after its document was closed and opened again records a number whose
  snapshot was ignored: `SyncStale.StaleCaughtUpRecordsUnmerged`. Reopening keeps the numbers
  truthful exactly when every `caught_up` under way names a snapshot that the document has or will
  get before it: `SyncReopen.ReopenKeepsCoversIff`.
- An invite of an existing member overwrites the member's role, so it can leave a vault without an
  owner: `VaultOwners.OwnersArePreservedIff` and `Purge.InviteCanOrphanVault`.
- A purge expects that no foreign key still names the user at the end. `vault_members.invited_by`
  can, and the transaction then fails: `Purge.PurgeKeepsForeignKeysIff` and
  `Purge.PurgeCanBeBlocked`. A purge that commits also deletes the user's snapshots in shared
  vaults, through the cascades from `users` and `devices`, after which numbers are given out again
  exactly when the newest row was the user's (`Purge.PurgeReusesNumbersIff`), and it can leave a
  shared vault without an owner (`Purge.PurgeKeepsOwnedIff`, `Purge.PurgeCanOrphanVault`).
- `rateAllow` moves its clock on every call and truncates the refill, so the parts of a token that
  were earned between two calls are lost: `Limiters.RefusedIff` says for calls at any times which
  are refused, and `Limiters.RapidCallsNeverRefill` that fast ones never refill the bucket.
- The ingredient table loses rows that look like its header or its rule, and shifts cells when an
  inner one is empty: `IngredientTable.RoundTripIff` says exactly when.
- A quantity below 0.05 is printed as nothing: `QuantityBounds.PrintedIsReadIff`, and
  `QuantityScaling.RangeScalesIff` for the ends of a scaled range.

## Model

| member | source | states |
|---|---|---|
| DocumentLog.StoreKeepsLog | backend/internal/db/db.go:128-152 | a stored row gets the next number of the whole history, however much was compacted before, and the log stays an ascending selection of the history with its newest row |
| DocumentLog.CompactKeepsLog | backend/internal/db/db.go:154-174 | compaction never deletes the newest row, and leaves exactly that row |
| DocumentLog.LatestIsNewest | backend/internal/sync/client.go:504-535 | from a truthful last number, the rows read include the newest one, are ascending, and the number reported in caught_up is the newest |
| SyncMessages.VaultIdIff | backend/internal/sync/client.go:438-443 | the result is nonempty exactly when the id has a '/' after its first character with none before it, and is then the part before the first '/' |
| SyncMessages.MatchesOwnKeyOnly | backend/internal/db/db.go:128-174 | the WHERE clauses for personal and vault documents select exactly the rows of that document |
| SyncMessages.NextNumberIsUnused | backend/migrations/000001_initial.up.sql:43-53 | MAX(seq) + 1 never collides with UNIQUE(user_id, doc_id, seq) |
| SyncMessages.DeleteBelowOthers | backend/internal/db/db.go:154-174 | compacting one document leaves the rows of every other document alone |
| SyncMessages.Queries.StoreMessage | backend/internal/db/db.go:128-152 | the insert succeeds, appends one row to the document's log with the next number, and changes no other document |
| SyncMessages.Queries.CompactDocument | backend/internal/db/db.go:154-174 | the document's log becomes its newest row, other documents keep theirs |
| SyncMessages.Queries.GetMessagesSince | backend/internal/db/db.go:176-214 | the rows above a number, in ascending order |
| SyncInvariant.StepKeepsInv | backend/internal/sync/client.go:483-613 | every step of every client and handler keeps the invariant that ties log, hub, queues in flight, handlers and replicas together |
| SyncInvariant.ReachableInv | frontend/src/lib/sync-client.ts:368-379 | the invariant holds in every reachable state, drops and reconnects included |
| SyncGuarantees.Numbering | backend/internal/db/db.go:128-174 | in every reachable state row numbers are unique, ascending and never reused, and MAX(seq) is the number of rows ever stored |
| SyncGuarantees.CompactedLogIsNewestRow | backend/internal/sync/client.go:566-590 | once every push under way has compacted, and no compaction failed, the log is exactly the newest row |
| SyncGuarantees.RecordedSeqIsCovered | frontend/src/connect.ts:359-380 | while the document stays open, over all interleavings, a positive number the device has recorded, or would resubscribe with, or has read to subscribe with, belongs to a snapshot its document contains |
| SyncGuarantees.CatchUpIsComplete | backend/internal/sync/client.go:504-535 | with no earlier caught_up still under way on the connection, after handling the caught_up of a history read the device has recorded the newest number as of the read and contains that newest snapshot |
| SyncGuarantees.StepKeepsReachesIff | backend/internal/sync/client.go:590-613 | while a socket stays open, a step takes a snapshot off its way to the device if and only if it is a failing relay, by a failed member lookup or a panic, that was all that would have brought it |
| SyncGuarantees.RunKeepsReachesIff | backend/internal/sync/client.go:590-613 | over every run a snapshot stays on its way throughout, or arrives, if and only if no such relay loses it |
| SyncGuarantees.NoGapAtSubscribe | backend/internal/sync/client.go:502-535 | with registration before the read and storing before the relay, the newest snapshot of the read, which supersedes all before it, is merged, queued or in the replay whatever fails, and every snapshot another device stored after the read is that or still to be relayed, unless a failing relay has lost it |
| SyncGuarantees.ReplicaConverges | backend/internal/sync/client.go:545-613 | a device subscribed before the first push and connected since equals the union of all edits once every edit is stored and all queues are drained, unless a failing relay has lost a row for it |
| SyncGuarantees.LiveConvergence | backend/internal/sync/client.go:545-613 | so when all devices are subscribed and connected from the start and no relay fails, all are equal to that union |
| SyncReconverge.LapCollects | frontend/src/sync/push-queue.ts:438-488 | a device that catches up and then pushes adds its document to what the newest snapshot already had |
| SyncReconverge.Reconvergence | backend/internal/sync/client.go:504-590 | from any reachable state, after one catch-up and push per device in turn and a last round of catch-ups, every replica holds what any replica held, and all are equal when nobody edits meanwhile |
| SyncCompaction.StoreKeepsCompleteIff | backend/internal/sync/client.go:545-577 | storing a push keeps every stored edit in the newest snapshot if and only if the push contains the snapshot that was newest |
| SyncCompaction.NewestIsCompleteIff | backend/internal/db/db.go:128-174 | over every run from the start, the newest snapshot holds all stored edits throughout if and only if every push contained the snapshot that was newest when it was stored |
| SyncCompaction.CompactedLogHoldsAllIff | backend/internal/db/db.go:154-174 | when every push has compacted, every edit ever stored is still in the log if and only if the newest snapshot holds them all |
| SyncCompaction.PushHasNewestIff | frontend/src/sync/push-queue.ts:467-473 | what a device can test: with no push stored in between, its push contains the newest snapshot when its recorded number is the newest; more exactly, if and only if its document contained that snapshot when it was saved |
| SyncCompaction.AckedEditCanLeaveLog | backend/internal/sync/client.go:566-590 | a run of two devices in which an acknowledged edit is no longer in the log |
| SyncReopen.SettledReopensKeepCovers | frontend/src/ui/recipes.ts:33-68 | over every run in which documents are unsubscribed, closed and reopened, each time with every caught_up under way settled, recorded numbers stay covered by the document |
| SyncReopen.ReopenKeepsCoversIff | frontend/src/connect.ts:359-380 | in a state so reached, reopening keeps the numbers covered until the next reopening, whatever happens, if and only if each caught_up under way names a snapshot the document has or that comes before it in its stream, and no ignored number is left |
| SyncReopen.NoCaughtUpIsSettled | frontend/src/lib/sync-client.ts:381-387 | with no caught_up of an earlier subscription under way and the number forgotten by unsubscribe, the condition is met |
| SyncStale.StaleCaughtUpRecordsUnmerged | frontend/src/ui/recipes.ts:33-68 | a run from the start: a device switches away and back while the history is replayed to it, and records a number whose snapshot it never merged |
| SyncMissed.RelayCanMiss | backend/internal/sync/client.go:603-609 | runs from the start, one with a failing member lookup and one with a panic: a subscribed, connected device with an empty queue has neither the other device's stored, acknowledged edit nor anything under way that brings it |
| PushQueueSpec.GivesUpOnEveryFifthRejection | frontend/src/sync/push-queue.ts:140-195 | after an ack, exactly every fifth rejection in a row gives a document up |
| PushQueue.PushQueue.MarkDirty | frontend/src/sync/push-queue.ts:109-113 | the effect on the queue is the one the debounce bookkeeping is proved for, and a push starts exactly when the burst is 1500 ms old and the socket is open |
| PushQueue.PushQueue.SchedulePush | frontend/src/sync/push-queue.ts:405-419 | the timer is rearmed or fired according to the burst's first call |
| PushQueue.PushQueue.EndFlush | frontend/src/sync/push-queue.ts:247-257 | the flush ends, and while anything pushable is dirty and the socket is open a back-off timer is armed |
| PushQueue.PushQueue.OnPushError | frontend/src/sync/push-queue.ts:140-195 | a permission error blocks the vault, whose documents are dropped only on the user's answer; any other rejection is counted and takes the document out of the dirty set, and the fifth in a row clears its flag |
| PushLedger.PushLedgerHolds | frontend/src/sync/push-queue.ts:109-137 | with the socket open and keys at hand, over every run each local change is in a snapshot handed to the socket, has an armed timer, or has a push under way that will carry it |
| PushLedger.SentExactly | frontend/src/sync/push-queue.ts:438-488 | over every run the local changes handed to the socket are exactly those made before the latest snapshot that was sent had been saved, so all are sent if and only if no edit came after that |
| PushLedger.CaughtUpClearsIff | frontend/src/sync/push-queue.ts:272-286 | when a caught_up clears a flag because the heads match, a push had saved every local change; they all were handed to the socket if and only if no edit came after the save of a snapshot that was, and the server has stored them all if and only if it has stored a message saved after the latest edit |
| PushFlags.StepTakesIff | frontend/src/sync/push-queue.ts:118-195 | a document that is dirty, and flagged or about to be, stays so after a step except for exactly the acks, caught_ups, rejections and clean-ups that name it, whatever the socket does |
| PushFlags.EditStaysHeld | frontend/src/sync/push-queue.ts:109-113 | over every run, with sockets closing and opening, an edited document stays dirty, and flagged or about to be, until one of those takes it off |
| PushFlags.OldFlagStaysHeld | frontend/src/sync/push-queue.ts:380-395 | so does a document whose flag an earlier session left in IndexedDB |
| PushFlags.AckForgetsIff | frontend/src/sync/push-queue.ts:118-137 | after an ack has been handled and queued writes have landed, the flag is back if and only if its write was still queued when the ack deleted it, and a reload loses no change if and only if that is so or no edit came after the latest save that was sent |
| PushFlags.ForgottenStays | frontend/src/sync/push-queue.ts:380-401 | a change that is unsent, unflagged, not dirty and without timer or push stays unsent until the document is edited or flushed again |
| PushForgets.EditCanBeForgotten | frontend/src/sync/push-queue.ts:118-137 | a run from the start that ends with open socket, ready queue, and an edit in that condition |
| PushForgets.CaughtUpCanForget | frontend/src/lib/sync-client.ts:389-413 | a run from the start: the socket closes during the encryption, opens again, and the next caught_up clears the flag of an edit that was never sent |
| PushProgress.NoStall | frontend/src/sync/push-queue.ts:213-258 | from every reachable state with an open socket and a ready queue, a dirty or flagged document that is not skipped gets its push by steps of the queue alone, whatever flush, pause or back-off is under way |
| PushFair.EventuallyPushed | frontend/src/sync/push-queue.ts:213-258 | under every fair schedule, from every reachable state, while the socket stays open, the queue ready and the server asks for no pause, a dirty document that is not skipped is pushed sooner or later, unless an answer of the server takes it off first |
| PushFair.TaskIsEnabled | frontend/src/sync/push-queue.ts:438-488 | the fairness asked for can be met: a push, a flush or the start of a flush that is possible always has a step to take |
| PushFair.FlaggedBecomesDirty | frontend/src/sync/push-queue.ts:380-395 | while polls go on, a document that stays flagged in a vault that is not blocked is dirty at some moment |
| PushProgress.BackoffIsBounded | frontend/src/sync/push-queue.ts:198-208 | over every run the back-off lies between its first value and its cap, or the longest delay the server asked for, and a paused queue has its timer armed |
| PushDeadline.DebounceDeadline | frontend/src/sync/push-queue.ts:405-432 | every edit's burst fires within 200 ms of its last call and 1500 ms of its first, over every run with timers on time, whatever ends or pauses pushes, and both maps always have the same keys |
| Hub.Hub.Register | backend/internal/sync/hub.go:24-31 | the nested map represents the logins with the client added |
| Hub.Hub.Unregister | backend/internal/sync/hub.go:34-57 | afterwards the client occurs in no login and no subscription, everything else is unchanged, and the client's user is left with no empty inner map |
| Hub.Hub.Subscribe | backend/internal/sync/hub.go:60-70 | exactly one subscription is added to the flat relation |
| Hub.Hub.Unsubscribe | backend/internal/sync/hub.go:73-85 | exactly one subscription is removed |
| Hub.Hub.BroadcastDoc | backend/internal/sync/hub.go:88-102 | exactly the subscribed clients of the user, without the sender's device, get the message, once each |
| Hub.Hub.BroadcastVaultDoc | backend/internal/sync/hub.go:105-126 | it panics if and only if a listed member without a subscription has a user id below 12 or the document id is below 20 characters, or nobody is reached and the document id is below 20 or the sender's below 8; the subscribed clients of the members listed before that one, without the sender's device, get the message once each, and no others |
| Hub.NeverPanicsIff | backend/internal/sync/hub.go:105-126 | no state of the hub makes the broadcast panic if and only if all its ids are long enough |
| Hub.ShortIdStopsRelay | backend/internal/sync/hub.go:109-114 | a member "bob" without a subscription keeps the message from the member listed next, and with one does not |
| Hub.Hub.Broadcast | backend/internal/sync/hub.go:130-143 | exactly the user's clients, without the sender's device, get the message, once each |
| OutboundQueue.StepConserves | backend/internal/sync/client.go:277-356 | every step keeps the pipeline conserved, and only a full queue drops |
| OutboundQueue.PipelineConserves | backend/internal/sync/client.go:277-356 | written, both channels and the queue are the produced messages in order without the dropped ones, and the queue never exceeds its cap |
| OutboundQueue.NothingDroppedBelowCap | backend/internal/sync/client.go:277-318 | while the queue stays below the cap every message gets through, in order |
| OutboundQueue.Client.Enqueue | backend/internal/sync/client.go:351-356 | the method's effect is the pipeline's step |
| OutboundQueue.Client.PumpOnce | backend/internal/sync/client.go:277-318 | the method's effect is one of the pump's steps |
| OutboundQueue.Client.WriteOne | backend/internal/sync/client.go:320-348 | the method's effect is the pipeline's write step |
| Limiters.BucketNeverOverGrants | backend/internal/sync/client.go:74-88 | calls spanning time T are granted at most Burst + PerSec T times |
| Limiters.SpacedCallsAreAllowed | backend/internal/sync/client.go:74-88 | calls at least 1/PerSec apart are never refused |
| Limiters.RapidCallsNeverRefill | backend/internal/sync/client.go:74-88 | calls less than 1/PerSec apart are granted exactly as often as there were tokens, however long they go on |
| Limiters.RefusedIff | backend/internal/sync/client.go:74-88 | for calls at any times: a call is refused if and only if, since the start or since some call with a full bucket, as many calls were granted as there were tokens and whole tokens earned in the gaps, each gap truncated by itself |
| Limiters.EmptyBucketIff | backend/internal/sync/client.go:74-88 | an empty bucket lets a call through if and only if a whole token was earned since the call before it |
| Limiters.Client.RateAllow | backend/internal/sync/client.go:74-88 | the method is the step that the runs of the bucket lemmas are made of |
| Limiters.WindowNeverOverGrants | backend/internal/server/proxy.go:52-70 | no window of 60 seconds holds more than 10 admitted requests |
| Limiters.RefusesOnlyWhenFull | backend/internal/server/proxy.go:52-70 | a request is refused exactly when 10 admitted ones lie in the last 60 seconds |
| Limiters.RateBucket.Filter | backend/internal/server/proxy.go:57-63 | the in-place filter keeps exactly the live timestamps, in order |
| Limiters.RateBucket.Allow | backend/internal/server/proxy.go:52-70 | the method admits exactly as the window lemmas assume, and keeps the live timestamps with the new one |
| VaultOwners.OwnersArePreservedIff | backend/internal/sync/client.go:837-951 | over every run of create, invite, remove, change role, transfer, rotate and delete, every vault has an owner throughout if and only if no accepted invite takes ownership from a vault's only owner |
| VaultOwners.StepKeepsOwnedIff | backend/internal/sync/client.go:837-1230 | the same for one call: every vault keeps an owner if and only if the call is refused or is no invite that demotes a sole owner |
| VaultOwners.RunKeepsForeignKeys | backend/migrations/000001_initial.up.sql:15-53 | all foreign keys hold after every run of those handlers |
| VaultOwners.InviteKeepsOwnedIff | backend/internal/sync/client.go:837-894 | an invite leaves every vault owned if and only if it grants ownership or does not name a sole owner |
| VaultOwners.RemoveKeepsOwned | backend/internal/sync/client.go:896-951 | a permitted removal never removes a vault's last owner |
| VaultOwners.ChangeRoleKeepsOwned | backend/internal/sync/client.go:1096-1163 | a permitted role change never demotes a vault's last owner |
| VaultOwners.TransferKeepsOwned | backend/internal/db/db.go:500-558 | a transfer makes the target an owner and the actor none, and leaves every vault owned |
| VaultOwners.DeleteKeepsOwned | backend/internal/db/db.go:390-408 | a deleted vault has no members left and the others keep their owners |
| VaultOwners.RemoveOwners | backend/internal/db/db.go:348-354 | removing a member takes exactly that member from the vault's owners and leaves every other vault's alone |
| VaultOwners.SetRoleOwners | backend/internal/db/db.go:561-567 | changing a role adds or takes exactly that member among the owners, does nothing for a non-member, and leaves every other vault alone |
| VaultOwners.OwnerCountGuardIff | backend/internal/db/db.go:570-577 | the handlers' guard on the number of owners refuses exactly when the target is the only owner |
| VaultOwners.RotationReachesEveryMember | backend/internal/sync/client.go:1165-1230 | a successful rotation gives every current member a key of that rotation and changes no role |
| VaultOwners.SetKeysSetsKeys | backend/internal/db/db.go:590-609 | a member's new key is that of the last update that names the member |
| Purge.PurgedLeavesNoTrace | backend/internal/db/db.go:417-497 | after a purge nothing names the user, other memberships are unchanged, vaults left empty are gone, and the user's other vaults are recorded under a remaining member |
| Purge.PurgeKeepsForeignKeysIff | backend/internal/db/db.go:417-497 | the purge can commit if and only if the user invited no remaining member |
| Purge.PurgeKeepsOwnedIff | backend/internal/db/db.go:417-497 | every vault still has an owner if and only if the user was not the sole owner of a vault that stays |
| Purge.PurgeKeepsNewestIff | backend/internal/db/db.go:417-497 | a shared document's newest row survives a purge if and only if it is neither by the user nor from one of the user's devices; otherwise every row left is numbered below it |
| Purge.PurgeReusesNumbersIff | backend/internal/db/db.go:128-152 | the next snapshot stored after the purge gets a number at most the newest recorded before, so that a device that had recorded it is sent nothing when it subscribes, if and only if the newest row was the user's or from one of the user's devices |
| Purge.PurgeCanBeBlocked | backend/internal/db/db.go:417-497 | a run of one create and one invite after which the creator's purge cannot commit |
| Purge.PurgeCanOrphanVault | backend/internal/db/db.go:417-497 | a run after which a purge can commit and leaves a shared vault without an owner |
| Purge.InviteCanOrphanVault | backend/internal/db/db.go:337-345 | a run after which an editor's accepted invite demotes a vault's only owner |
| VaultQueries.Queries.CreateVault | backend/internal/db/db.go:288-313 | both inserts, or neither |
| VaultQueries.Queries.AddVaultMember | backend/internal/db/db.go:337-345 | the upsert: key and role are overwritten, invited_by is kept |
| VaultQueries.Queries.DeleteVault | backend/internal/db/db.go:390-408 | the vault is gone with its members and messages |
| VaultQueries.Queries.TransferOwnership | backend/internal/db/db.go:500-558 | both roles and created_by change, or nothing does |
| VaultQueries.Queries.RotateVaultKeys | backend/internal/db/db.go:590-609 | the loop sets the keys of the updates in order |
| VaultQueries.Queries.PurgeUser | backend/internal/db/db.go:417-497 | the transaction commits the purge, or changes nothing, exactly when a remaining row names the user as invited_by |
| VaultQueries.Client.HandleInviteToVault | backend/internal/sync/client.go:837-894 | the handler is refused exactly when its step is, and then changes nothing; otherwise it performs exactly the step that the runs of `VaultOwners` are made of |
| VaultQueries.Client.HandleRemoveFromVault | backend/internal/sync/client.go:896-951 | the handler is refused exactly when its step is, and then changes nothing; otherwise it performs exactly the step that the runs of `VaultOwners` are made of |
| VaultQueries.Client.HandleChangeRole | backend/internal/sync/client.go:1096-1163 | the handler is refused exactly when its step is, and then changes nothing; otherwise it performs exactly the step that the runs of `VaultOwners` are made of |
| VaultQueries.Client.HandleTransferOwnership | backend/internal/sync/client.go:1058-1094 | the handler is refused exactly when its step is, and then changes nothing; otherwise it performs exactly the step that the runs of `VaultOwners` are made of |
| VaultQueries.Client.HandleRotateVaultKey | backend/internal/sync/client.go:1165-1230 | the handler is refused exactly when its step is, and then changes nothing; otherwise it performs exactly the step that the runs of `VaultOwners` are made of |
| VaultQueries.Client.HandleCreateVault | backend/internal/sync/client.go:789-810 | the handler is refused exactly when its step is, and then changes nothing; otherwise it performs exactly the step that the runs of `VaultOwners` are made of |
| VaultQueries.Client.HandleDeleteVault | backend/internal/sync/client.go:991-1033 | the handler is refused exactly when its step is, and then changes nothing; otherwise it performs exactly the step that the runs of `VaultOwners` are made of |
| Fuzzy.SubsequenceIff | frontend/src/lib/search.ts:59-70 | the greedy forward match is complete exactly for subsequences |
| Fuzzy.AlignIsEarliest | frontend/src/lib/search.ts:59-70 | the forward match is nowhere later than any match |
| Fuzzy.AlignBackIsLatest | frontend/src/lib/search.ts:72-79 | the backward match is nowhere earlier than any match below its end |
| Fuzzy.Forward | frontend/src/lib/search.ts:59-70 | the loop finds the greedy match's first start and its end, or that there is no match |
| Fuzzy.Backward | frontend/src/lib/search.ts:72-79 | the loop finds the latest start of a match that ends there |
| Fuzzy.WindowIsFilled | frontend/src/lib/search.ts:72-98 | the match that is scored starts and ends with the window |
| Fuzzy.WindowIsShortest | frontend/src/lib/search.ts:59-79 | every match ends no earlier than the window, and one that ends with it starts no later |
| Fuzzy.ScoreBounds | frontend/src/lib/search.ts:81-136 | a score within the span limit lies between 7 p + 2 and 26 p + 10 for a pattern of length p, so the clamp at 0 never fires |
| Fuzzy.ScoreWindow | frontend/src/lib/search.ts:87-133 | the scoring loop refuses exactly when a gap exceeds 16, and its score is the total over the matched positions |
| Fuzzy.FzfScore | frontend/src/lib/search.ts:53-136 | the score is nonzero exactly when the pattern is a subsequence whose window passes the span and gap limits, and is then the total over the matched positions |
| TextDiff.DiffToChanges | frontend/src/lib/codemirror-automerge.ts:84-112 | applying the result gives the new text, it is empty exactly when the texts are equal, and no other single splice deletes or inserts fewer characters |
| TextDiff.MaximalIsMinimalSplice | frontend/src/lib/codemirror-automerge.ts:84-112 | stripping the whole common prefix first, then the suffix, leaves the smallest splice |
| IngredientTable.RoundTripIff | frontend/src/lib/export.ts:45-104 | for every list, parsing the printed table gives the list back, with order and optional flags, if and only if every cell is trimmed and free of bars and newlines, no row looks like the header or the rule, and no needed cell is empty |
| IngredientTable.RowIsReadIff | frontend/src/lib/export.ts:86-101 | the same for one row at any column widths |
| IngredientTable.ParsedIsClean | frontend/src/lib/export.ts:76-104 | whatever the text, parsed cells are trimmed and hold no bar and no newline |
| IngredientTable.ParseIngredientTable | frontend/src/lib/export.ts:76-104 | the loops compute the table the specification reads |
| QuantityBounds.PrintedIsReadIff | frontend/src/lib/quantity.ts:26-64 | a quantity is printed legibly if and only if it is at least 0.05 (positive, for decimal units), and what is read back is less than 0.05 (at most 0.005) away |
| QuantityBounds.HundredthsRead | frontend/src/lib/quantity.ts:47-64 | two decimals with trailing zeros stripped are read as the same number |
| QuantityScaling.PlainScalesIff | frontend/src/lib/quantity.ts:66-113 | a scaled plain quantity is legible if and only if the scaled amount is at least 0.05; it is then less than 0.05 away from it and plain again |
| QuantityScaling.ApproximationScalesIff | frontend/src/lib/quantity.ts:78-83 | an approximate quantity keeps its tilde, and is legible if and only if the scaled amount is at least 0.05, within the same bound |
| QuantityScaling.RangeScalesIff | frontend/src/lib/quantity.ts:85-107 | a scaled range is read as a range if and only if both its ends are at least 0.05; it then has the same hyphen or word, its lower end scaled, the distance between its ends kept, and each end within 0.05, and can be scaled again |

## Left out

- Automerge, AES-GCM, ECDH, ECDSA and Argon2: merging is union, payloads always decrypt and verify, so the branch that rejects a signature is not taken.
- SyncReopen: subscribing to a document that is not open, and a push that opens a closed store for itself.
- Sync protocol: membership and role changes while documents synchronise; every device stays a member with write access.
- Sync protocol: user, document and device ids; any relay may panic, where the code's panics depend on them as `Hub` says.
- Sync protocol: vault deletion and purge during a run, process crashes between two IndexedDB writes, page reloads.
- Sync protocol: messages dropped by a full outbound queue; the overflow itself is modelled in `OutboundQueue`.
- Two inserts of one document that compute the same MAX(seq) at once: each statement is one atomic step.
- Check-then-act races between two vault handlers: each handler is one step.
- PushLedger.PushLedgerHolds: "sent" means handed to an open socket, and the socket stays open; a push whose store is closed meanwhile is not modelled.
- PushWorld: deleting a flag and its push heads is one step, and storing push heads is instant; a send on a socket that is still connecting ends the push like a closed one.
- PushFair.EventuallyPushed: nothing is said while the server keeps asking for pauses; time enters only through fairness.
- PushProgress.NoStall: it shows that steps of the queue lead to the push; that every fair schedule takes them is `PushFair.EventuallyPushed`, for dirty documents.
- Hub: the characters of an id stand for its bytes, and the presence relay, which panics in the same way, is not modelled.
- PushQueue: the user's answer to the dialog after a permission error is a parameter, and timers fire on time.
- Hub: a client that changes its user id by a second connect message; the user id is constant.
- Limiters.BucketNeverOverGrants: seconds are real numbers and the clock never goes back.
- Limiters: blocking on a channel is a step that is not enabled, and contexts and time-outs are not modelled.
- OutboundQueue: the connection's end, where QueuePump and WritePump stop with messages in their queues.
- Fuzzy.FzfScore: characters are Unicode scalars and only ASCII letters are folded; token weights and ranking in search are sums over this score.
- IngredientTable: string lengths count Unicode scalars instead of UTF-16 units, which changes only how wide columns are padded.
- Quantity: amounts are exact reals, so binary rounding, overflow, and the exponent notation of numbers from 10^21 on are not modelled; scale factors are finite.
- The whole-recipe markdown export: titles with quotes, tags with commas and zero servings are not meant to be lossless there.
- createAutomergeMirror: a transaction with several splices; only the single-splice diff is modelled.
- Login, signup, presence, blobs, the proxy's URL checks, recipe extraction and all user interface.
