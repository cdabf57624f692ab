# A verified model of the broker's recording core

The recording core takes terminal bytes from a tmux observer, journals them in order, rotates the journal between
generations, and feeds every attached page exactly the committed stream under fixed memory bounds. This project
models it as state machines, one module group for each lock or protocol, and proves what holds of every run.

Each group has the same parts: a state and its transitions as functions, an invariant with one lemma for each
transition, theorems over all runs, and classes whose methods update fields, rings, linked lists and maps in place as
the source does and are proved equal to the transition functions. The modules called Progress, Effects, Success and
Protocol say what the transitions get done: exactly when each of them takes effect, what it changes then, and that work
handed in is finished.

| modules | what they model |
|---|---|
| Retention, RetentionSteps, RetentionLedger, RetentionInvariant, RetentionRuns, RetentionReach, RetentionProgress, RetentionEffects, RetentionQueue, RetentionRuntime, PendingList, Credits | the retention runtime: five credits, source accounts, faults, retirement, the fixed command ring, the intrusive pending list |
| Journal, RecordingTail, SubscriberStream, SubscriberProgress, PaneEffects | committed reads, the wake-token tail queue, publication, opening and catch-up |
| Resume | PREPARE and LIVE frames and the positions stamped on them |
| PaneStream, PaneProgress, PaneRuntime | one pane's batching, pauses, faults and geometry records |
| GeometryBracket, GeometryProgress, GeometryTicket | explicit Fits: the owner gate, three slots, pause, geometry, fault and end in the queue |
| PaneRotation, RotationSettlement, RotationProgress, RotationSuccess, RotationTxn | the registry transaction of a rotation: begin, validate, seal, commit, abort, fatal |
| RotationDriver, RotationReach, RotationUnit, Parking, ParkingProgress | the unit's driver: its deferred restore and fatal settlement, and the bytes that arrive meanwhile |
| FrontierClock, InputFreshness, FreshnessProgress, FreshView, InputLedger, LedgerProgress | the input freshness gate, what a fresh page has been shown, and the input result ledger |
| MemoryAccounts, MemoryProgress, MemoryOwners | the nested memory budgets |
| ControlStream, ControlReader, ControlProtocol, ControlDecoder | the terminal read loop and the control-mode decoder |
| RotationCadence, CadenceProgress, InventoryCursor | the rotation schedule and the fairness of shadow inspection |

## What turned out not to hold

* An aborted rotation does not keep every byte in order. It displaces one when something is parked after the first
  overflow: the settlement wait keeps observing, so a later smaller output can be appended ahead of the refused one
  (`Parking.LateOutputOvertakes`). It loses some when the account denies the memory for the first parked event: that
  refusal is no overflow, so the event and the rest of its batch are kept nowhere (`Parking.DeniedMemoryLoses`).
  `Parking.NoByteLost` says that nothing else goes wrong, and what exactly is missing.
* `releaseUnadmitted` removes a generation whatever its failure state. The books stay balanced
  (`RetentionReach.EveryRun`), but a cleanup that had not run is stranded: every cleanup is paid for exactly as long as
  this has not happened (`RetentionReach.FundedIffNoneStranded`). After it no ring is large enough
  (`RetentionReach.NoRingIsEnough`), and the cleanup hits the next generation of the same key
  (`RetentionReach.StrandedCleanupRetiresStranger`). This is about the runtime's own interface; in the broker such a
  fault also trips the registry's breaker unless a rotation owns the key, and nothing more is admitted then.
* Releasing the command of a cancelled reservation would return its command credit twice, as only the credit is looked
  at. No enabled step does it (`RetentionRuns.StepKeepsBooks`).
* The seal is not the only thing that makes a rotation fatal: a stream that fails while a granted abort settles does
  too, with the registry's transaction aborted all the same (`RotationReach.LostStreamOverridesAbort`).
* The number of finished parts can exceed the declared parts by one, because an initial chunk can be published while its
  operation turns unhealthy. Refunds are exact all the same (`RetentionInvariant.PayloadSettledBeforeRefund`,
  `RetentionInvariant.RefundedExactlyOnce`).
* The decoder accepts octal escapes above 255 and wraps them (`ControlStream.AcceptedIffEscaped`,
  `ControlStream.OutOfRangeWraps`).
* The quiet period after a success can be cut short in three ways. A refit's key is published at the registry's commit
  and its success recorded much later, so an attempt can capture the key in between, and when it fails its retry comes
  a second later (`RotationCadence.RefitRecordedMidAttempt`). The due test and the capture of record and key are two
  locked regions, so a refit can also commit and record between them (`RotationCadence.RefitRecordedBeforeCapture`).
  And an attempt's completion time is read before the lock is taken, so settling a success can put an older time in the
  place of a refit's (`RotationCadence.SettlementOvertaken`). When exactly is said by `RotationCadence.QuietIff`,
  `RotationCadence.BeginsEarlyIff` and `RotationCadence.SuccessMoves`.

## Assumed

A generation of the journal is an append-only sequence of events with sequences 1, 2, ... and adjoining byte ranges;
geometry records have empty ranges; the committed part is a prefix that only grows. A journal write either commits and
calls the feed function or reports an error. Time is an integer that does not go back. Process and tmux witnesses are
values compared for equality.

## Model

| member | source | states |
|---|---|---|
| Retention.ReserveGrants | internal/broker/retention_runtime.go:574-658 | A reservation is granted exactly when it is allowed and fits every counter and its source account; it holds one command, its envelopes and its bytes twice, is the newest of its generation's list, and nothing else moves but a new generation's funding |
| Retention.Reserve | internal/broker/retention_runtime.go:574-658 | A refusal leaves every counter, list and account as before, whether or not the key was new |
| RetentionReach.EveryRun | internal/broker/retention_runtime.go:574-782 | In every run up to the completion of close, rollbacks of failed generations included, the five counters are the sums over live generations and unreleased reservations and within their limits, each source account is the sum of its generations, each pending list is the generation's unreleased reservations in acceptance order, and refunds add up to grants |
| RetentionReach.FundedIffNoneStranded | internal/broker/retention_runtime.go:463-477 | In every run each queued, owed or running cleanup belongs to its own live failed generation if and only if no rollback so far removed a failed generation before its cleanup; once one did, never again |
| RetentionReach.RingHoldsRun | internal/broker/retention_queue.go:3-73 | In every run in which no rollback stranded a cleanup the fixed ring holds every queued command |
| RetentionReach.NoRingIsEnough | internal/broker/retention_runtime.go:463-477 | Creating, faulting and rolling back one key n times leaves n queued cleanups and nothing that pays for them, whatever n is |
| RetentionReach.StrandedCleanupRetiresStranger | internal/broker/retention_runtime.go:1625-1666 | Concrete run in which a stranded cleanup makes the next generation of the same key retire though it never failed |
| RetentionReach.RunKeepsBooks | internal/broker/retention_runtime.go:574-804 | Every interleaving of enabled transitions keeps the books and the limits |
| RetentionRuns.StepKeepsBooks | internal/broker/retention_runtime.go:391-953 | Each of the 27 locked transitions keeps the books, and the funding of the cleanups exactly when it is not a rollback that strands one |
| RetentionInvariant.QueueFitsRing | internal/broker/retention_queue.go:3-73 | While every cleanup is paid for, the queue never needs more than the 2*(Q+P+1)+1 cells of the fixed ring before close completes |
| RetentionInvariant.ControlsInterleave | internal/broker/retention_queue.go:61-72 | Without two adjacent control runs, control runs number at most one more than the other commands |
| RetentionReach.PushFindsRoom | internal/broker/retention_queue.go:61-72 | While every cleanup is paid for, the step that queues a command starts with a free cell, so the capacity panic is dead |
| RetentionInvariant.FaultFindsGeneration | internal/broker/retention_runtime.go:1578-1605 | A fault classified without a look at the table, on the command, the feed or a waiting piece in hand, finds its generation there, so no unfunded one is made up |
| RetentionInvariant.PayloadSettledBeforeRefund | internal/broker/retention_runtime.go:706-739 | Payload credit returns only after every published payload part has settled, even when one more part settles than was declared |
| RetentionInvariant.RefundedExactlyOnce | internal/broker/retention_runtime.go:660-739 | The refunds of a reservation add up to its grant exactly when it is released, and before that to what it no longer holds |
| RetentionLedger.NothingPendingNothingHeld | internal/broker/recording_pressure.go:54-68 | With an empty pending list a generation's usage is exactly its two lifetime commands |
| RetentionLedger.SettleKeepsAccounting | internal/broker/retention_runtime.go:660-682 | Settling a reservation keeps counters, source accounts, usages and pending lists in balance |
| RetentionLedger.RetireKeepsAccounting | internal/broker/retention_runtime.go:769-782 | Leaving the table returns the lifetime credit and the source share and keeps every account in balance |
| RetentionLedger.SourceChargeKeepsAccounts | internal/broker/recording_sources.go:80-86 | Moving a generation's usage and its source account together keeps every account the sum of its generations |
| RetentionLedger.LastBound | internal/broker/recording_sources.go:139-147 | An account counts its generations, so it is dropped with its last one and not before |
| RetentionRuns.AttachKeeps | internal/broker/recording_sources.go:88-170 | Binding or inheriting a source keeps the accounts exact and within the table |
| RetentionRuns.FaultKeeps | internal/broker/retention_runtime.go:1578-1605 | Electing a fault owes exactly one cleanup to one live generation |
| RetentionRuns.SpendKeeps | internal/broker/retention_runtime.go:1625-1666 | Spending the cleanup in hand discharges its generation's duty and lets it retire |
| RetentionRuns.PushKeeps | internal/broker/retention_runtime.go:784-804 | Queueing the command that was due keeps every duty and the shape of the queue |
| RetentionReach.StepKept | internal/broker/retention_runtime.go:391-552 | Nothing brings a dead generation back or takes a failure or retirement back, and only a settled unlink or the creator's rollback ends one whose durable retirement is requested |
| RetentionReach.DurableWaits | internal/broker/retention_runtime.go:1443-1504 | While a durable retirement is requested, no other step removes the generation |
| RetentionReach.RetiredHoldsNothing | internal/broker/retention_runtime.go:750-782 | A generation that left the table has no reference and no pending reservation, no unspent cleanup unless one was stranded, its usage is nothing and its lifetime credit is back in the pool |
| RetentionReach.QuietUsesTwoCommands | internal/broker/retention_runtime.go:750-782 | A live generation without references uses exactly its two commands |
| RetentionRuns.ReleaseKeeps | internal/broker/retention_runtime.go:463-477 | The creator's rollback keeps the books whatever it removes, and every cleanup paid for if and only if it strands none; the code does not look |
| RetentionProgress.AcceptedInOrder | internal/broker/retention_runtime.go:784-1003 | In every run the reservations handed over while close had not begun are taken up by the manager in exactly that order: those taken up, then those queued, are those handed over; rejected bytes add up the same way; when close completes nothing is left |
| RetentionProgress.NothingLingers | internal/broker/retention_runtime.go:660-782 | In every run a reservation is released if and only if it was cancelled, or its command is done and every declared part settled; and no generation that is due to retire is still live |
| RetentionProgress.SubmitQueues | internal/broker/retention_runtime.go:784-804 | Unless close has begun the command joins the back of the queue, its reservation is queued and unreleased, and no counter, list or other reservation moves; otherwise the reservation is cancelled and the queue stays |
| RetentionProgress.CancelGivesBack | internal/broker/retention_runtime.go:660-682 | A cancelled reservation is released, leaves its list, gives its whole charge back to every counter, and retires its generation if that makes it due |
| RetentionProgress.FinishReleases | internal/broker/retention_runtime.go:684-739 | The finished command gives back its one credit, and with it the payload exactly when every declared part has settled |
| RetentionProgress.DispatchSettles | internal/broker/retention_runtime.go:706-739 | The dispatcher settles the oldest published occurrence, and gives back the payload exactly when the command is done and it was the last declared part |
| RetentionProgress.RetiresWhenDue | internal/broker/retention_runtime.go:750-782 | A live generation leaves the table, with its two commands and its slot returned, exactly when it was asked to, nothing refers to it, a failed one has spent its cleanup and no unlink is awaited |
| RetentionEffects.EnsureIff | internal/broker/retention_runtime.go:391-431 | A key has a generation afterwards exactly when it had one or there was room before close; an existing one is admitted on request unless failed, abandoned or retiring, and a new one is funded by one slot and two commands |
| RetentionEffects.RollbackIff | internal/broker/retention_runtime.go:463-477 | A rollback removes the generation, with its funding, exactly when it is neither admitted nor referred to |
| RetentionEffects.AdmitIff | internal/broker/retention_runtime.go:523-539 | A generation is admitted exactly when it is not failed, abandoned or retiring |
| RetentionEffects.FaultElects | internal/broker/retention_runtime.go:1578-1605 | The first fault of a generation fails it and owes one cleanup, a later one changes nothing, and a checked fault needs the generation meant |
| RetentionEffects.SpendIff | internal/broker/retention_runtime.go:1625-1666 | The spent cleanup marks its generation and asks it to retire; it stays only while something refers to it or its unlink is awaited |
| RetentionEffects.RequestsRetire | internal/broker/retention_runtime.go:1675-1693 | Asking for retirement revokes admission, and removes the generation at once if it is due; so does revoking admission alone |
| RetentionEffects.DurableIff | internal/broker/retention_runtime.go:1443-1504 | A durable retirement holds the generation until its unlink settles and removes it then, if nothing else holds it |
| RetentionEffects.AbortIff | internal/broker/retention_runtime.go:485-508 | An abort is granted if and only if the predecessor is the exact one, admitted, healthy and not retiring and the successor, if still there, the exact unadmitted one; then the successor is abandoned and nothing else moves |
| RetentionEffects.RejectRevokes | internal/broker/retention_runtime.go:906-922 | A rejected reservation is given back whole and its generation asked to retire |
| RetentionEffects.BindIff | internal/broker/recording_sources.go:88-137 | A source is bound exactly when the generation is the exact, usable and unbound one and the account exists or may be opened and has room for what the generation uses; the account then takes that usage and counts one generation more |
| RetentionEffects.InheritIff | internal/broker/recording_sources.go:152-173 | A successor shares its predecessor's account exactly when the predecessor is bound, the successor is not, and the account has room |
| RetentionEffects.PopTakes | internal/broker/retention_runtime.go:989-1003 | The oldest command is in the manager's hand, its reservation in processing, and nothing else moves |
| RetentionEffects.CloseCompletesIff | internal/broker/retention_runtime.go:924-953 | Close begins once, behind everything queued before, and completes exactly when its marker is taken up from an otherwise empty queue |
| RetentionEffects.RunCarries | internal/broker/retention_runtime.go:868-889 | A fence or a rejection joins the control run at the back or starts one, and every command in front stays where it was |
| RetentionQueue.SlotsDistinct | internal/broker/retention_queue.go:39-59 | Different positions of one turn of the ring use different cells |
| RetentionQueue.CommandQueue.constructor | internal/broker/retention_queue.go:15-17 | A new ring is empty and has the 2*(Q+P+1)+1 cells of its options |
| RetentionQueue.CommandQueue.Len | internal/broker/retention_queue.go:23-23 | The number of queued commands |
| RetentionQueue.CommandQueue.Front | internal/broker/retention_queue.go:25-30 | The oldest command, if any |
| RetentionQueue.CommandQueue.Back | internal/broker/retention_queue.go:32-37 | The newest command, if any |
| RetentionQueue.CommandQueue.Push | internal/broker/retention_queue.go:39-47 | Appends at the back, refusing exactly when every cell is taken |
| RetentionQueue.CommandQueue.Pop | internal/broker/retention_queue.go:49-59 | Removes the front command and empties its cell |
| RetentionQueue.CommandQueue.ReplaceBack | internal/broker/retention_runtime.go:868-889 | Rewrites the newest command in place and nothing else |
| RetentionRuntime.Runtime.constructor | internal/broker/retention_runtime.go:288-332 | A new runtime is the empty ledger state with a ring of its own |
| RetentionRuntime.Runtime.SourceChargeLocked | internal/broker/recording_sources.go:80-86 | Usage and source account move by the same credit |
| RetentionRuntime.Runtime.ReleaseSourceLocked | internal/broker/recording_sources.go:139-147 | One generation leaves its account; the last takes the account along |
| RetentionRuntime.Runtime.ReturnLifetimeLocked | internal/broker/retention_runtime.go:769-782 | The lifetime credit is returned once |
| RetentionRuntime.Runtime.FinishRetireLocked | internal/broker/retention_runtime.go:769-782 | The generation leaves the table as the retirement function says |
| RetentionRuntime.Runtime.TryRetireLocked | internal/broker/retention_runtime.go:750-767 | Retires exactly when asked, without references, with cleanup spent and no durable request; ready exactly when only the durable unlink is left to wait for |
| RetentionRuntime.Runtime.CreateLocked | internal/broker/retention_runtime.go:391-428 | A new generation joins the table with its lifetime credit |
| RetentionRuntime.Runtime.UndoCreateLocked | internal/broker/retention_runtime.go:574-658 | A refused reservation takes its new generation back, to the exact state before |
| RetentionRuntime.Runtime.ReserveWithAdmission | internal/broker/retention_runtime.go:574-658 | The method computes the reservation function: same grant, same refusal, same state |
| RetentionRuntime.Runtime.FindShortage | internal/broker/retention_runtime.go:574-658 | Names the first exhausted limit, none exactly when all fit |
| RetentionRuntime.Runtime.GrantLocked | internal/broker/retention_runtime.go:574-658 | Counters, usage, account and pending list take the new reservation |
| RetentionRuntime.Runtime.DetachLocked | internal/broker/recording_pressure.go:54-68 | A released reservation leaves its list and drops its reference |
| RetentionRuntime.Runtime.RefundLocked | internal/broker/retention_runtime.go:660-682 | The whole remaining charge goes back |
| RetentionRuntime.Runtime.CancelReservation | internal/broker/retention_runtime.go:660-682 | Cancelling refunds an unreleased reservation and changes nothing else; ready exactly when its generation now waits only for its durable unlink |
| RetentionRuntime.Runtime.ReleaseCommand | internal/broker/retention_runtime.go:684-704 | The command credit returns as long as it is there, also that of a cancelled reservation, the rest when every part is done |
| RetentionRuntime.Runtime.CompletePart | internal/broker/retention_runtime.go:706-724 | One settled part, and the refund that completes it; ready exactly when its generation now waits only for its durable unlink |
| RetentionRuntime.Runtime.ReleaseCompletedReservationLocked | internal/broker/retention_runtime.go:729-739 | Refunds exactly when the command is released and all parts are done |
| RetentionRuntime.Runtime.Enqueue | internal/broker/retention_runtime.go:784-804 | Accepted exactly while close has not begun: the queue grows by exactly this command at the back, its reservation is queued, and nothing else moves; otherwise the queue stays and the reservation is cancelled and given back |
| RetentionRuntime.Runtime.EnqueueRejectedOutput | internal/broker/retention_runtime.go:451-461 | Rejected output joins the control run at the back or starts one; the push finds a cell |
| RetentionRuntime.Runtime.StartDispatchFence | internal/broker/retention_runtime.go:868-889 | A fence shares the control run at the back or starts one; the push finds a cell |
| RetentionRuntime.Runtime.BeginClose | internal/broker/retention_runtime.go:924-953 | Queues one close marker, once; the push finds a cell |
| RetentionRuntime.Runtime.FinishCloseCommand | internal/broker/retention_runtime.go:1695-1741 | Close re-queues its marker while commands wait, and completes when none does |
| RetentionRuntime.Runtime.AppendCleanupCommand | internal/broker/retention_runtime.go:1616-1623 | The cleanup owed for a fault enters the queue; the push finds a cell |
| RetentionRuntime.Runtime.PopNext | internal/broker/retention_runtime.go:989-1003 | The manager takes the oldest command in hand |
| RetentionRuntime.Runtime.CommitFaultLocked | internal/broker/retention_runtime.go:1578-1605 | A fault marks its generation, made up when it is missing, and elects one cleanup; later faults elect none; an unchecked fault never finds it missing |
| RetentionRuntime.Runtime.SpendCleanupCommand | internal/broker/retention_runtime.go:1625-1666 | The cleanup in hand is spent and its generation asked to retire |
| RetentionRuntime.Runtime.SettleRotationAbort | internal/broker/retention_runtime.go:485-508 | Succeeds only against the exact live, admitted, healthy, not retiring predecessor, and abandons the successor it created |
| RetentionRuntime.Runtime.MakeUpLocked | internal/broker/retention_runtime.go:1578-1605 | A missing generation is made up with two commands and no slot |
| RetentionRuntime.Runtime.ReleaseUnadmittedLocked | internal/broker/retention_runtime.go:463-477 | A creator takes an unadmitted, unreferenced generation back; the ring stays large enough exactly when no cleanup is stranded |
| RetentionRuntime.Runtime.BindSourceLocked | internal/broker/recording_sources.go:88-137 | Joins or opens the source account exactly when its limits and the table allow, and otherwise names the refusal: another generation, another source, or the quota |
| PendingList.LinkedList.Append | internal/broker/retention_runtime.go:574-658 | A granted reservation joins the intrusive list at its tail |
| PendingList.LinkedList.Unlink | internal/broker/recording_pressure.go:54-68 | Takes exactly this node out, keeping the order of the others, and changes nothing when it is not linked |
| PendingList.RemoveAt | internal/broker/recording_pressure.go:54-68 | Removing a value that occurs once drops its one position, so unlinking a node is removing its reservation from the list |
| Journal.SuffixSplit | internal/unifiedjournal/journal.go:2006-2062 | Consuming the first records of a suffix leaves exactly the rest |
| Journal.SuffixGrows | internal/unifiedjournal/journal.go:2514-2541 | A commit keeps every position valid and only appends to its suffix |
| Journal.AllocationCharge | internal/unifiedjournal/memory.go:10-22 | The charge covers the bytes and is nothing for no bytes |
| Journal.ChargeIsLeast | internal/unifiedjournal/memory.go:10-22 | The charge is the least of the twelve size classes that holds up to 32 KiB, and the least number of whole 8 KiB pages above |
| Journal.CommittedSuffix | internal/unifiedjournal/journal.go:2006-2031 | The walk from the newest page back finds the longest run within the bound, always at least one record, and refuses exactly the positions outside the committed stream |
| Journal.ReadCommittedEventsAfter | internal/unifiedjournal/journal.go:2039-2062 | The records read are the front of the committed suffix, the first one cut at the cursor |
| RecordingTail.WaitingIsWoken | internal/broker/recording_tail.go:43-162 | Whatever happens between a consumer's look and its sleep, an event, a catch-up turn or a close leaves the wake ready |
| RecordingTail.TailQueue.constructor | internal/broker/recording_tail.go:39-41 | An empty open queue |
| RecordingTail.TailQueue.Push | internal/broker/recording_tail.go:43-61 | The event joins at the tail and the wake is offered |
| RecordingTail.TailQueue.TakeLocked | internal/broker/recording_tail.go:82-105 | The oldest event leaves the linked queue |
| RecordingTail.TailQueue.Next | internal/broker/recording_tail.go:110-128 | One receive turn: the oldest event, else a catch-up turn, else close, else wait |
| RecordingTail.TailQueue.StartCatchUp | internal/broker/recording_tail.go:132-143 | The flag is set and the wake offered; queued events stay |
| RecordingTail.TailQueue.LeaveCatchUp | internal/broker/recording_tail.go:151-155 | Only the flag is cleared |
| RecordingTail.TailQueue.Close | internal/broker/recording_tail.go:157-162 | The queue is closed and the wake offered; queued events stay |
| RecordingTail.TailQueue.Drain | internal/broker/unified_dev_journal.go:191-201 | Every remaining event is taken so that its charge can be refunded |
| SubscriberStream.ExactStream | internal/broker/unified_dev_journal.go:123-175 | In every run what a writer has written, then what is in its hand, then its queue, is a gapless duplicate-free front of the committed stream from its opening position; no sequence_gap eviction occurs, no tail exceeds its bound, and no consumer sleeps while something waits |
| SubscriberStream.GivenInOrder | internal/broker/server.go:396-481 | The events a subscriber is given carry the next sequence numbers after its opening position |
| SubscriberStream.SnapshotHoldsPublished | internal/broker/unified_dev_journal.go:294-444 | A snapshot read at the committed frontier holds every published event, so registration finds no gap |
| SubscriberStream.ReleaseCovered | internal/broker/recording_readers.go:147-163 | Refunding a written tail event never finds less charged than it returns |
| SubscriberStream.OfferKeeps | internal/broker/unified_dev_journal.go:123-175 | Offering the next event to any subscriber keeps its line, its cursor and its charge; the gap branch is not taken |
| SubscriberStream.RoundKeeps | internal/broker/unified_dev_journal.go:460-502 | A catch-up round rejoins at the committed frontier or continues the stream where the writer stands |
| SubscriberStream.StepKeepsInv | internal/broker/unified_dev_journal.go:123-502 | Every step of commits, publications, openings, receives, writes, catch-up rounds and removals keeps every subscriber exact |
| SubscriberProgress.OfferOutcome | internal/broker/unified_dev_journal.go:123-175 | A present subscriber in step gets the event at its tail and stays, with its cursor on it, if its queue and lease have room; it stays and catches up if either has not; it is evicted only when its lease is detached and leaves only when its attachment is done; anyone else is left alone |
| SubscriberProgress.GoneIff | internal/broker/unified_dev_journal.go:123-502 | In every run a subscriber is gone if and only if it was cancelled, publication found its attachment done or its lease detached while it was in step, a catch-up read short of the frontier was refused, or all were closed; being slow or full ends nobody |
| SubscriberProgress.RemovalVerdict | internal/broker/unified_dev_journal.go:191-247 | Each removal leaves the reason that belongs to it: lagged, the closing reason, or none |
| SubscriberProgress.RoundReads | internal/broker/unified_dev_journal.go:460-502 | A catch-up round short of the frontier puts at least one more committed record in the writer's hand, exactly those that come next; at the frontier a present subscriber is in step again |
| SubscriberProgress.OpeningHolds | internal/broker/unified_dev_journal.go:294-444 | An opening registers a subscriber with everything committed after its position in the writer's hand |
| SubscriberProgress.TurnTakes | internal/broker/recording_tail.go:110-128 | A turn takes the oldest queued event into the writer's hand; with none it ends after a close, catches up when told to, and otherwise waits |
| SubscriberProgress.WriterAdvances | internal/broker/server.go:396-481 | Only a commit puts a writer further behind the journal, and every write that succeeds brings it nearer by exactly what was in its hand |
| SubscriberProgress.WaitingHasAll | internal/broker/server.go:396-481 | A present writer that waits with nothing queued has been given everything published |
| PaneEffects.Effects.PublishEvent | internal/broker/unified_dev_journal.go:123-175 | Hands the event to every in-step subscriber with room, which stays registered with its cursor on it; sends one without room to catch up, still registered; and unregisters nobody but the done, the detached and the gapped |
| PaneEffects.Effects.CloseSubscribers | internal/broker/unified_dev_journal.go:228-247 | Every present subscriber ends with one typed reason |
| PaneEffects.Effects.ReadCatchUp | internal/broker/unified_dev_journal.go:460-502 | Rejoins, reads the next bounded run from the journal, or ends with a typed refusal |
| PaneEffects.DeliveredIsPosition | internal/broker/unified_dev_journal.go:460-502 | A writer always stands at a valid position of the stream it is given |
| Resume.ResumeIsExact | internal/broker/server.go:250-394 | A page that keeps the first frames and later opens at the last one's stamped position has been shown the whole stream: every byte and geometry once, in order |
| Resume.PositionExact | internal/broker/server.go:556-562 | The position stamped after part of an event is where that part ends, whatever frames carried it |
| Resume.ResumesLater | internal/broker/server.go:489-562 | A stamped position stays exact however much is committed before the page comes back |
| Resume.PositionSuffix | internal/broker/unified_dev_journal.go:341-377 | A resume reads the rest of the record it is inside, then everything after it |
| Resume.SizeFollows | internal/unifiedjournal/journal.go:1928-1942 | Consuming the first records leaves the geometry in force after them |
| Resume.PartsMakeWhole | internal/broker/server.go:489-562 | The part of an event shown and the part left over make the whole |
| Resume.GeometryAt | internal/unifiedjournal/journal.go:1928-1942 | The walk back finds the last geometry at or before the sequence, else the birth geometry |
| Resume.FrameWriter.Send | internal/broker/server.go:671-678 | Succeeds exactly while the peer accepts another frame, which carries the run and its position within the bound |
| Resume.FrameWriter.WritePrepare | internal/broker/server.go:315-364 | PREPARE carries the leading whole output events that fit 16 KiB, with the exact position after them |
| Resume.FrameWriter.Flush | internal/broker/server.go:535-551 | Sends the packed run as one frame with its exact position; fails exactly when there is one and the peer accepts no more |
| Resume.FrameWriter.Add | internal/broker/server.go:535-551 | Packs an output event into frames, each full and with the exact position after it; fails only when the peer accepts no more |
| Resume.FrameWriter.WriteRun | internal/broker/server.go:489-524 | The frames show exactly the events; of two LIVE frames in a row the first is full, and a geometry ends the run; fails only when the peer accepts no more |
| Resume.FrameWriter.WriteEvent | internal/broker/server.go:646-669 | One event by itself shows the same bytes and geometry in the fewest frames; fails only when the peer accepts no more |
| Resume.FrameWriter.WriteOpening | internal/broker/server.go:688-719 | PREPARE and the backlog together show the whole opening; it fails only after the peer has taken every frame it accepts |
| PaneStream.StreamKept | internal/broker/retention_runtime.go:1063-1231 | Over any schedule the journal's output is a prefix of what was accepted, all of it but what still waits until a fault loses something; no record is empty or above the batch size; pieces made and pending are exactly the declared parts |
| PaneStream.ClosedCompletely | internal/broker/retention_runtime.go:1743-1761 | Close with no write refused leaves the journal holding every accepted byte |
| PaneStream.NothingWrittenWhilePaused | internal/broker/retention_runtime.go:1374-1400 | While a pane is paused nothing but a geometry record reaches the journal |
| PaneStream.GeometryBetween | internal/broker/retention_runtime.go:1286-1353 | A geometry record lands exactly between the bytes accepted before the pause and those held since |
| PaneStream.OnlyFullBatches | internal/broker/retention_runtime.go:1099-1152 | Output alone writes as many records of exactly the batch size as fit; the rest waits |
| PaneStream.CutKeeps | internal/broker/retention_runtime.go:1099-1152 | Cutting a payload keeps every byte in order, every record within the batch and makes exactly the declared parts |
| PaneStream.DrainKeeps | internal/broker/retention_runtime.go:1158-1182 | Draining held pieces keeps their order and never merges past the batch size |
| PaneStream.FlushKeeps | internal/broker/retention_runtime.go:1184-1231 | A flush that succeeds writes one record of what was pending and nothing else |
| PaneStream.ForgetKeeps | internal/broker/retention_runtime.go:1675-1694 | Forgetting an idle pane, paused or not, keeps its stream |
| PaneStream.StepKeeps | internal/broker/retention_runtime.go:1005-1036 | Every command keeps the per-pane stream invariant |
| PaneProgress.EverythingRecorded | internal/broker/retention_runtime.go:1063-1432 | Over any schedule everything output is accepted, in order, while the generation is healthy; after the end of a pause, a close or a flush outside a pause all of it is in the journal; and only a refused write or a fault from outside ends that |
| PaneProgress.PauseEnds | internal/broker/retention_runtime.go:1385-1400 | The end of a pause ends it and leaves nothing pending and nothing held: every accepted byte is in the journal unless a write was refused, and then no write is left and something is lost |
| PaneProgress.PauseStarts | internal/broker/retention_runtime.go:1376-1384 | A pause begins exactly when its flush is not refused; everything accepted before is then in the journal and what was held stays held |
| PaneProgress.Accepts | internal/broker/retention_runtime.go:1063-1152 | A healthy pane accepts every output behind the others, holding it while paused; only a refused write loses any; after a fault an output is settled as its own one part |
| PaneProgress.CutSpends | internal/broker/retention_runtime.go:1099-1152 | Cutting a payload takes one write for each record, changes no record written before, and while paused only holds |
| PaneProgress.DrainSpends | internal/broker/retention_runtime.go:1158-1182 | Draining takes one write for each record and holds nothing afterwards; it fails only when a write is refused |
| PaneProgress.FlushOutcome | internal/broker/retention_runtime.go:1184-1231 | A flush writes exactly one record of everything pending if there is any and a write is left, fails if none is left, and otherwise does nothing |
| PaneProgress.GeometryIff | internal/broker/retention_runtime.go:1286-1353 | The record is written exactly when the flush before it is not refused, the generation is healthy and the journal takes it; otherwise the generation fails; the pause stays as it was |
| PaneProgress.CleansUp | internal/broker/retention_runtime.go:1625-1666 | Nothing is left waiting and every part ever declared has been sent to the dispatcher |
| PaneProgress.CloseEnds | internal/broker/retention_runtime.go:1743-1761 | A close leaves nothing waiting, and everything accepted in the journal unless a write is refused |
| PaneRuntime.PaneState.FlushPane | internal/broker/retention_runtime.go:1184-1231 | One record of everything pending, built piece by piece, or a fault that aborts it |
| PaneRuntime.PaneState.ProcessOutput | internal/broker/retention_runtime.go:1063-1082 | Discards, completes, or declares the parts and cuts the payload |
| PaneRuntime.PaneState.AppendPiece | internal/broker/retention_runtime.go:1099-1152 | A piece waits behind the pause or joins the open batch |
| PaneRuntime.PaneState.CutPiece | internal/broker/retention_runtime.go:1099-1152 | One turn of the cutting loop leaves the cut of the rest to do, or the whole cut done when its flush is refused |
| PaneRuntime.PaneState.EnqueueComponent | internal/broker/retention_runtime.go:1099-1152 | The cutting loop computes the cut of the whole payload |
| PaneRuntime.PaneState.DrainHeld | internal/broker/retention_runtime.go:1158-1182 | The draining loop computes the drain of everything held |
| PaneRuntime.PaneState.ProcessPauseStart | internal/broker/retention_runtime.go:1374-1432 | Fails exactly when the flush is refused; otherwise the pane is paused, nothing is pending and everything accepted before is in the journal |
| PaneRuntime.PaneState.ProcessPauseEnd | internal/broker/retention_runtime.go:1374-1432 | The pane is not paused, with nothing pending or held; every accepted byte is in the journal unless it had failed or a write was refused, which is exactly when an error is reported |
| PaneRuntime.PaneState.ProcessGeometry | internal/broker/retention_runtime.go:1286-1353 | Writes the geometry record where the pause stands; fails exactly when the flush or the journal refuses or the generation had failed, and then the generation has |
| PaneRuntime.PaneState.ProcessCleanup | internal/broker/retention_runtime.go:1625-1666 | A failed pane drops what waits |
| PaneRuntime.PaneState.RequestRetire | internal/broker/retention_runtime.go:1675-1694 | Only an idle pane is forgotten |
| PaneRuntime.PaneState.FlushForClose | internal/broker/retention_runtime.go:1743-1761 | Ends a pause and leaves nothing waiting; everything accepted is in the journal unless a write is refused |
| GeometryBracket.EveryPauseEndsItself | internal/broker/unified_dev_geometry.go:37-193 | In every run of Fits, cancellations, failures and commits each pause that takes effect is ended by its own owner before any other pause starts in the queue |
| GeometryBracket.FaultBeforeEnd | internal/broker/unified_dev_geometry.go:258-300 | A Fit whose command was issued and never durably committed has its fault in the queue before its end |
| GeometryBracket.SlotsUsedOnce | internal/broker/unified_dev_geometry.go:214-300 | A Fit that is over has used or refunded each of the slots it took exactly once |
| GeometryBracket.NothingStranded | internal/broker/unified_dev_geometry.go:37-193 | With no Fit under way and close not begun, no pause is left in force |
| GeometryBracket.OwnEndFirst | internal/broker/retention_runtime.go:1374-1400 | In a bracketed queue the owner's end comes before the next start |
| GeometryBracket.FailedPause | internal/broker/retention_runtime.go:1374-1400 | A pause whose flush failed was never in force; nothing else changes |
| GeometryBracket.StepKeepsInv | internal/broker/retention_runtime.go:334-366 | Each step keeps the owner gate, the slots and the order of the queue |
| GeometryProgress.FaultIff | internal/broker/unified_dev_geometry.go:258-300 | Once a Fit's end is queued, its fault is queued in front of it if and only if its command was reached and its geometry never came back durable |
| GeometryProgress.RecordsIff | internal/broker/unified_dev_geometry.go:222-256 | In every run a Fit is on record as issued exactly when its command was reached and as committed exactly when its geometry came back durable |
| GeometryProgress.FitCompletes | internal/broker/unified_dev_geometry.go:37-193 | Whenever the gate is free and the manager has caught up a Fit can run from its pause through a durable geometry to its end, with each slot used once, no fault and the gate open again |
| GeometryProgress.StartsAndStops | internal/broker/unified_dev_geometry.go:37-193 | A slot or a place in the queue belongs to the Fit when granted; refused, cancelled or denied, the Fit is over, the gate open and every slot given back, a cancelled one behind its queued end |
| GeometryProgress.HoldsAndReleases | internal/broker/unified_dev_geometry.go:214-300 | What each use of the ticket records and queues: the command once reached, the geometry on the commit slot, the fault if due, the end |
| GeometryProgress.ManagerTakes | internal/broker/retention_runtime.go:1374-1400 | The manager takes one entry: a pause applies or fails, a geometry is durable if the journal took it, and nothing else is recorded |
| GeometryTicket.PaneFits.AcquireGeometryOwner | internal/broker/retention_runtime.go:334-350 | Refused while another Fit owns the pane or once close has begun |
| GeometryTicket.PaneFits.SubmitEntry | internal/broker/retention_runtime.go:1273-1279 | A submission enters the queue unless close has begun |
| GeometryTicket.PaneFits.CancelFit | internal/broker/unified_dev_geometry.go:37-193 | A cancelled Fit queues its own end before it opens the gate and gives back its other slots |
| GeometryTicket.PaneFits.CommitGeometry | internal/broker/unified_dev_geometry.go:222-243 | The geometry is submitted on the commit slot, which is spent whatever the answer |
| GeometryTicket.PaneFits.Release | internal/broker/unified_dev_geometry.go:258-300 | Unused commit slot, then the fault if due, then the end, then the gate |
| RotationReach.EveryRotation | internal/broker/unified_rotation.go:630-664 | In every run the driver and the registry transaction settle at most once, and an ended rotation has one outcome its parts agree on: registry and journal committed; or the never sealed predecessor restored, the transaction aborted, the journal undone and no failure of the stream recorded while settling; or failed with nothing published, unless only the replay failed. No part of the successor shows unless the whole commit happened |
| RotationReach.RestoreEnds | internal/broker/unified_rotation.go:1304-1383 | Whatever everyone else does, a driver that entered its deferred restore is never stuck, ends within five of its own moves and keeps its outcome |
| RotationReach.RestoresIff | internal/broker/unified_rotation.go:1304-1383 | The restore brings the predecessor back if and only if the point of no return was not passed, no failure of the stream was recorded before or while the abort and the replay settled, the registry let go, and a flipped holder's bytes went back |
| RotationReach.LostStreamOverridesAbort | internal/broker/unified_rotation.go:1325-1327 | A stream failure recorded while a granted abort settles ends the rotation fatally: transaction aborted, journal failed, unit reaped |
| RotationDriver.FailInstalledKeeps | internal/broker/unified_rotation.go:1679-1728 | A failed installed successor has no active key, no open tail and nothing routed, and the registry transaction stays committed |
| RotationDriver.FailPredecessorKeeps | internal/broker/unified_rotation.go:1613-1671 | Failing a refit's predecessor shows nothing of the successor |
| RotationDriver.RetainBothKeeps | internal/broker/unified_rotation.go:1508-1581 | An uncertain refit ends with nothing published, no tail on either generation and its transaction settled fatally |
| RotationDriver.TerminateKeeps | internal/broker/unified_rotation.go:1402-1479 | The fatal settlement brings the held transaction, the journal reservation and the attachments to their end, from every phase that reaches it |
| RotationDriver.DecideKeeps | internal/broker/unified_rotation.go:1304-1324 | A granted abort is followed by a replay, everything else by the fatal settlement |
| RotationDriver.MoveKeeps | internal/broker/unified_rotation.go:875-975 | Each move of the driver and of everyone else keeps the transaction held exactly until it is settled, and each phase its claims |
| RotationSettlement.CommitAllOrNothing | internal/broker/pane_rotation.go:390-456 | Router, admission, active key and witness switch together with the predecessor's tails closed, or all stay and the outcome is fatal |
| RotationSettlement.FaultKeyKeeps | internal/broker/server.go:889-935 | A fault, whether it stays local, marks one admission or trips the breaker, shows no route and moves no session, and leaves provider and transaction alone |
| RotationSettlement.BeginStarts | internal/broker/pane_rotation.go:112-225 | A transaction that begins starts from its assumptions with nothing of its successor visible; one that does not changes nothing |
| RotationSettlement.EnvKeeps | internal/broker/pane_rotation.go:264-330 | Whatever the runtime, other sessions, attachments and the closing broker do, no part of the successor shows and no tail outlives its generation |
| RotationProgress.CommitsIff | internal/broker/pane_rotation.go:390-456 | A transaction not settled before ends committed if and only if the provider is unchanged, it is validated with a successful bootstrap, registry, session, coordinates and admissions are as captured, the predecessor is live, or past the seal gone or retiring, and the exact successor is live, unadmitted, healthy, not abandoned and not retiring; then the whole successor is installed, else nothing of it and the end is fatal |
| RotationProgress.ValidatesIff | internal/broker/pane_rotation.go:335-388 | Validated exactly when everything captured still holds after a successful bootstrap; the bootstrap starts once, and only a validated transaction can be sealed |
| RotationProgress.AbortsIff | internal/broker/pane_rotation.go:522-546 | An abort is granted if and only if nothing is sealed, the exact predecessor is admitted, healthy and not retiring and the successor gone or unadmitted; it abandons the successor and leaves every route, session and the provider |
| RotationProgress.PublishOutcome | internal/broker/server.go:889-935 | Owned and abandoned generations' failures stay local; otherwise the exact healthy admission is marked and counted, and without one, or with none left to count, the registry breaks |
| RotationProgress.FatalOutcome | internal/broker/pane_rotation.go:478-511 | A fatal settlement fails the exact successor and lets go of the route and the key |
| RotationProgress.InstalledFails | internal/broker/unified_rotation.go:1679-1728 | A failed installed successor is neither published, routed nor attached to, and its generation has failed |
| RotationProgress.PredecessorFails | internal/broker/unified_rotation.go:1613-1671 | A failed refit predecessor is cut off the same way, has failed and retires durably |
| RotationProgress.BothFail | internal/broker/unified_rotation.go:1508-1581 | An uncertain refit fails both generations where they exist, ends every attachment and settles the transaction it holds |
| RotationProgress.RestoreOutcome | internal/broker/unified_rotation.go:1304-1383 | Which of the four ends a deferred restore has, by what it meets on its way |
| RotationSuccess.BeginsIff | internal/broker/pane_rotation.go:112-225 | A transaction begins if and only if its predecessor is live, alone, published and unowned, the successor's key, route and coordinate are free, and the runtime and the source account have room; it is then under way with an untouched successor |
| RotationSuccess.Succeeds | internal/broker/unified_rotation.go:875-975 | From every start whose transaction may begin there is a run that ends succeeded: journal committed, the successor published, routed and admitted in the predecessor's place, no tail left on the predecessor |
| RotationSuccess.StartExists | internal/broker/unified_rotation.go:630-664 | There are such starts, of rotations and of refits |
| RotationTxn.PaneTxn.constructor | internal/broker/pane_rotation.go:112-178 | A transaction captures its assumptions |
| RotationTxn.PaneTxn.ValidateTxn | internal/broker/pane_rotation.go:366-384 | Succeeds exactly when the bootstrap was successful and everything captured still holds |
| RotationTxn.PaneTxn.MarkSealed | internal/broker/pane_rotation.go:335-339 | Records the processed retiring boundary |
| RotationTxn.PaneTxn.FaultKeyLocked | internal/broker/server.go:889-935 | A key is faulted only while its generation exists or is the one meant, and published under the same locks |
| RotationTxn.PaneTxn.SettleFatal | internal/broker/pane_rotation.go:484-511 | Classifies the successor's fault while the transaction owns it, then lets go |
| RotationTxn.PaneTxn.FatalTxn | internal/broker/pane_rotation.go:478-511 | Fatal settles an unsettled transaction and leaves a settled one its outcome |
| RotationTxn.PaneTxn.CommitTxn | internal/broker/pane_rotation.go:390-456 | Not settled before, it ends committed if and only if everything a commit needs is there, with the whole successor installed, and fatally otherwise, with the provider as it was; settled before, nothing changes |
| RotationTxn.PaneTxn.InstallLocked | internal/broker/pane_rotation.go:404-456 | Admission, routes, active key and witness switch and the predecessor's tails close, all in one locked step |
| RotationTxn.PaneTxn.AbortPaneTxn | internal/broker/pane_rotation.go:522-546 | Granted exactly while nothing is sealed and retention proves the exact predecessor abortable |
| RotationUnit.UnitRotation.constructor | internal/broker/unified_rotation.go:233-264 | A rotation object holds its driver's record |
| RotationUnit.UnitRotation.DecideRestore | internal/broker/unified_rotation.go:1304-1324 | Fatal past the point of no return, after a lost stream or a refused abort, else on to the replay |
| RotationUnit.UnitRotation.ReplayPredecessor | internal/broker/unified_rotation.go:1325-1366 | Asks the stream again, aborts the journal or arms its rollback, and writes what was parked |
| RotationUnit.UnitRotation.RejoinPredecessor | internal/broker/unified_rotation.go:1367-1383 | The last boundary: restored, unless the stream was lost meanwhile or the boundary failed |
| RotationUnit.UnitRotation.FailCommittedSuccessor | internal/broker/unified_rotation.go:1679-1728 | Active key, route, runtime and tails of the installed successor go |
| RotationUnit.UnitRotation.FailRefitPredecessor | internal/broker/unified_rotation.go:1613-1671 | The refit's predecessor loses active key and route, is faulted if it still exists and retires durably |
| RotationUnit.UnitRotation.RetainUncertainRefit | internal/broker/unified_rotation.go:1508-1581 | Both generations that exist are faulted, the transaction is settled and nothing else is |
| RotationUnit.UnitRotation.FailAuthorityLocked | internal/broker/unified_rotation.go:1439-1461 | Installed successor, held transaction, refit predecessor: whichever had authority loses it |
| RotationUnit.UnitRotation.SettleFatal | internal/broker/unified_rotation.go:1402-1506 | One end for transaction, journal, runtimes and attachments; the source's fate decides what a refit retains |
| RotationUnit.UnitRotation.RestoreRotation | internal/broker/unified_rotation.go:1304-1383 | The whole deferred restore ends, and restored exactly when the rotation was not past its point of no return, the stream held, the registry let go, and what a flipped holder had parked went back |
| Parking.NoByteLost | internal/broker/unified_rotation.go:1304-1383 | Parked output stays within its caps; a commit gives the predecessor every byte before the flip and the successor bootstrap, parked and later bytes; an abort gives the predecessor everything in order if and only if no step dropped a refused event and none parked one past kept events; a drop loses exactly the refused event and the rest of its batch |
| Parking.SetbacksHaveCauses | internal/broker/unified_rotation.go:212-231 | A byte is lost only by a refusal for memory and displaced only by parking after an overflow |
| Parking.LateOutputOvertakes | internal/broker/unified_rotation.go:1178-1230 | Concrete run in which a smaller output, read while a refused one waits, is replayed first |
| Parking.DeniedMemoryLoses | internal/broker/unified_rotation.go:221-227 | Concrete run in which the account denies the first parked megabyte, the rotation aborts and twelve bytes are gone |
| Parking.CapsAgree | internal/broker/unified_rotation.go:201-231 | Sixteen pieces of 64 KiB are the one-mebibyte cap, so the record cap cannot fail first |
| Parking.StepKeepsInv | internal/broker/unified_dev_birth.go:180-201 | Routing a byte to generation, buffer or refusal keeps every byte accounted for in order, or names its setback |
| ParkingProgress.CommitsIff | internal/broker/unified_rotation.go:1178-1383 | In every run a parked rotation may commit once its bootstrap is written if and only if no event found the buffer unable to take it, and a restore is fatal exactly when a second one did |
| ParkingProgress.RefusedIff | internal/broker/unified_rotation.go:212-231 | An event is taken exactly when it fits the mebibyte and the buffer's first one gets its memory; the cap is looked at first |
| ParkingProgress.OutputGoes | internal/broker/unified_dev_birth.go:180-201 | Every byte observed goes to the predecessor before the flip and after a restore, to the successor after a commit, and while parked into the buffer if it is taken |
| ParkingProgress.RefusalGoes | internal/broker/unified_rotation.go:1178-1230 | The first event refused is kept aside when the buffer is full and dropped when its memory is denied; a later one is an error |
| ParkingProgress.RotationGoes | internal/broker/unified_rotation.go:1304-1383 | A commit hands the successor all that was parked; a restore hands the predecessor all that was parked and then what was kept aside, unless an error was met |
| ParkingProgress.ParkedCommits | internal/broker/unified_rotation.go:1754-1766 | Whatever is output before the flip and up to a mebibyte after it, a rotation can commit with every byte on its side |
| Parking.RotationPending.Append | internal/broker/unified_rotation.go:212-231 | An output event is taken whole or refused whole, for its caps or for memory |
| Parking.WritePending | internal/broker/unified_rotation.go:1754-1766 | The buffer is written in order, in pieces of at most 64 KiB, up to the first piece the pane refuses |
| FrontierClock.WindowIsExact | internal/broker/input_freshness.go:34-104 | Queries no older than one window before the last observation get the unpruned clock's answer, between the frontier then and one resolution later |
| FrontierClock.NeverUnderstates | internal/broker/input_freshness.go:94-104 | For any window and instant the answer never demands less than had been published |
| FrontierClock.SixtyFiveMarks | internal/broker/input_freshness.go:34-86 | A window divisible by 64 keeps at most 65 marks, so the backstop never drops one |
| FrontierClock.BackstopIdle | internal/broker/input_freshness.go:63-86 | With at most 71 resolutions in the window the backstop never fires and whatever was dropped lies behind a mark one window old |
| FrontierClock.FullBounds | internal/broker/input_freshness.go:94-104 | The unpruned clock answers between the frontier and the frontier one resolution later |
| FrontierClock.PrunedIsTail | internal/broker/input_freshness.go:63-86 | Pruning keeps the newest marks of the unpruned clock |
| FrontierClock.NeverLess | internal/broker/input_freshness.go:94-104 | However much was dropped, an answer never demands less |
| FrontierClock.Clock.ObservePublication | internal/broker/input_freshness.go:63-86 | One publication joins or makes a mark, then stale marks go |
| FrontierClock.Clock.Answer | internal/broker/input_freshness.go:94-104 | The read-only loop computes the answer function |
| InputFreshness.AcceptedIsFresh | internal/broker/input_freshness.go:188-213 | Whenever a live gate accepts an INPUT the receipted frames complete every event published one window before its query, and after a pause the quiet period has passed since the last refusal, whatever comes between query and decision |
| FreshView.AcceptedHasSeen | internal/broker/input_freshness.go:279-305 | Whenever a live gate accepts an INPUT, the frames the page has receipted show it byte by byte and geometry by geometry the stream up to everything published one window before its query, given true marks, as FreshView.MarkingWriter makes them |
| FreshView.MarkingWriter.constructor | internal/broker/server.go:250-330 | A writer about to be opened: nothing written, nothing marked |
| FreshView.MarkingWriter.WritePrepare | internal/broker/server.go:330-366 | Marks nothing, and leaves exactly the events PREPARE did not carry |
| FreshView.MarkingWriter.WriteCommit | internal/broker/server.go:367-391 | Writes the rest of the opening, marks its last event truly and makes the gate live |
| FreshView.MarkingWriter.WriteTailEvent | internal/broker/server.go:416-424 | Writes one live event and marks it truly; a failed write marks nothing and leaves every earlier mark true |
| FreshView.MarkingWriter.WriteCatchUp | internal/broker/server.go:463-481 | The same for the last event of one catch-up read |
| FreshView.MarkingWriter.WriteOther | internal/broker/input_freshness.go:285-287 | A frame of another writer counts, shows nothing and leaves every mark true |
| FreshView.MarkingWriter.RecordDelivered | internal/broker/input_freshness.go:288-290 | The mark of what has been flushed is true of the wire and is what the gate is given |
| FreshView.FlushedCompletes | internal/broker/input_freshness.go:283-290 | A frame writer that has flushed its run marks truly: the frames counted show exactly the stream up to the marked event, whatever other frames came in between |
| FreshView.CompletesLater | internal/broker/input_freshness.go:283-290 | A mark stays true whatever frames follow |
| FreshView.CompletesGrown | internal/broker/input_freshness.go:283-290 | A mark stays true whatever is committed later |
| InputFreshness.AdmittedIsFresh | internal/broker/input_freshness.go:264-305 | The same for one admission in any state that keeps the invariant, also when marks were dropped or receipts overtook them |
| InputFreshness.RequiredIsTight | internal/broker/input_freshness.go:268-276 | What is required had been published one resolution after the window's start |
| InputFreshness.StepKeepsInv | internal/broker/input_freshness.go:137-182 | Consumption is always covered by a receipt of recorded deliveries |
| FreshnessProgress.FreshIsAccepted | internal/broker/input_freshness.go:188-305 | A page whose generation is alive when it is asked and that has receipted one of the last 128 deliveries covering everything published up to one resolution after the window's start is accepted if and only if the gate is not paused or the quiet period since the last refusal has passed |
| FreshnessProgress.DecidedIff | internal/broker/input_freshness.go:188-213 | Every input is accepted if and only if its generation had authority when queried, consumption reaches what was required, and a paused gate has been quiet; the gate is paused exactly after a refusal |
| FreshnessProgress.Decision | internal/broker/input_freshness.go:188-213 | A live gate refuses if and only if the generation has no authority, consumption is behind, or it is paused and was refused less than the quiet period ago; a refusal pauses it and restarts that period |
| FreshnessProgress.ReceiptedIsConsumed | internal/broker/input_freshness.go:137-182 | In every run one of the last 128 deliveries whose frames have been receipted is consumed, whatever marks were skipped or dropped |
| FreshnessProgress.Applies | internal/broker/input_freshness.go:176-182 | Exactly the marks in front that the count covers are consumed, and the last of them gives the position |
| FreshnessProgress.ReceiptIff | internal/broker/input_freshness.go:163-172 | A receipt is taken exactly when it advances and counts no more than was written |
| InputFreshness.FreshnessGate.Delivered | internal/broker/input_freshness.go:137-158 | A completed delivery is marked, dropping the oldest when the 128 marks are full |
| InputFreshness.FreshnessGate.ApplyReceiptedLocked | internal/broker/input_freshness.go:176-182 | The loop consumes every mark the receipted count covers |
| InputFreshness.FreshnessGate.ReceiptFrames | internal/broker/input_freshness.go:163-172 | Taken exactly when the count advances and does not exceed the frames written; afterwards no mark in front is covered |
| InputFreshness.FreshnessGate.AdmitInput | internal/broker/input_freshness.go:188-213 | A live gate accepts if and only if the generation has authority, consumption reaches what is required and a paused gate has been quiet; it is paused exactly after a refusal, whose time it then keeps |
| MemoryAccounts.RunKeepsInv | internal/broker/recording_readers.go:101-322 | In every run by owners that give back only what they took each budget is what its owners hold, the shared account is both, no limit is passed, and a lease is released exactly when detached and empty |
| MemoryAccounts.NoPanic | internal/broker/recording_copies.go:27-36 | No underflow, double release or release without ownership can stop the process |
| MemoryAccounts.ObserverHasItsShare | internal/broker/recording_transients.go:51-100 | However much the readers hold, a live unit's request that keeps the observer within 96 MiB is granted |
| MemoryAccounts.AllReturned | internal/broker/recording_readers.go:190-197 | Once everything has been given back every counter is zero |
| MemoryAccounts.StepKeepsInv | internal/broker/recording_transients.go:51-122 | Every lease and unit operation keeps the balances and bounds |
| MemoryAccounts.HoldingsNonnegative | internal/broker/recording_copies.go:16-36 | No owner holds less than nothing or more than its budget |
| MemoryProgress.LeaseIff | internal/broker/recording_readers.go:101-113 | A reader gets a lease exactly when fewer than 64 are live and both accounts have room for writer, floor, snapshot and opening frame; it starts attached with just that |
| MemoryProgress.GrantedIff | internal/broker/recording_readers.go:121-307 | An attached lease's request is granted exactly when both accounts have room, a tail event only within the tail's bound; accounts and lease grow by it, and a refusal changes nothing |
| MemoryProgress.GivenBack | internal/broker/recording_readers.go:147-322 | Every return takes exactly what it gives off the lease and both accounts, and the detached lease that holds nothing more is released with its base charge and its place |
| MemoryProgress.UnitsGrantedIff | internal/broker/recording_transients.go:51-100 | A unit starts exactly when fewer than 18 live and there is room for its base, and a referred-to unit gets exactly the bytes there is room for |
| MemoryProgress.UnitsGivenBack | internal/broker/recording_transients.go:62-122 | References and bytes go back one for one, and the unit with neither returns its base and its place |
| MemoryOwners.CopyBudget.Charge | internal/broker/recording_copies.go:27-36 | The shared account moves by the charge and stays at or above zero |
| MemoryOwners.ReaderBudget.Charge | internal/broker/recording_copies.go:45-48 | Reader and shared account move together |
| MemoryOwners.ReaderBudget.Grants | internal/broker/recording_copies.go:16-25 | Grants exactly what fits both accounts |
| MemoryOwners.ReaderBudget.Acquire | internal/broker/recording_readers.go:101-113 | A new lease with its base and snapshot charge, or a refusal that changes nothing |
| MemoryOwners.ReaderBudget.AcquireAttachment | internal/broker/recording_readers.go:201-217 | Lease and attachment, or every byte given back |
| MemoryOwners.ReaderLease.ReleaseLocked | internal/broker/recording_readers.go:190-197 | The base charge returns once, when the lease is detached and empty |
| MemoryOwners.ReaderLease.ReserveTailEvent | internal/broker/recording_readers.go:121-145 | Charges one tail event above the floor or names the bound that refuses it |
| MemoryOwners.ReaderLease.ReleaseEvent | internal/broker/recording_readers.go:147-163 | Refunds one owned event and settles the lease if it was the last |
| MemoryOwners.ReaderLease.ReserveSnapshotBytes | internal/broker/recording_readers.go:244-259 | Resizes the snapshot charge; a smaller one is refused by the shared account |
| MemoryOwners.ReaderLease.ReleaseSnapshot | internal/broker/recording_readers.go:165-178 | Returns the snapshot charge once |
| MemoryOwners.ReaderLease.Detach | internal/broker/recording_readers.go:180-188 | Ends reservations and settles an empty lease |
| MemoryOwners.ReaderLease.Hold | internal/broker/recording_readers.go:219-229 | One more owner of a live attachment |
| MemoryOwners.ReaderLease.Done | internal/broker/recording_readers.go:231-242 | One owner less; the last settles an empty lease |
| MemoryOwners.ReaderLease.ReserveCatchUp | internal/broker/recording_readers.go:263-276 | Charges a read before its copy exists |
| MemoryOwners.ReaderLease.ReleaseCatchUp | internal/broker/recording_readers.go:279-292 | Returns a read's charge |
| MemoryOwners.ReaderLease.ReserveTransport | internal/broker/recording_readers.go:294-307 | Charges a transport copy |
| MemoryOwners.ReaderLease.ReleaseTransport | internal/broker/recording_readers.go:309-322 | Returns a transport copy's charge |
| MemoryOwners.TransientBudget.Acquire | internal/broker/recording_transients.go:51-60 | One of at most 18 units with its fixed charge, or a refusal |
| MemoryOwners.TransientBudget.Charge | internal/broker/recording_copies.go:57-61 | Pool and shared account move together |
| MemoryOwners.UnitMemory.Hold | internal/broker/recording_transients.go:62-72 | One more reference |
| MemoryOwners.UnitMemory.ReleaseLocked | internal/broker/recording_transients.go:116-122 | The unit charge returns once, when nothing refers to it or is held |
| MemoryOwners.UnitMemory.Done | internal/broker/recording_transients.go:74-85 | One reference less |
| MemoryOwners.UnitMemory.Reserve | internal/broker/recording_transients.go:87-100 | Charges a live unit what fits both accounts |
| MemoryOwners.UnitMemory.Release | internal/broker/recording_transients.go:102-114 | Returns what the unit holds |
| InputLedger.PageReadsOutcomes | internal/broker/input_results.go:83-165 | In every order of receives, settles, takes and writes the page has read exactly the first-settled outcomes in frame order, written <= reported <= received with at most 1024 unwritten, and a settled head has a wake pending or a take under way |
| InputLedger.FirstOutcomeStands | internal/broker/input_results.go:96-113 | A settled outcome never changes |
| InputLedger.RunsExpand | internal/broker/input_results.go:123-140 | Coalesced runs say exactly the outcomes they were made from |
| InputLedger.RunsAlternate | internal/broker/input_results.go:123-140 | Neighbouring runs of one take differ |
| InputLedger.CodesDiffer | internal/broker/input_results.go:31-43 | The page tells every settled outcome from every other by its code |
| InputLedger.StepKeepsInv | internal/broker/input_results.go:83-165 | Each step keeps the window, the runs in hand and the wake |
| LedgerProgress.ReporterCatchesUp | internal/broker/input_results.go:96-165 | In every run, as long as the reporter has not ended, the settlers' and its own steps lead to where the page has read the outcome of every frame up to the first still unsettled |
| LedgerProgress.RecordedIff | internal/broker/input_results.go:96-113 | An outcome is recorded, and the reporter signalled, exactly for a received frame that has none |
| LedgerProgress.NumberedIff | internal/broker/input_results.go:85-94 | A frame is numbered, next in order, exactly while fewer than 1024 wait |
| LedgerProgress.TakesPrefix | internal/broker/input_results.go:123-140 | A take removes every settled frame at the front and no other, and its runs say their outcomes |
| InputLedger.LedgerObject.ReceiveFrame | internal/broker/input_results.go:85-94 | Numbers the next frame or refuses at the backlog |
| InputLedger.LedgerObject.SettleFrame | internal/broker/input_results.go:98-113 | Records the first outcome and offers the wake exactly then |
| InputLedger.LedgerObject.Wrote | internal/broker/input_results.go:116-120 | Moves the written mark and nothing else; it stays a prefix of what was reported exactly when the writer's word is |
| InputLedger.LedgerObject.TakeSettled | internal/broker/input_results.go:123-140 | Removes exactly the settled prefix and returns its runs |
| ControlReader.CuttingDoesNotMatter | internal/broker/unified_dev_observer.go:297-338 | Two cuttings of the same terminal bytes give the same events, open command, partial line and held CR, and have failed alike |
| ControlReader.RecordsArrive | internal/controlmode/decoder.go:217-283 | Whatever output records are written, through the driver's line-ending mapping and any cutting, exactly those records are decoded in order and the decoder closes cleanly |
| ControlProtocol.ItemsArrive | internal/controlmode/decoder.go:111-283 | Whatever records, whole commands and notifications are written, through the line-ending mapping and any cutting, exactly those are read in order: each command with its replies between its begin and the end or the error it closed with |
| ControlProtocol.EndKinds | internal/controlmode/decoder.go:145-175 | A line that closes a command is an end exactly when its tag says end, and an error exactly when it says error |
| ControlProtocol.EndDecodes | internal/controlmode/decoder.go:145-175 | The end line that repeats a command's three fields ends it well and the error line ends it badly |
| ControlProtocol.NoticeDecodes | internal/controlmode/decoder.go:176-202 | A known notification is read with its name and arguments |
| ControlProtocol.FieldsOf | internal/controlmode/decoder.go:206-215 | Printable words joined by single spaces are read back as the fields |
| ControlReader.FaultIsFinal | internal/controlmode/decoder.go:56-74 | After a fault nothing more is decoded |
| ControlReader.ReadsBracketed | internal/controlmode/decoder.go:145-166 | Events up to any fault are properly bracketed commands |
| ControlReader.LineDecodes | internal/controlmode/decoder.go:145-202 | A written output line decodes to its pane, age and payload |
| ControlStream.NormaliseInverts | internal/broker/unified_dev_observer.go:297-338 | The normaliser undoes the LF to CR LF mapping of every text, CRs of its own included |
| ControlStream.NormaliseAppend | internal/broker/unified_dev_observer.go:297-338 | Normalising two reads in turn is normalising them together |
| ControlStream.PayloadInverts | internal/controlmode/decoder.go:260-283 | Payload decoding inverts three-digit octal escaping, whichever bytes beside the backslashes were escaped |
| ControlStream.AcceptedIffEscaped | internal/controlmode/decoder.go:260-283 | An accepted payload is an escaping of what it decodes to if and only if no escape exceeds 255; larger ones wrap |
| ControlStream.OutOfRangeWraps | internal/controlmode/decoder.go:271-279 | Concrete escape above 255 that is accepted and wraps |
| ControlStream.DrainAppend | internal/controlmode/decoder.go:111-132 | Decoding a buffer and then the rest is decoding both at once, faults and the 16 MiB limit included |
| ControlStream.EventsBracketed | internal/controlmode/decoder.go:145-175 | Responses and ends only inside a command, everything else outside |
| ControlStream.LineBracketed | internal/controlmode/decoder.go:145-202 | A command's response lines are returned verbatim and only its own end or error closes it |
| ControlDecoder.DecodePayload | internal/controlmode/decoder.go:260-283 | The loop computes the payload function |
| ControlDecoder.OctalGroup | internal/controlmode/decoder.go:268-280 | Three octal digits make one byte, or the payload is refused |
| ControlDecoder.SplitFields | internal/controlmode/decoder.go:206-215 | The first four fields, none when there are more |
| ControlDecoder.NormaliseRead | internal/broker/unified_dev_observer.go:308-324 | The byte loop computes the normaliser and grows a read by at most one byte |
| ControlDecoder.DecoderObject.Fail | internal/controlmode/decoder.go:56-60 | A fault drops the buffer |
| ControlDecoder.DecoderObject.DecodeOneLine | internal/controlmode/decoder.go:145-202 | One line decodes as the line function says and opens or closes the command |
| ControlDecoder.DecoderObject.DecodeOutputLine | internal/controlmode/decoder.go:217-258 | Pane, age and payload of an output record |
| ControlDecoder.DecoderObject.Feed | internal/controlmode/decoder.go:71-133 | The line loop decodes every complete line of the buffer |
| ControlDecoder.DecoderObject.Close | internal/controlmode/decoder.go:135-143 | Faults on an unfinished line or an open command |
| RotationCadence.CadenceKept | internal/broker/unified_rotation_schedule.go:116-320 | In every run retries wait between one second and five minutes; while no refit recorded its success on a session between its due test and the capture, or under the captured key of an attempt in flight, an armed session's next attempt is never earlier than 60 s after its recorded last success, and none is found due earlier |
| RotationCadence.QuietIff | internal/broker/unified_rotation_schedule.go:116-320 | All along a run every armed session keeps its quiet period if and only if no failing attempt's retry comes before the end of the 60 s of a refit that recorded on its session before the capture, or under its key after it |
| RotationCadence.FailureKeepsFloorIff | internal/broker/unified_rotation_schedule.go:221-315 | A failed attempt leaves its session inside the quiet period if and only if since its due test a refit recorded its success on the session before the capture, or under the captured key after it, so late that the retry comes before that success's 60 s are over |
| RotationCadence.BeginsEarlyIff | internal/broker/unified_rotation_schedule.go:193-285 | A rotation is let in inside its session's quiet period if and only if a refit recorded its success on the session after the due test, less than 60 s before |
| RotationCadence.RefitRecordedMidAttempt | internal/broker/unified_rotation_schedule.go:116-133 | Concrete run in which a refit's key is published, chosen and captured by the scheduler and only then recorded, and the failed attempt retries one second later |
| RotationCadence.RefitRecordedBeforeCapture | internal/broker/unified_rotation_schedule.go:256-271 | Concrete run in which a refit commits and records between the due test and the capture: the rotation begins inside the quiet period, and its failure retries one second later |
| RotationCadence.SettlementOvertaken | internal/broker/unified_rotation_schedule.go:281-301 | Concrete run in which an attempt's completion is read before a refit records its success and settled after: the older time takes its place, and the next attempt may come one second after the refit |
| RotationCadence.SuccessMoves | internal/broker/unified_rotation_schedule.go:116-315 | A record's last success goes back in a step if and only if the step settles an attempt completed before it |
| RotationCadence.EverySuccessIsQuiet | internal/broker/unified_rotation_schedule.go:116-320 | In a run without such records and settlements an armed session waits 60 s after every success its record ever carried |
| RotationCadence.ClashNeedsLateCapture | internal/broker/pane_rotation.go:628-642 | Once a refit's commit has published its key, an attempt is caught by its record only if record and key were captured after that, or are not captured yet |
| RotationCadence.StepKeepsFloors | internal/broker/unified_rotation_schedule.go:162-321 | Every step but such a record keeps the quiet period of every armed session |
| RotationCadence.ArmingNeedsPressure | internal/broker/unified_rotation_schedule.go:162-191 | A record arms only at the high mark of its active key and disarms only below both low marks |
| RotationCadence.MarksApart | internal/broker/unified_rotation_schedule.go:26-42 | No reading asks for both |
| RotationCadence.BackoffDoubles | internal/broker/unified_rotation_schedule.go:303-312 | Consecutive failures wait 1, 2, 4, ... seconds, capped at five minutes |
| RotationCadence.IdleTurnCovered | internal/broker/unified_rotation_schedule.go:323-347 | A turn that finds nothing due leaves the timer no later than any armed active session's next attempt |
| RotationCadence.StepKeepsInv | internal/broker/unified_rotation_schedule.go:162-321 | Each step keeps the backoff range, the attempt's record and the keys' order |
| CadenceProgress.PressureIsServed | internal/broker/unified_rotation_schedule.go:162-315 | A session armed at the high mark outside its quiet period is chosen, captured and let in once nobody armed longer is due; if its rotation succeeds its next attempt is a whole cadence away |
| CadenceProgress.SomeoneIsFirst | internal/broker/unified_rotation_schedule.go:193-220 | While anything is due an idle scheduler can choose |
| CadenceProgress.ReadingOutcome | internal/broker/unified_rotation_schedule.go:162-191 | A reading counts only under the active key; it arms at the high mark, disarms below both low marks and else leaves the arming alone; the first attempt is at once or at the end of the quiet period |
| CadenceProgress.WakeOutcome | internal/broker/unified_rotation_schedule.go:232-248 | A released resource brings every armed session's attempt forward to now or to the end of its quiet period, and never puts one off |
| CadenceProgress.CaptureOutcome | internal/broker/unified_rotation_schedule.go:259-268 | The choice becomes an attempt on the record and key the session has by then, or nothing |
| CadenceProgress.FinishOutcome | internal/broker/unified_rotation_schedule.go:281-315 | A success waits a whole cadence under the active key; a failure waits one second or twice the last wait up to five minutes; on another record, or a failure under another key, nothing changes |
| CadenceProgress.RefitOutcome | internal/broker/unified_rotation_schedule.go:116-133 | A recorded refit starts its session's cadence, in a new record if it has none |
| CadenceProgress.EvaluationOutcome | internal/broker/unified_rotation_schedule.go:135-160 | Exactly the sessions without an active key are forgotten |
| RotationCadence.Scheduler.UpdatePressure | internal/broker/unified_rotation_schedule.go:162-191 | Arms, keeps or disarms one session |
| RotationCadence.Scheduler.WakeEligible | internal/broker/unified_rotation_schedule.go:232-248 | Every armed session may retry at once but not inside its quiet period |
| RotationCadence.Scheduler.DueRotation | internal/broker/unified_rotation_schedule.go:193-220 | The longest armed due session, none exactly when none is due |
| RotationCadence.Scheduler.ChooseDue | internal/broker/unified_rotation_schedule.go:193-258 | The due test keeps only the session it picked |
| RotationCadence.Scheduler.CaptureAttempt | internal/broker/unified_rotation_schedule.go:259-268 | The second locked region captures the record and key the session has by then, and ends the turn if the record is gone |
| RotationCadence.Scheduler.FinishAttempt | internal/broker/unified_rotation_schedule.go:281-315 | Success starts the cadence, failure the backoff, at the completion time read before the lock and for the captured record only |
| RotationCadence.Scheduler.RecordExplicitRefitSuccess | internal/broker/unified_rotation_schedule.go:116-133 | A refit starts the cadence under the key it is given, whatever the record's key was |
| RotationCadence.Scheduler.ArmTimer | internal/broker/unified_rotation_schedule.go:323-347 | The timer stands at the earliest armed attempt after now, and an unchanged due time leaves it alone |
| RotationCadence.Scheduler.EarliestAttempt | internal/broker/unified_rotation_schedule.go:323-339 | The earliest attempt after now among the armed sessions, none exactly when there is none |
| InventoryCursor.Fair | internal/broker/inventory_cleanup.go:42-66 | A row that stays present is returned within two rounds, at most 2*top+4 calls, whatever other rows come and go |
| InventoryCursor.RoundReturns | internal/broker/inventory_cleanup.go:42-66 | A full round returns every row present throughout |
| InventoryCursor.NoneTwice | internal/broker/inventory_cleanup.go:42-66 | A round returns each identity at most once |
| InventoryCursor.RoundMovesUp | internal/broker/inventory_cleanup.go:46-64 | Inside a round the frontier is fixed and through - next strictly falls on each call |
| InventoryCursor.CallMoves | internal/broker/inventory_cleanup.go:42-66 | A call returns between one and budget rows; later rows above the frontier do not extend the round |
| InventoryCursor.CallReturns | internal/broker/inventory_cleanup.go:49-65 | A present row of the range that a call did not return is still ahead of the cursor |
| InventoryCursor.CursorObject.OpenRound | internal/broker/inventory_cleanup.go:46-54 | Starts a round unless one is under way with rows left |
| InventoryCursor.CursorObject.TakeRows | internal/broker/inventory_cleanup.go:42-66 | The scan computes the take function |

## Left out

- Integer widths: counters, sequences, offsets and times are unbounded, so 64-bit wrap-around (owner ids, frame counts, `uint64` sequences, ratio products) is not modelled; the decoder's one-byte arithmetic is.
- Concurrency: each locked region is one step and interleavings are sequences of steps; goroutines, channels and mutexes themselves are not modelled.
- Queue behaviour after close has completed: the runtime's invariant is claimed up to that point.
- Whether a send on the outbox channel blocks, and `pause_hold` observations, which no reservation funds.
- Source-quota refusal reasons, observations, telemetry, peaks and timing measurements.
- The journal's storage, quotas, sync failures by cause, recovery and page formats; `Realm` capacity answers are inputs.
- Writer admission, connection setup, resize readiness and the HTTP front door around the frame writer.
- The JSON encoding of frames and the transport codecs; a frame is its bytes, geometry and position.
- `terminal.Epoch`, PTYs, tmux commands, `/proc` reads, signals and child processes.
- Retention timers as real time: a timer that fires is a flush step that may come at any moment.
- RetentionReach.EveryRun: the interval in which a fault is pending but not committed, and the wait of a second fault for it, are not steps.
- RotationReach.EveryRotation: the fatal settlement's regions are two steps, the last of which reaps the unit; waits for cleanups, the killing of the process and the logged end are not modelled, and the stage faults only tests can set do not come between the registry's commit and the journal's.
- RotationReach.RestoresIff: which error the restore returns is not modelled, only its outcome; a decode or read error met by the boundary wait itself, and a refusal to park (`Parking.NoByteLost`), start a restore without being recorded as a failure of the stream, so a restored run may have lost output.
- FreshView.AcceptedHasSeen: the gate's runs and the writer are two machines that meet in the marks: `FreshView.MarkingWriter` makes only true ones, over a journal that is already complete; that they stay true while it grows is `FreshView.CompletesGrown`.
- MemoryAccounts.NoPanic: owners give back only what they took, and attachments, units, catch-up reads and transport copies are released by somebody who holds them; the panics for callers that do not are excluded by when the steps happen.
- PaneStream.StreamKept: models one pane; that the manager flushes the other panes on a pane change is a flush step of those panes.
- Parking.NoByteLost: models one pane for each session, as replay does not look at the pane ID.
- SubscriberStream.ExactStream: the retry loop of opening a stream is one step at the committed frontier it finally reads, and a lease's answers are inputs.
- RetentionRuntime.Runtime.ReserveWithAdmission: the wire-level error values are one refusal each.
- MemoryOwners.ReaderBudget.AcquireAttachment: no other owner's turn comes between its two turns of the mutex; in the accounts' runs the two are separate steps.
- MemoryAccounts.RunKeepsInv: uses the production limits; the narrower limits tests can set and the nil shared account are not modelled.
- ControlProtocol.ItemsArrive: the three fields of a command are printable words and its replies do not themselves begin with `%begin `, `%end ` or `%error `; a reply that does faults the reader, or ends its command if it repeats the fields.
- FreshnessProgress.FreshIsAccepted: the gate remembers its last 128 unreceipted deliveries; a receipt that covers only a forgotten one counts for nothing until the next remembered one is covered.
- RotationSuccess.Succeeds: the run is one in which nobody else moves but the bootstrap that succeeds and the manager that processes the seal; fairness of the scheduler is not modelled.
- ControlReader.CuttingDoesNotMatter: the decoder without a memory budget; budgeted batches can refuse earlier and depend on the cutting.
- RotationCadence.CadenceKept: sessions are numbered instead of named, and int64 products of sizes do not overflow.
- InventoryCursor.Fair: assumes distinct identities, as tmux session numbers are, and a positive budget.
- Initial capture parsing, adoption screen synthesis, preview styling, clipboard, deployment and release pruning: input and output bound or single-branch code.
