# ancs-bridge: a verified model

`ancs-bridge` shows the notifications of an iPhone on a Linux desktop. It speaks the Apple Notification Center Service
(ANCS) over Bluetooth: the phone announces notifications by UID on one stream, the bridge asks for their attributes and for
app names, and the answers come back in fragments on a second stream. This project models the parts of the bridge that
decide something, and proves what they keep over every run.

1. **Codec and session engine** (`Bytes`, `Codec`, `Decoder`, `Session*`, `Requests`, `Presentation`, `Removal`,
   `QueueOrder`). The event parser, the request builders and the incremental decoder of length-prefixed answers; the engine with its pending queue, the
   one outstanding request, the cancellation set, the desktop handles and the app-name cache. The phone, the desktop and the
   timer are free: an `Env` decides which sink calls and control writes succeed and in which order a hash map is drained, and
   the inbox decides what arrives while a request waits.
2. **Dropped packets** (`Interruptions`, `Survival`, `StaleAnswers`, `SessionDrops`, `AnswerLag`, `DropExamples`). The main loop abandons the handling of a
   packet when its reconcile timer fires first. `Interruptions` says, await by await, what an abandoned operation leaves
   behind, and runs may contain any number of them, at any await.
3. **Supervisor over transport** (`Transport`, `BluezTransport`, `Supervisor*`, `SupervisedEngine`). The reconciling loop, its
   recovery counters and its publications, in product with the engine and with the optional resources of the BlueZ transport.
   Every answer of BlueZ is a free choice.
4. **Audio rules, commit and teardown** (`Audio*`, `Commit`, `Teardown`). The plan, apply and compensate transaction for any
   finite set of rules on a disk whose every operation may fail, the joint commit of rules and configuration, and removal
   that may be repeated.
5. **Setup** (`PairingGate`, `SetupTrace`, `Setup`). The gate behind which concurrent pairing requests wait for one answer,
   and the setup protocol with all its races and early exits.

Where the source changes state step by step the model has a class whose methods do the same (`DataSourceDecoder`, `Engine`,
`BluerTransport`, `Supervision`, `FileSystem`, `ConfigurationStore`, `Teardown`, `AgentGate`, `SetupProtocol`). The engine, the
decoder, the transport, the supervisor and the gate are proved against functions on values, on which the theorems over whole
runs are then proved; the audio transaction, the commit, the teardown and the setup state their guarantees directly. The
methods of `Engine` and `Supervision` also tell whether their caller dropped them at an await, and then leave one of the states
that `Interruptions` describes.

## What the proofs found

- **A removal can be lost.** `docs/specs/ancs-session-forwarding.md:66` promises that Removed cancels pending work. The engine
  clears `outstanding` before it looks up the app name (`src/ancs/session.rs:140`), so a removal that arrives during that
  lookup cancels nothing, and the second check at line 180 can never fire. `Presentation.ShowsWhatWasFetched` and
  `SessionRuns.ProcessPresentsExactly` prove exactly when a notification is presented: what arrives carries its attributes
  before any removal. `SessionTheorems.RemovalDuringAppLookupIsLost` gives the failing family, and
  `SessionTheorems.RemovalIsLostFromTheStart` shows it in the first two operations of a session.
- **A dropped packet leaves more behind than its own loss.** `src/bluetooth/supervisor.rs:351-353` drops the handling of a
  packet, wherever it stands, when the reconcile timer fires. Over every run with any number of such drops:
  - what survives: agreement and bounds of the containers, first in first out, and one life for each handle
    (`SessionDrops.DropsKeepBounds`, `FirstInFirstOut`, `DropsKeepHandleLives`);
  - a drop loses a handle if and only if the last call made has just created a notification that is not in the handle map
    yet (`DroppedHandlingLosesExactly`). Nothing ever closes it, not even the end of the session, and there is at most one for
    each drop (`LostHandlesStayOpen`, `EndLeavesOnlyLostHandlesOpen`; a run in `DropExamples.LostHandleHappens`);
  - a drop while attributes or a name are awaited leaves an expectation in the decoder. The expectations left over are always
    those of the last requests sent, so from then on each answer is taken for the request that comes as many requests later
    (`AnswerLag.AnswersLagBehind`), until a request fails (`AnswerLag.LagEndsWithAFailure`). The late answer of one UID is shown
    as the next (`SessionDrops.DropShowsOneNotificationAsAnother`), and so on down the queue for as long as the phone answers
    (`AnswerLag.ShiftPersists`). After a dropped lookup the next request fails (`StaleAnswers.StaleLookupFailsAttributes`). A
    name is remembered for the wrong app only after two drops (`AnswerLag.OneDropLeavesNamesRight`,
    `DropExamples.WrongNameIsRemembered`);
  - a UID whose removal arrived before the drop stays in the cancellation set although nothing is outstanding, unless the same
    UID is taken next (`SessionDrops.CancellationLeaksExactly`, `DropExamples.LeakHappens`);
  - if nothing else is queued, the loop spins: `pending_len` promises work that is not there, and no packet is read until a
    reconciliation ends the session (`SupervisedEngine.StarvedUntilTheSessionEnds`). Every turn that waits for a packet can
    end like this (`SupervisedEngine.AnyWaitingTurnCanStarve`).
- **Joining fragments is not always the same as pushing them.** Splitting never changes a push that succeeds; joining can
  exceed the buffer bound although the parts fit one after the other. `Decoder.SplitPush` gives the exact condition,
  `Decoder.LongAnswersMustComeApart` an input.
- **A write that takes effect and is then reported as failed** (`src/atomic_file.rs:85-89`) is the only way in which a
  failed audio change or commit with a successful cleanup leaves something behind, or in which a single failure counts as a
  failed cleanup. `Commit.CommitIsAllOrNothing` and `Commit.FailuresDecideTheAnswer` state exactly when.
- **Approval outlives rejection, as far as the gate goes.** An approved gate grants its identity and refuses every other
  whatever it is told later (`PairingGate.ApprovalIsFinal`). The program itself never turns down an identity that it has
  approved: it answers once for the confirmed candidate (`src/setup/production.rs:460-463`), and before that only to reject
  bonds that existed already (`src/setup/production.rs:421-424`).

## Model

| member | source | states |
|---|---|---|
| Codec.EventCodecIsBijective | src/ancs/codec.rs:94-113 | eight octets parse as an event exactly if they are its reference encoding, and every well-formed event has one; all other input is an error |
| Codec.AttributeDecodesExactly | src/ancs/codec.rs:319-352 | an attribute is read at a cursor exactly if the octets there are its canonical encoding within the limit and valid UTF-8, and the cursor moves exactly past it |
| Codec.DecodesExactly | src/ancs/codec.rs:248-317 | parser and reference encoder undo each other in both directions, whatever follows: accepted with value and length if and only if the prefix of that length is the encoding of that value and answers the expectation |
| Codec.EncodingsArePrefixFree | src/ancs/codec.rs:248-317 | no answer's encoding is a proper prefix of another answer's to the same request |
| Codec.DecisionIsStable | src/ancs/codec.rs:248-352 | once a parser has decided on a value, a length or an error, appending octets changes nothing |
| Decoder.DataSourceDecoder.Expect | src/ancs/codec.rs:201-203 | expectations queue up in order and leave the buffer alone |
| Decoder.DataSourceDecoder.Clear | src/ancs/codec.rs:205-208 | buffer and expectations are emptied |
| Decoder.DataSourceDecoder.Push | src/ancs/codec.rs:214-246 | the decoding loop computes `Feed`: what is decoded, what stays buffered, and which errors clear the buffer |
| Decoder.BufferStaysBounded | src/ancs/codec.rs:215-219 | the buffer never exceeds 65,536 octets after a push, whatever is pushed |
| Decoder.SplitPush | src/ancs/codec.rs:214-246 | a push succeeds if and only if its two parts succeed in turn and together fit the bound, and then answers and final state agree |
| Decoder.FragmentationIndependence | src/ancs/codec.rs:214-246 | if a string can be pushed whole then every way of cutting it into fragments gives the same answers in the same order and the same final state |
| Decoder.Reassembly | src/ancs/codec.rs:214-246 | conversely, fragments that succeed and together fit the bound can be pushed as one |
| Decoder.LongAnswersMustComeApart | src/ancs/codec.rs:215-219 | a concrete case where the fragments succeed and the whole is rejected as oversized |
| Decoder.FeedOldest | src/ancs/codec.rs:221-240 | a complete answer settles the oldest expectation and leaves the others waiting |
| SessionEngine.Engine.Ingest | src/ancs/session.rs:85-127 | an event changes queue, cancellation set, handles and counters as `Session.Ingest` |
| SessionEngine.Engine.PendingLen | src/ancs/session.rs:73-79 | queued UIDs plus the outstanding one unless it is queued again |
| SessionEngine.Engine.WaitForResponse | src/ancs/session.rs:286-318 | the wait loop, with re-entrant ingestion, timeout and stream failure, as `Session.Wait` |
| SessionEngine.Engine.Request | src/ancs/session.rs:235-284 | expectation, control write and wait, with the decoder cleared on every failure |
| SessionEngine.Engine.RetainAppName | src/ancs/session.rs:203-216 | the cache keeps agreeing with its order queue, and the eviction loop ends although it has no exit of its own |
| SessionEngine.Engine.AppName | src/ancs/session.rs:157-179 | cached name, looked-up name, or the identifier with a recorded error |
| SessionEngine.Engine.RetainHandle | src/ancs/session.rs:218-233 | maps the handle and closes the oldest ones beyond the bound |
| SessionEngine.Engine.Deliver | src/ancs/session.rs:183-199 | replaces the UID's notification or creates one, and counts success or failure |
| SessionEngine.Engine.ProcessNext | src/ancs/session.rs:129-201 | one queued UID is taken, fetched, and settled as `Session.ProcessNext` |
| SessionEngine.Engine.End | src/ancs/session.rs:320-335 | closes every handle in drain order and empties every container |
| Removal.RemovedStaysAway | src/ancs/session.rs:91-104 | after a removal at rest and over every later run, a UID that is not announced again is never queued, outstanding, asked for or mapped again, whatever else arrives |
| Presentation.NameIsLookedUp | src/ancs/session.rs:157-179 | a shown name was looked up for that app in this session, now or before, or is the identifier after a failed lookup |
| Presentation.ShowsWhatWasFetched | src/ancs/session.rs:129-201 | unless removed meanwhile, the attributes fetched for the oldest UID are presented with their own title and message, under their app's name, on that UID's handle |
| Requests.FetchIsExact | src/ancs/session.rs:235-318 | if a request succeeds, the Data Source octets received during its wait are exactly the encoding of the returned value, which answers this request; the decoder is empty afterwards, success or not |
| Requests.FetchSucceedsExactly | src/ancs/session.rs:235-318 | a request returns an answer if and only if its write succeeds and an undisturbed prefix of what arrives carries that answer |
| Requests.FetchCancels | src/ancs/session.rs:91-98 | while a UID is outstanding it becomes cancelled if and only if a removal of it is ingested, for any interleaving of other packets |
| SessionRuns.ProcessPresentsExactly | src/ancs/session.rs:129-201 | a create or replace call is made if and only if the write succeeds and some undisturbed prefix of what arrives carries an answer for the UID and no removal of it; the engine is at rest again |
| Requests.AnsweredUnremovedExactly | src/ancs/session.rs:235-318 | a request gets its answer before a removal of its UID exactly when the inbox carries one before any removal, whatever else is interleaved |
| SessionRuns.RunKeeps | src/ancs/session.rs:85-335 | every run of ingest, process_next and end keeps the whole invariant: queue, handles, cache and accounts |
| SessionRuns.EndKeeps | src/ancs/session.rs:320-335 | ending from any sound state leaves an empty engine in which no handle is alive |
| SessionTheorems.PhaseIsLife | src/ancs/session.rs:85-233 | the phase automaton used in the invariant recognises exactly the call sequences Create, Replaces, at most one Close |
| SessionTheorems.HandleDiscipline | src/ancs/session.rs:85-127 | at any point of any run the sink calls on each handle form one such life, handles alive are exactly the mapped ones, and no two UIDs share one |
| SessionTheorems.EveryHandleIsClosedAtEnd | src/ancs/session.rs:320-335 | after `end` every handle ever created has had exactly one close attempt |
| SessionTheorems.ContainersAtRest | src/ancs/session.rs:73-141 | queues and maps agree, all three bounds of 100 hold, nothing is outstanding or cancelled, the decoder is empty, and `pending_len` is the length of the queue |
| SessionTheorems.CacheIsTheLastHundredLookups | src/ancs/session.rs:203-216 | the cache is the last 100 successful lookups, in order, under distinct keys, each with its own name |
| SessionTheorems.WorkIsConserved | src/ancs/session.rs:85-201 | enqueued = requested + withdrawn + discarded + queued; requested = presented + cancelled + failed; deliveries and errors add up to the sink calls and failures seen |
| SessionTheorems.AttributesAreExact | src/ancs/session.rs:235-258 | at rest, the request for the oldest UID returns exactly the answer that arrived for that UID, and the wrong-kind branch is unreachable |
| SessionTheorems.RemovalDuringAppLookupIsLost | src/ancs/session.rs:140-180 | a removal during the app lookup is lost: the notification is created and stays mapped |
| SessionTheorems.RemovalIsLostFromTheStart | src/ancs/session.rs:140-180 | the same from a new engine: announced, processed while its removal arrives during the lookup, and then created and mapped |
| SessionDrops.DropsKeepBounds | src/bluetooth/supervisor.rs:351-353 | over every run with packets dropped at any await: queues agree with their maps, the bounds of 100 and of the buffer hold, and each drop leaves at most one more expectation and one more UID outstanding or cancelled |
| SessionDrops.FirstInFirstOut | src/ancs/session.rs:85-141 | over every such run the UIDs in the attributes requests written are the accepted ones in order of acceptance, minus those withdrawn or discarded, none overtakes another, and the queue is what still waits |
| SessionDrops.DropsKeepHandleLives | src/ancs/session.rs:183-233 | over every such run the calls on each handle form one life, and open handles that nothing maps are no more than the drops |
| SessionDrops.LostHandlesStayOpen | src/ancs/session.rs:183-193 | an open handle that nothing maps is never closed or replaced again, whatever follows |
| SessionDrops.EndLeavesOnlyLostHandlesOpen | src/ancs/session.rs:320-335 | after a session end no more handles are open than packets were dropped |
| SessionDrops.DroppedDeliveryLosesExactly | src/ancs/session.rs:183-193 | a delivery dropped at its sink call loses a handle if and only if the call creates one |
| SessionDrops.DroppedHandlingLosesExactly | src/bluetooth/supervisor.rs:351-353 | a packet dropped at any await loses a handle if and only if the last sink call has just created one that is unmapped, and then it loses that one and no other |
| SessionDrops.ProcessClearsOnlyItsOwn | src/ancs/session.rs:136-141 | a completed `process_next` takes its own UID and no other out of the cancellation set, which stays non-empty exactly if it held another |
| SessionDrops.CancellationLeaksExactly | src/ancs/session.rs:136-141 | after a dropped request, the dropped UID stays cancelled with nothing outstanding if and only if its removal was taken before the drop and the next UID is another |
| SessionDrops.DropLeavesRequestOpen | src/bluetooth/supervisor.rs:351-353 | from any state, a request dropped at any input of its wait leaves its UID outstanding and its expectation behind all earlier ones |
| SessionDrops.LoopSpinsExactly | src/bluetooth/supervisor.rs:339-347 | `pending_len` promises work that `process_next` does not find, if and only if a UID is outstanding and the queue is empty |
| SessionDrops.DropOfLastRequestSpins | src/bluetooth/supervisor.rs:339-353 | a request dropped at any input starves the engine if and only if nothing was queued meanwhile, and then any number of `process_next` calls changes nothing |
| SessionDrops.AnyAcceptedPacketCanStarve | src/bluetooth/supervisor.rs:351-353 | with nothing pending, the drop of any acceptable event's packet can leave a starved engine |
| SessionDrops.DropShowsOneNotificationAsAnother | src/ancs/session.rs:235-258 | in every reachable state with another UID queued: after the drop, at any input, whatever arrives, the next answer is the dropped UID's, is right if and only if the UIDs are equal, and is shown on the handle of the UID taken unless that one is removed |
| StaleAnswers.AnswersItsOwnRequestExactly | src/ancs/session.rs:235-318 | for every decoder, buffer, fragmentation and inbox, the answer to a request is for the oldest expectation, so it is for this request if and only if that is the oldest |
| StaleAnswers.StaleLookupFailsAttributes | src/ancs/session.rs:129-155 | with a dropped lookup's expectation in front, the next attributes request fails and presents nothing, whatever arrives |
| StaleAnswers.StaleName | src/ancs/session.rs:157-179 | with expectations left over, a lookup remembers a name only if the oldest of them is an app's, and then the name sent for that app |
| AnswerLag.AnswersLagBehind | src/ancs/session.rs:235-318 | after every run with drops, the answer taken for any request answers the request sent as many requests earlier as expectations are left over, at most one for each drop; it is the request's own if and only if that one asked the same |
| AnswerLag.LagEndsWithAFailure | src/ancs/session.rs:235-284 | without a further drop the lag never grows, and a request without an answer ends it |
| AnswerLag.ShiftPersists | src/ancs/session.rs:129-201 | once one behind, every UID of a queue of any length is shown under the attributes of the one before, as long as the phone answers each request |
| AnswerLag.OneDropLeavesNamesRight | src/ancs/session.rs:157-179 | in every run with at most one drop, a name that is found for an app was sent for that app |
| DropExamples.MisattributionHappens | src/bluetooth/supervisor.rs:351-353 | two UIDs, one drop and one late answer, from a new engine |
| DropExamples.LostHandleHappens | src/ancs/session.rs:183-193 | a run from a new engine whose notification is still open after the session has ended |
| DropExamples.LeakHappens | src/ancs/session.rs:136-141 | a run from a new engine that leaves UID 1 cancelled with nothing outstanding |
| DropExamples.FailureHappens | src/ancs/session.rs:157-179 | a dropped lookup from a new engine after which the next UID is not shown, whatever arrives |
| DropExamples.WrongNameIsRemembered | src/ancs/session.rs:157-179 | a run from a new engine with two drops after which an app has the name of another |
| DropExamples.WrongNameHappens | src/ancs/session.rs:157-179 | the same with three concrete apps |
| Transport.ReconcileKeepsResources | src/bluetooth/transport.rs:398-443 | whatever BlueZ answers, held resources stay consistent, no subscription appears by itself, Ready means subscriptions are held, Available means none was and one can be made |
| BluezTransport.BluerTransport.EnsureBluez | src/bluetooth/transport.rs:274-296 | session first, then adapter, keeping what is already open |
| BluezTransport.BluerTransport.EnsureRegistrations | src/bluetooth/transport.rs:335-358 | registrations and advertising baseline appear together or not at all |
| BluezTransport.BluerTransport.Reconcile | src/bluetooth/transport.rs:398-443 | the observation and the held fields after it, as `Transport.Reconcile` |
| BluezTransport.BluerTransport.Subscribe | src/bluetooth/transport.rs:449-491 | both subscriptions or none; in the log of stream events the Notification Source is asked for only while a Data Source stream is open, and exactly one pair is open while subscriptions are held, none otherwise |
| BluezTransport.BluerTransport.EndAncsSession | src/bluetooth/transport.rs:298-311 | subscriptions and characteristics are released, nothing else |
| BluezTransport.BluerTransport.ResetBluezSession | src/bluetooth/transport.rs:533-545 | everything is released |
| BluezTransport.BluerTransport.Shutdown | src/bluetooth/transport.rs:547-553 | everything is released |
| SupervisorLoop.Supervision.Publish | src/bluetooth/supervisor.rs:89-96 | publishes exactly on a change of state or reason |
| SupervisorLoop.Supervision.SyncSessionMetadata | src/bluetooth/supervisor.rs:98-110 | takes over deliveries, new errors and the last error code of the session |
| SupervisorLoop.Supervision.EndSession | src/bluetooth/supervisor.rs:112-121 | ends the engine if active, the transport's session always, and clears two flags |
| SupervisorLoop.Supervision.PhoneMissing | src/bluetooth/supervisor.rs:218-224 | refreshes at once after a session, else after the threshold of waits |
| SupervisorLoop.Supervision.ReconcileOnce | src/bluetooth/supervisor.rs:168-290 | one layer of BlueZ state, every observation, as `Supervisor.ReconcileOnce` |
| SupervisorLoop.Supervision.HandleOnePacket | src/bluetooth/supervisor.rs:292-320 | an event is ingested and processed, malformed and unsolicited data are recorded and published |
| SupervisorLoop.Supervision.RunTurn | src/bluetooth/supervisor.rs:332-364 | one iteration of the loop: backoff sleep, queued work, or the race of timer and packet, in which the packet may be dropped at any await of the engine's methods |
| SupervisorLoop.Supervision.Run | src/bluetooth/supervisor.rs:330-365 | the loop for as many turns as the environment scripts, each packet handled to its end or dropped |
| SupervisorLoop.Supervision.Shutdown | src/bluetooth/supervisor.rs:367-376 | ends the session and releases the transport |
| SupervisorInvariants.ReconcileReachesBoundary | src/bluetooth/supervisor.rs:168-290 | from the loop head every reconciliation reaches a state where Ready, active session, subscribed flag and subscriptions coincide, flags mean what the state says, and the last publication is current |
| SupervisorRuns.TurnsKeep | src/bluetooth/supervisor.rs:330-365 | the loop invariant holds over every run, with packets dropped at any await |
| SupervisorRuns.SessionMatchesTransport | src/bluetooth/supervisor.rs:168-290 | after every reconciliation of every run: Ready if and only if active, subscribed and subscriptions held; without a session the engine is completely empty, so a new session starts from nothing |
| SupervisorRuns.PublicationIsCurrent | src/bluetooth/supervisor.rs:75-96 | although only transitions are published, the last publication always shows current state, reason and flags, and every publication respects connected, resolved, available, subscribed in this order |
| SupervisorRuns.ErrorsAreConserved | src/bluetooth/supervisor.rs:98-121 | in every run the shown errors are the supervisor's own plus those of the session it has seen, never more than there are; errors and deliveries shown are complete whenever no session is active or no packet was dropped |
| SupervisorRuns.ShutdownReleasesEverything | src/bluetooth/supervisor.rs:367-376 | after shutdown no session, subscription, UID or handle is left |
| SupervisedEngine.SupervisionDrivesTheEngine | src/bluetooth/supervisor.rs:330-365 | the engine of every supervised run is where some run of engine operations leads, with no more drops than turns that drop one |
| SupervisedEngine.SupervisedEngineIsReachable | src/bluetooth/supervisor.rs:330-365 | without drops it is a reachable engine, so all theorems about those hold of it |
| SupervisedEngine.StatusCountsWhatHappened | src/bluetooth/supervisor.rs:98-110 | without drops the shown deliveries and errors are the successful and failed sink calls, failed requests and malformed packets of the traces, plus the supervisor's own errors |
| SupervisedEngine.ShutdownClosesEveryHandle | src/bluetooth/supervisor.rs:367-376 | from start to shutdown every handle has one life and exactly one close attempt, but for at most one handle for each dropped packet |
| SupervisedEngine.SupervisionKeepsOrderAndBounds | src/bluetooth/supervisor.rs:330-365 | bounds, agreement and first in first out hold of the engine in every supervised run |
| SupervisedEngine.StarvedTurnReadsNothing | src/bluetooth/supervisor.rs:339-347 | a starved turn does the same whatever packet is waiting, and leaves the engine as it is |
| SupervisedEngine.StarvedUntilTheSessionEnds | src/bluetooth/supervisor.rs:339-347 | over any number of turns a starved engine stays as it is until a reconciliation ends the session |
| SupervisedEngine.AnyWaitingTurnCanStarve | src/bluetooth/supervisor.rs:339-353 | in every run, whichever acceptable event arrives at a turn that waits, its drop can starve the loop for the rest of the session |
| SupervisedEngine.SecondTurnWaits | src/bluetooth/supervisor.rs:330-365 | such a turn exists: if every answer of BlueZ is good the first turn advertises and the second subscribes and waits for a packet |
| SupervisorRecovery.ReconcileCounters | src/bluetooth/supervisor.rs:168-290 | counters, resulting state and whether the engine is touched depend on the observation alone |
| SupervisorEffects.ReconcileEffects | src/bluetooth/supervisor.rs:168-290 | a reconciliation ends the session exactly if it was active and does not stay subscribed, releases everything exactly on a failure or a refresh and the ANCS session otherwise, and records and gives exactly the error and reason of its observation |
| SupervisorRecovery.EveryBackoffFollowsTheTable | src/bluetooth/supervisor.rs:335-338 | in every run the j-th backoff sleep since the last Ready lasts the j-th table entry, the last entry repeating |
| SupervisorRecovery.BackoffFollowsTheTable | src/bluetooth/supervisor.rs:67-73 | the same from any state in which the index matches the sleeps so far |
| SupervisorRecovery.PassiveRefreshIsBounded | src/bluetooth/supervisor.rs:123-150 | from reset tracking without a session, in any stretch without Ready or error, W waits cause at most (W+3)/6 stall refreshes and F failed subscriptions at most F/2 more |
| SupervisorProgress.AbsenceRefreshesExactly | src/bluetooth/supervisor.rs:129-150 | while the phone is away, for any number of turns: W waits cause exactly (W+3)/6 refreshes, and as each refresh costs one turn to register again, N turns contain exactly (N+4)/7, or (N+3)/7 if nothing was registered |
| SupervisorProgress.AbsenceFromTheStart | src/bluetooth/supervisor.rs:129-150 | such an absence of any length, from the start of the daemon |
| SupervisorProgress.TwoGoodTurnsMakeReady | src/bluetooth/supervisor.rs:168-290 | from every loop head, after any failures, a good reconciliation is Ready, or it advertises and the next good one is Ready |
| AudioRules.PlanReachesTarget | src/audio.rs:74-120 | without a conflict the plan gives exactly the desired content on owned paths and touches no other path, for any finite rule sets and any visiting order |
| AudioRules.PlanIsEmptyExactly | src/audio.rs:95-97 | the plan is empty if and only if the disk is already as desired |
| AudioRules.PlanIsUndoable | src/audio.rs:89-119 | a plan removes what is there and creates only where nothing or something else that it removes is there |
| AudioRules.RollbackUndoesApply | src/audio.rs:148-174 | rolling back an applied change restores the disk exactly and never meets the conflict branch |
| AudioRules.LateWriteStays | src/audio.rs:133-144 | a failed write that took effect on a free path stays behind after the rollback, alone |
| AudioRules.LateWriteConflicts | src/audio.rs:133-144 | a failed write that took effect on a replaced path makes the rollback stop at a conflict |
| AudioTransaction.RollbackFiles | src/audio.rs:148-174 | whatever the disk has become, without a fault the answer and the disk are those of `RolledBack`; one fault ends it; paths are only restored or freed |
| AudioTransaction.MakePlan | src/audio.rs:88-120 | reads without changing anything: the plan, a conflict if and only if some owned content is neither desired nor previous, or a read error |
| AudioTransaction.Reconcile | src/audio.rs:74-146 | which answer is given is decided by the failed operations: none, target or untouched conflict; one, the original disk or a late write alone; otherwise a failed cleanup with every path between old and new |
| AudioTransaction.RollbackChange | src/audio.rs:64-72 | rolls the files back and reloads once, or does nothing for an empty change |
| AudioTransaction.ReconcileWithReload | src/audio.rs:46-62 | reloads once for a change and never for none; after a failed reload the original disk is restored and reloaded |
| AudioCompensation.ReportedChangeIsUndone | src/audio.rs:46-72 | every change that is reported can be rolled back exactly |
| Commit.ConfigurationStore.Save | src/config.rs:126-131 | replaces the configuration, or fails without or with effect |
| Commit.CommitPersistent | src/setup/production.rs:659-690 | rules first, configuration last, rules rolled back if the configuration cannot be saved: every answer with its state and events |
| Commit.FailuresDecideTheAnswer | src/setup/production.rs:667-688 | success or untouched conflict without a failure, `CleanupFailed` exactly for two failures or a late write to a replaced path: a failed rollback is always reported |
| Commit.CommitIsAllOrNothing | src/setup/production.rs:659-690 | success means rules and configuration are both new; a failure with successful cleanup means both are as before, except exactly for a late write |
| Commit.ReloadsOncePerChange | src/audio.rs:52-55 | a successful commit reloads once if and only if it changed a rule |
| Teardown.Teardown.Run | src/teardown.rs:78-110 | stops the unit, removes rules and, on request, the bond, collects failures, and removes the configuration only if there were none |
| Teardown.RetriesReachTheSameEnd | src/teardown.rs:78-110 | any number of failing runs followed by a successful one ends exactly as a single successful run |
| Teardown.FaultFreeRunSucceeds | src/teardown.rs:78-110 | failing runs create no conflict, so a run in which no step fails succeeds |
| Teardown.ConfigurationGoesLast | src/teardown.rs:104-109 | the configuration disappears only in a run that succeeded, with everything else gone |
| SetupGate.AgentGate.Request | src/setup/production.rs:71-89 | the locked part of a request: granted, refused, or waiting with at most one notice sent |
| SetupGate.AgentGate.Answer | src/setup/production.rs:96-110 | every waiter is told the verdict, the identity is approved or released |
| PairingGate.GrantsOneIdentity | src/setup/production.rs:70-111 | under every interleaving all granted requests are for one identity |
| PairingGate.WaitersAreActive | src/setup/production.rs:71-89 | waiters belong to the active identity, none wait without one, and whoever waits is a waiter |
| PairingGate.OneNoticeIsUnanswered | src/setup/production.rs:79-87 | at most one notice is unanswered, and it is for the active identity |
| PairingGate.AnswerResolvesEveryWaiter | src/setup/production.rs:96-110 | one answer gives every waiting request the same verdict and changes no other; for any other identity it fails and changes nothing |
| PairingGate.GrantNeedsAcceptance | src/setup/production.rs:70-111 | nothing is granted that was not accepted |
| PairingGate.ApprovalIsFinal | src/setup/production.rs:74-79 | after approval no interleaving changes an earlier verdict or sends a notice, and every later request is granted or refused at once, by its identity alone |
| SetupTrace.NothingFollowsTerminal | src/setup/mod.rs:157-333 | a terminal event is the last effect of a run |
| SetupTrace.AskedAboutTheCandidateFound | src/setup/mod.rs:182-225 | the user is asked to confirm the candidate that the backend found, and no other |
| SetupTrace.CommitComesLast | src/setup/mod.rs:213-304 | a commit is preceded by an explicit confirmation, an accepted answer, a verification and a successful cleanup, in this order |
| SetupTrace.EventsTellTheTruth | src/setup/mod.rs:293-333 | completion follows a successful commit, and in a run with an error event nothing was committed |
| SetupTrace.LawfulRun | src/setup/mod.rs:157-333 | the above for whole traces, with the number of cleanups and the meaning of the returned value |
| Setup.SetupProtocol.FailWithCleanup | src/setup/mod.rs:316-325 | cleans up, then names the failure, or `CleanupFailed` if the cleanup failed |
| Setup.SetupProtocol.Fail | src/setup/mod.rs:327-333 | the error event names the failure that caused it (a deadline by the phase shown last) and ends the run |
| Setup.SetupProtocol.CommitSetup | src/setup/production.rs:579-637 | on success rules and configuration are those of the verified identity; on failure nothing changed unless the commit was not all-or-nothing |
| Setup.SetupProtocol.Run | src/setup/mod.rs:157-314 | exactly one cleanup once the first event is written; an orderly trace; true exactly if completion of the committed address was announced; new state after a commit, old state otherwise |

## Left out

- Counters, identifiers and time: `u64` counters and desktop handles are unbounded naturals; saturating `u8` counters are modelled as they saturate. Created handles are assumed fresh, as the desktop promises. Timers are a branch that may win any race.
- Decoder.Reassembly: holds only for fragments that together fit the buffer, which is the exact condition of `Decoder.SplitPush`.
- SupervisorRuns.PublicationIsCurrent: the status writer never fails here; in the source a failure is logged and ignored. It never suspends either, so a packet cannot be dropped while its status is published.
- A packet is dropped only at an await inside its handling, and a sink call or control write has been sent by then; a call that is cancelled before it takes effect counts as one that failed.
- Atomic file replacement is a contract with three outcomes: done, failed without effect, failed with effect. Directories, permissions and temporary files are not modelled, nor does anyone else write to owned paths during an operation.
- Classification of audio errors looks for markers in the outermost message; paths and foreign error texts are assumed not to contain a marker.
- The two concrete WirePlumber rules and their paths: `AudioRules` holds for any finite map of rules.
- Commit.ConfigurationStore.Save: TOML and validation are one nondeterministic failure without effect.
- Teardown.Teardown.Run: BlueZ, systemd and the file store are free answers; a failing unit or bond removal may or may not have taken effect.
- Setup.SetupProtocol.Run: adapter, agent and GATT work of the backend are free outcomes; `prepare`, `requested_repair_target` and address syntax are not modelled, nor is the serialisation of events and commands.
- SetupGate.AgentGate.Request: mutex poisoning and the loss of all senders are not modelled; each step holds the lock throughout, as in the source.
- Device name updates, tracing, status persistence, doctor checks, command line, the notification actor and its D-Bus calls, HID tables, adapter lookup by identity: input and output, or easy claims.
