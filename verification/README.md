# Verification of the light-hub ingestion protocol, its archive, the flow's queue and board, and the dashboard's limits

A Dafny model of the parts of the daemon that promise durability, exactly-once effects and
bounds, with the promises proved over every input, every run and every interleaving.
`dafny verify dfyconfig.toml` checks the whole project.

- **Ingestion** (`Identity`, `LruPhases`, `DedupGate`, `DoorHandoff`, `Ingest`,
  `IngestSafety`, `IngestDuplicates`, `IngestReplays`, `Consumer`, `Rewarm`). `Ingest` is a step system: one
  step is one Redis command, one lock region or one ledger append, so a run interleaves any
  number of offers at the door with the consumer, with other producers and ledger writers,
  and with losses (Redis dropping keys or the queue, commands failing before or after they
  took effect, the degraded flag moving at any moment, time passing, rewires, crashes).
  `IngestSafety` proves what every run keeps, `IngestDuplicates` bounds the copies of a key,
  `IngestReplays` says what a duplicate was a duplicate of.
  The objects of the program (the linked-list LRU, the gate, the door, the consumer's
  loops) are classes proved against the functions the step system is made of.
- **Runtime** (`RuntimeModes`, `ConsumerSlot`). The five-state mode machine, and the
  registration of the consumer goroutine under concurrent starts, stops and rewires.
- **Archive tier** (`Markers`, `Archive`, `ArchiveTier`). The marker log as the licence to
  drop a generation, with an object store that may store anything it is sent.
- **The flow** (`Seal`, `Spool`, `Replay`, `TaskIds`, `Board`, `BoardFiles`, `SpawnLane`).
  The durable dispatch queue and its drain, sealed payloads, base-32 task ids, the cached
  board index against a reload, reconcile, and the hot-fix lane's cap and leases.
- **Dashboard limits** (`RateLimit`, `Limiter`, `Throttle`), over the reals.

## Where the code does less than its comments say

Each is stated as the exact condition under which the code meets the claim, or as what
holds in its place, with a concrete run or input where it does not.

- `dedup.go:290-293`: a release inside a degraded window, or whose DEL is not delivered,
  leaves the claim, and the sender's retry is answered as a duplicate (`ReleaseReopens`,
  `LostReleaseWitness`).
- `door.go:168-177`: a duplicate offer is answered with success before anything is in the
  ledger (`DuplicateIsPromisedNothing`); one refused on an `appended` answer has its record
  (`ReplayOnAppendedIsBacked`).
- `consume.go:253-256`: a skipped re-delivery had its records in the ledger, except an entry
  of another producer of several records with the claim of one as its key, whose rest can
  be lost (`PartOfAnEntryIsLost`); without such a record an acked entry is dead-lettered,
  whole, or behind a whole entry of its key (`AckedWithoutClaim`).
- `door.go:299-382`: without any host id a scoped claim is read back from the ledger as a
  different key (`ClaimRoundTrip`).
- `runtime.go:373-391`: `done` closes before the registration is cleared, not after, so a
  rewire can report success and start nobody (`RewireMayLeaveNobody`,
  `StartNewStartsExactly`). `runtime.go:528-530` says a caller outside the supervisor may
  force a rewire. The tree has no such caller: `reconnect` is called at `runtime.go:478` and
  `496` only, and as long as no start falls into a rewire, whoever calls, the consumer that
  runs is current (`RunningIsCurrent`, `SupervisorIsApart`). With one, the attach leaves a
  consumer of the replaced wiring running exactly when somebody drains at that moment
  (`AttachIsCurrentExactly`, `ForcedRewireMayKeepTheOld`).
- `runtime.go:1121-1138`: the write of `redis_restored` is not checked, so the ledger can
  show two losses in a row (`LostRestoreLeavesTwoLosses`); it alternates exactly when
  between the losses in it a recovery landed, and whichever losses land exactly when between
  any two losses one did (`LedgerAlternatesExactly`, `WhicheverLossesLand`); a refused
  topology or persistence check leaves a degraded runtime without a reason
  (`RewireSaysWhyExactly`); the offer that discovers a loss is answered 429 under
  require_redis too (`RefusalIs503Exactly`).
- `archive.go:653-667`: the retention gate compares the latest stage by file name and not
  the digest, so a rewritten generation is licensed although its bytes were never exported
  (`GateIsRightExactly`, `RewrittenIsLicensed`). A licence is worth what it says all through a run exactly when no
  export of the run stores another content over a licensed object without leaving a line
  (`LicenceHoldsExactly`); nothing is lost until then, and the first such export opens the
  way to a loss (`NothingIsLost`, `UnderminedIsLost`).
- `archive.go:363-368, 524-550`: a failed read-back is never retried, and a generation
  whose bytes another file has already recorded can be planned again after success
  (`RetriedExactly`), which can cost a licensed generation its object
  (`TwinsBreakTheLicence`); planned exports of generations with ids of their own never do
  (`PlannedExportsLoseNothing`).
- `spool.go:128-131`: an overflow evicts the first in replay order, which is the oldest
  exactly when no entry waits on a later retry than a younger one (`OldestAreEvictedExactly`,
  `EvictsDueBeforeOld`); an entry evicted while it is being dispatched can come back
  (`ConsiderAddsExactly`, `EvictedEntryComesBack`).
- `replay.go:286-293`: an entry is delivered or dropped once, or on disk, all through a run
  exactly when the file of each entry that closes goes with it and no entry whose file has
  gone closes or is rewritten (`ExactlyOneFate`); a failed delete delivers twice
  (`FailedDeleteDeliversTwice`).
- `replay.go:101-105`: a marked envelope with a mistyped field is re-derived
  (`MarkedIsRederivedExactly`, `MistypedEnvelopeIsRederived`); a bare request without a
  task id is delivered under another key by each replay (`LegacyKeyIsStableExactly`).
- `boardjsonl.go:169-191`: on a board whose maximum suffix ends in a character outside the
  alphabet the allocation returns an existing id (`StuckRepeatsExactly`); `writeEvent`
  takes the counter back when only the fsync failed, and the next event repeats the id
  (`EventIdsRise`, `FailedSyncRepeatsTheId`).
- `hotfix.go:56-59`: the concurrency gate and the going live are two steps, so overlapping
  calls exceed the cap by one less than their number, for every cap and every number
  (`CapPlusOverlap`, `CapPlusOverlapIsMet`).
- `hotfix.go:146-177`, one fix per signature: the renewal at `flow.go:433-437` takes the
  lease and a release deletes it, whoever holds it by then. A step is safe exactly when a
  renewal meets no other incident's running claim and a release is by the only claimant,
  and the claims stay backed through a run exactly when its steps are
  (`StepIsSafeExactly`, `BackedExactly`); a discard after its own lease ran out lets a
  second incident in (`LateReleaseBreaksIt`).
- `ratelimit.go:76-89`: the Retry-After of a refused read need not suffice when the rate is
  under one a second, because a refused read still spends the bucket that accepted it: it
  suffices exactly when each bucket so spent holds a whole token again (`ReadRetryExactly`,
  `ReadRetrySucceeds`, `SlowReadRetryFails`).
- `ratelimit.go:124-126`: throttling starts at one failure more than the limit
  (`BlockedForAWindow`).

## Model

| member | source | states |
|---|---|---|
| LruPhases.HoldsTheMostRecent | internal/hub/dedup.go:504-547 | After any history of puts the fallback holds exactly the most recent distinct keys, as many as its capacity, in recency order. |
| LruPhases.StoredFacts | internal/hub/dedup.go:526-547 | A put keeps keys distinct and the capacity, evicts at most the least recent key and only for a new key, and never takes a kept key from `appended` back to `enqueued`. |
| LruPhases.TouchedFacts | internal/hub/dedup.go:549-558 | A get changes recency and nothing else. |
| LruPhases.TouchedIsRecent | internal/hub/dedup.go:549-558 | A key looked up becomes the most recent one, the others keep their order. |
| LruPhases.StoredAllKeepsEveryKey | internal/hub/dedup.go:368-396 | Storing no more keys than the capacity into an empty fallback evicts none and marks all of them. |
| LruPhases.Memory.Put | internal/hub/dedup.go:526-547 | The linked-list-plus-map put is the reference put, and is new exactly when the key was absent. |
| LruPhases.Memory.Get | internal/hub/dedup.go:549-558 | The lookup answers the held phase and moves the key to the front. |
| LruPhases.Memory.Remove | internal/hub/dedup.go:560-567 | Removal drops the key from list and map together. |
| Identity.ClaimRoundTrip | internal/hub/door.go:299-382 | The claim read back from the landed record is the key the door took if and only if some host id is known or the key is not host-scoped. |
| Identity.NamedHostRoundTrip | internal/hub/idemindex.go:58-78 | A daemon with a host id reads back exactly the key it claimed, through the transport and the consumer's rewriting. |
| Identity.DoorKeyContent | internal/hub/door.go:334-348 | The content component cut out of any door key is the content key itself, so the claim travels with the record. |
| Identity.DoorKeyTellsContent | internal/hub/protocol.go:148-162 | With digests that do not collide, drafts of one key are of one kind and have one canonical payload. |
| Identity.DoorKeyTellsExactly | internal/hub/protocol.go:112-162 | At a named host two drafts share a key if and only if kind and canonical payload are equal and the sigs are equal or neither scopes. |
| Identity.HostsAreApart | internal/hub/protocol.go:112-146 | A draft has one key at two hosts if and only if its sig does not scope it. |
| Identity.LandedPayload | internal/hub/consume.go:466-497 | The record that lands carries the content digest, the signature, kind and incident, the origin and actor given, and every field of the draft's payload, with the stated fallback for its host and nothing else but the local id. |
| Identity.ClaimsOfMembers | internal/hub/idemindex.go:58-78 | The claims of a run of records are those of its members and no others. |
| Identity.LedgerIdemKeys | internal/hub/idemindex.go:86-107 | The bounded walk with its early stop returns every claim of the last `limit` records, in order. |
| Identity.ScanFrom | internal/hub/idemindex.go:86-107 | The scan callback accumulates exactly the claims from its start on. |
| DedupGate.CallsKeepMarks | internal/hub/dedup.go:173-302 | Whatever Redis answers or loses, a claim, a check and a release mark no key, and `appended` is answered for marked keys only. |
| DedupGate.MarkKeepsMarks | internal/hub/dedup.go:198-240 | A mark adds its own key and no other, in every way its commands can end. |
| DedupGate.RestoreKeepsMarks | internal/hub/dedup.go:368-396 | A restore marks only keys it was given. |
| DedupGate.MarkIsAnswered | internal/hub/dedup.go:198-288 | After a completed mark the next check answers `appended`, whether or not Redis took it. |
| DedupGate.RewarmIsComplete | internal/hub/dedup.go:122-130 | A re-warmed gate answers `appended` for every restored key inside the trust window, and in a degraded window after it. |
| DedupGate.ReleaseReopens | internal/hub/dedup.go:290-302 | A retry after a release is a fresh acceptance if and only if the release removed the Redis claim. |
| DedupGate.LostReleaseWitness | internal/hub/dedup.go:290-302 | A release that is not delivered turns the retry into a duplicate. |
| DedupGate.ReleaseReopensLocally | internal/hub/dedup.go:290-302 | While Redis does not answer a retry after a release is a fresh acceptance. |
| DedupGate.FreshClaimIsNew | internal/hub/dedup.go:173-192 | A key held nowhere is claimed, whatever Redis answers. |
| DedupGate.SecondClaimIsNewExactly | internal/hub/dedup.go:173-192 | A second claim is new if and only if the first did not reach Redis and Redis answers again. |
| DedupGate.DegradedIsLocal | internal/hub/dedup.go:198-302 | Inside a degraded window checks, marks and releases leave Redis alone and do not depend on it. |
| DedupGate.WindowIsEarned | internal/hub/dedup.go:173-302 | A window is opened by a command that fails and closed by a claim that Redis answers. |
| DedupGate.Gate.Claim | internal/hub/dedup.go:173-190 | The claim's new state and answer, for every reply of Redis. |
| DedupGate.Gate.MarkAppended | internal/hub/dedup.go:198-240 | Memory first, then overwrite, create, overwrite in Redis, with every way each can fail. |
| DedupGate.Gate.State | internal/hub/dedup.go:250-288 | Trusted index, then fallback or Redis, and the degraded flag it leaves. |
| DedupGate.Gate.Release | internal/hub/dedup.go:294-302 | What a release removes, and from where. |
| DedupGate.Gate.Restore | internal/hub/dedup.go:368-396 | The restored index, its window and the fallback filled in order. |
| DoorHandoff.Door.Complete | internal/hub/door.go:123-142 | A completion takes the waiter out and never blocks, or parks its answer. |
| DoorHandoff.Door.Register | internal/hub/door.go:200-219 | The critical section after the XADD picks up a parked answer and leaves a waiter; its send needs an empty channel. |
| DoorHandoff.Door.Leave | internal/hub/door.go:220-243 | The cleanup removes waiter, pending mark and parked answer of its own entry only. |
| IngestSafety.InvKept | internal/hub/consume.go:198-325 | Every step of the protocol keeps the invariant the theorems rest on. |
| IngestSafety.AckedIsDurable | internal/hub/consume.go:198-325 | In every run each acked entry is in the dead-letter stream, has all its records in the ledger, or was a re-delivery under a key the ledger already held. |
| IngestSafety.AckedDoorEntry | internal/hub/consume.go:198-325 | In every run an acked entry of a door-made key is in the dead-letter stream or a ledger record carries its key. |
| IngestSafety.AckedWithoutClaim | internal/hub/consume.go:240-286 | In every run an acked entry whose key no ledger record claims is in the dead-letter stream, has all its records in the ledger, or another entry of its key has. |
| IngestSafety.PartOfAnEntryIsLost | internal/hub/consume.go:253-260 | A run in which an outside entry of two records, keyed by the claim of the first, is acked with the second in no ledger. |
| IngestSafety.GateIsSound | internal/hub/dedup.go:198-396 | In every reachable state a door-made key that any of the gate's sources answers `appended` for has a ledger record carrying that claim. |
| IngestSafety.ConfirmedIsInLedger | internal/hub/door.go:151-264 | A freshly claimed offer that returned without error has a ledger record with its key, appended or skipped on re-delivery. |
| IngestSafety.NoLostCompletion | internal/hub/door.go:123-243 | Once an offer's entry is completed the answer is parked, in its channel, or on its way there, in every interleaving. |
| IngestSafety.RegisterNeverBlocks | internal/hub/door.go:200-219 | The send made under the door's lock always finds an empty channel. |
| IngestSafety.DeskIsLeftClean | internal/hub/door.go:200-243 | Registration takes the parked answer along, the cleanup leaves nothing, and both touch their own entry only. |
| IngestSafety.UndisturbedOfferSucceeds | internal/hub/door.go:151-264 | For any draft an undisturbed run ends with the sender told, the record in the ledger, the entry acked and the key marked everywhere. |
| IngestSafety.DuplicateIsPromisedNothing | internal/hub/door.go:168-177 | A run in which a duplicate offer succeeds while ledger and stream are empty. |
| IngestSafety.ReplayOnAppendedIsBacked | internal/hub/door.go:168-177 | A duplicate refused on the word of a source that says `appended` has a ledger record with its key. |
| IngestDuplicates.DuplicatesAreBounded | internal/hub/consume.go:240-286 | Over every run in which a key's entries carry one record, its ledger copies number at most one plus the known losses of the evidence for it. |
| IngestDuplicates.FaultsAreKnown | internal/hub/dedup.go:198-302 | A step that leaves a key without the evidence of its append is one of the named losses: window end, flag move, key loss, rewire, crash, failed command, eviction, release. |
| IngestDuplicates.CopyNeedsNoEvidence | internal/hub/consume.go:240-286 | A step adds at most one copy of a key, and only with no evidence in the way. |
| IngestReplays.DuplicateHasAnOriginal | internal/hub/door.go:168-177 | Over every run an offer of the current wiring is answered as a duplicate only if another offer claimed its key or a mark of it was made before, or a ledger record carries it. |
| IngestReplays.OthersMeans | internal/hub/dedup.go:173-192 | That claim or mark is a step of the run, by another offer or before this one began. |
| Consumer.Consumer.HandleEntry | internal/hub/consume.go:240-286 | An entry handled is exactly one of buried, skipped with its key in the ledger, or appended whole and in order during the call, and the counters say which. |
| Consumer.Consumer.AppendAll | internal/hub/consume.go:264-271 | Success means all the records were appended in their order, behind what the ledger held, before the mark; the first failure ends it. |
| Consumer.Consumer.MarkAppended | internal/hub/consume.go:272-274 | The commands given are memory first, then unless degraded overwrite, create if that found nothing, overwrite if created by another meanwhile, each met by whatever everyone else did. |
| Consumer.Consumer.DeadLetterEntry | internal/hub/consume.go:292-325 | A buried entry is acked only once its copy exists. |
| Consumer.Consumer.HandleBatch | internal/hub/consume.go:198-229 | One command acks exactly the handled prefix, each of whose entries is settled; a whole batch acked counts as progress and is counted; in peace it always is. |
| Consumer.Consumer.TookBack | internal/hub/consume.go:367-382 | The alarm is raised exactly for rounds that are at least the third in a row without progress. |
| Consumer.Consumer.Reclaim | internal/hub/consume.go:329-383 | A round takes entries back and acks them all or reports failure, and logs what the alarm counts; in peace it takes exactly what the claim lists. |
| Consumer.Consumer.Poll | internal/hub/consume.go:140-190 | A read takes the next entries, at least one if there is one, and acks them whole or reports failure; one that finds none has passed the end of the stream. |
| Consumer.Consumer.Run | internal/hub/consume.go:125-191 | From any state earlier consumers left, the loop is a run of the protocol under any weather: every entry acked is settled, its alarms are those of its log; in peace it acks every entry in order, at least one a turn, and what was left pending. |
| Consumer.Consumer.Drain | internal/hub/consume.go:404-433 | A clean drain means that all the stream held was read and nothing is pending; in peace enough turns end clean with all of it acked. |
| Rewarm.RewarmGate | internal/hub/runtime.go:246-263 | A new gate is given exactly the claims of the ledger's tail. |
| Rewarm.RecentClaimsAreAnswered | internal/hub/runtime.go:246-263 | For any draft recorded among the last `cap` records the re-warmed gate answers `appended` for the very key the door took and refuses the claim, whatever Redis lost. |
| Rewarm.CheckIsState | internal/hub/dedup.go:250-288 | The protocol's check, uninterrupted, is the gate's, its degraded flag included. |
| Rewarm.MarkIsMarkAppended | internal/hub/dedup.go:198-240 | The protocol's mark, with or without a rival claim between its writes, is the gate's, its degraded flag included. |
| Rewarm.ClaimIsClaim | internal/hub/dedup.go:173-190 | An offer's claim in the protocol goes on exactly when the gate's call is new, and leaves the gate's view. |
| Rewarm.ReleaseIsRelease | internal/hub/dedup.go:294-302 | The protocol's release, uninterrupted, is the gate's. |
| Rewarm.RewireIsRestore | internal/hub/runtime.go:246-263 | A rewire leaves a gate that answers, from then on, like a fresh one restored from the ledger. |
| RuntimeModes.RequiredRedisNeverFallsBack | internal/hub/runtime.go:152-225 | With require_redis every run stays in up or refusing, has a door when up, never takes the standalone path, and refuses outside up with the code answered 503. |
| RuntimeModes.UpHasADoor | internal/hub/runtime.go:272-309 | In any configuration up implies a door, and unavailable or refusing accepts nothing. |
| RuntimeModes.AcceptedWasTaken | internal/hub/runtime.go:623-682 | Over every run an event is accepted if and only if the path of the mode is there and reported no error, and the error of a path is the answer. |
| RuntimeModes.FallbacksAreCounted | internal/hub/runtime.go:643-655 | The fallback count is the number of events the standalone path took at a degraded boot. |
| RuntimeModes.BootIsExact | internal/hub/runtime.go:152-225 | A boot is up, refused or degraded exactly by whether Redis answers, is required, and has a usable group. |
| RuntimeModes.DegradedBootStillAccepts | internal/hub/runtime.go:643-655 | A boot without a Redis it need not have still takes events. |
| RuntimeModes.RefusingMeansNoGroup | internal/hub/runtime.go:535-555 | Without require_redis only an unusable group makes the runtime refuse. |
| RuntimeModes.RefusalIs503Exactly | internal/hub/errors.go:137-142 | A failed offer under require_redis is a 503 if and only if the runtime was already refusing. |
| RuntimeModes.StandalonePathIsLeftForGood | internal/hub/runtime.go:535-564 | A degraded boot stays on the standalone path only until a rewire gets past the old consumer, and no run returns to it. |
| RuntimeModes.LossIsAttributed | internal/hub/runtime.go:724-758 | A failure moves the mode if and only if it is no request end and carries a code of the queue (or of the archive over a queue answer). |
| RuntimeModes.LossesAlternate | internal/hub/runtime.go:724-758 | Over every run two loss records have a recovery between them, and each names a code and a reason. |
| RuntimeModes.LedgerAlternates | internal/hub/runtime.go:1121-1138 | The ledger alternates when no recovery record was lost. |
| RuntimeModes.LedgerAlternatesExactly | internal/hub/runtime.go:1121-1138 | The ledger alternates if and only if between any two losses in it a recovery landed. |
| RuntimeModes.WhicheverLossesLand | internal/hub/runtime.go:1121-1138 | It alternates whichever of the losses land if and only if between any two losses some recovery landed. |
| RuntimeModes.LostRestoreLeavesTwoLosses | internal/hub/runtime.go:1121-1138 | A run whose recovery record fails to land shows two losses in a row. |
| RuntimeModes.OneSlowProbeIsForgiven | internal/hub/runtime.go:473-508 | The failure count is one exactly when the last pass was an unanswered probe, so a single one never tears the queue down. |
| RuntimeModes.RewiresOnSecondSilence | internal/hub/runtime.go:480-497 | A failed probe rewires if and only if the group is unknown or the probe before failed too. |
| RuntimeModes.DegradedSaysWhy | internal/hub/status.go:138-154 | Degraded if and only if a reason is given, while failed dials carry queue codes. |
| RuntimeModes.RewireSaysWhyExactly | internal/hub/runtime.go:543-546 | A rewire leaves a degraded mode without reason exactly for dial codes outside the table. |
| RuntimeModes.Runtime.Open | internal/hub/runtime.go:152-225 | The boot refuses or reaches exactly the mode, reason and door of its inputs. |
| RuntimeModes.Runtime.MarkLost | internal/hub/runtime.go:724-758 | The state and record a failure leaves, through the chain of early returns. |
| RuntimeModes.Runtime.Reconnect | internal/hub/runtime.go:535-564 | The state a rewire leaves, and whether it reports a live queue. |
| RuntimeModes.Runtime.SuperviseOnce | internal/hub/runtime.go:473-508 | The state one supervisor pass leaves; live implies up. |
| RuntimeModes.Runtime.Ingest | internal/hub/runtime.go:623-682 | The answer to a sender and the state it leaves, per mode; AcceptedWasTaken says what the answer means. |
| ConsumerSlot.OneConsumer | internal/hub/runtime.go:356-422 | In every interleaving of starts, restarts and rewires at most one goroutine is inside Run. |
| ConsumerSlot.ClearsOnlyItsOwn | internal/hub/runtime.go:373-386 | A finishing consumer finds its own registration in the slot and clears no other. |
| ConsumerSlot.StartNewStartsExactly | internal/hub/runtime.go:356-363 | A rewire leaves a consumer running if and only if the one it stopped has cleared its registration or another start came first. |
| ConsumerSlot.RewireMayLeaveNobody | internal/hub/runtime.go:373-391 | A run in which the rewire succeeds and nobody drains. |
| ConsumerSlot.NextStartRecovers | internal/hub/runtime.go:499-506 | The next start brings the consumer of the current wiring up. |
| ConsumerSlot.LockIsReleased | internal/hub/runtime.go:535-564 | In every reachable state the rewire that holds the lock can give it up by steps of its own. |
| ConsumerSlot.RunningIsCurrent | internal/hub/runtime.go:535-564 | With any number of callers, as long as no start falls between a rewire's lock and its release, the running consumer is of the current wiring. |
| ConsumerSlot.SupervisorIsApart | internal/hub/runtime.go:473-508 | The supervisor as the only caller never starts during a rewire, so its running consumer is current. |
| ConsumerSlot.AttachIsCurrentExactly | internal/hub/runtime.go:549-562 | In every reachable state an attach leaves only a current consumer running if and only if nobody drains then. |
| ConsumerSlot.StepKeepsCurrentExactly | internal/hub/runtime.go:528-564 | No other step of any caller can leave an outdated consumer running. |
| ConsumerSlot.ForcedRewireMayKeepTheOld | internal/hub/runtime.go:528-534 | With a second caller of reconnect, which the tree does not have, the consumer of the replaced wiring can stay. |
| Markers.MarkerStore.AppendTransition | internal/hub/markers.go:152-163 | A line is added once per marker id and stage, and the report says whether. |
| Markers.MarkerStore.Latest | internal/hub/markers.go:166-180 | The scan finds the last line about a file. |
| Markers.LatestIsLast | internal/hub/markers.go:166-180 | The latest line is about the file and no later line is. |
| Archive.EveryLineIsEarned | internal/hub/archive.go:447-591 | A `verified` line is added only when the stored object has the packed length and unpacks to the file's digest, a `dropped` line only on a `verified` latest line. |
| Archive.EveryDropRestsOnProof | internal/hub/archive.go:679-698 | Over every run each `dropped` line directly follows, for its file, the `verified` line it rests on. |
| Archive.LicenceHolds | internal/hub/archive.go:635-675 | While no export undermines a licence, a latest `verified` line means the target restores the digest it names. |
| Archive.StepIsHonestExactly | internal/hub/archive.go:447-591 | A step keeps every licence worth what it says if and only if it is no export that stores another content over a licensed object and leaves no line. |
| Archive.LicenceHoldsExactly | internal/hub/archive.go:635-675 | All through a run each licence is worth what it says if and only if no export of the run undermines one. |
| Archive.GateIsRightExactly | internal/hub/archive.go:653-667 | While no export undermines a licence, a licensed file's bytes are restored by the target if and only if the line's digest is the file's. |
| Archive.RewrittenIsLicensed | internal/hub/archive.go:653-667 | A generation rewritten after its export is licensed although its bytes are nowhere else. |
| Archive.SmoothExport | internal/hub/archive.go:447-591 | An undisturbed export ends licensed and restorable. |
| Archive.ReportIsExact | internal/hub/archive.go:553-591 | `verified` is reported if and only if the object was read back as the file's and a line of that id and stage stands, and then the target restores the digest. |
| Archive.RefusalSaysWhy | internal/hub/archive.go:447-591 | The code of a refusal is that of its cause: an outdated plan, packing or comparison, the store, or the marker line. |
| Archive.DropIsMarked | internal/hub/archive.go:679-698 | A drop whose line lands ends the licence and keeps the generation from being planned. |
| Archive.NothingIsLost | internal/hub/archive.go:593-610 | With generations written once and no export undermining a licence, each one ever written is on the host or restored byte for byte by the target. |
| Archive.UnderminedIsLost | internal/hub/archive.go:653-667 | After the first export that undermines a licence the gate lets the generation go, and its bytes are on neither side. |
| Archive.PlannedExportsLoseNothing | internal/hub/archive.go:593-610 | With generations written once under ids of their own and exports as planned, lines landing or not, each generation ever written is on the host or restored byte for byte. |
| ArchiveTier.PlannedExactly | internal/hub/archive.go:338-392 | A generation is planned if and only if no export, verification or drop is its id's last stage. |
| ArchiveTier.RetriedExactly | internal/hub/archive.go:500-575 | An attempted export is planned again if and only if its line was lost, packing, storing or the sidecar failed, or an older line already holds the transition it reached. |
| ArchiveTier.TwinsBreakTheLicence | internal/hub/archive.go:363-368 | Two generations of one content: planned exports alone leave one licensed whose object the target no longer restores. |
| ArchiveTier.DropListExactly | internal/hub/archive.go:635-675 | The gate's list is exactly the generations outside the newest `keep` whose latest line is `verified`. |
| ArchiveTier.FirstAreRetained | internal/hub/archive.go:639-645 | The first `keep` of the descending sort are those with fewer than `keep` newer generations. |
| ArchiveTier.Archiver.PlanArchive | internal/hub/archive.go:338-392 | The two loops compute the plans, or refuse when the live file is unknown. |
| ArchiveTier.Archiver.ArchiveOne | internal/hub/archive.go:447-591 | The state and report of one export, for every outcome of every outside call. |
| ArchiveTier.Archiver.Droppable | internal/hub/archive.go:635-675 | The drops and the refused files of one pass. |
| ArchiveTier.Archiver.MarkDropped | internal/hub/archive.go:679-698 | A drop is refused exactly without a licence and marked otherwise. |
| Seal.SealRoundTrip | internal/flow/replay.go:86-119 | A sealed payload decodes to itself if and only if it has an identity, else it is corrupt. |
| Seal.SealedDelivery | internal/flow/router.go:70-116 | Whatever changes between write and replay, the body and key delivered are those rendered at the write, field by field those of the row and of the world then. |
| Seal.SpawnIsDeliverable | internal/flow/replay.go:92-97 | A parked spawn always seals something deliverable, under the request's task id or the minted one, with its signature, incident and repository. |
| Seal.SpawnTitleIsScrubbed | internal/flow/router.go:70-116 | Its title is a scrubbed text of at most 200 characters, the whole of it where it fits. |
| Seal.MarkedIsRederivedExactly | internal/flow/replay.go:99-119 | A marked envelope is re-derived if and only if a field is mistyped and it still reads as a request; one without identity is refused. |
| Seal.MistypedEnvelopeIsRederived | internal/flow/replay.go:106-119 | Such an envelope exists, and what is delivered follows the live host. |
| Seal.LegacyKeyIsStableExactly | internal/flow/router.go:70-79 | A re-derived entry has one key for all its replays if and only if its request has a task id. |
| Spool.OneListing | internal/flow/spool.go:323-331 | The replay order is total: a directory has one listing. |
| Spool.WithDefaults | internal/flow/spool.go:51-67 | Every bound is positive, and a set one is kept. |
| Spool.BoundHolds | internal/flow/spool.go:132-164 | After any successful write the queue is within its bound. |
| Spool.NeverGrowsOver | internal/flow/spool.go:132-164 | A write that is stopped or fails leaves the queue no larger than it was or its bound. |
| Spool.EvictsDueBeforeOld | internal/flow/spool.go:128-131 | A directory where an overflow evicts a younger due entry before an older waiting one. |
| Spool.OldestAreEvictedExactly | internal/flow/spool.go:128-131 | For every bound the evicted entries are the oldest if and only if no entry of the directory waits on a later retry than a younger one. |
| Spool.Store.List | internal/flow/spool.go:242-273 | The directory scan yields the listing in replay order. |
| Spool.Store.Put | internal/flow/spool.go:132-164 | Exactly the first of the listing are evicted, up to a failing removal, and then the entry is written. |
| Replay.NothingLeavesSilently | internal/flow/replay.go:286-293 | Over every run, with any operation failing and any write in between, every entry stored is on disk or has a delivery or drop record. |
| Replay.ExactlyOneFate | internal/flow/replay.go:294-403 | Over runs that write under new ids, every entry is all along exactly one of on disk, delivered once or dropped once if and only if each considered entry that closes was on disk and its file goes, and none whose file had gone is rewritten. |
| Replay.ConsideredBalancesExactly | internal/flow/replay.go:308-388 | Considering an entry conserves it if and only if that holds of it, and always conserves every other. |
| Replay.FailedDeleteDeliversTwice | internal/flow/replay.go:369-388 | A run in which a delete that fails has the entry delivered twice. |
| Replay.ConsiderAddsExactly | internal/flow/replay.go:357-366 | A drain adds a file if and only if the entry had left the disk, is dispatched (in time, due, readable, its key free), fails with attempts to spare and the update lands. |
| Replay.EvictedEntryComesBack | internal/flow/replay.go:357-366 | A write during a drain can leave an evicted entry back on disk and the queue over its bound. |
| Replay.ConsideringWorks | internal/flow/replay.go:294-390 | A due attempt deletes the entry or lowers the attempts left; nothing raises them. |
| Replay.BackoffRises | internal/flow/spawn.go:36-45 | Retries lie between five seconds and five minutes away and never get closer as attempts grow. |
| Replay.FailedWaits | internal/flow/replay.go:357-366 | A failed dispatch is counted, keeps its body and is left alone for at least five seconds. |
| Replay.DropSaysWhyExactly | internal/flow/replay.go:308-366 | A drop during a drain names its cause: the time, the payload, or the attempts. |
| Replay.WriteIsToldExactly | internal/flow/replay.go:204-246 | A write reports `stored` if and only if it succeeded, and then the entry is on disk as given. |
| Replay.StoredWasWritten | internal/flow/replay.go:204-246 | Over every run what was reported as stored was put on disk. |
| Replay.QueueDrains | internal/flow/replay.go:294-390 | Without new writes the queue is empty after at most as many passes as attempts are left. |
| Replay.SentAsSealed | internal/flow/replay.go:336-352 | Every dispatch of a sealed entry, in every replay, carries the body rendered at its write. |
| Replay.Flow.SpoolWrite | internal/flow/replay.go:204-246 | The record claims durability exactly when the write succeeded, and every eviction is recorded. |
| Replay.Flow.ClaimIdem | internal/flow/replay.go:408-419 | One in-flight dispatch a key. |
| Replay.Flow.ConsiderOne | internal/flow/replay.go:308-388 | One entry's branch, record and file operation; the key is free again afterwards. |
| Replay.Flow.Replay | internal/flow/replay.go:294-390 | The listing is considered in order and in full unless the budget is spent, with everyone else at work between entries. |
| TaskIds.BumpUlid | internal/flow/boardjsonl.go:537-554 | The in-place carry loop computes the carry from the right, giving the string back when it meets a foreign character. |
| TaskIds.BumpIsIncrement | internal/flow/boardjsonl.go:537-554 | On the alphabet the increment is plus one modulo 32 to the length. |
| TaskIds.OrderIsValue | internal/flow/boardjsonl.go:531 | For suffixes of one length the string order is the numeric order. |
| TaskIds.BumpGrowsExactly | internal/flow/boardjsonl.go:537-554 | For any string the increment is greater if and only if behind its trailing Zs there is a character of the alphabet. |
| Board.AllocIsGreatest | internal/flow/boardjsonl.go:172-192 | Ahead of its maximum a board allocates, at the first try, an id greater than every row's: the collision branch is not taken. |
| Board.AllocationsIncrease | internal/flow/boardjsonl.go:172-192 | Successive allocations from a maximum and mints with room to spare are taken at the first try and strictly increase. |
| Board.AllocIsFirstFree | internal/flow/boardjsonl.go:172-192 | Whatever the rows, the allocation takes the first free of its tries, and only when none is the incremented maximum, untried. |
| Board.StuckRepeatsExactly | internal/flow/boardjsonl.go:172-192 | On a board stuck on a foreign character the allocation repeats an id if and only if no minted suffix is ahead and the maximum is a row's. |
| Board.NotAllZIsBumpable | internal/flow/boardjsonl.go:537-554 | A suffix of the alphabet can be incremented if and only if it is not all Zs. |
| Board.ReloadFindsTheMax | internal/flow/boardjsonl.go:92-138 | After a reload no row's suffix is beyond the maximum. |
| Board.ReloadMeans | internal/flow/boardjsonl.go:92-138 | The index a reload builds holds of each id its last row and of each signature the id of its last row, and nothing else. |
| Board.ReloadCounts | internal/flow/boardjsonl.go:92-138 | It counts the rows and the lines that could not be read. |
| BoardFiles.RowWriteAgrees | internal/flow/boardjsonl.go:245-247 | The incremental index after a write is that of a reload, its maximum exactly when it was not behind the row. |
| BoardFiles.EventIdsRise | internal/flow/boardjsonl.go:305-322 | Event ids strictly rise, and the cached maximum stays true if and only if no append failed after its bytes landed. |
| BoardFiles.FailedSyncRepeatsTheId | internal/flow/boardjsonl.go:312-315 | A failed fsync makes the next event repeat the id. |
| BoardFiles.ExhaustedCounterStartsOver | internal/flow/boardjsonl.go:305-322 | At the end of its 64 bits the counter wraps and the ids stop rising. |
| BoardFiles.BoardIndex.Reload | internal/flow/boardjsonl.go:92-168 | One pass over both files builds the index and leaves it in step with them. |
| BoardFiles.BoardIndex.AllocTaskId | internal/flow/boardjsonl.go:172-192 | The tries compute the allocation, in order, each collision moving the maximum on. |
| BoardFiles.AllocKeepsBound | internal/flow/boardjsonl.go:172-192 | A board ahead stays in step with its files across an allocation and gets an id no row has. |
| BoardFiles.BoardIndex.AppendEvent | internal/flow/boardjsonl.go:290-295 | An event is written once for a task and kind. |
| BoardFiles.BoardIndex.WriteRow | internal/flow/boardjsonl.go:211-281 | Row first, event second, nothing on a board that is not strict; successful writes keep the index in step. |
| BoardFiles.ReconcileBoard | internal/flow/lifecycle.go:98-114 | Only missing creation events are appended, once each, and every row ends with one unless its append failed. |
| BoardFiles.Reconcile | internal/flow/lifecycle.go:78-115 | Every strict indexed board ends complete when appends succeed, and a complete one is left as it is. |
| SpawnLane.CapPlusOverlap | internal/flow/hotfix.go:56-59 | With up to k calls past the gate at once the live spawns and calls number at most the cap plus k minus one. |
| SpawnLane.CapPlusOverlapIsMet | internal/flow/hotfix.go:189-199 | The bound is met for every cap and every k: a run with k calls at once ends with the cap plus k minus one spawns live. |
| SpawnLane.LiveWasAnswered | internal/flow/flow.go:396-460 | Over every run a live spawn was marked live by a call for it that passed the gate, was granted its signature's lease and was answered with a worktree, in that order. |
| SpawnLane.CallEndsExactly | internal/flow/flow.go:396-445 | Which steps end a call; one the router failed changes no lease and no spawn. |
| SpawnLane.OneFixPerSignature | internal/flow/hotfix.go:146-177 | Over runs whose renewals meet no rival and whose releases are by the only claimant, two live spawns on one signature with running leases belong to one incident. |
| SpawnLane.StepIsSafeExactly | internal/flow/hotfix.go:167-177 | A step keeps every running claim backed by its lease if and only if a renewal meets no rival and a release (timeout, rollback, settling decision) is by the only claimant; all other steps do. |
| SpawnLane.BackedExactly | internal/flow/hotfix.go:146-177 | All running claims are backed throughout a run if and only if each of its steps is safe. |
| SpawnLane.LateReleaseBreaksIt | internal/flow/spawn.go:109-156 | A run with every answer in time in which a discard after its own lease ran out lets two incidents hold running fixes for one signature. |
| SpawnLane.AnswerInTimeIsSafe | internal/flow/flow.go:433-437 | A router that answers before the granted lease runs out meets no rival. |
| SpawnLane.AnswerIsSafeExactly | internal/flow/flow.go:433-437 | The renewal keeps every running claim backed if and only if no other incident has taken the signature meanwhile. |
| SpawnLane.PromotedHadPassed | internal/flow/spawn.go:75-160 | Over every run a promoted spawn was promoted by an allowed decision made while its evidence read passed. |
| SpawnLane.DecidedExactly | internal/flow/spawn.go:75-160 | A decision promotes if and only if asked, allowed and on passed evidence, discards if and only if asked, and lets the lease go exactly then. |
| RateLimit.AcceptedIsBounded | internal/dashboard/ratelimit.go:25-50 | For any bucket and uses in any order of times, the takes accepted, the first included, number at most the burst plus the rate times the time since the first use (or since the bucket's clock, when that is ahead of it). |
| RateLimit.FreshBucketGivesItsBurst | internal/dashboard/ratelimit.go:25-50 | At one instant a fresh bucket accepts as many takes as its burst has whole tokens, and no more. |
| RateLimit.PacedIsNeverRefused | internal/dashboard/ratelimit.go:25-50 | A caller that leaves a token's time between uses is never refused. |
| RateLimit.NoRateNoLimit | internal/dashboard/ratelimit.go:25-30 | A rate of zero or less limits nothing. |
| RateLimit.RetryAfterIsExact | internal/dashboard/ratelimit.go:41-49 | Waiting out Retry-After succeeds if and only if the burst admits a token, and no smaller whole wait does. |
| RateLimit.ReapIsInvisibleExactly | internal/dashboard/ratelimit.go:111-122 | Replacing an idle bucket changes no answer if and only if the idle time had filled it. |
| RateLimit.Bucket.Take | internal/dashboard/ratelimit.go:25-50 | The answer, the wait and the level of one take. |
| Limiter.CallersAreIsolated | internal/dashboard/ratelimit.go:76-109 | A read or write takes nothing from another token, another address or the other kind. |
| Limiter.ReadRetryExactly | internal/dashboard/ratelimit.go:76-89 | A refused read that waits out its Retry-After succeeds if and only if the burst admits a token and each bucket that accepted the refused read holds a whole one again. |
| Limiter.ReadRetrySucceeds | internal/dashboard/ratelimit.go:76-89 | A refused read that waits succeeds when the rate is at least one a second. |
| Limiter.SlowReadRetryFails | internal/dashboard/ratelimit.go:76-89 | A run from an empty limiter with a slower rate in which it does not, the refused read having spent the other bucket. |
| Limiter.ReadsAreBounded | internal/dashboard/ratelimit.go:76-89 | Among any requests the accepted reads of one token, and of one address, number at most the read burst plus the read rate times the time, while no sweep is due. |
| Limiter.WritesAreOneBucket | internal/dashboard/ratelimit.go:91-109 | Among any requests a token's writes are the takes of one bucket at the write rate and burst, while no sweep is due. |
| Limiter.WritesAreBounded | internal/dashboard/ratelimit.go:91-109 | So its accepted writes number at most the write burst plus the write rate times the time. |
| Limiter.WriteRetryExactly | internal/dashboard/ratelimit.go:91-96 | A refused write that waits out its Retry-After succeeds if and only if the write burst admits a token. |
| Limiter.SweepIsExact | internal/dashboard/ratelimit.go:111-122 | A sweep drops exactly the idle buckets. |
| Limiter.RateLimiter.ReadTake | internal/dashboard/ratelimit.go:78-88 | Both buckets are asked and spent, and the longer wait is told. |
| Limiter.RateLimiter.WriteTake | internal/dashboard/ratelimit.go:91-109 | The write bucket's take, with the sweep every ten thousandth bucket. |
| Throttle.PruningIsInvisible | internal/dashboard/ratelimit.go:159-227 | On a clock that does not run back the throttle answers exactly like one keeping every failure. |
| Throttle.BackwardClockIsVisible | internal/dashboard/ratelimit.go:174-199 | On one that does, it can differ. |
| Throttle.BlockedForAWindow | internal/dashboard/ratelimit.go:192-196 | A failure blocks when it finds more than the limit in its window, for exactly one window. |
| Throttle.AuthThrottle.RecordFailure | internal/dashboard/ratelimit.go:174-199 | The in-place filter, the block and the prune of one failure. |
| Throttle.AuthThrottle.Prune | internal/dashboard/ratelimit.go:203-217 | Exactly the identities with no failure in the window are dropped. |

## Left out

- MAXLEN trimming of the stream and a group created at `$`: the model's stream keeps every entry, so the no-loss theorems say nothing about entries Redis trims.
- Lag gating (`Overloaded`), offsets, counters of the status surface and `WaitDrained`: projections.
- The min-idle and cursor of XAUTOCLAIM: a reclaim may take any pending ids, in any order.
- `gap` records of dead letters: they are ledger appends by another writer, which the model allows at any moment.
- Truncation of oversized payloads by the ledger package, which may drop the content digest; the ledger package is not part of this model.
- IngestDuplicates.DuplicatesAreBounded: for entries of more than one record a failed batch may repeat a prefix of them, because each append is counted alone; the bound is stated for entries of one record.
- Entry encoding, the envelope's size limits and the key derived for an envelope without one (`DecodeEntry`, `idemKey`): an entry is garbled or carries its key and records.
- Two `Replay` calls at once over one listing; the drain is proved against concurrent writes and keys held elsewhere.
- Text of times: an entry's times are instants, and one edited to an unreadable text is not modelled.
- The in-memory dashboard queue, `dispatchHTTP`, `dispatchCLI`, retries at 1 s, 3 s and 9 s and the validate command: a dispatch succeeds or fails.
- Sidecar checks and record scans of `ScanGenerations`, the archive queue file, torn marker lines and read errors of the marker file.
- Board line style, `stampOf`, dry runs and comments' free text; a board is the parsed lines of its two files.
- Collisions: sha256 and its first sixteen hex digits are taken to tell any two inputs met apart where a theorem needs it (`Identity.NoCollision`, `Archive.Sound`).
- Limiter.ReadsAreBounded: over requests that start no sweep, as are WritesAreOneBucket and WritesAreBounded; a swept bucket starts again with its burst (ReapIsInvisibleExactly).
- Rate-limit configuration and float rounding: the buckets compute over the reals.
- Limiter.RateLimiter.ReadTake: the two maps hold levels instead of bucket objects, so a bucket swept while another call is about to take from it is seen only by the call that made it.
- A decision on a spawn and the release that follows it are one step of the hot-fix lane; the records written between them are not modelled.
- IngestSafety.AckedIsDurable: a re-delivery is excused by one record that carries the key; AckedDoorEntry and AckedWithoutClaim say what holds of the door's entries and without such a record.
- Hot-fix gates other than the lease and the cap (severity, repository, registration, disk), briefs and the timeline.
- Consumer.Consumer.Run: its backoff and sleeps are not modelled; the context ends the loop after a given number of turns.
- Real clocks, goroutine scheduling and data races: time is a parameter and a step is one lock region or command.
