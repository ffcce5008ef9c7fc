# Verified model of the artifact repository and the privacy filter

This project models three parts of AideMemo in Dafny and proves what they guarantee.

**The artifact repository protocol** (`crates/aidememo-artifacts/src/lib.rs`). Six tables and a
directory of immutable bodies form a small storage protocol: callers reserve a path, upload a
body, publish it or abort; collectors claim garbage, delete the bodies and acknowledge or fail
the leases. `catalog.dfy` gives every transaction as a function from tables to tables.
`store.dfy` is the store as an object whose methods update the tables in place, each proved to
have exactly the effect of its catalog function, rolled-back transactions included.
`protocol.dfy` lets any number of callers and collectors interleave: each transaction is one
step, and what a caller does outside a transaction (checking a file or a receipt before the
commit, writing a body after its reservation was checked, deleting a body after it was leased) is
a step of its own, with whatever times the callers pass. A crash is a caller that takes no further step. The
history it records is read by no operation. `calls.dfy` proves that every history of calls that
change these tables, one after the other, is such a run; that includes the calls of a collector
who claims garbage, removes the files himself and acknowledges or fails each lease. The other files of this part prove invariants of every step and theorems
about every run.

**The time and key rules of the S3 adapter** (`crates/aidememo-artifacts/src/s3.rs`): object keys
in `keys.dfy`, grant windows in `grants.dfy`. The write-once upload is the `If-None-Match: *` of
section 13.1.2 of RFC 9110, the exact-generation download the `If-Match` of its section 13.1.1;
both enter the protocol as a write that leaves existing bodies alone and a read of exactly one
generation.

**The constrained decoder and redactor** (`scripts/privacy_filter_mlx_sidecar.py`): the label
table in `labels.dfy`, the Viterbi search in `decoder.dfy`, the span scan and its round trip in
`spans.dfy`, character spans and redaction in `redaction.dfy`, all of it together in
`detection.dfy`.

| file | contents |
|---|---|
| `wrappers.dfy`, `keys.dfy` | shared datatypes; object keys, how they resolve and parse back |
| `catalog.dfy`, `store.dfy` | the tables, every transaction on them, and the store object |
| `conditions.dfy`, `cleanup.dfy` | when each call succeeds and what it then leaves, read off the tables before it |
| `protocol.dfy` | events, steps and runs |
| `generations.dfy`, `safety.dfy`, `publications.dfy`, `leases.dfy` | invariants of every step |
| `guarantees.dfy`, `calls.dfy` | the invariants along runs; the calls of the store as runs |
| `bodies.dfy`, `updates.dfy`, `collection.dfy`, `settlement.dfy` | theorems about every run |
| `progress.dfy`, `exclusion.dfy`, `retries.dfy` | which publications succeed, how long a path is reserved, when a failed deletion is tried again |
| `replays.dfy` | when a repeated publication or request is answered as before |
| `orphans.dfy` | which stored bodies belong to a row, in every run |
| `draining.dfy`, `unsettled.dfy`, `convergence.dfy` | repeated drains: what they settle, what they never do, when they converge |
| `late_writes.dfy` | the run that loses a body, and how long the grace prevents it |
| `histories.dfy` | which bodies histories of calls lose, and when they can be collected |
| `pruning.dfy` | the store that prunes refines the store that does not |
| `grants.dfy` | expiry of signed transfers |
| `labels.dfy`, `decoder.dfy`, `spans.dfy`, `redaction.dfy` | the privacy filter |
| `detection.dfy` | detection end to end, from scores to spans |

`dafny verify dfyconfig.toml` checks the whole project.

## What the code does not promise

- Draining does not always converge. Tenant and project identifiers may be `.` or `..`
  (`crates/aidememo-domain/src/identity.rs:9-32`), but no path can hold such a scope, so
  `object_path` refuses its keys and `drain_garbage` returns an error at the row
  (`lib.rs:982-983`) although its documentation says that individual failures are recorded for
  retry. `Convergence.DotTenantIsNeverCollected` gives the input and
  `Convergence.ConvergesIff` the exact condition. Such a row also costs others:
  `Unsettled.DotRowStopsDrain` says which leases a drain that meets it still settles, and
  `Unsettled.DotRowNeverMoves` that it keeps its place in the queue.
- A stored body can be lost. `upload` checks its reservation (`lib.rs:394`) and writes the file
  later (`lib.rs:419`), and a signed upload lands whenever it does; if the generation was
  collected in between, the file belongs to no row and no drain ever removes it.
  `LateWrites.LateWriteIsLost` gives the run, and `LateWrites.GraceCoversLateWrites` says until
  when such a write is safe. `Orphans.OrphansAfterStep`, `Orphans.OrphansOfRun` and
  `Orphans.OrphanFreeRuns` give the exact condition, step by step and for runs: a write of a
  generation without a row, or an acknowledgement of one whose body is in place. A reachable body
  is never changed this way: `Bodies.ReachableBodiesSurvive`.
- `acknowledge_garbage` (`lib.rs:942-944`) does not look at the body; its documentation leaves
  the deletion to the caller. A holder who acknowledges while the file is in place loses it:
  `Histories.AcknowledgedBodyIsLost` gives the history, `Histories.AcknowledgementLosesIff` and
  `Histories.BodyIsLostIff` the exact condition, which the caller can check before the call.

## Model

| member | source | states |
|---|---|---|
| Keys.LocalKeyResolves | crates/aidememo-artifacts/src/lib.rs:1042-1055 | The local key of a minted generation resolves to exactly its own file, and is refused exactly when its tenant or project is `.` or `..` |
| Keys.ParsePrefixedKey | crates/aidememo-artifacts/src/lib.rs:1999-2006 | Tenant, project and generation can be read back from every key, under any adapter prefix |
| Keys.KeysAreInjective | crates/aidememo-artifacts/src/s3.rs:512-531 | Keys of distinct generations differ, whatever prefixes they are built with |
| Keys.GenerationKeyAccepts | crates/aidememo-artifacts/src/s3.rs:619-649 | The S3 adapter issues a key if and only if the generation name is safe, the scope is free of `.` and `..` and the key fits, lengths counted in UTF-8 bytes, and the key stays below the configured prefix |
| LocalStore.SelectFirst | crates/aidememo-artifacts/src/lib.rs:1613-1636 | A bounded query returns distinct due rows, as many as there are up to the limit, earliest first, and none it leaves out is earlier than one it returns |
| LocalStore.LocalArtifactStore.constructor | crates/aidememo-artifacts/src/lib.rs:172-203 | A new store is empty |
| LocalStore.LocalArtifactStore.QueueCandidate | crates/aidememo-artifacts/src/lib.rs:1574-1601 | Queueing inserts a fresh row or raises both times of the row that is there |
| LocalStore.LocalArtifactStore.Reserve | crates/aidememo-artifacts/src/lib.rs:271-375 | Reserving has exactly the effect of the catalog operation: replay, every refusal, retirement of an expired reservation, the new row and its receipt |
| LocalStore.LocalArtifactStore.Upload | crates/aidememo-artifacts/src/lib.rs:387-442 | Uploading writes the body once for a live reservation and accepts only the same bytes afterwards |
| LocalStore.LocalArtifactStore.LiveReservation | crates/aidememo-artifacts/src/lib.rs:1922-1973 | Which error a reservation that is not the live one of its path gets |
| LocalStore.LocalArtifactStore.Publish | crates/aidememo-artifacts/src/lib.rs:484-521 | Publishing checks the observation, answers from a kept receipt, re-verifies the file, and commits |
| LocalStore.LocalArtifactStore.PublishTrusted | crates/aidememo-artifacts/src/lib.rs:533-555 | Trusted publication answers from a kept receipt or commits without reading a file |
| LocalStore.LocalArtifactStore.CommitPublication | crates/aidememo-artifacts/src/lib.rs:557-648 | The publication transaction replaces the row, queues the old generation, writes the receipt and consumes the reservation, or leaves every table alone |
| LocalStore.LocalArtifactStore.Abort | crates/aidememo-artifacts/src/lib.rs:656-677 | Aborting retires exactly the reservation it names; a miss rolls the queue back |
| LocalStore.LocalArtifactStore.GetById | crates/aidememo-artifacts/src/lib.rs:817-839 | The answer carries the artifact id asked for, and there is none only when no row of the scope has it |
| LocalStore.LocalArtifactStore.RetainForRead | crates/aidememo-artifacts/src/lib.rs:850-902 | Retention is granted for the current reference only, within its window, and keeps the later of two times |
| LocalStore.LocalArtifactStore.Read | crates/aidememo-artifacts/src/lib.rs:1007-1032 | Reading returns the stored bytes after checking key, size and digest |
| LocalStore.LocalArtifactStore.ReapExpiredReservations | crates/aidememo-artifacts/src/lib.rs:1603-1661 | Reaping retires the earliest expired reservations, each into the queue with its grace |
| LocalStore.LocalArtifactStore.PruneExpiredReadRetentions | crates/aidememo-artifacts/src/lib.rs:1707-1728 | Pruning drops the earliest expired retentions and nothing else |
| LocalStore.LocalArtifactStore.PruneExpiredReceipts | crates/aidememo-artifacts/src/lib.rs:1663-1705 | Reservation receipts are pruned first, publication receipts with what is left of the limit |
| LocalStore.LocalArtifactStore.ClaimCandidates | crates/aidememo-artifacts/src/lib.rs:1740-1822 | The leased rows are the earliest that no path, reservation, retention or live lease protects |
| LocalStore.LocalArtifactStore.ClaimGarbage | crates/aidememo-artifacts/src/lib.rs:913-935 | A claim reaps, prunes and leases in one transaction; an attempt counter beyond u32 rolls all of it back |
| LocalStore.LocalArtifactStore.AcknowledgeGarbage | crates/aidememo-artifacts/src/lib.rs:1824-1835 | Only the holder of the current lease removes the row |
| LocalStore.LocalArtifactStore.FailGarbage | crates/aidememo-artifacts/src/lib.rs:1837-1872 | Only the holder of the current lease releases it, with one more attempt and a later retry |
| LocalStore.LocalArtifactStore.DrainGarbage | crates/aidememo-artifacts/src/lib.rs:975-1002 | A drain claims a batch, deletes body by body and settles each lease, and stops with an error at a key without a file |
| Conditions.ReserveGrantsIff | crates/aidememo-artifacts/src/lib.rs:271-330 | A request changes a table if and only if it is well formed, its identifier has no receipt, it names the current token, nobody's unexpired reservation is on the path, and there is room for one more revision |
| Conditions.ReserveGrants | crates/aidememo-artifacts/src/lib.rs:331-374 | A granted request answers with the next revision of the path under its artifact id until its lifetime ends, reserves that, and leaves the other reservations, paths and bodies alone |
| Conditions.ReserveQueues | crates/aidememo-artifacts/src/lib.rs:320-330 | The expired reservation it replaces, if there is one, is the only generation queued, collectable a minute after its expiry |
| Conditions.ReserveRefuses | crates/aidememo-artifacts/src/lib.rs:275-318 | Any other request changes nothing: a kept receipt answers the same request again, a malformed request or one without room for a revision is invalid, and one that comes too early or names another token is a conflict |
| Conditions.EnqueueRaises | crates/aidememo-artifacts/src/lib.rs:1574-1601 | A generation queued again keeps its lease and attempts and the later of both times, and no other row changes |
| Conditions.IsLiveIff | crates/aidememo-artifacts/src/lib.rs:1922-1973 | A reservation is live if and only if the table has it with every field and it has not expired; any other gets the error of its own case |
| Conditions.UploadSucceedsIff | crates/aidememo-artifacts/src/lib.rs:387-442 | An upload succeeds if and only if its reservation is live, the body is no larger than 64 MiB, the key has a file and no other bytes are there; a failure names its cause |
| Conditions.UploadStores | crates/aidememo-artifacts/src/lib.rs:403-441 | A successful upload describes exactly its bytes and writes them where there were none; any other changes nothing |
| Conditions.ReadSucceedsIff | crates/aidememo-artifacts/src/lib.rs:1007-1032 | A read returns bytes if and only if they are in the file of the reference's own generation with its size and digest |
| Conditions.ReadFails | crates/aidememo-artifacts/src/lib.rs:1007-1032 | It fails for a missing file exactly when everything else about the reference is in order |
| Conditions.RetainSucceedsIff | crates/aidememo-artifacts/src/lib.rs:850-902 | A retention is granted if and only if the reference is the current one and the window is within eight days; it then lasts until the later of both times |
| Conditions.RetainNeedsRow | crates/aidememo-artifacts/src/lib.rs:866-876 | Without a published row of that artifact there is no retention |
| Safety.EventKeeps | crates/aidememo-artifacts/src/lib.rs:484-648 | Every step keeps the invariant, whatever the interleaving and the clocks: generations are in one phase and move forward, and the body of a reserved or published generation is where it was first written |
| Publications.EventKeepsPub | crates/aidememo-artifacts/src/lib.rs:271-648 | Every step keeps publications chained, tokens unique, artifact ids with their path and receipts truthful |
| LeaseRules.EarlierLeaseIsOver | crates/aidememo-artifacts/src/lib.rs:1755-1773 | When the clock does not run back, every earlier lease on a row that a claim leases was released or is over |
| Bodies.GenerationsMoveForward | crates/aidememo-artifacts/src/lib.rs:1559-1601 | Every minted generation is in exactly one of reserved, published, queued, acknowledged, moves only forward through them, and keeps its path |
| Bodies.ReachableBodiesSurvive | crates/aidememo-artifacts/src/lib.rs:1740-1822 | A stored body keeps its bytes for as long as its generation is reserved or published, over any run, with late deletes, crashes and any clocks |
| Bodies.CommittedBodyIsInPlace | crates/aidememo-artifacts/src/lib.rs:505-520 | At the commit of a publication the body that was checked earlier is still in place with that size and digest |
| Bodies.ReadBack | crates/aidememo-artifacts/src/lib.rs:1007-1032 | `read` of the current reference of every path last published through `publish` succeeds and returns the bytes first stored for its generation |
| Bodies.UploadIsReadBack | crates/aidememo-artifacts/src/lib.rs:387-442 | The bytes an upload wrote are the bytes read once their generation is current, whatever is uploaded in between |
| Progress.UploadedIsPublished | crates/aidememo-artifacts/src/lib.rs:484-648 | In every run, whatever others do in between: while the table has the reservation, publishing what its upload observed succeeds exactly until it expires, with its artifact id, revision and token; the path then has that row, a generation published before is queued, the reservation is gone and a receipt is kept for a day |
| Progress.ObservedIsPublished | crates/aidememo-artifacts/src/lib.rs:533-648 | The same for what the provider observed at the reserved key |
| Progress.CommitSucceedsIff | crates/aidememo-artifacts/src/lib.rs:557-648 | A held reservation with a sound observation commits if and only if it has not expired, first or later revision alike, and what every table then holds |
| Progress.PublishSucceedsIff | crates/aidememo-artifacts/src/lib.rs:484-648 | In every run a publication succeeds if and only if its kept receipt says the same, or there is no receipt, the file agrees, and the reservation is live or the path still has this publication; any other changes nothing |
| Progress.TrustedSucceedsIff | crates/aidememo-artifacts/src/lib.rs:533-648 | The same for a trusted publication, with no file to look at |
| Progress.AbortSucceedsIff | crates/aidememo-artifacts/src/lib.rs:656-677 | In every run an abort succeeds if and only if the table has exactly that reservation, which it then takes out and queues with its grace |
| Exclusion.ReservationsEndOnlyBy | crates/aidememo-artifacts/src/lib.rs:311-330 | A step takes a reservation out of its table only if its holder published or aborted it, or a collector or a later request found it expired |
| Exclusion.ReservationsExcludeEachOther | crates/aidememo-artifacts/src/lib.rs:311-316 | On a clock that never goes back, when a second request for a path is granted, every reservation granted for it before was published or aborted, or has expired by then |
| Updates.UpdatesAreChained | crates/aidememo-artifacts/src/lib.rs:569-643 | Publications of a path have revisions 1, 2, 3, …, one artifact id, and each replaces the one before, which is the one its reservation named |
| Updates.RevisionsOnlyGrow | crates/aidememo-artifacts/src/lib.rs:587-622 | A published path stays published, keeps its artifact id, and its revision never goes back |
| Updates.PublicationReplacesWhatWasNamed | crates/aidememo-artifacts/src/lib.rs:292-297 | The row that a publication replaces carries the mutation token its reservation expected, however much happened in between |
| Updates.LookupByIdIsUnambiguous | crates/aidememo-artifacts/src/lib.rs:817-839 | In every reachable state the lookup by artifact id has one possible answer |
| Updates.PublishedAtMostOnce | crates/aidememo-artifacts/src/lib.rs:642-643 | No two publications of a run carry the same mutation token |
| Updates.RepublishingChangesNothing | crates/aidememo-artifacts/src/lib.rs:505-585 | Publishing with a token already published changes no table and succeeds only with the original reference |
| Replays.PublicationIsReplayed | crates/aidememo-artifacts/src/lib.rs:484-521 | An exact retry of `publish`, however much happened in between, changes no table, and answers with the original reference if and only if its receipt is kept or it is still the current publication |
| Replays.TrustedPublicationIsReplayed | crates/aidememo-artifacts/src/lib.rs:533-555 | The same for an exact retry of `publish_trusted_observation`, which otherwise finds nothing |
| Replays.ReceiptIsKeptForADay | crates/aidememo-artifacts/src/lib.rs:1663-1705 | The receipt of a publication is kept for a day, as long as no collector runs later than that |
| Replays.RequestIsReplayed | crates/aidememo-artifacts/src/lib.rs:1391-1495 | A request id replays to the identical reservation until a day after its expiry, any other use of it conflicts, and neither changes a table |
| Updates.ReservationsNeverComeBack | crates/aidememo-artifacts/src/lib.rs:1922-1997 | Once a reservation left its table, its token is refused by upload, publish and abort forever |
| Collection.LeasesExcludeEachOther | crates/aidememo-artifacts/src/lib.rs:1755-1822 | With a clock that never runs back, of two leases on one object the first was released or over before the second began |
| Collection.SupersededLeasesSettleNothing | crates/aidememo-artifacts/src/lib.rs:1824-1872 | Acknowledging or failing a superseded lease changes no row |
| Collection.RetriesBackOff | crates/aidememo-artifacts/src/lib.rs:1843-1866 | A failed lease puts the next attempt off by no less than one with fewer attempts, by a second at least and by 1,024 seconds at most, which ten attempts reach |
| Retries.FailDelays | crates/aidememo-artifacts/src/lib.rs:1837-1872 | A failure by the holder gives the lease back, counts one attempt and puts the next one off by one second doubled for every attempt so far, up to ten; by anybody else it changes nothing |
| Retries.HeldLeasesKnowAttempts | crates/aidememo-artifacts/src/lib.rs:1755-1822 | In every run a lease that is still held has the attempts of its row |
| Retries.FailedLeasesBackOff | crates/aidememo-artifacts/src/lib.rs:1837-1872 | On a clock that never goes back, after the holder fails a lease with n attempts, every later lease of the object starts after the delay for n or later, and the first of them has n + 1 attempts |
| Cleanup.ClaimSucceedsIff | crates/aidememo-artifacts/src/lib.rs:913-935 | A claim goes through if and only if its time is positive, it asks for one lease to a hundred and no row that it would lease has more attempts than u32 holds; any other changes nothing |
| Cleanup.ClaimCleansUp | crates/aidememo-artifacts/src/lib.rs:1603-1728 | A claim takes out the earliest expired reservations, retentions and receipts, a hundred of each and both receipt tables together, none that is not expired, leaves none behind where there was room, and reports the numbers |
| Cleanup.ClaimLeasesFirst | crates/aidememo-artifacts/src/lib.rs:1740-1822 | It leases due rows that no path, reservation, lasting retention or lease needs, for thirty seconds each, and leaves such a row out only if it leased as many as asked for, none of them later |
| Cleanup.DrainReports | crates/aidememo-artifacts/src/lib.rs:975-1002 | A drain that succeeds reports what its claim did, the leases with a file it could not remove as failed and all others as deleted |
| Collection.RetainedReadsSurvive | crates/aidememo-artifacts/src/lib.rs:850-902 | After a successful retention no collector leases the generation before its end, and the body stays unchanged |
| Collection.GrantedDownloadsWork | crates/aidememo-artifacts/src/s3.rs:301-345 | A download grant signed against a retention names a body that exists unchanged for the whole lifetime asked for, counted from the signing |
| Orphans.BodiesHaveRowsUntilAcknowledged | crates/aidememo-artifacts/src/lib.rs:1824-1835 | In every run, with writes that land late and any adapter prefix, a stored body has a reservation, current path or queue row if and only if its generation is not acknowledged |
| Orphans.OrphansAfterStep | crates/aidememo-artifacts/src/lib.rs:387-442 | After a step a stored body is an orphan if and only if it was one, or the step wrote it for a generation without a row, or the holder of its lease acknowledged it |
| Orphans.OrphansOfRun | crates/aidememo-artifacts/src/lib.rs:980-1000 | A body of a run is an orphan if and only if it is stored and some earlier step left it so |
| Orphans.OrphanFreeRuns | crates/aidememo-artifacts/src/lib.rs:980-1000 | A run never has an orphan if and only if none of its steps leaves one |
| Orphans.DeletedBodyWasRewritten | crates/aidememo-artifacts/src/lib.rs:980-1000 | A body that a worker deleted under its lease is stored again only through a write that lands in between |
| Orphans.AcknowledgedOrphanWasRewritten | crates/aidememo-artifacts/src/lib.rs:980-1000 | When bodies are written under one adapter prefix, an acknowledgement after the delete leaves an orphan only if a write landed in between |
| Orphans.NoBodyIsLost | crates/aidememo-artifacts/src/lib.rs:980-1000 | With no late write and no acknowledgement by a holder while the file is in place, every stored body is under the key of a generation that a reservation, a current path or a queue row holds, at every moment |
| Orphans.DeletingFirstLosesNothing | crates/aidememo-artifacts/src/lib.rs:980-1000 | A worker who deletes the file before he acknowledges never acknowledges it in place, unless a write lands late |
| LateWrites.LateWriteIsLost | crates/aidememo-artifacts/src/lib.rs:394-419 | For every first request, body and time past the grace, on a clock that never goes back: check, drain, then write ends with a stored body, no row at all, and tables that no drains can collect |
| LateWrites.GraceCoversLateWrites | crates/aidememo-artifacts/src/lib.rs:661-668 | On a clock that never goes back, until a minute after its reservation expired an unpublished generation has its row, and a write that lands by then leaves no orphan |
| Calls.DrainIsProtocol | crates/aidememo-artifacts/src/lib.rs:975-1002 | A drain ends where a claim followed by a delete and an acknowledgement, or a failure, of each lease ends, up to the first key without a file |
| Calls.PublishIsProtocol | crates/aidememo-artifacts/src/lib.rs:484-521 | A publication ends where the check of the body followed by the commit ends, or changes nothing |
| Calls.TrustedIsProtocol | crates/aidememo-artifacts/src/lib.rs:533-555 | A trusted publication ends where the observation, the check of the receipt and the commit end, or changes nothing |
| Calls.UploadIsProtocol | crates/aidememo-artifacts/src/lib.rs:387-442 | A successful upload ends where the check of its reservation followed by its write ends |
| Calls.CallIsProtocol | crates/aidememo-artifacts/src/lib.rs:271-1002 | Every call that changes the tables, acknowledging and failing a lease and removing its file included, leaves them as its protocol steps do, and the leases it hands out are recorded |
| Calls.CallsAreRuns | crates/aidememo-artifacts/src/lib.rs:271-1002 | Every history of such calls is a run without late writes that goes through the tables of the history in order, each call by its own steps |
| Settlement.AbandonedUploadsAreSettled | crates/aidememo-artifacts/src/lib.rs:661-668 | A generation that was never published is leased no sooner than a minute after its reservation and every upload grant for it ran out |
| Draining.DrainMakesProgress | crates/aidememo-artifacts/src/lib.rs:975-1002 | When everything is due, a drain succeeds and takes its whole batch off the remaining work |
| Draining.DrainingConverges | crates/aidememo-artifacts/src/lib.rs:975-1002 | After as many drains as there is work, nothing is left but the published generations with their bodies |
| Unsettled.DrainKeepsUnsettled | crates/aidememo-artifacts/src/lib.rs:982-983 | A row that cannot be settled stays through any drain at any time |
| Unsettled.DotRowStopsDrain | crates/aidememo-artifacts/src/lib.rs:980-1000 | A drain that leases a row of a `.` scope fails; it deletes exactly the rows and bodies leased before it, and that row and the later ones stay leased for thirty seconds with their times and attempts unchanged |
| Unsettled.DotRowNeverMoves | crates/aidememo-artifacts/src/lib.rs:982-983 | No drain at any time changes anything but the lease of such a row, so it keeps its place in the queue |
| Unsettled.DrainKeepsUnlisted | crates/aidememo-artifacts/src/lib.rs:913-1002 | A body at a key that no row expects stays through any drain at any time |
| Convergence.ConvergesIff | crates/aidememo-artifacts/src/lib.rs:1042-1055 | Drains past every expiry collect everything if and only if no row has a scope with `.` or `..`, no attempt counter ran over, and every stored body is at a key that a row expects |
| Convergence.DotTenantIsNeverCollected | crates/aidememo-artifacts/src/lib.rs:1042-1055 | A reservation of tenant `.` is granted and can never be collected |
| Convergence.FirstReservationConverges | crates/aidememo-artifacts/src/lib.rs:271-375 | Any first reservation, once it has expired with its grace, is collected if and only if its scope is free of `.` and `..` |
| Convergence.RunsConverge | crates/aidememo-artifacts/src/lib.rs:913-1002 | In every run, late writes and adapter prefixes included, the tables can be collected if and only if every row can be settled, no acknowledged generation has a stored body, and no body is under another key than its row expects |
| Convergence.RunsStayCollected | crates/aidememo-artifacts/src/lib.rs:913-1002 | Then every sequence of drains that is long enough ends with exactly the published bodies, unchanged |
| Convergence.UnprefixedRunsConverge | crates/aidememo-artifacts/src/lib.rs:913-1002 | Without adapter prefixes: if and only if every row can be settled and no acknowledged generation has a stored body |
| Histories.AcknowledgementLosesIff | crates/aidememo-artifacts/src/lib.rs:937-944 | In any history, an acknowledgement takes the row from a body that stays if and only if the holder of the lease makes it while the file is in place |
| Histories.BodyIsLostIff | crates/aidememo-artifacts/src/lib.rs:937-966 | After any history of calls every stored body is under the key of its generation, and no row holds that generation if and only if some holder acknowledged it while the file was in place |
| Histories.AcknowledgedBodyIsLost | crates/aidememo-artifacts/src/lib.rs:942-944 | For every first request, body and time past the grace: reserve, upload, claim and acknowledge without removing the file ends with the file, no row at all, and tables that no drains can collect |
| Histories.CallsConverge | crates/aidememo-artifacts/src/lib.rs:913-1002 | After any history of calls, drains past every expiry can collect everything if and only if every row can be settled and no body still stored was lost |
| Pruning.SameChoices | crates/aidememo-artifacts/src/lib.rs:1767-1773 | A claim is open to the store that prunes retentions exactly when it is open to the one that keeps them |
| Pruning.KeptRunExists | crates/aidememo-artifacts/src/lib.rs:881-900 | Every run has a counterpart that prunes no retention |
| Pruning.PruningIsInvisible | crates/aidememo-artifacts/src/lib.rs:1707-1728 | At every point of every run both stores have the same choices and hand out the same leases |
| Grants.PutGrantIff | crates/aidememo-artifacts/src/s3.rs:588-605 | An upload grant is signed if and only if the reservation is well formed and has a key, the lifetime is at most seven days and ends no later than the reservation; it ends exactly its lifetime after the signing |
| Grants.GetGrantIff | crates/aidememo-artifacts/src/s3.rs:301-345 | A download grant is signed if and only if the reference is to an object under the key of its generation, the lifetime is at most seven days and ends no later than the retention; it ends exactly its lifetime after the signing |
| Grants.PutGrantsAreBounded | crates/aidememo-artifacts/src/s3.rs:588-605 | An upload grant ends exactly its lifetime after the signing, in the future, within seven days, not after its reservation, and tenant, project and generation can be read back from its key |
| Grants.GetGrantsAreBounded | crates/aidememo-artifacts/src/s3.rs:301-314 | A download grant ends exactly its lifetime after the signing, in the future, within seven days, not after the retention, and names the published key |
| Labels.BuildLabelInfo | scripts/privacy_filter_mlx_sidecar.py:69-94 | The table describes every label as the last name given for its id says, with distinct span names, and is refused exactly when a name has no dash |
| Labels.BackgroundIsPlain | scripts/privacy_filter_mlx_sidecar.py:75-81 | With distinct ids and a name `O`, the background label is one named so and has no tag |
| Decoder.FirstMax | scripts/privacy_filter_mlx_sidecar.py:156-157 | The index of the greatest entry, the first among equals |
| Decoder.BestPrevious | scripts/privacy_filter_mlx_sidecar.py:143-151 | The best score among the allowed previous labels, or the sentinel when none is reached |
| Decoder.NextLayer | scripts/privacy_filter_mlx_sidecar.py:139-154 | Scores and back pointers of one more row are best steps for every label |
| Decoder.FollowBack | scripts/privacy_filter_mlx_sidecar.py:158-164 | Following the back pointers gives the traced path, first label first |
| Decoder.Viterbi | scripts/privacy_filter_mlx_sidecar.py:124-164 | On log-probabilities the result obeys the start, transition and end rules and has the greatest total among all paths that do, and is the row by row maximum only when there is no such path |
| Decoder.SearchNeverFallsBack | scripts/privacy_filter_mlx_sidecar.py:127-134 | For a label table with an `O` in range some path is always allowed |
| Labels.TransitionIff | scripts/privacy_filter_mlx_sidecar.py:97-111 | After a token inside a run only the same run goes on, and after any other token comes a background token or the first one of a run, whatever tags there are |
| Spans.ScanSegments | scripts/privacy_filter_mlx_sidecar.py:167-222 | For every sequence of known labels the spans are nonempty, sorted, disjoint, of one kind each, cover exactly the entity tokens, and are the maximal runs |
| Spans.OtherTagsAreSkipped | scripts/privacy_filter_mlx_sidecar.py:191-219 | A token of an entity with any other tag neither begins a span nor ends one |
| Spans.SegmentationIsUnique | scripts/privacy_filter_mlx_sidecar.py:167-222 | Only one list of spans has these properties |
| Spans.DecodeThenEncode | scripts/privacy_filter_mlx_sidecar.py:97-111 | On every path that the start, transition and end rules allow, spelling the spans as S or B I* E gives the labels back |
| Spans.EncodeThenDecode | scripts/privacy_filter_mlx_sidecar.py:173-222 | Labels that spell out sorted disjoint spans decode to those spans |
| Spans.PathsMatchSpanLists | scripts/privacy_filter_mlx_sidecar.py:97-222 | Every labelled disjoint span list is what exactly one allowed path decodes to |
| Spans.ConfigurationIsBioes | scripts/privacy_filter_mlx_sidecar.py:69-94 | A configuration with distinct names, one of them `O` and none `O` after the dash, gives the label set the round trip needs |
| Redaction.LabelsToSpans | scripts/privacy_filter_mlx_sidecar.py:167-223 | The scanning loop computes the specified spans for every label sequence, and its branch for a gap between tokens is never taken |
| Redaction.TokenSpansToCharSpans | scripts/privacy_filter_mlx_sidecar.py:226-254 | The trimming loops compute the specified character spans and drop the empty ones |
| Redaction.RedactText | scripts/privacy_filter_mlx_sidecar.py:270-282 | For every list of spans, reversed or out of range ones included, the output is the text with each selected span of the sorted list replaced; for spans in range it is the characters outside the selected spans, in order, with `<`, the upper-cased name and `>` in place of each |
| Redaction.SliceCounts | scripts/privacy_filter_mlx_sidecar.py:276-281 | Indices below zero count from the end, those beyond an end stand for it, and a reversed slice is empty |
| Redaction.JoinAppends | scripts/privacy_filter_mlx_sidecar.py:282 | Joining keeps every piece whole and in its order |
| Redaction.SelectionIsApart | scripts/privacy_filter_mlx_sidecar.py:273-279 | Of any spans within the text, overlapping or in any order, the ones redacted are disjoint and in order |
| Redaction.SelectionIsGreedy | scripts/privacy_filter_mlx_sidecar.py:273-279 | Of any list of spans one is skipped if and only if the text before it was already redacted beyond its start |
| Redaction.SortedIsSorted | scripts/privacy_filter_mlx_sidecar.py:273 | The spans are redacted in the order of start and end, none lost and none added |
| Redaction.SortIsStable | scripts/privacy_filter_mlx_sidecar.py:273 | Spans with the same start and end keep their order, so the first of them gives the placeholder |
| Redaction.RedactionKeepsOutside | scripts/privacy_filter_mlx_sidecar.py:270-282 | The kept pieces joined are exactly the characters outside the spans, in order, and between them stands `<`, the upper-cased name of the span and `>`, in the order of the spans |
| Redaction.RedactionIsExact | scripts/privacy_filter_mlx_sidecar.py:167-282 | For ordered, disjoint offsets and any known labels: neat spans with the upper-cased name in their placeholders, none skipped, every character of an entity token that is not white space removed, nothing outside the token spans removed |
| Detection.AllowedIsSpelledBack | scripts/privacy_filter_mlx_sidecar.py:97-222 | For a table built from a proper configuration, every path the decoder allows is given back exactly by its spans |
| Detection.DetectSpans | scripts/privacy_filter_mlx_sidecar.py:257-263 | For a proper configuration, log-probabilities and ordered tokens: the labels behind the detected spans are a best allowed path, the spans give every label back, and redaction by them is exact |

## Left out

- Collection.RetainedReadsSurvive: takes the check of the current reference and the insert of the retention as one step; two handles that interleave between them are not covered by the guarantee in the source either.
- Bodies.ReadBack: says nothing about paths last published through `publish_trusted_observation`, whose bytes the store never reads.
- Decoder.Viterbi: scores are real numbers; rounding, infinities and NaN of floating point are not modelled.
- SQLite: SQL text, WAL set-up, busy retries, schema migration and column decoding; a transaction is one step on maps that changes nothing when it fails.
- Unique constraints that fresh identifiers satisfy by themselves; a fresh identifier is an argument that was never handed out before, with its `artifact_`, `mut_`, `gen_` or `lease_` prefix as part of it.
- Ties in `ORDER BY`: rows of equal time may come in any order, so what is proved holds for the order by object key as well.
- Binding a catalog to a body store, observing local objects, and looking up reservations or receipts by token.
- The JSON form of receipts and the checks that a stored receipt was not tampered with.
- `last_error` of a queue row, which no operation reads.
- Re-validation of rows by `get`: rows are validated when they are published.
- Calls that interleave: a history of calls finishes each before the next; what interleaves is covered by runs, where every part of a call is a step of its own.
- Filesystem details: symbolic links, temporary files, fsync. A body file is written, read or removed in one step; which removals fail is an argument.
- SHA-256 is an arbitrary function of the bytes; nothing rests on collision resistance.
- S3 network calls, presigning, signed headers, content type and length limits of uploads.
- Logical paths are opaque texts; the path rules of the domain types are not part of this model.
- White space and upper case of the redactor are arbitrary functions of characters and texts.
- Model loading, the tokenizer, `log_softmax_rows` and the HTTP handlers of the privacy filter.
