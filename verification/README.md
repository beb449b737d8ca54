# Verification of the file processor

This project models the file processor and the outbox publisher of the repository and proves what
they promise.  Two lease protocols run over shared tables and are joined by a transactional outbox:

* Processors claim a file under a token-fenced lease, check and possibly quarantine its object, and
  commit the metadata row and an outbox row in one transaction.
* Publishers, stream handlers and retry sweepers, claim an outbox row under a lease of their own,
  send its payload to SNS, and mark the row published or failed.

Both are state machines.  A call to a table, to the object store or to SNS is one atomic step; a
worker is a program counter with local values; any number of workers move in any order.  A worker
may stop for ever between two steps (a crash), and every call may be refused, may take effect
although its reply is lost and then be retried, or may take effect and raise.  *Undisturbed* means
that no other worker moves and every call is heard; `FileProcessorService.QuietWorldExists` and
`OutboxPublisher.CalmWorldExists` show that there are such worlds.  Theorems are stated of every
run, that is, of every sequence of steps that can be taken.

| files | what they hold |
|---|---|
| `Options`, `Domain`, `Fresh`, `Decimals` | shared values |
| `LeaseStore`, `FileProcessor` | metadata and outbox tables with their conditional calls, and the processor as a program counter |
| `ProcessorInvariant`, `ProcessorSteps`, `Fencing`, `ObjectSafety`, `ProcessorTheorems` | what every step keeps, and what follows of every run |
| `SoloRuns`, `Boundaries` | pieces of concrete runs, and where the guarantees end |
| `Separation`, `ObjectContents`, `Scans`, `Redelivery` | exactly when named objects exist, when they have the recorded hash, when a scanned object exists, and when an event can fail |
| `Verdicts` | what the announcements say, written out: place, hash, and for which contents an upload is unsafe |
| `FileProcessorService`, `SqsConsumer` | the processor and the queue consumer as the imperative programs they are, running among others |
| `OutboxRows`, `PublisherRuns`, `PublisherInvariant`, `PublisherTheorems`, `DuplicateBound`, `Delivery` | the outbox row, the publisher's runs, conservation, the exact duplicate bound, and when a row can still be delivered |
| `RetryScan`, `RetrySweep`, `OutboxPublisher` | the sharded paginated scan, the sweep, and the publisher as an imperative program |
| `DynamoTable`, `MetadataRecords`, `MetadataUpdate`, `MetadataSave`, `MetadataClaim`, `TableRefinement` | the update-expression compiler, evaluated by the store's rules, and its refinement of the lease table |
| `Envelope`, `OutputIds` | the binary envelope and the deterministic event ids |
| `EndToEnd` | processors and publishers together |

`dafny verify dfyconfig.toml` checks everything.

## Assumptions

* A new lease token was never used before; a name-based id (UUIDv5, section 5.5 of RFC 9562) is
  injective in its name, so an output id *is* what its occurrence string says; `OutputIds` proves
  that the strings are told apart exactly when the contents are.
* A clock is off by at most `skew`.  Times are after 1970, where `int()` and the floor agree.
* Reading the clock and the conditional write that uses the reading are one step, and `at` is the
  moment of the reading.  If a write lands up to `d` later, the writes of two leases can be closer
  together than `Fencing.LeasesAreApart` and `PublisherTheorems.TakeoversAreApart` say, by up to `d`.
* A copy is encrypted under the configured default key, which the processor's runtime validation
  demands; `Config.defaultKey` is that key as the store reports it.
* Object safety supposes `Domain.Separated`, and `Separation.ObjectsExistIffSeparated` shows that this
  is exactly what it needs.  A *condemned* upload passes its checks and is denied for its content.
  Separated means: no upload event accepts the copy of a condemned upload that is quarantined to the
  place it reads from; and a condemned upload reads from where another is quarantined only if the two
  do so to each other, for one file, and no upload event would accept a copy that comes back.
* The outbox is used (`use_outbox_pattern`), objects are uploaded before the run starts and are
  immutable, metadata rows start without a lease, and nobody but the modelled calls writes the
  tables: no TTL deletion, no gateway writes, no resends inside the SDK.
* A retried call that did not take effect leaves everything as it was, so it is not a step.
* For the drain of the retry sweep only: the status index is up to date, a topic is configured, and
  the maximum of retries is at least 1, as the configuration demands.

## Findings

* **Redelivery of a finished event.**  `lastProcessedEventId` remembers one event.  What a redelivered
  event is told depends on the latest commit that marked it: if another event of the file was marked
  since, it is no duplicate and is processed again; if nothing happened to the file since and the
  commit was COMPLETED, it is acknowledged; otherwise, while another event is being handled or has
  failed, it is rejected as not retryable although it may have succeeded
  (`ProcessorTheorems.RedeliveryVerdict`).
* **Completed and then failed.**  In every reachable state the next commit of a file can be a FAILED
  one of an event if and only if the row does not remember that event as its last processed one,
  whether or not it was finished before (`Redelivery.CanFailNextIffForgotten`).  If an upload was
  completed and is forgotten, by whatever other event of the file, some redelivery with another time
  stamp fails, with no call lost or refused: its source is gone, its event is rejected, or its
  save is cancelled by the completion in the outbox, which then holds a completion and a failure of
  one event (`Redelivery.RedeliveryFails`; `Boundaries.CompletedThenFailed` is such a run from the
  beginning).  A FAILED commit follows a COMPLETED one of the same event only after another event of
  the file was marked (`ProcessorTheorems.FailedAfterCompleted`).
* **A failure without a message keeps the lease.**  The failure event requires a message, the
  resulting validation error is swallowed, and the handling ends with the lease on the row until it
  expires: undisturbed, exactly if the message is empty (`FileProcessorService.Service.HandleFailure`),
  and `Boundaries.LeaseLeftBehind` gives the run.
* **Scan events and stored objects.**  A scan event records its own location without looking at the
  object.  Under `Separated`, its COMPLETED row names an existing object in every reachable state if
  and only if that location is an uploaded object from which no condemned upload reads
  (`Scans.ScannedObjectExists`).
* **Quarantine places that are sources.**  Rows and announcements name objects that exist, in every
  reachable state, if and only if uploads and quarantine places are separated
  (`Separation.ObjectsExistIffSeparated`).  Where they are not, an object is lost: a condemned upload
  that is its own quarantine place deletes it; an upload that accepts another's copy moves it on
  (`CopyIsAccepted`); and a condemned upload that reads from where another is quarantined deletes
  that copy, for different files (`OtherFileDangles`), for one file (`SameFileDangles`), and, when the
  two read from each other's place, after a copy of a stale worker was copied back
  (`ReturnedCopyDangles`).
* **Contents.**  Objects also have the hash their row and announcement carry if and only if, besides,
  no upload expects another content where a condemned one is quarantined
  (`ObjectContents.ContentsMatchIffApart`); with checksums free of '/' only sources can be in the way
  (`ObjectContents.PlainChecksums`).
* **Duplicates are not limited by the maximum of retries.**  Lease takeovers do not count as retries,
  so a row may be sent once more than its retries *and takeovers* together, and every such number is
  reached (`DuplicateBound.BoundIsAttained`); a FAILED row was sent at most as often as both together,
  and that is reached as well (`DuplicateBound.FailedBoundIsAttained`).
* **At least once has an end.**  From a reachable state some continuation publishes a row if and only
  if it is not FAILED at the maximum of retries (`Delivery.DeliverableUnlessGivenUp`, with a topic
  configured; without one no row is ever published, `Delivery.NoTopicNoDelivery`).  A row can get to
  that end without ever having been sent (`Delivery.GivenUpUnsent`).
* **A retryable failure does not mark the event**, so "the row held the record's last processed id"
  holds of a save only if the record names one; `ProcessorTheorems.SavePostcondition` says so.
* The comment on `claim_event_for_publish` calls the lease renewable.  No code renews it; it has a
  fixed lifetime here, as in the code.

## Model

| member | source | states |
|---|---|---|
| LeaseStore.EffectConsistent | src/processor/adapters/outbound/dynamodb_repo.py:185-238 | every grant, fenced commit, copy and delete keeps the tables in agreement with the log of durable changes, whatever programs make the calls |
| ProcessorSteps.StepKeepsInv | src/processor/application/file_processor.py:72-452 | every step of every worker keeps the invariant of the whole processor system, and nothing durable is lost |
| ProcessorSteps.RunKeepsInv | src/processor/application/file_processor.py:72-452 | the invariant holds in every reachable state, under crashes, takeovers, lost replies and redelivery |
| Fencing.CommitsAreFenced | src/processor/adapters/outbound/dynamodb_repo.py:28-55 | a commit ends the lease granted just before it for that file and event; commit versions strictly increase, so a lease has at most one commit, COMPLETED or FAILED; none lands once a newer lease is granted |
| Fencing.GrantsCountUp | src/processor/adapters/outbound/dynamodb_repo.py:192-205 | claim versions count the leases of a file one by one, each with a token of its own |
| Fencing.LeasesAreApart | src/processor/adapters/outbound/dynamodb_repo.py:161-163 | of two leases of a file with no commit between them, the clock readings are more than the lease less one second, less twice the clock error, apart, although clocks are floored |
| Fencing.LeasesEnd | src/processor/adapters/outbound/dynamodb_repo.py:161-205 | a lease ends on time: at every clock reading from its lifetime after the grant on, plus the clock error, the file can be claimed for every event but the last processed |
| Fencing.ProcessedIsNotReclaimed | src/processor/adapters/outbound/dynamodb_repo.py:200-205 | an event once marked as last processed is not claimed again before another event is marked |
| Fencing.InsertedOnce | src/processor/adapters/outbound/outbox_repo.py:85-95 | no outbox row is inserted twice in any run |
| ProcessorTheorems.TablesAgree | src/processor/application/file_processor.py:235-263 | a COMPLETED row of an upload has its ANALYSIS_COMPLETED outbox row, with the same hash, location and file |
| ProcessorTheorems.AllCompletionsAgree | src/processor/application/file_processor.py:235-263 | all COMPLETED commits ever made for an upload, by whatever workers, carry the hash and location of its one outbox row |
| ProcessorTheorems.ReturnedMeansDurable | src/processor/application/file_processor.py:89-121 | when the handler returns for an upload or scan, the row was COMPLETED for that event at some moment of this handling |
| ProcessorTheorems.SavePostcondition | src/processor/adapters/outbound/outbox_repo.py:96-133 | when the transactional save returns, by any of its three paths, the outbox holds the identical payload and the row held the record's status, and its event if it names one, at some moment of the call |
| ProcessorTheorems.CommitStandsUntilClaimed | src/processor/application/file_processor.py:264-277 | until the file is claimed again the row keeps the status and the event of the last commit, whatever cleanup, lost replies or failure reports follow |
| ProcessorTheorems.NoLeakedLease | src/processor/application/file_processor.py:122-171 | if every table call was heard and every failure had a message, a handler that ends leaves none of its leases on the row |
| ProcessorTheorems.EmptyMessageKeepsLease | src/processor/application/file_processor.py:423-452 | for a worker that has its lease, building the failure record ends the handling with the lease on the row exactly if the message is empty, and leads on to the save otherwise |
| Boundaries.LeaseLeftBehind | src/processor/application/file_processor.py:423-452 | for every upload that passes the checks on the event there is a run, by a download error without a message, whose handler has ended and left its lease on the row |
| ProcessorTheorems.RowsAreClean | src/processor/adapters/outbound/dynamodb_repo.py:192-199 | rows being processed or completed carry no error; a row has a token, an expiry and an event in process exactly while it is PROCESSING |
| ProcessorTheorems.DurableStays | src/processor/adapters/outbound/dynamodb_repo.py:90-96 | rows and outbox events are never deleted, outbox events never change, a creation time once set never changes |
| ProcessorTheorems.FailuresAreClassified | src/processor/application/file_processor.py:122-171 | a failure is raised and announced as retryable exactly if it is a storage error or an unforeseen one, and the input event is marked exactly if it is final |
| ProcessorTheorems.RedeliveryVerdict | src/processor/application/file_processor.py:173-194 | what any redelivered event is told: never marked or replaced by another mark, it is processed; marked COMPLETED with nothing after, it is acknowledged; else it is rejected for good |
| ProcessorTheorems.FailedAfterCompleted | src/processor/application/file_processor.py:173-194 | a FAILED commit of an event follows a COMPLETED one only if another event of the file was marked between them |
| Boundaries.CompletedThenFailed | src/processor/adapters/outbound/outbox_repo.py:165-191 | for every sound upload and every scan of its file some run from the beginning completes, announces and then fails the upload |
| Redelivery.CanFailNextIffForgotten | src/processor/application/file_processor.py:173-194 | in every reachable state the next commit of a file can be a FAILED one of an upload or scan event if and only if the row does not remember that event as last processed |
| Redelivery.RedeliveryFails | src/processor/adapters/outbound/outbox_repo.py:165-191 | in every reachable state in which a completed upload is forgotten, some redelivery with another time stamp makes a FAILED commit of it the next one of the file, beside its completion in the outbox |
| ObjectSafety.CompletedObjectExists | src/processor/application/file_processor.py:230-277 | while uploads and quarantine places are separated, in every reachable state a COMPLETED row of an upload names an existing object, its allowed source or its quarantine copy |
| ObjectSafety.AnnouncedObjectsExist | src/processor/application/file_processor.py:251-263 | while they are separated, every object an outbox event announces exists from the inserting commit on, whatever stale workers do |
| ObjectSafety.DeletedAfterCommit | src/processor/application/file_processor.py:264-272 | a source is deleted only after the commit that names its quarantine copy |
| Separation.ObjectsExistIffSeparated | src/processor/application/file_processor.py:230-277 | from every initial state: in every reachable state the COMPLETED rows of uploads name existing objects if and only if uploads and quarantine places are separated; and likewise the completions in the outbox |
| Separation.DanglesUnlessSeparated | src/processor/application/file_processor.py:341-350 | from every initial state, if they are not separated, some run leaves a COMPLETED row of an upload naming an object that is gone |
| Separation.CopyIsAccepted | src/processor/application/file_processor.py:318-350 | an upload that accepts the copy it finds in a quarantine place moves it away, and the row of the one or the other dangles, for one file or two |
| Separation.ReturnedCopyDangles | src/processor/application/file_processor.py:341-350 | two uploads of one file that read from each other's quarantine place: if some upload accepts a copy that came back, a run leaves a dangling row |
| ObjectContents.ContentsMatchIffApart | src/processor/application/file_processor.py:222-263 | from every initial state: in every reachable state rows and announcements name objects with just the hash they carry, if and only if uploads and quarantine places are separated and apart in content |
| ObjectContents.PlainChecksums | src/processor/application/file_processor.py:344 | checksums without '/' can be read off the quarantine place |
| Verdicts.CompletionsNamePlaces | src/processor/application/file_processor.py:341-350 | in every reachable state a completion carries the checksum of its upload; called safe it names the source, called unsafe the source's bucket and the key of prefix, file and hash; and a COMPLETED row of the upload says the same |
| Verdicts.UnsafeExactly | src/processor/application/file_processor.py:358-366 | while uploads and quarantine places are separated, an upload is announced unsafe exactly if what was uploaded is empty or begins with the bytes of a PE or ELF header |
| Verdicts.UnsafePlacesDiffer | src/processor/application/file_processor.py:344 | uploads of different files announced unsafe never share a place, when ids and checksums have no '/' |
| Verdicts.CondemnedPlacesDiffer | src/processor/application/file_processor.py:344 | the same of any two condemned uploads |
| Separation.SoloUploadSafety | src/processor/application/file_processor.py:341-350 | every condemned upload handled undisturbed is moved to its quarantine place, recorded and announced, and the object its row names exists afterwards exactly if its source is not that place |
| Separation.SameFileDangles | src/processor/application/file_processor.py:264-277 | two condemned uploads of one file, one reading from where the other is quarantined and not the other way round: some run leaves the COMPLETED row of the other naming an object that is gone |
| Separation.OtherFileDangles | src/processor/application/file_processor.py:264-277 | likewise for two condemned uploads of different files |
| Scans.ScannedObjectExists | src/processor/application/file_processor.py:290-304 | while uploads and quarantine places are separated, in every reachable state the rows last completed by a scan event name an existing object, if and only if its location is an uploaded object that no condemned upload reads from |
| Scans.ScanDangles | src/processor/application/file_processor.py:290-304 | for every other location there is a run after which such a row names no object |
| FileProcessorService.Service.Handle | src/processor/application/file_processor.py:72-171 | among any other workers the handler comes to an end; if it returns, the result is durable; heard calls and non-empty messages leave no lease; undisturbed, a duplicate, an event of another kind and an event of a file that is not free change nothing and end as they should, a scan is recorded, a flawed upload is recorded and announced as failed, final or not, and a sound one is recorded, announced and, if denied, quarantined, unless the outbox has another completion of it, when it fails; nothing else changes; and a returned upload is announced with the verdict its bytes have, at the place its bucket, prefix, file and checksum give |
| FileProcessorService.Service.IdempotentResult | src/processor/application/file_processor.py:173-194 | the duplicate check ends the handling or lets it go on to the claim; undisturbed a duplicate ends as its first result says, any other event goes on exactly if it is actionable and read for the first time, and nothing changes |
| FileProcessorService.Service.ClaimProcessing | src/processor/adapters/outbound/dynamodb_repo.py:153-245 | three calls at most; undisturbed, a claimable row ends up carrying exactly the new lease the worker holds, one version further and to the second as long as the lease, and nothing else changes; otherwise nothing changes and the row is read again |
| FileProcessorService.Service.ProcessUploadedFile | src/processor/application/file_processor.py:196-366 | ends returning or with an error to report; undisturbed and under its lease it returns only for a trusted event whose object is as declared, and then the upload is announced unsafe and moved, re-encrypted, if and only if its bytes are empty or begin with a PE or ELF header, and else stays and is announced safe; every rejection code tells which check failed first |
| FileProcessorService.Service.ProcessScannedFile | src/processor/application/file_processor.py:290-304 | recording a scan event ends after at most three calls, returning or with an error to report; undisturbed and under its lease it commits just that record and returns |
| FileProcessorService.Service.QuarantineFile | src/processor/application/file_processor.py:341-350 | at most three calls to copy; undisturbed, a copy with the same content under the default key is at the key of prefix, file and checksum in the same bucket, and the save of the quarantined result comes next |
| FileProcessorService.Service.DeleteSource | src/processor/application/file_processor.py:263-277 | at most three calls; whatever storage errors the deletion of the source raises, and whoever else moves in between, the handling returns normally; undisturbed, just the source is gone |
| FileProcessorService.Service.SaveWithOutbox | src/processor/adapters/outbound/outbox_repo.py:51-140 | the save ends saved or with an error; undisturbed, by the two-table commit exactly under the lease with a new event, by restoring the record under the lease with the identical event, or by finding the record in the row; in all other cases it fails and changes nothing |
| FileProcessorService.Service.IsIdempotentReplay | src/processor/adapters/outbound/outbox_repo.py:165-191 | a cancelled transaction leads to the restore branch, undisturbed exactly if the outbox holds the identical event, or to an error |
| FileProcessorService.Service.MetadataHasResult | src/processor/adapters/outbound/outbox_repo.py:147-163 | a refused restore ends saved, undisturbed exactly if the row holds the record's status and event id, or with an error |
| FileProcessorService.Service.RestoreMetadata | src/processor/adapters/outbound/outbox_repo.py:99-121 | the restore ends saved, refused or with an error; undisturbed it writes the record exactly under the lease, and otherwise changes nothing |
| FileProcessorService.Service.HandleFailure | src/processor/application/file_processor.py:411-452 | reporting a failure ends the handling with the original error, whatever becomes of the report; undisturbed under the lease the row still has the lease exactly if the message is empty, and then nothing changed, and otherwise the diagnostics are recorded and announced, shortened, and the event is marked only if the failure is final; without the lease nothing changes |
| SqsConsumer.Consumer.ProcessMessage | src/processor/adapters/inbound/sqs_consumer.py:199-238 | a message leaves the queue exactly if its handler returned and the delete took effect, and then its result is durable; invalid and rejected messages stay for the redrive policy, others become visible |
| SqsConsumer.Consumer.ProcessMessages | src/processor/adapters/inbound/sqs_consumer.py:175-180 | over a whole batch, stopped anywhere, every message that left the queue has a durable result |
| SqsConsumer.Consumer.Acknowledge | src/processor/adapters/inbound/sqs_consumer.py:240-263 | deletes this message and no other, and raises if the delete was not answered |
| SqsConsumer.Consumer.Reject | src/processor/adapters/inbound/sqs_consumer.py:265-299 | never deletes; makes the message visible only when it is to be requeued |
| OutboxRows.IndexKeyInjective | src/processor/domain/models.py:393 | the key of the status index tells status and shard apart |
| OutboxRows.ShardIsScannedOnce | src/processor/domain/models.py:22-25 | the shard of a file is one of the 16 scanned, and exactly one |
| PublisherInvariant.RunKeepsInv | src/processor/outbox_publisher.py:187-332 | the invariant of the publisher system holds in every reachable state, with images of any age |
| PublisherTheorems.LeasesAreConserved | src/processor/outbox_publisher.py:195-220 | leases granted = failures recorded + takeovers + one behind a PUBLISHING or PUBLISHED row; sends are at most retries + takeovers + that one; the retry count is the number of failures and never passes the maximum |
| DuplicateBound.BoundIsAttained | src/processor/outbox_publisher.py:203-207 | for all retries below the maximum and all takeovers some run sends a row exactly once more than both together |
| DuplicateBound.FailedBoundIsAttained | src/processor/outbox_publisher.py:302-332 | for all retries up to the maximum and all takeovers some run sends a row, FAILED in the end, exactly as often as both together, which LeasesAreConserved gives as the greatest number |
| PublisherTheorems.PublishedWasSent | src/processor/outbox_publisher.py:263-293 | a PUBLISHED row was sent, with the payload it was inserted with and to the topic of its kind, under the lease that then committed it |
| PublisherTheorems.SentIsCanonical | src/processor/outbox_publisher.py:235-260 | whatever was ever sent for a row is the payload it was inserted with, sent to the topic of its kind |
| PublisherTheorems.TopicsAreRight | src/processor/outbox_publisher.py:139-151 | whatever is sent goes to the topic for processing events if that is set, and otherwise to the general one |
| PublisherTheorems.CreationStays | src/processor/domain/models.py:352-395 | a row is inserted PENDING with the creation time it is given, and payload and creation time stay ever after |
| PublisherTheorems.FinalIsAbsorbing | src/processor/outbox_publisher.py:302-332 | PUBLISHED, and FAILED at the maximum, never change again in any run |
| Delivery.DeliverableUnlessGivenUp | src/processor/outbox_publisher.py:195-220 | from every reachable state some continuation makes a row PUBLISHED if and only if it is not FAILED at the maximum of retries |
| Delivery.GivenUpUnsent | src/processor/outbox_publisher.py:302-332 | some run leaves a row FAILED at the maximum of retries that was never sent |
| Delivery.NoTopicNoDelivery | src/processor/outbox_publisher.py:139-151 | while no topic is configured for it no row is ever PUBLISHED |
| PublisherTheorems.LostLeaseChangesNothing | src/processor/outbox_publisher.py:275-293 | a worker that has lost its lease changes no row ever after, in whatever continuation, and no worker changes another row than its own |
| PublisherTheorems.ReportsAreTrue | src/processor/outbox_publisher.py:222-231 | a handler that reports a row as published, or skips it as published, tells the truth |
| PublisherTheorems.TakeoversAreApart | src/processor/outbox_publisher.py:190-207 | the clock reading of a takeover comes more than the lifetime of the lease, less twice the clock error, after that of the grant |
| PublisherTheorems.LeasesEnd | src/processor/outbox_publisher.py:190-207 | a lease ends on time: a PUBLISHING row can be claimed at every clock reading later than its lifetime after the latest grant, plus the clock error |
| PublisherTheorems.RowsAreFiled | src/processor/domain/models.py:22-25 | every row has the type its payload names, the shard that the first byte of the digest of its file gives modulo 16, and the index key of its status and shard, written out |
| PublisherTheorems.RowsAreTidy | src/processor/outbox_publisher.py:271-323 | a row can expire only once it is PUBLISHED, has token and expiry exactly while PUBLISHING, and an error, shortened, exactly since its first failure |
| PublisherTheorems.IndexAgrees | src/processor/outbox_publisher.py:198-218 | the index key of every row is its own status and one scanned shard, and no other pair |
| OutboxPublisher.Publisher.ClaimEventForPublish | src/processor/outbox_publisher.py:187-231 | a token exactly if the row was claimable and the call heard, "already published" only for a PUBLISHED row; the tables change by the grant or not at all, and the granted row has the token and expires one lease after the clock reading |
| OutboxPublisher.Publisher.PublishToSns | src/processor/outbox_publisher.py:139-260 | only a payload that carries the row's own id and type is sent, to the topic for processing events or else the general one, and only if there is one, and the send is all that happens |
| OutboxPublisher.Publisher.MarkEventPublished | src/processor/outbox_publisher.py:264-293 | commits exactly under the row's current lease; the row may be deleted one retention after the clock reading; succeeds also if the row is PUBLISHED already |
| OutboxPublisher.Publisher.MarkEventFailed | src/processor/outbox_publisher.py:297-332 | records the failure, one retry more and the error cut after 2000 characters, exactly under the row's current lease, and the original error is raised in any case |
| OutboxPublisher.Publisher.RecordHandler | src/processor/outbox_publisher.py:336-372 | only an insert of a PENDING image leads to calls; the result is true of the row; undisturbed a claimable row, and only it, becomes PUBLISHED |
| OutboxPublisher.Publisher.RetryPendingEvents | src/processor/outbox_publisher.py:438-475 | each success counted is a PUBLISHED row of its own; undisturbed everything scanned is published, nothing else changes, and nothing was left to claim if nothing was scanned |
| OutboxPublisher.CalmWorldExists | src/processor/outbox_publisher.py:375-413 | there are worlds in which nobody else moves and every scan shows the live rows, which is what the undisturbed clauses suppose |
| OutboxPublisher.Publisher.RetryCycles | src/processor/outbox_publisher.py:438-496 | undisturbed, as many sweeps as there are open rows leave no row that could have been claimed when the first began, and if no lease was running then, every row is PUBLISHED or had failed as often as is allowed |
| RetryScan.ScanShard | src/processor/outbox_publisher.py:384-409 | the page loop ends, also over pages that are filtered empty, with the first matching rows of the shard up to its share |
| RetryScan.QueryRetryable | src/processor/outbox_publisher.py:375-413 | the nested paginated filtered scan returns what the scan without pages returns, however pages are cut; of any two rows returned, the earlier one has the creation time that is a prefix of the other's or has the smaller character where they first differ |
| RetryScan.ScanIsFair | src/processor/outbox_publisher.py:379-413 | at most `limit` rows, oldest first; for every eligible row left out at least a shard's share of the returned rows were created no later, in that order |
| RetryScan.SortKeepsTies | src/processor/outbox_publisher.py:410-413 | rows created at the same time stay in the order they were scanned in |
| RetrySweep.SweepScanIsFair | src/processor/outbox_publisher.py:375-413 | one scan of a sweep reads at most 100 rows, and an eligible row it leaves out has at least seven rows read that were created no later |
| RetryScan.ScanReturnsEligible | src/processor/outbox_publisher.py:395-400 | every row returned is in a scanned shard of its status and passes the filter |
| RetrySweep.ScanAgreesWithClaim | src/processor/outbox_publisher.py:203-207 | in every reachable state a sweep looks for a row exactly when a claim of it would be granted, PENDING rows included |
| RetrySweep.ShardsPartitionStatus | src/processor/outbox_publisher.py:380-387 | the 16 shard queries of a status partition exactly the rows of that status |
| RetrySweep.UniqueKeeps | src/processor/outbox_publisher.py:445 | of the three scans just one item is kept for every key scanned: exactly the last one scanned under it |
| RetrySweep.SweepsDrain | src/processor/outbox_publisher.py:438-475 | calm sweeps, as many as there are open rows, leave no row that could have been claimed when the first began, whatever the limit of a sweep and the spread over shards |
| RetrySweep.DrainedIsFinal | src/processor/outbox_publisher.py:195-207 | where nothing can be claimed and every earlier lease has expired, every row is PUBLISHED or has failed for good |
| MetadataRecords.ToDynamodbItem | src/processor/domain/models.py:188-236 | filling in the item attribute by attribute misses nothing and overwrites nothing, and leaves out exactly what is absent or empty |
| MetadataRecords.ItemConstants | src/processor/domain/models.py:188-210 | the key, the entity type and the name of the checksum algorithm in an item are as written |
| MetadataRecords.RecordRoundTrip | src/processor/domain/models.py:238-282 | reading the item of a record gives the record back, but for empty texts and a zero time to live; it fails exactly for a record without a file name |
| MetadataRecords.ItemsAlike | src/processor/domain/models.py:188-236 | two records with a file name have the same item exactly if they differ in nothing an item keeps |
| MetadataUpdate.BuildMetadataUpdate | src/processor/adapters/outbound/dynamodb_repo.py:63-98 | the expression built by the loop carries out the plan of the record, each attribute by one assignment, with every placeholder defined, used and meaning one thing |
| MetadataUpdate.CarriedOut | src/processor/adapters/outbound/dynamodb_repo.py:76-98 | executing an expression that carries out a plan does to every attribute what the plan says |
| MetadataSave.FenceMeans | src/processor/adapters/outbound/dynamodb_repo.py:50-55 | among the placeholders of any update the condition of the fence holds of an item exactly if the item carries this token, version and event |
| MetadataSave.SaveRequest | src/processor/adapters/outbound/dynamodb_repo.py:110-137 | the finished request, alone or in the transaction, is accepted by the store, guarded by existence and lease as asked for, and carries out the plan |
| MetadataSave.SaveIsDirectUpdate | src/processor/adapters/outbound/dynamodb_repo.py:28-98 | for every record and item: refused exactly if the guard fails, else record attributes are overwritten, creation data is written once, unmentioned attributes are kept and the lease is removed |
| MetadataClaim.BuildClaim | src/processor/adapters/outbound/dynamodb_repo.py:165-227 | the claiming request built around the loop over the initial record is accepted by the store and guarded by the claim condition |
| MetadataClaim.ClaimIsDirectUpdate | src/processor/adapters/outbound/dynamodb_repo.py:186-228 | for every record and item: refused exactly if the event is the last processed one or a lease is running, else status, lease and version are set, missing attributes filled in and errors removed |
| TableRefinement.SaveRefinesCommit | src/processor/adapters/outbound/outbox_repo.py:58-97 | run on an item that shows a row of the lease table, the fenced save succeeds exactly if the row is fenced and leaves an item that shows the committed row |
| TableRefinement.ClaimRefinesGrant | src/processor/adapters/outbound/dynamodb_repo.py:185-235 | likewise for the claim, on a new row and on an old one |
| Envelope.ParsePrint | src/processor/adapters/outbound/kms_crypto.py:180-181 | reading a written envelope gives it back |
| Envelope.PrintParse | src/processor/adapters/outbound/kms_crypto.py:213-234 | exactly the strings not rejected as too short can be read, and writing what was read gives them back |
| Envelope.LayoutIsBijective | src/processor/adapters/outbound/kms_crypto.py:213-234 | envelopes with a key under 2^32 bytes and a 12-byte nonce correspond one to one to the strings not rejected |
| Envelope.Decrypt | src/processor/adapters/outbound/kms_crypto.py:202-247 | the pass with an offset computes what reading, unwrapping and opening give |
| Envelope.DecryptUndoesEncrypt | src/processor/adapters/outbound/kms_crypto.py:158-189 | decryption undoes encryption for every key, nonce and context, if KMS and GCM undo themselves; encryption fails exactly if the wrapped key is too long |
| Envelope.EncryptionBytes | src/processor/adapters/outbound/kms_crypto.py:158-181 | an encryption is, byte by byte, the length of the wrapped key with the highest byte first, the data key wrapped under the given context, the nonce, and the sealed text |
| Envelope.WrongContextFails | src/processor/adapters/outbound/kms_crypto.py:112-131 | decryption fails under every context under which KMS does not unwrap the key |
| Envelope.LocalWrapUndoesItself | src/processor/adapters/outbound/kms_crypto.py:355 | the local exclusive-or wrapping undoes itself exactly for keys no longer than twice the master key |
| Envelope.LocalWrapBits | src/processor/adapters/outbound/kms_crypto.py:355 | a bit of the locally wrapped key is set exactly if key and master key, written twice, differ in it |
| Envelope.LocalParseAgrees | src/processor/adapters/outbound/kms_crypto.py:370-381 | the local reader, which checks no length, reads an envelope that could have been written exactly where the checking one accepts |
| Envelope.LocalDecryptUndoesEncrypt | src/processor/adapters/outbound/kms_crypto.py:348-386 | with 32-byte keys the local provider decrypts what it encrypted |
| OutputIds.OccurrenceRoundTrip | src/processor/domain/events.py:399-402 | event id, type, claim version, code and flag can be read back from the occurrence string, colons in the code included |
| OutputIds.OccurrenceText | src/processor/domain/events.py:399-402 | the occurrence strings, written out: prefix, event, type, and for a failure the claim version in decimal digits, the code and the flag |
| OutputIds.OccurrenceInjective | src/processor/domain/events.py:399-402 | two occurrences are written alike exactly if they are the same |
| OutputIds.OutboxKeys | src/processor/application/file_processor.py:440-442 | attempts under one lease that fail alike share an outbox key; different leases, and completions and failures, never do |
| EndToEnd.RunProjects | src/processor/adapters/outbound/outbox_repo.py:58-97 | each side of a joint run of processors and publishers is a run of its own, over one and the same outbox |
| EndToEnd.TransactionIsWhole | src/processor/adapters/outbound/outbox_repo.py:69-97 | a processor's step can be taken in a joint run exactly when it can be taken alone |
| EndToEnd.CompletedIsAnnounced | src/processor/application/file_processor.py:235-263 | a COMPLETED upload has its row in the outbox the publishers serve, with its hash and location |
| EndToEnd.SentCompletionsAreTrue | src/processor/outbox_publisher.py:235-260 | every completion ever sent names the file, location and hash a COMPLETED commit of that upload recorded, and no commit recorded others |
| EndToEnd.SentObjectsExist | src/processor/outbox_publisher.py:235-260 | the object a sent completion points at exists ever after, if uploads and quarantine places are separated |
| EndToEnd.SentObjectsMatch | src/processor/outbox_publisher.py:235-260 | and it has the hash that was sent, if they are also apart in content |
| EndToEnd.PublishedCompletionWasSent | src/processor/outbox_publisher.py:263-293 | a PUBLISHED completion was sent with just the payload the processor committed |

## Left out

- FileProcessorService.Service.Handle: while other processors move, its contract gives what the end of the handling guarantees; which steps were taken is in the trace, and what they guarantee is stated of runs.
- MetadataRecords.ToDynamodbItem: the item is a map, so the order in which the dictionary is filled is not part of its value; the order only decides which number a placeholder gets, and BuildMetadataUpdate allows every order.
- Fencing.LeasesAreApart: compares the moments at which clocks were read; a delay between the reading and the write is not modelled.
- PublisherTheorems.TakeoversAreApart: likewise compares clock readings, not the moments at which the writes land.
- The publisher's three update expressions: OutboxRows states their conditions and effects on a row directly, attribute by attribute, without going through expressions.
- Expression text: update and condition expressions are modelled in parsed form, without their rendering as strings; attribute names are an enumeration.
- Metadata attributes outside the lease protocol (file name, size, MIME type, encryption, findings) appear in the compiler modules but not in the lease table.
- An outbox payload keeps file, location, result or diagnostics, and one stamp for all timestamps; schema validation and JSON text are not modelled, a payload is an already valid event.
- SHA-256, UUID generation, AES-GCM and KMS are parameters.
- `mark_published` and `mark_failed` of the outbox repository, which are not fenced by a token, are not steps; admitting them would break the publisher's invariant. `_get_events` beside them scans like the retry scan.
- The mode without an outbox, where save and publish are not atomic.
- Deletion of old PUBLISHED rows, writes by the gateway, resends inside the SDK.
- The consumer's receive loop, its back-off, threads and signals, and the waits between retries.
- The bounded read loop of the S3 download and the cycle check of `_root_cause`, which are easy next to the rest.
- Clients, FIPS bootstrap, settings, logging, metrics and Lambda wiring, which hold no state the properties speak of.
