# Verified model of the rbox storage plugin

A Dafny model of a Dovecot storage plugin that keeps mail bodies as RADOS objects while the mailbox index lives
elsewhere. Two stores have to agree without a shared transaction; the model states what that takes, and proves it
for every input, every run and every interleaving. `dafny verify dfyconfig.toml` checks the whole project.

## Parts

| files | subject |
|---|---|
| `Rados`, `Text` | objects and writes to them; `getline` items and C strings |
| `ChunkedWriter` | the buffering stream and the two chunked writers |
| `SaveProtocol`, `SaveInvariant`, `SaveRecords`, `SaveTheorems` | save, copy, commit, rollback, expunge and rebuild as atomic steps of any number of sessions, with a failure possible at each call and a crash between any two; the ground invariant, which every rebuild keeps, the part about records, which a full rebuild keeps, and what follows over whole runs |
| `SaveMeta` | from the events of a run alone: the bytes a client sent, which objects have metadata, and the mailbox attribute |
| `SavePairing`, `CommitExactness`, `SaveExamples` | mails and records correspond in every run; exactly when a commit, a failed sync commit and a rollback keep their promise; concrete runs in which they do not |
| `SaveContext`, `SaveCalls` | the save context as a class with the code's fields and loops; every method extends a ghost history by steps of its own session only, so contexts on the same stores can be interleaved |
| `ExpungeQueue` | marking and queueing over overlapping ranges, removal after the commit |
| `RecoveryIndex`, `RecoveryTheorem`, `RecoveryRebuild` | the text object that stands in for a listing, and why a rebuild from it finds all mails |
| `Rebuild`, `RebuildPasses`, `RebuildRecords`, `RebuildBridge`, `RebuildCount` | the forced rebuild in one or two passes, by listing or by recovery index; its records over visited and over all mailboxes; that it is a step of the save protocol; the count that keeps processes from repeating it |
| `Metadata` | the Ima metadata module against the Default module |
| `DictTransaction`, `DictIterate`, `DictLaws` | dictionary transactions against one-by-one application; the iterator against the list it should give; an iteration after a commit |
| `SaveLog` | printing and reading the save log |
| `AsyncSearch`, `PgTable` | the parallel object search under every interleaving; the placement group table |
| `NamespaceCache`, `Gzip` | the namespace manager; the repair of gzip trailers |

## What the code does where its comments promise something else

- `execute_operation` returns a `bool`, so the test `ret_val < 0` after the metadata write of a save never holds: a
  failed metadata write goes unnoticed (`src/storage-rbox/rbox-save.cpp:488-494`), and the mail is dropped by the next
  rebuild (`RecoveryTheorem.RecordSurvivesRebuildIff`, `SaveExamples.MailWithoutMetadataDropped`).
- A refused save leaves its record in the transaction and the next `rbox_save_alloc` clears `failed`; committing such a
  transaction publishes a record without its mail (`SaveExamples.RefusedThenCommitted` is such a run,
  `CommitExactness.CommitDurableIff` says exactly when it happens).
- `commit_post` ends in the rollback function, so a sync commit that fails after the index was written deletes the
  objects of the records just published (`CommitExactness.SyncFailureDurableIff`, `SaveExamples.SyncFailureLosesMail`).
- A rollback of a transaction whose saves all succeeded leaves its objects behind
  (`CommitExactness.RollbackLeavesNothingIff`, `SaveExamples.RolledBackMailStays`).
- A copy is not appended to the recovery index (`RecoveryTheorem.CopyKeepsAgreementIff`, `SaveExamples.CopyMissingFromIndex`).
- One valid object that cannot be converted makes the whole rebuild return -1
  (`RebuildPasses.RebuildInContext`, `RebuildRecords.UnconvertibleMailFails`), and without a default mailbox a rebuild
  returns 0 although mails are left over (`RebuildRecords.LeftoverWithoutInbox`).
- `repair_namespace` leaves a namespace at the first foreign, virtual or unopenable mailbox. The mails of the mailboxes
  behind it are restored in INBOX while their old records stay, so two records name one object, and expunging one
  takes the mail of the other away (`RebuildRecords.NamedOnceIff`, `RebuildRecords.MailRestoredTwice`).
- The lock around check and commit of a rebuild exists only under `HAVE_MAIL_INDEX_LOCK_SYNC`; without it processes
  that noticed the same corruption all rebuild (`RebuildCount.RaceWithoutLock`, `RebuildCount.RaceAtZero`).
- The gzip header length differs from the format by one for headers without flags, with a name or with a comment
  (`Gzip.HeaderLengthIff`, `Gzip.HeaderExamples`); the size check still works, as it only needs a bound.
- A namespace lookup that fails to read the store is taken for a missing entry, and a new namespace replaces the old one
  (`NamespaceCache.KeepsNamespaceIff`, `NamespaceCache.NamespaceReplaced`).
- A dictionary commit differs from its operations whenever a key is used in the wrong order
  (`DictTransaction.CommitIsOneByOneIff`), and always answers OK.
- The Ima module loses keywords when they are updateable while updates are off (`Metadata.SaveAgreesIff`, `Metadata.KeywordsLost`), and writes back
  stale attributes from a mail kept in memory (`Metadata.StaleMailUndoesChange`).

## Model

| member | source | states |
|---|---|---|
| `SaveTheorems.DurableAtEveryStep` | src/storage-rbox/rbox-save.cpp:553-872 | at every point of every interleaved run with failures, crashes and rebuilds that restore everything, each committed record names an object holding the whole mail and carrying its UID, no two records share an oid and UIDs ascend per mailbox, provided uncommittable transactions are rolled back and a sync commit after publication succeeds |
| `SaveTheorems.RecordStays` | src/storage-rbox/rbox-save.cpp:762-824 | in every run whatsoever a committed record is still there later unless its mailbox expunged it or a rebuild came |
| `SaveTheorems.RecordsChange` | src/storage-rbox/rbox-save.cpp:762-824 | apart from rebuilds, records come by publication and go by expunge, and in no other way |
| `SaveInvariant.StepInv` | src/storage-rbox/rbox-save.cpp:212-260 | every step of every session and every rebuild, however it ends, keeps the ground invariant over objects, pending transactions, index and ownership of oids |
| `SaveRecords.FullStep` | src/storage-rbox/rbox-save.cpp:762-824 | every step but a rebuild that leaves something out keeps the records durable, unique and ascending |
| `SaveInvariant.RunInv` | src/storage-rbox/rbox-save.cpp:56-80 | the ground invariant holds at each position of a disciplined run that starts with it |
| `SaveTheorems.RemovalIsSafe` | src/storage-rbox/rbox-sync.cpp:491-555 | in a run whose rebuilds restore everything, neither an expunge nor the clean-up of a failed transaction removes an object that a committed record names |
| `SaveMeta.RecordIsComplete` | src/storage-rbox/rbox-save.cpp:472-551 | at every point of every disciplined run each record names an object with the bytes its client sent and its UID; the object has metadata iff the metadata operation of its save succeeded, for any buffer and chunk size, or it was copied from one that had; and then its mailbox attribute is the mailbox of the record |
| `SaveMeta.MetaIff` | src/storage-rbox/rbox-save.cpp:484-494 | in every disciplined run, whatever rebuilds came, an object has metadata iff one of the events before gave it some: a save that passed its checks with a metadata operation that succeeded, or a copy |
| `SaveMeta.WholeIsSent` | src/storage-rbox/rbox-save.cpp:262-300 | in every run whatsoever the mail an oid is meant for consists of the bytes of its save calls in order, or of those of the mail it was copied from |
| `SavePairing.MailsMatchRecords` | src/storage-rbox/rbox-save.cpp:128-145 | in every run, disciplined or not, `rados_mails` and the appended records are the same oids in the same order |
| `CommitExactness.CommitDurableIff` | src/storage-rbox/rbox-save.cpp:762-824 | a commit without further faults, whatever it expunges on the way, leaves every record durable iff it has no mail, or its last call did not fail and no non-empty mail of it was refused |
| `CommitExactness.SyncFailureDurableIff` | src/storage-rbox/rbox-save.cpp:808-824 | if the sync commit fails after publication, the records stay durable iff the transaction had no mail |
| `CommitExactness.RollbackLeavesNothingIff` | src/storage-rbox/rbox-save.cpp:838-872 | a rollback, also in the middle of a save, leaves no object of the transaction iff the context is failed or unfinished, or nothing was stored |
| `SaveExamples.RefusedThenCommitted` | src/storage-rbox/rbox-save.cpp:628-680 | a concrete run from the empty system in which a refused mail is committed and its record names no object |
| `SaveExamples.SyncFailureLosesMail` | src/storage-rbox/rbox-save.cpp:808-824 | a concrete run in which a mail saved without fault is published, the sync commit fails and its object is deleted |
| `SaveExamples.RolledBackMailStays` | src/storage-rbox/rbox-save.cpp:838-872 | a concrete run in which a saved mail is rolled back and its object stays without any record |
| `SaveExamples.CopyMissingFromIndex` | src/storage-rbox/rbox-copy.cpp:180-227 | a concrete run in which a copied mail is found by a listing and not through the recovery index |
| `SaveExamples.MailWithoutMetadataDropped` | src/storage-rbox/rbox-save.cpp:488-494 | a concrete run in which a committed whole mail whose metadata write failed has no record after a rebuild |
| `SaveContext.Context.constructor` | src/storage-rbox/rbox-save.cpp:56-80 | a new context starts failed and finished and is the protocol's allocation step |
| `SaveContext.Context.Reuse` | src/storage-rbox/rbox-save.cpp:72-76 | a reused context starts neither failed nor finished, and keeps the mails of the transaction |
| `SaveContext.Context.Begin` | src/storage-rbox/rbox-save.cpp:212-260 | record and mail object are appended together, before any byte arrives, unless there is no connection; nothing is written |
| `SaveContext.Context.Continue` | src/storage-rbox/rbox-save.cpp:262-300 | the buffer grows by the bytes sent unless the save has failed |
| `SaveContext.Context.Finish` | src/storage-rbox/rbox-save.cpp:553-680 | returns 0 iff nothing failed before, the mail is neither empty nor too big and every chunk was written; then the object has grown by exactly the buffer, has its metadata with the mailbox of the save if the metadata operation succeeded and its attributes as before if not, no other object changed, and the oid is in the recovery index; otherwise nothing was written or a proper prefix of the mail |
| `SaveContext.Context.WriteChunks` | src/storage-rbox/rbox-save.cpp:496-537 | stops at the first chunk that fails and leaves exactly the chunks before it |
| `SaveContext.Context.Cancel` | src/storage-rbox/rbox-save.cpp:682-691 | marks the context failed and finished and writes nothing |
| `SaveContext.Context.Copy` | src/storage-rbox/rbox-copy.cpp:180-227 | copies data and attributes with the new mailbox, or leaves `failed`, mails and objects as they were |
| `SaveContext.Context.AssignUids` | src/storage-rbox/rbox-save.cpp:693-728 | the n-th mail gets the n-th saved UID, up to the first write that fails; there is a UID for every mail and none left over, so both assertions of the code hold |
| `SaveContext.UidsGivenAt` | src/storage-rbox/rbox-save.cpp:700-716 | for distinct mails the U attribute of mail i is the first UID plus i, and nothing else of the object changes |
| `SaveContext.Context.CommitPre` | src/storage-rbox/rbox-save.cpp:762-806 | returns 0 iff the sync begins, there is a header and every UID is written; otherwise the context is gone and no record was added: if the sync does not begin the objects of the transaction are deleted, without a header nothing is cleaned up, and after a UID that could not be written the mails before it keep theirs unless the context was failed |
| `SaveContext.Context.IndexCommit` | src/storage-rbox/rbox-save.cpp:781-792 | the appended records become committed ones with consecutive UIDs from the next UID (1 in a new mailbox), the ones written to their objects, and the next UID moves behind them |
| `SaveContext.Context.CommitPost` | src/storage-rbox/rbox-save.cpp:808-824 | exactly the expunged objects, and those of a failed transaction, are removed after their records |
| `SaveContext.Context.Rollback` | src/storage-rbox/rbox-save.cpp:838-872 | removes the objects of a failed or unfinished transaction and nothing else, and leaves the records alone |
| `SaveContext.Context.CleanUp` | src/storage-rbox/rbox-save.cpp:422-450 | deletes the objects of all mails of the transaction except those that cannot be removed |
| `SaveCalls.StoresAreDurable` | src/storage-rbox/rbox-save.cpp:553-872 | after any sequence of calls whose history is disciplined, the real store fields hold for each record an object with the bytes the client sent, its UID and, if the metadata was written, its mailbox |
| `SaveContext.ContextIsPaired` | src/storage-rbox/rbox-save.cpp:128-145 | the fields `mails` and `appended` of every context are equal, whatever calls were made |
| `SaveContext.OtherContextSurvives` | src/storage-rbox/rbox-save.cpp:56-80 | a context stays valid while another one is at work on the same stores; every method leaves all other sessions alone |
| `SaveCalls.TwoOpenSaves` | src/storage-rbox/rbox-save.cpp:212-300 | two transactions on the same stores with their calls interleaved are both valid and receive their own mails |
| `ExpungeQueue.SyncContext.Expunge` | src/storage-rbox/rbox-sync.cpp:49-80 | a range marks its records once and queues each that names an object exactly once |
| `ExpungeQueue.SyncContext.SyncIndex` | src/storage-rbox/rbox-sync.cpp:262-272 | the expunged records are the union of the ranges, however they overlap |
| `ExpungeQueue.SyncContext.RemoveObjects` | src/storage-rbox/rbox-sync.cpp:491-514 | removes exactly the objects named by expunged records, except those that cannot be removed |
| `ExpungeQueue.SyncContext.Finish` | src/storage-rbox/rbox-sync.cpp:516-555 | objects go only if the index commit succeeded; otherwise neither records nor objects change |
| `ExpungeQueue.RemainingKeepObjects` | src/storage-rbox/rbox-sync.cpp:491-514 | with distinct oids no remaining record loses its object |
| `ExpungeQueue.AlwaysSafeIff` | src/storage-rbox/rbox-sync.cpp:49-80 | every choice of records to expunge keeps the objects of the remaining ones iff no two records name the same object |
| `SaveCalls.QueueMeetsGuard` | src/storage-rbox/rbox-sync.cpp:350-437 | the items a sync has queued meet the guard under which a commit may expunge them |
| `ChunkedWriter.BufferStream.Sendv` | src/storage-rbox/ostream-bufferlist.cpp:55-79 | the buffer is the concatenation of everything sent and the stream offset its length |
| `ChunkedWriter.SaveMailWriteAppend` | src/storage-rbox/rbox-save.cpp:472-551 | leaves exactly the chunks before the first failure, on success the whole buffer, with metadata iff the metadata operation succeeded; no other object changes, the range checks cannot fail and the offset fits an int |
| `ChunkedWriter.SplitBufferAndExecOp` | src/librmb/rados-storage-impl.cpp:51-121 | the offset-based writer leaves the same object, and does notice a failed metadata operation |
| `ChunkedWriter.ChunkBounds` | src/storage-rbox/rbox-save.cpp:496-509 | chunk i starts at i times the chunk size inside the buffer, ends where the next one starts, and the last one ends the buffer |
| `ChunkedWriter.WritersAgree` | src/librmb/rados-storage-impl.cpp:51-121 | both writers leave the same store iff the metadata operation succeeds or no chunk is written |
| `RecoveryIndex.TextRefinesSet` | src/librmb/rados-storage-impl.cpp:606-644 | over every run of appends, overwrites and deletes the text reads back as the set of oids added since the last overwrite or delete |
| `RecoveryIndex.LineRoundTrip` | src/librmb/rados-util.cpp:373-391 | an appended oid is read back iff it is not empty and holds no comma and no NUL |
| `RecoveryIndex.IndexToSet` | src/librmb/rados-util.cpp:377-391 | the parser's loop yields the set the text stands for |
| `RecoveryIndex.ConvertSet` | src/librmb/rados-util.cpp:367-371 | the printer's loop yields a text that stands for the set |
| `RecoveryIndex.Index.AppendSet` | src/librmb/rados-storage-impl.cpp:612-616 | the oids read back afterwards are those before and those of the set |
| `RecoveryIndex.Index.Overwrite` | src/librmb/rados-storage-impl.cpp:617-621 | the oids read back afterwards are exactly those of the set |
| `RecoveryTheorem.IndexFindsAllMails` | src/storage-rbox/rbox-sync-rebuild.cpp:438-521 | over every disciplined run of saves, commits, expunges, crashes and forced rebuilds with any outcome that appends each saved oid and makes no copy, loading through the recovery index gives the same objects as listing the namespace |
| `RecoveryTheorem.CopyKeepsAgreementIff` | src/storage-rbox/rbox-copy.cpp:180-227 | a successful copy keeps the two in agreement iff the source has no valid metadata |
| `RecoveryTheorem.RecordSurvivesRebuildIff` | src/storage-rbox/rbox-save.cpp:488-494 | a committed mail is in the index after a rebuild iff its metadata write had succeeded |
| `Rebuild.LoadMetadata` | src/storage-rbox/rbox-sync-rebuild.cpp:99-140 | the groups partition the valid objects by their mailbox attribute |
| `Rebuild.ValidateIff` | src/librmb/rados-util.cpp:191-229 | metadata is valid iff the attributes U, R, Z, V, M and G are there and U, R, Z, V and, if there, F and C hold digits only |
| `Rebuild.DecimalRoundTrip` | src/storage-rbox/rbox-sync-rebuild.cpp:86-93 | the U attribute written for a UID reads back as that UID |
| `Rebuild.Storage.RebuildEntry` | src/storage-rbox/rbox-sync-rebuild.cpp:143-201 | mails not yet restored get consecutive UIDs in list order, up to the first that cannot be converted; exactly these are flagged and rewritten |
| `Rebuild.Storage.RebuildIndex` | src/storage-rbox/rbox-sync-rebuild.cpp:544-590 | the mailbox is refilled from the old next UID with a kept UIDVALIDITY, or its index stays as it was |
| `Rebuild.Storage.RepairNamespace` | src/storage-rbox/rbox-sync-rebuild.cpp:405-542 | mails are loaded once, and every mailbox before the first foreign, virtual or unopenable one is rebuilt |
| `Rebuild.VisitedAllIff` | src/storage-rbox/rbox-sync-rebuild.cpp:405-430 | a mailbox is rebuilt iff it is selectable and no selectable mailbox up to it in its namespace is foreign, virtual or cannot be opened |
| `Rebuild.FindInbox` | src/storage-rbox/rbox-sync-rebuild.cpp:358-399 | finds a GUID iff no selectable mailbox of the namespace is virtual or unopenable and one is called INBOX; it is that of the last one |
| `Rebuild.FindDefault` | src/storage-rbox/rbox-sync-rebuild.cpp:348-356 | the GUID of the last INBOX in the first namespace in which one is found, and none iff there is no such namespace |
| `Rebuild.DefaultIsOne` | src/storage-rbox/rbox-sync-rebuild.cpp:348-356 | that description fits at most one GUID |
| `Rebuild.Storage.LoadOnce` | src/storage-rbox/rbox-sync-rebuild.cpp:438-521 | the mails are those the configured search lists; with search method 2 the recovery index is read, and overwritten with exactly the valid ones |
| `Rebuild.AllRestoredIff` | src/storage-rbox/rbox-sync-rebuild.cpp:259-296 | a pass restores every mail iff every valid object has a visited mailbox and can be converted |
| `Rebuild.CountMails` | src/storage-rbox/rbox-sync-rebuild.cpp:281-290 | the two totals together count every loaded mail once, and none is left over iff all are restored |
| `Rebuild.Storage.GiveToInbox` | src/storage-rbox/rbox-sync-rebuild.cpp:306-332 | exactly the mails not restored get the given mailbox as M and 2147483647 as U; nothing else changes |
| `RebuildPasses.RepairAndCount` | src/storage-rbox/rbox-sync-rebuild.cpp:259-295 | in each pass assigned plus unassigned is the number of valid objects |
| `RebuildPasses.RebuildInContext` | src/storage-rbox/rbox-sync-rebuild.cpp:259-346 | returns 0 iff no mailbox is visited, there is no default mailbox, or all valid objects the search finds convert and each has a home or INBOX is visited on the first try; in the last case the records of the visited mailboxes and the valid objects correspond one to one, the mails of mailboxes that are not visited have as M the GUID of a mailbox called INBOX, the last one of the first namespace in which it can be found, UIDs are consecutive from at least the old next UID (or 1) up to the new one, exactly from it if one pass is enough, and a UIDVALIDITY stays (section 2.3.1.1 of RFC 3501). In every case only mailbox and UID of valid objects change, the mailbox only to that INBOX, each index keeps its records or names valid objects only, and the recovery index lists the valid ones |
| `RebuildPasses.PassCompletes` | src/storage-rbox/rbox-sync-rebuild.cpp:143-201 | one pass over objects that convert and have a home leaves records and valid objects in one-to-one correspondence |
| `RebuildPasses.AfterGiving` | src/storage-rbox/rbox-sync-rebuild.cpp:306-332 | giving lost mails to INBOX changes neither validity nor convertibility, and then every mail has a visited mailbox if INBOX is visited |
| `RebuildPasses.UidsNeverReused` | src/storage-rbox/rbox-sync-rebuild.cpp:143-215 | every UID of a later pass is above every UID of an earlier one |
| `RebuildRecords.ExactlyOneRecord` | src/storage-rbox/rbox-sync-rebuild.cpp:143-201 | no object is named by two records of the visited mailboxes |
| `RebuildRecords.NamedOnceIff` | src/storage-rbox/rbox-sync-rebuild.cpp:405-542 | over all mailboxes, visited or not, no object is named twice after a rebuild that restores every mail iff no record of an unvisited mailbox named a valid object before |
| `RebuildRecords.MailRestoredTwice` | src/storage-rbox/rbox-sync-rebuild.cpp:411-430 | a concrete rebuild that returns 0: the mail of a mailbox behind one that cannot be opened is restored in INBOX and keeps its old record |
| `RebuildRecords.UnconvertibleMailFails` | src/storage-rbox/rbox-sync-rebuild.cpp:143-201 | a concrete rebuild that returns -1 because of one mail that cannot be converted |
| `RebuildRecords.LeftoverWithoutInbox` | src/storage-rbox/rbox-sync-rebuild.cpp:297-304 | a concrete rebuild without INBOX that returns 0 and leaves a valid mail without a record |
| `RebuildBridge.RebuildIsProtocolStep` | src/storage-rbox/rbox-sync-rebuild.cpp:438-542 | a rebuild by search method 2 that visits every mailbox and restores every mail is a step of the save protocol: its guard holds, and its store, records, next UIDs and index text are those the rebuild leaves |
| `RebuildBridge.ForcedRebuild` | src/storage-rbox/rbox-sync-rebuild.cpp:259-346 | the rebuild itself, from a represented world: if it can restore every mail it makes the step of the protocol, and however it ends the index goes on agreeing with a listing |
| `RebuildBridge.AgreementSurvives` | src/storage-rbox/rbox-sync-rebuild.cpp:506-521 | after any rebuild, successful or not, recovery index and listing find the same mails if they did before |
| `RebuildBridge.RebuiltRecords` | src/storage-rbox/rbox-sync-rebuild.cpp:143-201 | the records of the visited mailboxes have distinct oids and ascending UIDs below the next one, and name exactly the valid objects |
| `RebuildBridge.AnyRebuildIsStep` | src/storage-rbox/rbox-sync-rebuild.cpp:259-346 | a rebuild by search method 2 of any mailboxes, with mails that cannot be converted, mailboxes that cannot be opened and with or without INBOX, is a step of the save protocol and leaves a represented world |
| `RebuildBridge.AnyForcedRebuild` | src/storage-rbox/rbox-sync-rebuild.cpp:259-346 | the same on the rebuild itself |
| `RecoveryRebuild.RunGoesOn` | src/storage-rbox/rbox-sync-rebuild.cpp:438-521 | a rebuild with any outcome makes a run one event longer; what is proved of runs holds of what follows |
| `RecoveryRebuild.AnyRebuildAgrees` | src/storage-rbox/rbox-sync-rebuild.cpp:438-521 | wherever in a run that keeps the index up to date a rebuild is made, and however it ends, index and listing agree afterwards |
| `RebuildCount.OneRebuild` | src/storage-rbox/rbox-sync-rebuild.cpp:544-590 | with the index locked from check to commit, of all processes that noticed the corruption at one count other than 0 a second commits a rebuild only after the 32-bit count went all the way round |
| `RebuildCount.TwoRebuilds` | src/storage-rbox/rbox-sync-rebuild.cpp:544-590 | of those that noticed at count 0 the same holds for a third |
| `RebuildCount.AtMostOneOrTwo` | src/storage-rbox/rbox-sync-rebuild.cpp:432-436 | in a run with the lock and fewer committed rebuilds than a full round, at most one committed rebuild answers each count and at most two the count 0 |
| `RebuildCount.AttemptsBounded` | src/storage-rbox/rbox-sync-rebuild.cpp:574-590 | the rebuilds that run for one count are those that are rolled back and one more, or two for the count 0 |
| `RebuildCount.NoneAfterOne` | src/storage-rbox/rbox-sync-rebuild.cpp:552-563 | after a committed rebuild nobody who noticed at the same count other than 0 even runs one |
| `RebuildCount.RaceWithoutLock` | src/storage-rbox/rbox-sync-rebuild.cpp:434-436 | without the lock two processes check before either commits, and both rebuild, for every count other than 0 |
| `RebuildCount.RaceAtZero` | src/storage-rbox/rbox-sync-rebuild.cpp:434-436 | without the lock three processes rebuild at count 0 |
| `RebuildCount.NeverZeroAgain` | src/storage-rbox/rbox-sync-rebuild.cpp:217-232 | once a rebuild was committed the count is never 0 |
| `RebuildCount.GoesAheadIff` | src/storage-rbox/rbox-storage.cpp:676-694 | a process that noticed goes ahead with a rebuild iff none was committed since, or one was and the mailbox had never been rebuilt |
| `RebuildCount.Storage.CheckCount` | src/storage-rbox/rbox-sync-rebuild.cpp:552-563 | the counters of the process follow the check event of the machine |
| `RebuildCount.Storage.FinishRebuild` | src/storage-rbox/rbox-sync-rebuild.cpp:574-590 | the counters follow the end of a rebuild |
| `Metadata.ImaRefinesDefault` | src/librmb/rados-metadata-storage-ima.cpp:29-174 | after a save and any changes of a freshly loaded mail, while attributes may become updateable, a fresh load gives the attributes and keywords of the Default module as C strings, and for every attribute the value it was last set to |
| `Metadata.ChangeAgreesIff` | src/librmb/rados-metadata-storage-ima.cpp:111-121 | one change with any attributes in memory agrees with Default iff the attribute is updateable, or no older value hides it and nothing stale is written back |
| `Metadata.FreshChangeAgreesIff` | src/librmb/rados-metadata-storage-ima.h:27-33 | with a mail just loaded only a value stored on its own can hide the change |
| `Metadata.SaveAgreesIff` | src/librmb/rados-metadata-storage-ima.cpp:138-174 | a saved mail agrees with Default iff keywords are not updateable, updates are on, or there are no keywords |
| `Metadata.KeywordsLost` | src/librmb/rados-metadata-storage-ima.cpp:154-167 | a concrete mail whose keywords are saved and cannot be loaded again |
| `Metadata.ShrinkingHidesChange` | src/librmb/rados-metadata-storage-ima.cpp:95-100 | an attribute that stops being updateable keeps its old value for every reader |
| `Metadata.StaleMailUndoesChange` | src/librmb/rados-metadata-storage-ima.cpp:110-121 | setting another attribute through a mail kept in memory undoes the change of an updateable one |
| `Metadata.Ima.LoadMetadata` | src/librmb/rados-metadata-storage-ima.cpp:60-108 | a fresh load is the packed attributes overridden by those on their own; a mail with attributes is not reloaded |
| `Metadata.Ima.ParseAttribute` | src/librmb/rados-metadata-storage-ima.cpp:29-58 | splits the JSON object into attributes and keywords |
| `Metadata.Ima.SaveMetadata` | src/librmb/rados-metadata-storage-ima.cpp:138-174 | the write operation turns any object into the specified one |
| `Metadata.SavedLayout` | src/librmb/rados-metadata-storage-ima.cpp:138-153 | an attribute is stored on its own iff its letter is updateable and updates are on, else in the JSON object as a C string |
| `Metadata.KeywordsLayout` | src/librmb/rados-metadata-storage-ima.cpp:154-174 | keywords go to the omap under the same condition, else into the JSON object under K |
| `Metadata.Ima.SetMetadata` | src/librmb/rados-metadata-storage-ima.cpp:111-121 | writes the updateable attribute on its own, or rewrites the packed ones from memory |
| `Metadata.Default.SaveMetadata` | src/librmb/rados-metadata-storage-default.cpp:54-63 | each attribute and keyword is stored on its own |
| `Metadata.DefaultHoldsLastSet` | src/librmb/rados-metadata-storage-default.cpp:39-42 | after any changes each attribute is what it was last set to, and the keywords are as saved |
| `DictTransaction.CommitIsOneByOneIff` | src/dict-rados/dict-rados.cpp:419-545 | for every store, a commit has the effect of the operations one by one iff each key is used in an orderly way: no increment after a last unset, cancelling increments before a last set of a number |
| `DictTransaction.KeyAgreesIff` | src/dict-rados/dict-rados.cpp:419-505 | the same for one key and every stored value |
| `DictTransaction.SimpleRule` | src/dict-rados/dict-rados.cpp:419-505 | keys never incremented before their last set or after their last unset are used in an orderly way |
| `DictTransaction.DisorderlyUses` | src/dict-rados/dict-rados.cpp:540-545 | an increment before a set is added to the value set, one after an unset is lost |
| `DictTransaction.Transaction.AddSet` | src/dict-rados/dict-rados.cpp:419-425 | the three collections stay what the operations so far amount to |
| `DictTransaction.Transaction.AddUnset` | src/dict-rados/dict-rados.cpp:427-427 | as above for an unset |
| `DictTransaction.Transaction.AddInc` | src/dict-rados/dict-rados.cpp:429-435 | as above for an increment, which is summed |
| `DictTransaction.Transaction.Commit` | src/dict-rados/dict-rados.cpp:437-572 | all sets, then sums, then unsets, private keys in the private object and shared keys in the shared one; always answers OK |
| `DictTransaction.OnOwnSide` | src/dict-rados/dict-rados.cpp:388-394 | after a commit the private object holds the deployed value of every key that starts with priv/ and the shared object that of every key that starts with shared/; every other entry of both is as before |
| `DictTransaction.IncrementOne` | src/dict-rados/dict-rados.cpp:472-479 | an increment takes a missing value for 0, adds to a number and leaves any other text |
| `DictLaws.IterationShowsCommit` | src/dict-rados/dict-rados.cpp:437-864 | after a commit whose operations on a key are orderly, an iteration over any paths shows for that key exactly what the operations one by one leave in the object of its side, iff one of the paths asks for it |
| `DictLaws.SetIsShown` | src/dict-rados/dict-rados.cpp:437-864 | the value last set for a key, with no increment before and nothing after, is shown by every iteration that asks for the key |
| `DictTransaction.Transaction.Rollback` | src/dict-rados/dict-rados.cpp:574-581 | the store is unchanged |
| `DictIterate.IterateAll` | src/dict-rados/dict-rados.cpp:658-864 | iterating until the first FALSE gives one pair for each entry of the answer, in its order: the key, and the value or nothing with the no-value flag, both as C strings; fails iff there is no path or a side asked for cannot be read |
| `DictIterate.Iterator.Iterate` | src/dict-rados/dict-rados.cpp:823-864 | returns key and value of the next entry that passes the filter, no value with the no-value flag, and moves past it; the self-recursion ends because fewer entries are unread |
| `DictIterate.Drain` | src/dict-rados/dict-rados.cpp:823-864 | a caller sees key and value of each remaining entry once, in order |
| `DictIterate.OnPathsIff` | src/dict-rados/dict-rados.cpp:839-850 | an entry is visited iff some path is its prefix and, unless recursing, no '/' follows |
| `DictIterate.OnPathListing` | src/dict-rados/dict-rados.cpp:706-716 | within one path keys ascend strictly |
| `DictIterate.OnPathsOrder` | src/dict-rados/dict-rados.cpp:700-716 | for each path in turn every matching entry is visited exactly once, in the order of the keys |
| `DictIterate.PrivateFirst` | src/dict-rados/dict-rados.cpp:684-760 | the answer is exactly the wanted entries of the private object followed by those of the shared one |
| `DictIterate.LessIff` | src/dict-rados/dict-rados.cpp:669-682 | the order of paths and keys: the first difference decides and a proper prefix comes first |
| `DictIterate.SplitPaths` | src/dict-rados/dict-rados.cpp:669-682 | the paths of each side, ascending and without duplicates; others are ignored |
| `SaveLog.LogRoundTripIff` | src/librmb/rados-save-log.h:85-114 | a printed log is read back entry by entry iff no field holds a comma or line end and no oid is empty |
| `SaveLog.MoveRoundTripIff` | src/librmb/rados-save-log.h:41-83 | for values stored with their NUL, source and attributes of a move are read back, the values without it, iff no name or value holds a separator of its level and user and values are not empty |
| `SaveLog.MetaRoundTripIff` | src/librmb/rados-metadata.h:50-68 | a key and a value stored with its NUL are read back as key and value iff neither holds a '=' and the value is not empty |
| `SaveLog.MetaTextIs` | src/librmb/rados-metadata.h:64-68 | an attribute is printed as key, '=' and all of its stored bytes but the last |
| `SaveLog.PrintedForms` | src/librmb/rados-save-log.h:85-88 | the printed line of an entry, and the text of a move operation |
| `SaveLog.JoinedTokensIff` | src/librmb/rados-save-log.h:85-99 | joined items are read back iff none holds the separator and the last is not empty |
| `SaveLog.MovesInLog` | src/librmb/rados-save-log.h:41-114 | a log of clean entries gives back for each move in it source namespace, oid, user and the values of the attributes |
| `SaveLog.ConvertMetadata` | src/librmb/rados-save-log.h:116-130 | the loop joins the attribute texts |
| `SaveLog.Entry.ParseMvOp` | src/librmb/rados-save-log.h:41-75 | fills the source fields and the attributes up to the first malformed one |
| `SaveLog.ParsedPrefix` | src/librmb/rados-save-log.h:62-75 | the attributes read are those before the first malformed one, which is found iff reading fails |
| `SaveLog.NotAMove` | src/librmb/rados-save-log.h:41-61 | an operation other than a move leaves the entry as it is |
| `SaveLog.ReadLog` | src/librmb/tools/rmb/rmb-commands.cpp:63-77 | reads entries up to the end of the file or the first malformed line |
| `AsyncSearch.SearchFindsAll` | src/librmb/rados-storage-impl.cpp:219-298 | under every interleaving the search returns exactly the oids listed by some PG of some valid OSD, with every worker finished and joined |
| `AsyncSearch.WindowBounded` | src/librmb/rados-storage-impl.cpp:277-291 | at no time are more than `num_threads` workers unjoined |
| `AsyncSearch.NeverStuck` | src/librmb/rados-storage-impl.cpp:277-296 | until the search has returned somebody can take a step |
| `AsyncSearch.RunsAreBounded` | src/librmb/rados-storage-impl.cpp:219-298 | no schedule is longer than the work there was at the start |
| `PgTable.ExtractPgAndPrimaryOsd` | src/librmb/rados-util.cpp:317-349 | the list of each OSD holds the PGs of its accepted rows in order, and there is no empty list |
| `PgTable.RowGives` | src/librmb/rados-util.cpp:330-343 | a row with fourteen or more columns between any number of blanks of which the fourteenth is a list in brackets, gives its first column as PG, and as OSD the text between the bracket and the first comma |
| `PgTable.RowsAreConserved` | src/librmb/rados-util.cpp:317-349 | together the lists hold as many PGs as there are accepted rows |
| `PgTable.Split` | src/librmb/rados-util.cpp:351-365 | items without white space, empty ones dropped |
| `PgTable.TrimmedAppends` | src/librmb/rados-util.cpp:351-365 | white space goes and every other character stays in its order |
| `NamespaceCache.LookupIsUncached` | src/librmb/rados-namespace-manager.cpp:20-58 | at any point of any run a lookup answers as an uncached read would: the name of the user without user mapping, else what the entry object holds; and the io context namespace is empty again |
| `NamespaceCache.KeepsNamespaceIff` | src/storage-rbox/rbox-storage.cpp:503-526 | a user who has a namespace gets it again iff it is cached or the store can be read; otherwise a new one replaces it |
| `NamespaceCache.NamespaceReplaced` | src/storage-rbox/rbox-storage.cpp:510-514 | a concrete opening whose read fails replaces the namespace of a user |
| `NamespaceCache.DistinctUsers` | src/librmb/rados-namespace-manager.cpp:61-88 | over every run of openings and plain lookups distinct users are given distinct namespaces, even when the store fails in between |
| `NamespaceCache.RunCoherent` | src/librmb/rados-namespace-manager.cpp:20-88 | over every run of openings and plain lookups each cache entry equals the stored object |
| `NamespaceCache.OthersUntouched` | src/librmb/rados-namespace-manager.cpp:20-88 | a call changes nothing of other users, in the cache or in the store, and a plain lookup writes nothing |
| `NamespaceCache.Manager.Open` | src/storage-rbox/rbox-storage.cpp:503-526 | looks up, or creates and stores, as the run steps specify |
| `Gzip.OpenedIntact` | src/storage-rbox/rbox-mail.cpp:582-595 | with no flags and a length from 1 to 2^24 - 1, opening gives the intact data whether the last zero was lost or not |
| `Gzip.DamageNoticedIff` | src/storage-rbox/rbox-mail.cpp:613-627 | a lost zero byte is noticed iff 255 times the length plus one byte of the CRC exceeds the header length |
| `Gzip.IntactIff` | src/storage-rbox/rbox-mail.cpp:582-595 | the check fires on an intact member iff its length does not fit the 32-bit trailer |
| `Gzip.Le32Value` | src/storage-rbox/rbox-mail.cpp:613-627 | the four trailer bytes of a length give the length back |
| `Gzip.RepairTrailer` | src/storage-rbox/rbox-mail.cpp:582-595 | appends one zero exactly when the magic bytes match and the check fires; without the magic bytes data and length stay |
| `Gzip.HeaderLengthIff` | src/storage-rbox/rbox-mail.cpp:646-688 | for every flags byte, the header length the code computes is that of section 2.3 of RFC 1952 iff the only flag is the text hint, the CRC or an extra field shorter than 256 bytes, or the flags are others and one empty text follows |
| `Gzip.HeaderLengthOff` | src/storage-rbox/rbox-mail.cpp:646-688 | by how much the length is wrong: one too many without flags, one too few with a name or a comment, 255 times the high byte of the length too few with an extra field |
| `Gzip.HeaderExamples` | src/storage-rbox/rbox-mail.cpp:646-688 | a header without flags is taken for one byte longer, and one with an extra field of 256 bytes for 13 bytes |
| `Gzip.HeaderDynamicSize` | src/storage-rbox/rbox-mail.cpp:676-683 | finds the first zero from offset 10 |

## Left out

- librados, Dovecot's index and the GUID generator: abstract operations that succeed or fail atomically; GUIDs are fresh.
- Timeouts, retries and random sleeps: an operation has one outcome.
- Alternative storage and `move_to_alt`: primary storage only.
- The `moving` flag of a copy (`rbox-save.cpp:860`), which only skips the clean-up of a failed move.
- `is_write_chunks`, which clears the buffer on each send.
- `RadosMetadataStorageIma::update_metadata`, and the keyword calls of both modules.
- A rebuild without force over several mailboxes: the storage-wide count is reset after the first one.
- Unreadable index headers when a mailbox is marked or rebuilt.
- `std::stoi` on the U attribute during a rebuild, which throws for an empty text that `is_numeric` accepts and for a number above INT_MAX.
- JSON as text: the packed attribute is the object it denotes, with UTF-8 values; reading an omap replaces the keywords parsed before.
- Keys of attributes are C strings other than the storage attribute; an attribute named "K" is excluded where the theorems say so.
- 64-bit overflow of summed increments and the floating point of the `numops` class; failed dictionary writes, which the code only logs.
- `PgTable.ExtractPgAndPrimaryOsd`: rows whose OSD column holds only commas are required away, because the code then reads an element of an empty list.
- A listing that changes while the parallel search runs, and the filter of search method 1, which the workers do not use.
- CRC and compressed blocks of a gzip member: arbitrary bytes.
- `SaveContext.Context.CleanUp`: the expunge of the last appended record in the pending index transaction, which is dropped anyway.
- `CommitExactness.CommitDurableIff`: no step of another session falls between those of the commit; interleaved commits are covered by `SaveTheorems.DurableAtEveryStep`.
- `RebuildCount.AtMostOneOrTwo`: counts committed rebuilds, and `RebuildCount.AttemptsBounded` those that are rolled back too. The header read under the lock is the current one.
- `SaveContext.Context.Finish`: the calls of one context are taken as a sequence; interleaving of sessions inside a call is covered by the protocol machine.
- `RebuildPasses.RebuildInContext`: store writes succeed, mailboxes are visited once, and no other process changes the store meanwhile.
- Command line tools, listings, configuration, date and flag conversion, mailbox tools, plugin registration.
