# Threadmark in Dafny

Threadmark stores conversations for agents. Behind its HTTP layer sit two state machines and a lexer: the
conversation ledger (`src/store.rs`), the direct-upload protocol with its deletion outboxes (`src/uploads.rs`,
`src/files.rs`), and the strict JSON reader with its number scanner (`src/model.rs`). This project models
those three and proves what they promise, over every run. `dafny verify dfyconfig.toml` verifies everything.

## What is modelled

**The ledger.** `LedgerState.dfy` gives every transaction as a function from tables and request to tables and
answer, `LedgerInvariant.dfy` the invariant, `LedgerSteps.dfy` that every transaction keeps it.
`LedgerHistory.dfy` says what a run cut off or removed; `LedgerTheorems.dfy`, `LedgerSequence.dfy` and
`LedgerTurns.dfy` hold the results over runs, `LedgerReplay.dfy`, `LedgerRequests.dfy` and `LedgerEdits.dfy`
what each request answers and writes. `Ledger.dfy` is the class `Tables`, whose methods perform the
transactions statement by statement and are proved equal to those functions. Truncation lowers `next_seq`, so
sequence numbers are used again, while turn-start records are never deleted: the results about retries and
replays are statements about histories.

**Locks.** `StartLocks.dfy` and `FileLocks.dfy` (with `FileLockTheorems.dfy`) take the requests apart where
locks matter: the advisory lock and the row lock of a turn start, and the KEY SHARE and UPDATE locks on file
rows. `LockKey.dfy` is the framing of the advisory lock key.

**Uploads.** `UploadRows.dfy` has the tables and their transactions, `ObjectStore.dfy` a versioned bucket,
`UploadProtocol.dfy` the interleaved steps of any number of `complete`, `save`, `remove` and cleanup calls,
`UploadInvariant.dfy` and `UploadSteps.dfy` its invariant, `UploadTheorems.dfy`, `UploadBookkeeping.dfy`,
`UploadLeases.dfy`, `UploadTransactions.dfy`, `OutboxRows.dfy` and `CleanupPasses.dfy` the results. None of
these relies on the clock. `StagingDrain.dfy` runs the same steps under one clock and adds signed forms;
`StagingTheorems.dfy` and `StagingPasses.dfy` have its results. `Uploads.dfy` is the service as a class, with
the loops; one undisturbed `complete` is shown to be a run of the protocol's steps. `UploadNames.dfy` and
`InitiateRace.dfy` cover normalisation and concurrent `initiate` calls.

**Strict JSON.** `NumberScanner.dfy` is the byte loop, against RFC 8259 (sections 2, 6 and 7). `Binary64.dfy`
is the integer test, against section 4.3.1 of IEEE 754-2019. `StrictJson.dfy` is the visitor with its loops.

`Text.dfy`, `Json.dfy`, `FileUri.dfy` and `AgentProjection.dfy` are what the others share: trimming, JSON
values, canonical file URIs and the agent projection.

## Where the code and its documentation differ

`README.md:76` of the repository promises gap-free item ordering. Regeneration removes items and leaves
`next_seq` alone (`src/store.rs:1311-1314`), so gaps appear. `LedgerSequence.GapFreeFails` is such a run,
`LedgerSequence.GapAppearsIff` says exactly which request makes the first gap, and
`LedgerSequence.HolesAreVacated` and `LedgerSequence.NoRegenerationNoHoles` say what the gaps are and when
there are none.

## Assumptions

- A transaction is one step, and a refused one leaves the tables as they were. Unique indexes and foreign keys are guards.
- Ids come from one counter in the ledger, so later rows have larger ids and the latest turn is the last one
  committed. In the upload modules tokens, keys and ids are named after the call that drew them.
- Digests are taken to be injective: a stored digest is the normalised request itself.
- The object store puts, copies, heads, lists and deletes one version atomically. A written version keeps its bytes,
  except that a write without versioning replaces the version called `null`.
- `StagingDrain` only: one clock that never goes back, and a form for an upload read as pending is signed at most
  5 seconds after the `now()` of the transaction that completes it.

## Model

| member | source | states |
|---|---|---|
| FileUri.UriShape | src/files.rs:173-180 | the texts accepted are the prefix `threadmark://files/` and at least one letter, digit, underscore or hyphen, all ASCII |
| FileUri.ParseInvertsUri | src/files.rs:173-180 | a text parses to an id exactly when the id is canonical and the text is its URI |
| FileUri.ReferencesAreUris | src/store.rs:793-819 | the ids collected from a payload are exactly those whose URI is a string value at some depth |
| FileUri.ContainsIffReferences | src/store.rs:1016-1023 | a payload contains a file URI exactly when it has a reference |
| FileUri.Visit | src/store.rs:793-814 | the recursive visitor adds to its accumulator exactly the references of the value |
| FileUri.ReferencedFileIds | src/store.rs:793-819 | the collected ids are the references, none twice |
| AgentProjection.StripIsExact | src/store.rs:963-968 | stripping removes the configured top-level fields and leaves every other field as it was |
| AgentProjection.ProjectionIsExact | src/store.rs:952-1023 | on success the output has the items' length and order, is within both limits, and no string at any depth of it is a file URI |
| AgentProjection.ValidateAgentTextItem | src/store.rs:979-1014 | accepts exactly the plain text items of a known role with the part type and fields that belong to it |
| AgentProjection.BuildAgentProjection | src/store.rs:952-977 | the loop computes the projection, with the limits applied in the code's order |
| AgentProjection.ReplayableExactly | src/store.rs:979-1014 | an item is replayed exactly if it is a user's message of input texts or an assistant's of output texts, the latter with annotations at most, and holds no file URI at any depth |
| AgentProjection.ProjectOutcome | src/store.rs:952-977 | which of the two errors says why a projection fails |
| LedgerSteps.AppendKeeps | src/store.rs:648-791 | an append keeps the ledger invariant |
| LedgerSteps.StartTurnKeeps | src/store.rs:303-611 | a turn start keeps it, whether it creates the conversation or not |
| LedgerSteps.CreateTurnKeeps | src/store.rs:1135-1213 | a turn creation keeps it |
| LedgerSteps.UpdateTurnKeeps | src/store.rs:1328-1361 | a status change keeps it, reactivations included |
| LedgerSteps.TruncateKeeps | src/store.rs:1257-1295 | a truncation keeps it, although it frees sequence numbers |
| LedgerSteps.RegenerateKeeps | src/store.rs:1297-1326 | a regeneration keeps it, although it leaves holes |
| LedgerSteps.DeleteKeeps | src/store.rs:175-188 | a deletion keeps it, although start records outlive the conversation |
| LedgerSteps.ContinueKeeps | src/store.rs:1364-1399 | recording a continuation keeps it |
| LedgerSteps.RunKeeps | src/store.rs:303-1399 | every run of transactions keeps it |
| LedgerHistory.RunBelow | src/store.rs:1273-1314 | while nothing cuts at or below a number, the items at or below it stay, unchanged, but for those regeneration removed, and nothing is inserted there |
| LedgerHistory.RunStaysGone | src/store.rs:1273-1292 | an item that is gone from a conversation never comes back, whatever reuses its number |
| LedgerHistory.StartsPersist | src/store.rs:536-600 | a turn-start record stays for ever, unchanged |
| LedgerTheorems.CompletenessTestsAgree | src/store.rs:431-444 | the ordinal-by-ordinal test of a retry and the count test of a replay agree, and both mean that the start's last item is still there |
| LedgerTheorems.IntactNotRegenerable | src/store.rs:1304-1314 | regeneration never reaches the range of an intact start or anything before it |
| LedgerTheorems.IntactIffUncut | src/store.rs:1273-1292 | after any run a start is intact if and only if no truncation or deletion cut at or below its last number |
| LedgerTheorems.CutIsForever | src/store.rs:1273-1292 | once cut, the start's last item never returns |
| LedgerTheorems.FirstStart | src/store.rs:480-600 | a first start records exactly what it answers, and is intact |
| LedgerTheorems.RetryDecidedByHistory | src/store.rs:358-458 | a retry returns the original answer if and only if nothing cut at or below its last number since; otherwise it reports deletion, for ever; it changes nothing |
| LedgerTheorems.StartOnlyOnce | src/store.rs:358-458 | no later request under the key ever starts a turn again, after any run |
| LedgerTheorems.OneActiveTurn | migrations/0003_active_turn.sql:1-3 | in every run a conversation has at most one pending or streaming turn, and no two turns share a key |
| LedgerTheorems.ReplayFindsRecord | src/store.rs:857-886 | a replay is answered from the one record that started the turn |
| LedgerTheorems.ReplayImmutable | src/store.rs:857-943 | two successful replays of a turn under one configuration return the same input, whatever ran in between |
| LedgerTheorems.ReplayEndsWithTurn | src/store.rs:888-943 | a successful replay ends with the turn's own items, in order, stripped of the configured fields only |
| LedgerTheorems.ReplayReferencesNothing | src/store.rs:952-1023 | no item that was replayed has a file-reference row |
| LedgerReplay.ReplayIsTranscript | src/store.rs:922-935 | a successful replay has one element for every item numbered from 1 to its boundary and no other, each at the place that is the number of items below it, stripped of the configured fields |
| LedgerReplay.ReplayOutcome | src/store.rs:857-943 | when a replay succeeds, and which error says why it does not |
| LedgerReplay.ReplayNeedsStart | src/store.rs:870-886 | without a record of the turn's start there is nothing to replay |
| LedgerSequence.RemovedWithTurn | src/store.rs:1304-1314 | an uncut item was removed if and only if it is an agent item of a turn that was regenerated |
| LedgerSequence.FirstAppend | src/store.rs:739-785 | a first append places the payloads, in order, in a fresh range from `next_seq` and answers with those rows |
| LedgerSequence.AppendRetry | src/store.rs:675-699 | while the batch is uncut, any request under its key changes nothing and answers with the rows first inserted, or none of them if they are an agent's and their turn was regenerated |
| LedgerSequence.CutFreesKey | src/store.rs:1278-1282 | a truncation that reaches a batch frees its key |
| LedgerSequence.ContinuationFrozen | src/store.rs:1364-1399 | as long as a continuation lives, the items up to its `through_seq` are those present when it was recorded, and `through_seq` is below `next_seq` |
| LedgerSequence.HolesAreVacated | src/store.rs:1304-1314 | the missing numbers are exactly those vacated by regeneration and not cut off since |
| LedgerSequence.NoRegenerationNoHoles | src/store.rs:1304-1314 | runs without regeneration vacate nothing |
| LedgerSequence.GapAppearsIff | src/store.rs:1297-1326 | a dense conversation becomes gapped by one request if and only if that is the owner's regeneration of a turn with agent items |
| LedgerSequence.GapFreeFails | README.md:76 | a run after which `next_seq` is 2 and item 1 is missing |
| LedgerSequence.SequenceDiscipline | src/store.rs:528-569 | in every run numbers are positive and below `next_seq`, ids are unique, runs without regeneration are dense, and live batches and intact starts do not overlap |
| LedgerSequence.NoDanglingReference | src/store.rs:716-769 | in every run an item's reference rows are exactly the canonical URIs in its payload, and every referenced or snapshotted file exists and belongs to the conversation's owner |
| LedgerSequence.RemoveExact | src/files.rs:85-123 | removing a file succeeds if and only if the caller owns it and no live payload and no snapshot mentions it |
| LedgerTurns.TurnsFrozen | src/store.rs:1328-1361 | until its conversation is deleted a turn is never removed or changed but for its status; its file snapshot is frozen |
| LedgerTurns.CreateTurnRetry | src/store.rs:1143-1165 | creating a turn again under its key changes nothing and names the same turn, in its status by then; under another agent it is refused |
| LedgerTurns.UpdateTurnExact | src/store.rs:1328-1361 | a status change touches one turn only, and is refused exactly when it would make a second one active |
| LedgerTurns.StartSnapshot | src/store.rs:226-253 | the snapshot of a started turn holds exactly the files referenced by items before the turn's own |
| LedgerTurns.ContinuationCovers | src/store.rs:1376-1398 | a continuation is recorded under a new key only; without a boundary of its own it covers the whole transcript |
| LedgerTurns.ContinuationLivesExactly | src/store.rs:1283-1318 | a continuation lives, unchanged, if and only if its conversation was not deleted, cut at or below its boundary or regenerated since; after that its id never returns |
| LedgerTurns.RunKeepsIds | src/store.rs:1380-1398 | in every run the ids of continuations are unique |
| LedgerRequests.Utf8Counts | src/store.rs:654 | the key's length is counted in bytes: one for each character and one more for each boundary of UTF-8 it has passed |
| LedgerRequests.AppendOutcome | src/store.rs:654-740 | which appends are refused and with which error; refusals and retries write nothing |
| LedgerRequests.AppendWritesExactly | src/store.rs:739-785 | a first append writes its items at the end, its batch and the next number, and nothing else anywhere |
| LedgerRequests.StartNormalised | src/store.rs:308-343 | which starts are valid, and what of them is digested: key, agent and title trimmed, a title by default |
| LedgerRequests.StartOutcome | src/store.rs:460-533 | which first starts are refused and with which error; a refusal writes nothing |
| LedgerRequests.StartWritesExactly | src/store.rs:460-600 | a first start writes the turn, its items, the record and, if asked, a new conversation, and nothing else anywhere |
| LedgerRequests.KeyReuseRefused | src/store.rs:388-407 | after any run a different request under a used key changes nothing; it is not found exactly when it names a conversation the caller does not own, and otherwise a key reused |
| LedgerRequests.RecordUnseen | src/store.rs:358-380 | a start record answers nobody but the same caller, through the same client and under the same key: to all others it makes no difference |
| LedgerRequests.CreateTurnOutcome | src/store.rs:1143-1188 | which creations are refused and with which error; a refusal writes nothing |
| LedgerRequests.CreateTurnWritesExactly | src/store.rs:1188-1211 | a created turn is the last one, with a new id, the trimmed agent, the key, pending, and a snapshot of exactly the files that some item references |
| LedgerRequests.SnapshotProtects | src/files.rs:102-113 | what a turn's snapshot names cannot be removed until the conversation is deleted, whatever happens to the items |
| LedgerRequests.CreatedTurnProtects | src/store.rs:226-253 | a file that an item references when a turn is created stays, after any run that does not delete the conversation |
| LedgerEdits.TruncateExactly | src/store.rs:1257-1295 | when a truncation succeeds, and exactly which items, batches and continuations it leaves |
| LedgerEdits.RegenerateExactly | src/store.rs:1297-1326 | a regeneration removes exactly the agent's items of the latest turn and the continuations, and answers that turn's id |
| LedgerEdits.DeleteExactly | src/store.rs:175-188 | a deletion takes the conversation and its continuations and leaves everything else |
| LedgerEdits.CreateConversationExactly | src/store.rs:84-106 | a new conversation has a new id, belongs to its creator and is empty |
| LedgerEdits.UpdateTurnNotFound | src/store.rs:1346-1361 | a turn that is in no conversation of the caller is not found |
| LedgerEdits.ContinuationOutcome | src/store.rs:1364-1399 | when a continuation is recorded, what is recorded, and which error says why it is not |
| LedgerEdits.SaveFileExactly | src/files.rs:34-47 | a file row is inserted once under an id and belongs to its creator |
| LedgerEdits.RemoveFileExactly | src/files.rs:91-123 | a removal that succeeds takes that file row and nothing else; any other changes nothing |
| Ledger.Tables.InsertItems | src/store.rs:739-769 | the insert loop places the payloads at consecutive numbers with fresh ids and their reference rows |
| Ledger.Tables.AppendItems | src/store.rs:648-791 | answer and new tables are those of the append transaction; a refusal changes nothing; the invariant holds |
| Ledger.Tables.LockTurnFiles | src/store.rs:255-301 | comparing two counts decides whether every file of the conversation and of the request is the owner's |
| Ledger.Tables.StartTurn | src/store.rs:303-611 | answer and new tables are those of the turn-start transaction |
| Ledger.Tables.WriteStart | src/store.rs:524-600 | the writing part takes the file snapshot before it inserts the turn's own items |
| Ledger.Tables.CreateTurn | src/store.rs:1135-1213 | answer and new tables are those of the turn-creation transaction |
| Ledger.Tables.UpdateTurn | src/store.rs:1328-1361 | answer and new tables are those of the status change |
| Ledger.Tables.TruncateConversation | src/store.rs:1257-1295 | answer and new tables are those of the truncation |
| Ledger.Tables.RegenerateConversation | src/store.rs:1297-1326 | answer and new tables are those of the regeneration |
| Ledger.Tables.DeleteConversation | src/store.rs:175-188 | answer and new tables are those of the deletion |
| Ledger.Tables.CreateContinuation | src/store.rs:1364-1399 | answer and new tables are those of recording a continuation |
| Ledger.Tables.RemoveFile | src/files.rs:85-123 | answer and new tables are those of the removal, as far as the ledger sees it |
| Ledger.Tables.AgentReplay | src/store.rs:857-943 | the replay answers as specified and changes nothing |
| LockKey.PreImageInjective | src/store.rs:613-625 | the length-framed pre-image of the lock key is injective, for parts shorter than 2^32 bytes |
| LockKey.LongPartsCollide | src/store.rs:613-625 | it is not beyond that: the length is cast to 32 bits |
| StartLocks.StartsAreUnique | src/store.rs:345-525 | in every interleaving a key is won at most once ever, no request runs into the unique index on starts, and no conversation has two active turns, with unlocked reactivations and colliding lock keys included |
| StartLocks.LookUpIsNotEnough | src/store.rs:1328-1361 | the look-up under the row lock alone would not do: a reactivation slips in after it, and only the index refuses |
| StartLocks.LocksGivenBack | src/store.rs:345-611 | in every interleaving a request at its end, whatever its answer, holds no lock, and while one is under way some request can make its next step |
| StartLocks.LoneStartWins | src/store.rs:345-600 | a request that nobody disturbs starts its turn and frees its locks |
| StartLocks.LoneRetryReplays | src/store.rs:358-458 | under a used key it is answered from the record and starts nothing |
| StartLocks.ActiveTurnRefuses | src/store.rs:480-492 | it is refused exactly when it sees an active turn |
| FileLockTheorems.ReferencesNeverDangle | src/store.rs:255-301 | in every interleaving of row locks no committed reference names a missing file, and a remover about to delete has no reference left |
| FileLocks.SameCount | src/store.rs:281-300 | the two counts agree only if every wanted row was found |
| FileLockTheorems.LocksGivenBack | src/store.rs:255-301 | in every interleaving a transaction at its end holds no lock on any file row |
| FileLockTheorems.WithoutCountDangles | src/store.rs:297-299 | without the count comparison a reference can dangle |
| FileLockTheorems.LoneWriter | src/store.rs:716-769 | a writer that nobody disturbs commits its reference if the file exists and fails if not |
| FileLockTheorems.LoneRemover | src/files.rs:91-123 | a remover that nobody disturbs takes an unreferenced file and leaves a referenced one |
| NumberScanner.ValidateNumberTokens | src/model.rs:205-243 | the loop visits the scanner's tokens in order, each whole, and stops at the first refused one; the distance to the end decreases |
| NumberScanner.SkipRun | src/model.rs:230-234 | the inner loop stops at the first byte that cannot belong to a number |
| NumberScanner.ScannerAgreesWithGrammar | src/model.rs:205-243 | on every JSON text, with any whitespace and escapes, the tokens are exactly the number literals outside strings, in order |
| Binary64.VisitI64 | src/model.rs:86-95 | accepts an i64 if and only if it is m * 2^k with a significand below 2^53 |
| Binary64.VisitU64 | src/model.rs:97-106 | the same for a u64 |
| Binary64.FloatNearest | src/model.rs:90-101 | the conversion to binary64 yields a held number, a nearest one, and on a tie the one with the even significand |
| Binary64.CastIsExact | src/model.rs:91-102 | the 128-bit casts never saturate, and the round trip is the identity exactly on held numbers |
| Binary64.NarrowCastAccepts | src/model.rs:91-93 | the largest i64 rounds to its successor, so a 64-bit cast back would accept it; this test refuses it |
| StrictJson.Visit | src/model.rs:66-178 | the visitor accepts exactly the texts without U+0000, repeated keys, negative zero and inexact integers, at any depth, and yields the value it read |
| StrictJson.VisitSeq | src/model.rs:146-155 | the loop accepts exactly the arrays whose elements it accepts, in order |
| StrictJson.VisitMap | src/model.rs:157-173 | the loop accepts exactly the objects with acceptable values and keys, none repeated |
| UploadNames.FilenameNormal | src/uploads.rs:497-504 | normalising leaves a filename alone if and only if it is normal, yields only normal ones, and is idempotent |
| UploadNames.MimeTypeNormal | src/uploads.rs:505-519 | the same for media types |
| UploadNames.TwoPartsMeans | src/uploads.rs:507-508 | the split test means one slash with something on either side |
| UploadNames.BoundedTrimmedExactly | src/uploads.rs:487-496 | a bounded text is what is left when the whitespace at both ends is cut off, if that has 1 to the maximum of characters and no U+0000 |
| UploadNames.FilteredAppends | src/uploads.rs:498-502 | filtering takes the characters one after the other, in order |
| UploadNames.FilteredOne | src/uploads.rs:498-502 | it drops control characters and slashes of either kind, and nothing else |
| UploadNames.FilenameExactly | src/uploads.rs:497-504 | a filename is the trimmed text of the first 300 characters that filtering leaves |
| UploadNames.LowerExactly | src/uploads.rs:518 | lower-casing maps the 26 capital letters to the small ones and nothing else |
| UploadNames.MimeTypeExactly | src/uploads.rs:505-519 | a media type is the trimmed text in lower case, of at most 200 ASCII characters with one inner slash and no control character or semicolon |
| InitiateRace.NormalizeExactly | src/uploads.rs:77-86 | a request normalises exactly if its key, filename and media type do and its size is within the limit |
| InitiateRace.UnavailableCreatesNothing | src/uploads.rs:60-76 | while direct uploads are unavailable no call gets past the first check and no session is created |
| InitiateRace.AvailableAnswers | src/uploads.rs:60-76 | while they are available nobody is told that they are not |
| InitiateRace.NormalizeTwice | src/uploads.rs:77-86 | what `initiate` recurses with normalises to itself, so the hash is the same |
| InitiateRace.SameSession | src/uploads.rs:87-152 | calls of one client with one key that get a session get the same one, and exactly those that asked for the same file do; nobody else gets it; at most one created it |
| InitiateRace.CreatedOnce | src/uploads.rs:103-149 | every session was created by exactly one call, which asked for it and was told so; a call is invalid only if its request does not normalise |
| InitiateRace.RetryEnds | src/uploads.rs:130-147 | whatever the others do, a call recurses at most once, makes at most six steps and is never stuck |
| UploadTransactions.EnqueueExactly | src/uploads.rs:462-485 | queueing gives a key without a row one, numbered after all it ever had, and leaves every other row |
| UploadTransactions.ClaimExactly | src/uploads.rs:355-390 | a claim makes the row the caller's for 120 seconds and queues the previous candidate, and nothing else |
| UploadTransactions.FinishExactly | src/uploads.rs:323-341 | when a commit succeeds, and that it writes the file row, the completed row and the staging key 305 seconds ahead, and nothing else |
| UploadTransactions.ExpireExactly | src/uploads.rs:409-418 | expiry gives up exactly the lapsed uploads and queues exactly their staging keys and last candidates |
| UploadTransactions.RemoveExactly | src/files.rs:91-123 | a removal moves the key of an unreferenced file to the file outbox |
| UploadSteps.ClaimKeeps | src/uploads.rs:355-390 | a claim, with the queueing of the previous candidate, keeps the protocol invariant |
| UploadSteps.FinishKeeps | src/uploads.rs:323-341 | the guarded commit keeps it |
| UploadSteps.ExpireKeeps | src/uploads.rs:409-418 | expiry keeps it: it queues no live file's key |
| UploadSteps.RemoveKeeps | src/files.rs:85-123 | a removal keeps it |
| UploadSteps.JobKeeps | src/uploads.rs:419-458 | every step of a deletion pass over a stale list keeps it |
| UploadSteps.RunKeeps | src/uploads.rs:221-460 | every interleaving keeps it |
| UploadTheorems.LiveFilesKeepObjects | src/uploads.rs:304-458 | in every interleaving a live file's key holds exactly its object, is in neither outbox and was never handed to deletion |
| UploadTheorems.DoomedForever | src/uploads.rs:409-485 | a key once handed to deletion never becomes a live file's key |
| UploadTheorems.LiveFileUnchanged | src/uploads.rs:295-342 | a live file's row and object never change, whatever clients post and other calls do; a file that is gone stays gone |
| UploadTheorems.TerminalForever | src/uploads.rs:344-418 | a completed or cleaned-up upload's row never changes again |
| UploadTheorems.CompletedOnce | src/uploads.rs:221-390 | at most one call is ever told `created`, exactly one if the upload is completed, and its file row is inserted at most once in the whole history |
| UploadTheorems.CommitNeverCollides | src/uploads.rs:323-336 | a commit whose guard holds never runs into the primary key of files |
| UploadTheorems.CompletedBytes | src/uploads.rs:252-342 | a completed upload's object is a copy of one staging version whose size, type and marker passed the checks, and its size and type are those recorded |
| UploadTheorems.LatestPostIsChecked | src/uploads.rs:252-294 | the check judges the object posted last, and goes on with that very version only if size, type and marker are right |
| UploadBookkeeping.NothingForgotten | src/uploads.rs:355-458 | in every interleaving a key that holds an object and was never handed to deletion is the staging key or the current candidate of an open upload, a save under way, or a live file |
| UploadLeases.ClaimExpireOrHeld | src/uploads.rs:369-418 | at every moment exactly one of three holds for an open upload: it can be claimed, it expires, or a lease on it is running; none for any other |
| UploadLeases.TakenOverExactly | src/uploads.rs:369-379 | a claim can be taken over from 120 seconds on and until the session expires, and at no other time |
| UploadLeases.LeaseExcludes | src/uploads.rs:344-418 | while a lease runs nobody but its holder changes the upload's row |
| UploadLeases.GivesBack | src/uploads.rs:344-353 | a call that gives its lease back and still holds it leaves the upload free to claim until the session expires; one that has lost it changes no row |
| OutboxRows.StalePassDropsNothing | src/uploads.rs:452-457 | a cleanup pass whose row is gone drops no other, so a row queued later for the key waits for its own pass |
| CleanupPasses.EntryPassDrains | src/uploads.rs:419-458 | from the moment its row falls due an undisturbed pass empties a key and drops the row, and touches no other key |
| CleanupPasses.FilePassDrains | src/files.rs:131-171 | the same for the key of a removed file |
| CleanupPasses.FailedSaveDrains | src/files.rs:48-57 | a save whose insert fails leaves no row, and undisturbed it takes its object away again |
| StagingTheorems.EndsInTime | src/uploads.rs:326-336 | an upload is completed before its session expires and given up only after |
| StagingTheorems.DueAfterForms | src/uploads.rs:193-206 | when the deletion of a staging key falls due, the upload is terminal and every form ever signed for it has expired |
| StagingTheorems.StagingDrained | src/uploads.rs:337-339 | a terminal upload's staging key has an outbox entry, or is empty in every later state |
| StagingTheorems.ShorterDelayFails | src/uploads.rs:337-339 | one second less than 305 would not do: a form signed at the last moment is still accepted then |
| StagingPasses.SettledPassDrains | src/uploads.rs:337-339 | from 305 seconds after completion on, and at once after an upload was given up, an undisturbed pass leaves its staging key empty and without a row |
| StagingPasses.DrainSettled | src/uploads.rs:419-459 | the same by the service's own drain loop, whatever else is due |
| StagingPasses.AnswerForm | src/uploads.rs:193-206 | a form that is answered is one the timed protocol counts as signed |
| Uploads.Service.EnqueueAllVersions | src/uploads.rs:462-485 | queues a key unless it is queued |
| Uploads.Service.ClaimCompletion | src/uploads.rs:355-390 | claims, or changes nothing |
| Uploads.Service.RestorePending | src/uploads.rs:344-353 | if the token is still current the row is pending again, without token and lease; otherwise nothing changes |
| Uploads.Service.FinishCompletion | src/uploads.rs:323-341 | commits, or drops the inserted file row with everything else |
| Uploads.Service.EnqueueKeys | src/uploads.rs:412-417 | the loop over the returned rows queues exactly their keys, in whatever order they come |
| Uploads.Service.ExpireSessions | src/uploads.rs:409-418 | the new tables are those of the expiry transaction |
| Uploads.Service.DeleteAllVersions | src/files.rs:159-171 | the loop over the listed versions empties the key and touches no other |
| Uploads.Service.DrainOutbox | src/uploads.rs:419-459 | undisturbed, the loop drops exactly the rows whose time has come, empties their keys and touches no other |
| Uploads.Service.CleanupExpired | src/uploads.rs:409-460 | gives up exactly the lapsed uploads, and by its end their staging keys and last candidates are empty, unless an earlier row has them wait |
| Uploads.Service.SaveFile | src/files.rs:29-57 | saves object and row, or leaves neither |
| Uploads.Service.RemoveFile | src/files.rs:85-129 | removes exactly an unreferenced file, with its object |
| Uploads.Service.CleanupDeletions | src/files.rs:131-171 | undisturbed, the loop empties the key of every removed file and leaves no row |
| Uploads.Service.Respond | src/uploads.rs:153-219 | only an open, unclaimed session that is not over gets a form, which ends with it or after the configured time, whichever is first |
| Uploads.Service.CheckStaging | src/uploads.rs:252-294 | passes exactly a numbered object that matches the row, and gives the lease back on every mismatch but a missing version number |
| Uploads.Service.CopyCandidate | src/uploads.rs:295-322 | copies the pinned version to the caller's own key only, and passes exactly a numbered copy of the right size |
| Uploads.Service.Complete | src/uploads.rs:221-342 | undisturbed, every branch is a run of the protocol's steps, `created` is answered if and only if the upload is open, claimable, matched and committed in time, and after a mismatch the upload is free to claim again |

## Left out

- HTTP routing, authentication, permissions, configuration parsing, listing and title updates: they add only easy members.
- Titles, metadata, timestamps, response ids, errors and usage of turns: no modelled decision reads them.
- The owner's `replay` endpoint and file hydration (`src/store.rs:821-855`, `1033-1133`): mostly one request per part.
- `parse_json_number`: the decimal comparison rests on external libraries, so the per-token test is a parameter of the scanner.
- The serialised size of a projection is a function parameter, because serialisation is a library's.
- Ordering the ids before locking file rows: only that each is locked once is modelled. Deadlocks are not.
- `create_continuation` reads without a lock (`src/store.rs:1370`); it is modelled as one atomic step, so an interleaved truncation is not.
- The version of a turn-start digest: it is always 1, and the branch that refuses another is not modelled.
- Ledger.Tables.AppendItems: a sequence number beyond the 64-bit range is answered with an error, where the code at `src/store.rs:740` adds without a check.
- LockKey.PreImageInjective: says nothing beyond parts of 2^32 bytes, where LockKey.LongPartsCollide shows it false.
- Uploads.Service.DrainOutbox: an error of the object store ends the pass early in the code; such ends are steps of the protocol (`Abandon`), not of this method.
- Uploads.Service.RemoveFile: a deletion of the object that fails is left to a later pass in the code; the protocol has that, this method does not.
- Outbox rows for a single version: the table admits them, nothing inserts them.
- UploadBookkeeping.NothingForgotten: a call that lost its lease can still copy (`src/uploads.rs:295`) after its candidate key was handed to deletion and drained, so no claim is made that such keys end up empty.
- An insert that commits but is reported as failed in `files::save`: an error is taken to mean that nothing was inserted.
- Presigned URLs, signatures and listing pages of the object store: outside the model.
