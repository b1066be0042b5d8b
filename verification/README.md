# ScreenSearch protocols, verified

A Dafny model of the parts of ScreenSearch where a crash, a race or a restart could lose data: the checkpointed
memory consumer and the frame feed it reads, the report delivery ledger and its Telegram worker, the writer of
generated notes, the cursors and text formats of the local API, the API configuration and the maintenance sweeps.
Check it with `dafny verify dfyconfig.toml`.

## How it is built

Code that updates tables, buffers, files or fields step by step is a class or a method here, proved equal to a
specification function or against an independent definition; the lemmas about those specifications carry the promises.
A transaction is one atomic step. What the code cannot control is a parameter: server answers, failing reads and
writes, the clock, the order in which the store lists rows, page sizes, commands that arrive while the worker waits,
an editor that replaces or deletes a note, and the point of a crash.

- `ConsumerDb`, `ConsumerHistory`, `MemoryConsumer`: the consumer's tables and transactions, what they keep against any
  server, and the imperative client with its termination proof. `FrameServer` and `ConsumerWorld` put client, server
  and crashes into one step system; completeness is stated there. `ConsumerRuns` shows that calls of the client are runs
  of that system, and `SilentRewind` which restores it cannot see. `Conversation` says what a call may do with the
  answers it gets and why it may raise; `ConsumerFacts` and `HonestCall` prove that it does not raise against the server.
- `DeliveryLedger`, `Retarget`, `RetryReport`: the delivery table and the explicit retry. `Dispatch`, `DispatchSafety`,
  `DeliveryWorker`: the delivery machine with its commands, its invariants over whole runs, and the worker's loop,
  whose store writes are proved to be enabled steps of that machine and whose messages those of its attempts.
  `DispatchEffects` and `ConsumerEffects` say field by field what the steps of the two machines change. `LostOutcomes`, `FifthSend` and `PaddedChat` say
  how often one attempt is sent and when one can never be sent.
- `OwnedFile`, `FileDelivery`: one write of an owned note against an editor and crashes, and the delivery around it.
- `Bytes`, `Base64Url`, `CursorReading`, `FrameCursor`, `ReportCursor`, `CivilDate`, `DigestChunks`, `ExportStream`,
  `RevisionRoot`, `Decimals`: exact codecs, dates, texts and paths; `WireFormats` pins their bytes and characters.
- `ApiConfig`, `Maintenance`: fallible transitions and resumable sweeps. `Wrappers`, `Sets`: shared helpers.

Contracts taken from the store, and modelled as code rather than assumed: guarded updates and resolution of deliveries,
recovery of interrupted work, the family listing, frame allocation and the chronological page query. The digest of a
file is ideal: equal hashes mean equal bytes. `ReplaceFileW` swaps three names atomically, fails without effect, or fails
after moving the target to the backup name; `MoveFileExW` fails if the target exists.

## What the proofs showed

- Retrying twice can queue a chunk twice (`Retarget.ChunkQueuedTwice`); `Retarget.SecondCallAdds` says exactly when.
- Four automatic sends are the limit only while outcomes can be stored: each outcome that cannot be stored allows one more
  (`LostOutcomes.AtMostFourAutomaticSends`), and there are runs that reach the bound (`FifthSend.BoundIsReached`). The
  next pass sends such an attempt again exactly when the run is taken up for another reason
  (`LostOutcomes.LostOutcomeIsSentAgain`); alone, it waits for a restart or a retry (`LostOutcomes.LoneAttemptIsLeft`).
- A retry readdresses to the trimmed chat id and a send compares the untrimmed one, which the settings accept with outer
  blanks: the readdressed rows can be sent exactly when there are none (`PaddedChat.AddedRowsDispatch`,
  `PaddedChat.PaddedChatStalls`).
- A run that stopped after installing a note and before recording it recovers when it is next; another run of the same
  path that goes first meets a conflict, though nobody edited the note (`FileDelivery.AnotherRunConflicts`).
- A link to nothing that an editor puts in the place of the note just before the swap is displaced and not reported, since
  a recovery copy that resolves to nothing counts as absent (`OwnedFile.WriteOwned`); every file is reported.
- A same-history restore that has caught up with the observed high-water mark is invisible to the consumer, as its
  documentation warns; `SilentRewind.SilentRewindIsMissed` says exactly which checkpoints survive all of them.
- A configuration whose first legacy token cannot be stored is refused after the new settings were stored; that is the only
  refusal that leaves anything behind, and no running server is touched (`ApiConfig.RefusedConfiguration`).
- A failed read of the legacy token at startup replaces a good token, although failed reads of the read credential are
  treated as errors (`ApiConfig.TokenReplacedWhen`).
- Export stamps sort as text only through year 9999 (`CivilDate.StampOrderEndsWithYear9999`).

## Model

| member | source | states |
|---|---|---|
| `MemoryConsumer.State.BeginReconciliation` | examples/memory_consumer.py:261-277 | an interrupted scan is marked, exactly one new row scans, and the traversal restarts under the same history |
| `MemoryConsumer.State.ObserveHighWater` | examples/memory_consumer.py:279-289 | returns whether the mark fell below the stored one, and only then opens a reconciliation; the highest mark ever seen never falls |
| `MemoryConsumer.State.StartRescan` | examples/memory_consumer.py:291-293 | forgets the traversal and nothing else |
| `MemoryConsumer.State.UpsertItem` | examples/memory_consumer.py:295-313 | a competing capture time becomes a conflict row in an open reconciliation and never a fact; anything else refreshes the current payload only |
| `MemoryConsumer.State.CheckItems` | examples/memory_consumer.py:331-340 | the loop accepts a page exactly when every record is valid and each is strictly later than the one before |
| `MemoryConsumer.State.CommitPage` | examples/memory_consumer.py:315-369 | the whole new state of one page transaction: refused pages leave the file alone, a changed history or a conflict restarts, an accepted page moves cursor, maximum and last key together |
| `MemoryConsumer.State.CommitFrameDetail` | examples/memory_consumer.py:376-403 | a detail refresh keeps the original fact; a different capture time is filed as a conflict |
| `MemoryConsumer.PageProgress` | examples/memory_consumer.py:315-369 | an accepted page that is not the last moves the key strictly forward inside the frozen window and id range |
| `MemoryConsumer.OnFailedPage` | examples/memory_consumer.py:442-462 | a 409, or a 400 with a proven decrease, opens exactly one reconciliation; an unexplained 400 raises that 400, a failed coverage read raises its own error, and nothing else is written |
| `MemoryConsumer.OnPage` | examples/memory_consumer.py:463-478 | a stored page shrinks what is left of the frozen window; a refused one opens exactly one reconciliation, an invalid one none |
| `MemoryConsumer.DrainPages` | examples/memory_consumer.py:434-478 | the page loop ends against every server; it raises a protocol error only over an answer outside the protocol or a second logical change, always over the latter, and an HTTP error only over that failure; a 409 and the changed page it announces are one change; at most three reconciliations; otherwise it ends at the end of the traversal or of the page budget |
| `MemoryConsumer.RereadDetails` | examples/memory_consumer.py:479-491 | every textless frame is asked for once, in any order; why it raised, what was refreshed and what is gone; at most one reconciliation is opened, and the traversal is undone only by one |
| `MemoryConsumer.Consume` | examples/memory_consumer.py:421-502 | the state after a call is a run of the logged transactions, by its parts: coverage, pages, details, coverage; every stored page answered a request with the cursor of its moment; it raises only for a cause in the log or the answers, and the summary counts what the log shows; at most six reconciliations; an unlimited call that returns is exhausted or leaves one pending |
| `Conversation.RunConcat` | examples/memory_consumer.py:421-502 | transactions of consecutive calls compose, so a crash between any two is a run too |
| `Conversation.FetchedAreThePages` | examples/memory_consumer.py:434-478 | when no page raised, every page read is counted as fetched |
| `Conversation.ScansOpened` | examples/memory_consumer.py:434-478 | every fetched page is stored or opens a scan, and so does every announcement and proven rewind; nothing is counted twice |
| `Conversation.RescanWhen` | examples/memory_consumer.py:422-428 | a finished traversal is listed again exactly when coverage could be read, nothing restarted it, and its last scan is unknown or old enough |
| `Conversation.DetailsKeepScan` | examples/memory_consumer.py:479-491 | however many details are stored, at most one reconciliation is opened, and the traversal is undone only by one |
| `HonestCall.OneChange` | examples/memory_consumer.py:442-478 | with the answers of the modelled server and at most one rotation there is at most one logical change, 409 included |
| `HonestCall.PagesDoNotRaise` | examples/memory_consumer.py:434-478 | so the page loop does not raise |
| `HonestCall.HonestCallFinishes` | examples/memory_consumer.py:421-502 | against the modelled server, however it grows, deletes and enriches, with at most one rotation at any moment and readable coverage, a call from a reachable state returns its summary; without a page limit it ends exhausted or with a reconciliation pending |
| `HonestCall.FirstCallFinishes` | examples/memory_consumer.py:421-502 | the first call on a new file is such a call |
| `ConsumerFacts.RunKeepsTrue` | examples/memory_consumer.py:421-502 | over whole runs of client and server no recorded capture time is contradicted by a frame of the server |
| `ConsumerFacts.PageKeepsTrue` | examples/memory_consumer.py:350-361 | true records leave true facts, and are all accepted: a page of true records is refused only for another history |
| `ConsumerFacts.HonestDetailIsValid` | examples/memory_consumer.py:376-403 | the consumer accepts the details of any frame for a fact it has under that id |
| `ConsumerEffects.BeginEffect` | examples/memory_consumer.py:261-273 | field by field: the interrupted row, the new row, the forgotten traversal, and nothing else |
| `ConsumerEffects.ObserveEffect` | examples/memory_consumer.py:279-289 | the mark is stored, the highest one kept, a fallen one opens a scan, and nothing else changes |
| `ConsumerEffects.UpsertEffect` | examples/memory_consumer.py:295-313 | a record is always kept as a version; a first one becomes the fact, a later one of the same capture time its current payload, a competing one a conflict when nothing else is allowed |
| `ConsumerEffects.RefusedHistoryEffect` | examples/memory_consumer.py:341-349 | a page of another history is not stored: one scan is opened and the history taken over |
| `ConsumerEffects.StoredPageEffect` | examples/memory_consumer.py:350-369 | a stored page moves cursor, maximum and last key to its own; the last page ends the traversal and closes the scan |
| `ConsumerEffects.DetailEffect` | examples/memory_consumer.py:376-403 | a detail response replaces the text as a whole and the fields it has; the rest of the record stays |
| `ConsumerEffects.ValidItemsWhen` | examples/memory_consumer.py:164-190 | a page's records are accepted exactly when each is valid for the window and the maximum and later than the one before |
| `ConsumerEffects.ValidPageWhen` | examples/memory_consumer.py:315-340 | a page is accepted exactly when it is for this window, keeps the frozen maximum, continues from the stored key or starts over for another history, and brings a new cursor only with records |
| `ConsumerHistory.ApplyKeeps` | examples/memory_consumer.py:257-403 | every transaction keeps the tables sound and loses or rewrites nothing that was recorded |
| `ConsumerHistory.RunKeeps` | examples/memory_consumer.py:257-403 | against any server, over any run: originals, capture times, versions, conflicts and closed scans are permanent; one row scans exactly when the checkpoint names it |
| `ConsumerHistory.BeginKeeps` | examples/memory_consumer.py:261-273 | opening a reconciliation keeps one-scanning-row and every closed row |
| `ConsumerHistory.UpsertKeeps` | examples/memory_consumer.py:295-313 | a stored observation keeps every original payload and capture time |
| `ConsumerHistory.UpsertAllOpens` | examples/memory_consumer.py:350-361 | a refused batch opens exactly one reconciliation, however many conflicts it holds; an accepted one opens none |
| `ConsumerHistory.CommitMoves` | examples/memory_consumer.py:315-369 | what an accepted and a refused page do to the traversal |
| `ConsumerHistory.ValidItemsProgress` | examples/memory_consumer.py:331-340 | the last key of a valid page lies beyond the stored key and inside the window |
| `ConsumerHistory.CommitRecords` | examples/memory_consumer.py:350-369 | no record of a stored page is dropped: each is on file as the current payload of its fact or as a conflict |
| `FrameServer.ApplyServerGrows` | crates/store/src/history.rs:98-123 | allocation only adds ids above the high-water mark, which never falls; kept frames keep their key |
| `FrameServer.EarliestExists` | crates/store/src/history_pages.rs:31-61 | chronological order has a first row in every nonempty membership |
| `FrameServer.OrderedAscends` | crates/store/src/history_pages.rs:31-61 | rows come in strict (captured_at, id) order |
| `FrameServer.CursorForDecodes` | crates/api/src/history.rs:47-61 | the cursor of a page always encodes, within 791 characters, and asks for exactly its own continuation |
| `ConsumerWorld.PageIsComplete` | crates/store/src/history_pages.rs:124-192 | no member of the frozen membership between the seek key and the page's last row is missing from the page; an exhausted page leaves none |
| `ConsumerWorld.RequestAnswers` | examples/memory_consumer.py:436-441 | the response to a stored cursor continues from exactly the stored key and maximum |
| `ConsumerWorld.ServerMovesKeeps` | crates/store/src/history_pages.rs:138-147 | coverage survives inserts, enrichments, deletions and rotations, also while a response is in flight |
| `ConsumerWorld.OtherTransactionKeeps` | examples/memory_consumer.py:257-313 | coverage survives every transaction between pages |
| `ConsumerWorld.StorePageKeeps` | examples/memory_consumer.py:315-369 | coverage survives storing a response, accepted or refused, however the server moved meanwhile |
| `ConsumerWorld.HappenKeeps` | examples/memory_consumer.py:421-478 | the linked invariant is kept by every step of client, server and crash |
| `ConsumerWorld.RunKeepsInv` | examples/memory_consumer.py:421-478 | the linked invariant holds over whole runs |
| `ConsumerWorld.CheckpointIsCovered` | examples/memory_consumer.py:315-369 | traversal completeness: every frame of the stored history in the window, up to the stored maximum and key, has a fact and an observation with its capture time; done means all of them |
| `ConsumerWorld.ReconcileRecovers` | examples/memory_consumer.py:275-277 | after an operator reconciliation completeness holds again from any sound file against any server |
| `ConsumerWorld.DetectedRewindRecovers` | examples/memory_consumer.py:279-289 | a rewind that coverage reveals restores the invariant |
| `SilentRewind.SilentRewindIsMissed` | examples/memory_consumer.py:279-289 | in every reachable state: a finished checkpoint stays true under every same-history restore that its high-water mark does not reveal, if and only if every capture time of the window has been seen for every id of the snapshot |
| `SilentRewind.ClaimStands` | examples/memory_consumer.py:279-289 | after such a restore and a coverage read the checkpoint is finished as before and claims the same, now of the restored store |
| `SilentRewind.RewindToAnotherTime` | crates/store/src/history.rs:1-4 | a concrete run: one frame traversed, its id restored at another capture time under the same mark, and missed |
| `ConsumerWorld.CursorsDiffer` | crates/api/src/history.rs:205-237 | two continuation points never share a cursor |
| `ConsumerWorld.HonestPageIsValid` | examples/memory_consumer.py:315-349 | the consumer's checks accept every page the modelled server sends for a reachable checkpoint |
| `ConsumerRuns.LogIsReached` | examples/memory_consumer.py:421-502 | whatever a call stores against the modelled server, however that moves and whichever requests fail, is a run of client and server |
| `ConsumerRuns.CallKeepsInv` | examples/memory_consumer.py:421-502 | so a call, returned or raised, keeps the linked invariant |
| `ConsumerRuns.CallIsCovered` | examples/memory_consumer.py:421-502 | and after the first call on a new file the checkpoint is a true claim about the server's history |
| `Bytes.I64RoundTrip` | crates/api/src/history.rs:211-219 | signed big-endian bytes read back as the number |
| `Bytes.I64BytesRoundTrip` | crates/api/src/history.rs:250-254 | every eight bytes are the spelling of one number |
| `Base64Url.DecodeEncode` | crates/api/src/history.rs:233-276 | unpadded base64url decodes what it encodes (sections 5 and 3.5 of RFC 4648) |
| `Base64Url.EncodeDecode` | crates/api/src/history.rs:233-276 | an accepted text is the only spelling of its bytes: no padding, no stray trailing bits |
| `CursorReading.ReadWrittenFilter` | crates/api/src/history.rs:220-232 | a written optional filter reads back, with the rest untouched |
| `CursorReading.WrittenReadFilter` | crates/api/src/history.rs:255-270 | an accepted filter was written in the one way: lower case, at most 256 bytes, 0xffff for none |
| `CursorReading.ReadWrittenString` | crates/api/src/reports.rs:214-221 | a length-prefixed string reads back |
| `CursorReading.WrittenReadString` | crates/api/src/reports.rs:240-250 | an accepted string was written in the one way |
| `CursorReading.CursorReader.Filter` | crates/api/src/history.rs:255-270 | takes one optional filter off the front, or rejects |
| `FrameCursor.PayloadBounded` | crates/api/src/history.rs:200-204 | the payload never exceeds 593 bytes and the cursor 791 characters |
| `FrameCursor.DecodeInvertsEncode` | crates/api/src/history.rs:196-317 | decoding an encoded valid request returns it, with the caller's limit |
| `FrameCursor.EncodeInvertsDecode` | crates/api/src/history.rs:196-317 | re-encoding any accepted cursor returns the same text |
| `FrameCursor.EncodeCursor` | crates/api/src/history.rs:205-238 | the buffer-building loops produce the specified encoding and the same rejections |
| `FrameCursor.DecodeCursor` | crates/api/src/history.rs:272-317 | the consuming reader accepts exactly the specified cursors and reads the same request |
| `ReportCursor.DecodeInvertsEncode` | crates/api/src/reports.rs:180-309 | decoding an encoded report request returns it |
| `ReportCursor.EncodeInvertsDecode` | crates/api/src/reports.rs:180-309 | exact consumption: no two cursors decode to one request |
| `ReportCursor.EncodedExactly` | crates/api/src/reports.rs:188-212 | encoding succeeds exactly when the request is valid and both ids together fit the cursor cap |
| `ReportCursor.ReadWrittenTags` | crates/api/src/reports.rs:134-178 | phase and outcome tags read back |
| `ReportCursor.PushString` | crates/api/src/reports.rs:214-221 | appends a length-prefixed string or rejects one that is too long |
| `ReportCursor.EncodeReportCursor` | crates/api/src/reports.rs:188-212 | the buffer-building code produces the specified encoding |
| `ReportCursor.DecodeReportCursor` | crates/api/src/reports.rs:253-309 | the consuming reader accepts exactly the specified cursors |
| `WireFormats.BigEndianByte` | crates/api/src/history.rs:211-219 | the byte a given number of places from the end of a big-endian integer |
| `WireFormats.SignedByte` | crates/api/src/history.rs:211-219 | a signed integer is its two's complement in eight bytes, most significant first |
| `WireFormats.Base64Vectors` | crates/api/src/history.rs:233-237 | the test vectors of section 10 of RFC 4648, without padding |
| `WireFormats.UrlAlphabet` | crates/api/src/history.rs:233-237 | the two characters of section 5 of RFC 4648 |
| `WireFormats.FramePayloadLayout` | crates/api/src/history.rs:205-232 | version 1, history, window, frozen maximum, last key and the two filters, byte for byte, and nothing else |
| `WireFormats.FrameEncodedWhen` | crates/api/src/history.rs:205-238 | exactly which continuations become a cursor |
| `WireFormats.ReportPayloadLayout` | crates/api/src/reports.rs:188-212 | version 1, window, frozen newest report, last report and the two filter tags, byte for byte, and nothing else |
| `CivilDate.CivilFromDaysCorrect` | crates/api/src/export.rs:300-311 | every day number converts to a valid Gregorian date whose own day number it is |
| `CivilDate.CivilFromDayNumber` | crates/api/src/export.rs:300-311 | every valid date is produced by its day number |
| `CivilDate.CivilOrder` | crates/api/src/export.rs:300-311 | distinct days give distinct dates, in calendar order |
| `CivilDate.DayNumberOrder` | crates/api/src/export.rs:300-311 | day numbers order dates exactly as the calendar does |
| `CivilDate.StampShowsTheInstant` | crates/api/src/export.rs:295-312 | the stamp is the text of the date and time of day whose second it is |
| `CivilDate.StampOrder` | crates/api/src/export.rs:295-312 | for years 0 to 9999 text order of stamps is time order |
| `CivilDate.StampOrderEndsWithYear9999` | crates/api/src/export.rs:311 | every instant of year 10000 sorts before every instant of year 9999, so the four-digit bound is exact |
| `WireFormats.StampLayout` | crates/api/src/export.rs:295-312 | yyyymmdd-hhmmss, digit by digit, for the years that have four digits |
| `DeliveryLedger.StoreEvolves` | crates/store/src/memory.rs:297-390 | stores only add rows or make guarded changes: settled rows are final and an unknown outcome changes only to reviewed |
| `DeliveryLedger.EvolvesTransitive` | crates/store/src/memory.rs:323-390 | that holds over any sequence of writes |
| `DeliveryLedger.RewriteKeepsOk` | crates/store/src/memory.rs:87-100 | in-place updates keep revision links, chunks and snapshots sound |
| `Retarget.Visit` | src-tauri/src/memory.rs:495-559 | one attempt: the replacement is created before the old attempt is reviewed, and the guarded update is never refused |
| `Retarget.Redirect` | src-tauri/src/memory.rs:483-561 | the loop reaches exactly the closed form, in whatever order the store lists the rows |
| `Retarget.ProgressedRows` | src-tauri/src/memory.rs:483-561 | at any point only stale unfinished attempts were reviewed and only needed replacements appended |
| `Retarget.ProgressedKeepsOk` | src-tauri/src/memory.rs:483-561 | a call keeps the ledger sound and evolving, wherever it stops |
| `Retarget.NothingStaleIsLeft` | src-tauri/src/memory.rs:465-482 | afterwards no unfinished attempt is bound to another chat, and confirmed, unknown and in-flight attempts are unchanged |
| `Retarget.ChainEnds` | src-tauri/src/memory.rs:516-534 | following live replacements from a stale attempt ends at the target or at an attempt that gets a replacement |
| `Retarget.RetargetCovers` | src-tauri/src/memory.rs:465-482 | every chunk that had a stale attempt and nothing in flight or unknown ends with an attempt for the selected chat, also after a crash at any step of an earlier call |
| `Retarget.NoSecondReplacement` | src-tauri/src/memory.rs:468-469 | a replacement created before a crash is found again, not created twice |
| `Retarget.NeedsAfterwards` | src-tauri/src/memory.rs:516-534 | a second call wants a replacement exactly for orphaned confirmed attempts |
| `Retarget.SecondCallAdds` | src-tauri/src/memory.rs:465-482 | a second call adds a row exactly when the first orphaned a confirmed attempt, and otherwise changes nothing |
| `Retarget.ThirdCallIsQuiet` | src-tauri/src/memory.rs:465-482 | a third call never changes anything |
| `Retarget.ChunkQueuedTwice` | src-tauri/src/memory.rs:516-534 | confirmed to A, pending for B, then C selected: two retries queue the chunk for C twice |
| `RetryReport.RetryDeliveries` | src-tauri/src/memory.rs:586-612 | the whole ledger effect of a retry: redirect, then failed sends become pending and file conflicts are reviewed |
| `RetryReport.RetryIsTheEvent` | src-tauri/src/memory.rs:586-612 | the rows of a finished call are those of the retry event of the delivery machine |
| `Retarget.TargetIsTrimmed` | src-tauri/src/memory.rs:488-490 | the target of a redirect is the selected chat id without outer blanks, and none when nothing is left |
| `DispatchEffects.RetryEffect` | src-tauri/src/memory.rs:563-626 | row by row: a finished retry is granted exactly for a closed run while the worker is idle; unfinished attempts for another chat are reviewed, failed ones wait again, file conflicts are reviewed, all else is untouched, and every added row carries on one of them for the selected chat |
| `Dispatch.FamilyIsConnected` | crates/store/src/memory.rs:114-130 | the family listing is exactly the runs with the same root |
| `Dispatch.RootStays` | src-tauri/src/memory.rs:334-371 | a new run never changes the family of an old one |
| `Dispatch.AncestorBlockedWhen` | src-tauri/src/memory.rs:1457-1510 | the walk finds a block exactly when some earlier revision, however far back, has an attempt that is open, in flight, confirmed or unknown |
| `DispatchEffects.DispatchEffect` | src-tauri/src/memory.rs:1665-1671 | a send counts up, clears what the last try left, and touches nothing else |
| `DispatchEffects.DispatchNeedsAncestors` | src-tauri/src/memory.rs:1636-1642 | a first attempt goes out only while no earlier revision, however far back, holds it |
| `DispatchEffects.OutcomeEffect` | src-tauri/src/memory.rs:1672-1703 | a confirmation is recorded with its message, an unknown outcome as unknown, a permanent rejection without a next try, a temporary one with a next try after 30, 120 or 600 seconds or the server's longer pause, and none after the fourth |
| `DispatchEffects.CredentialEffect` | src-tauri/src/memory.rs:1643-1656 | without a credential the attempt fails until the user acts |
| `DispatchEffects.ResolutionEffect` | src-tauri/src/memory.rs:1743-1797 | granted exactly for an unknown Telegram attempt, which is reviewed; a resend adds one attempt with the same recipient, text and place |
| `DispatchEffects.RecoveryEffect` | crates/store/src/memory.rs:297-311 | after a restart nothing is in flight: a Telegram attempt that was is unknown, a file attempt pending again, interrupted generation queued, and all else as it was |
| `DispatchEffects.EnqueueEffect` | src-tauri/src/memory.rs:628-671 | a regeneration is accepted exactly for a closed run while the worker is idle |
| `DispatchEffects.ClaimEffect` | src-tauri/src/memory.rs:1366-1395 | a queued run is claimed by the idle, recovered worker; a saved one is taken up exactly when there is something to do |
| `DispatchEffects.CreationGrantedWhen` | src-tauri/src/memory.rs:1517-1598 | exactly when a digest is created, and exactly when the row that says why not |
| `DispatchEffects.PickedUpWhen` | src-tauri/src/memory.rs:1381-1389 | a run is taken up again exactly when a destination has no row, a file is still to be written, or an attempt waits and its time has come |
| `DispatchSafety.StepKeepsWorld` | crates/store/src/memory.rs:297-390 | every event keeps the ledger sound and evolving |
| `DispatchSafety.QuietSteps` | src-tauri/src/memory.rs:563-671 | no command, crash or recovery sends anything; each leaves a row alone, closes it, requeues it or marks it unknown |
| `DispatchSafety.QuietKeepsInv` | src-tauri/src/memory.rs:563-671 | commands, settings, crashes and recovery keep all delivery invariants |
| `DispatchSafety.SentKeepsInv` | src-tauri/src/memory.rs:1610-1671 | a dispatch keeps all delivery invariants |
| `DispatchSafety.OutcomeKeepsInv` | src-tauri/src/memory.rs:1672-1703 | an outcome keeps all delivery invariants |
| `DispatchSafety.StepKeepsInv` | src-tauri/src/memory.rs:1511-1797 | one run per family, bounded attempts and chunk order are kept by every event |
| `DispatchSafety.PlayKeepsInv` | src-tauri/src/memory.rs:1511-1797 | they hold in every reachable state, also after retries that stop between any two of their writes |
| `DispatchSafety.OneRunDelivers` | src-tauri/src/memory.rs:1440-1510 | in every run all confirmed root attempts of a revision family belong to one report run |
| `DispatchSafety.DeliveredInOrder` | src-tauri/src/memory.rs:1603-1621 | whenever a chunk was ever sent, every earlier chunk of its digest is settled |
| `DispatchSafety.SettledIsFinal` | crates/store/src/memory.rs:323-355 | settled attempts never change and an unknown one stays until a resolution names it, over any run |
| `DispatchSafety.SendingNeedsDispatch` | src-tauri/src/memory.rs:1604-1671 | an attempt enters sending only with all earlier ones settled, none unknown, the frozen chat selected, its retry time reached and its family unconfirmed elsewhere |
| `DispatchSafety.SettledRowBounded` | src-tauri/src/memory.rs:1435-1439 | a scheduled retry is the first, second or third and waits at least 30, 120 or 600 seconds |
| `LostOutcomes.LostOutcomeIsSentAgain` | src-tauri/src/memory.rs:1366-1395 | in every reachable state: an attempt whose outcome could not be stored is sent again by the next pass if and only if its run is queued or saved with other work, and its chat is still selected |
| `LostOutcomes.LoneAttemptIsLeft` | src-tauri/src/memory.rs:1384-1389 | a lost attempt that is the last open work of a closed run is not taken up |
| `LostOutcomes.ExtraIsCharged` | src-tauri/src/memory.rs:1435-1439 | what an attempt may be sent beyond four times is at most the number of its lost outcomes and of the retries that reset it |
| `LostOutcomes.AtMostFourAutomaticSends` | src-tauri/src/memory.rs:1435-1439 | over every run an attempt is sent at most four times plus once per retry that reset it and per outcome of it that could not be stored |
| `LostOutcomes.FourSendsWithoutLossOrRetry` | src-tauri/src/memory.rs:1435-1439 | with every outcome of it stored and no retry of its run, an attempt is sent at most four times |
| `FifthSend.BoundIsReached` | src-tauri/src/memory.rs:1672-1702 | the bound is exact: for every n a concrete run without retries in which one attempt loses n outcomes and is sent 4 + n times |
| `PaddedChat.AddedForTrimmedChat` | src-tauri/src/memory.rs:488-491 | a row that a retry adds is addressed to the selected chat if and only if that chat id has no outer blanks |
| `PaddedChat.AddedRowsDispatch` | src-tauri/src/memory.rs:1631 | while the settings stay, such a row may be sent if and only if the other guards hold and the chat id is trimmed; with a padded one it is never sent |
| `PaddedChat.RetryStalls` | src-tauri/src/memory.rs:483-561 | a finished retry under a padded chat leaves nothing of the run that could be sent, unless something was in flight or unknown |
| `PaddedChat.StalledStays` | src-tauri/src/memory.rs:1604-1671 | over every run that leaves the settings alone, further retries included, it stays that way |
| `PaddedChat.PaddedChatStalls` | src-tauri/src/memory.rs:488-491 | a concrete run for the chat ' A': the digest may be sent until the first retry and never after |
| `DeliveryWorker.QueueSorted` | src-tauri/src/memory.rs:1603 | the queue is in (chunk, creation time) order |
| `DeliveryWorker.TrackedEarlierSettled` | src-tauri/src/memory.rs:1603-1621 | what the loop has passed settles everything earlier |
| `DeliveryWorker.ConcurrentStays` | src-tauri/src/memory.rs:1743-1797 | commands that arrive meanwhile never touch the run being delivered |
| `DispatchSafety.UnblockedStays` | src-tauri/src/memory.rs:1457-1510 | an unblocked run cannot be blocked by commands before its dispatch |
| `DeliveryWorker.ChecksAllowDispatch` | src-tauri/src/memory.rs:1610-1670 | the checks made on the rows read once allow the dispatch in the store as it is |
| `DeliveryWorker.Worker.Send` | src-tauri/src/memory.rs:1657-1702 | the intent is stored before the message goes out, the outcome after it; exactly one message, the attempt's own; the loop goes on only after a recorded confirmation |
| `DeliveryWorker.Worker.HandleAttempt` | src-tauri/src/memory.rs:1610-1702 | one attempt of the loop: exactly when its message is sent, exactly which steps are taken, and what the loop does next |
| `DeliveryWorker.Worker.Prepare` | src-tauri/src/memory.rs:1517-1598 | a digest that is due becomes exactly one pending row per text, in order, for the frozen chat, numbered and counted, behind the old rows; otherwise nothing, an error, or one row that says why |
| `DeliveryWorker.Worker.Deliver` | src-tauri/src/memory.rs:1511-1703 | every store write is an enabled step and every message that of a dispatch; when it runs to the end all attempts are settled, one for each text of a digest that was due; undisturbed it does run to the end and sends exactly the open messages, those of a new digest in the order of its texts |
| `DeliveryWorker.Worker.Drain` | src-tauri/src/memory.rs:1595-1703 | the loop over the rows as read once: when it runs to the end all attempts are settled; undisturbed it does, having sent each open message once, in order |
| `DeliveryWorker.SendsOnlyWhen` | src-tauri/src/memory.rs:1611-1664 | whatever the commands do, nothing is sent while stopping, before its time, without a credential, to a chat not selected, or for a blocked run |
| `DeliveryWorker.ReplayEvolves` | crates/store/src/memory.rs:297-390 | whatever the worker and the commands did, the ledger evolved |
| `OwnedFile.Inspect` | src-tauri/src/memory_files.rs:315-351 | a foreign or edited note is a conflict; equal content is success without writing |
| `OwnedFile.Install` | src-tauri/src/memory_files.rs:383-406 | the swap moves what it displaces to the recovery copy; a failure reports that copy |
| `OwnedFile.VerifyInstalled` | src-tauri/src/memory_files.rs:406-415 | success needs the new content read back from the note |
| `OwnedFile.DiscardDisplaced` | src-tauri/src/memory_files.rs:416-434 | the displaced copy goes only if it has the expected hash; undisturbed, any other file is kept and reported as a conflict that names it |
| `OwnedFile.WriteOwned` | src-tauri/src/memory_files.rs:298-436 | at every moment of every interleaving and crash only bytes with the expected hash are given up; success means verified content, and then the recovery copy is absent or owned (or a link to nothing); an edit just before the swap is answered exactly: a foreign file is a conflict that names the recovery copy; without interference it succeeds exactly when the note is absent or owned |
| `OwnedFile.SwapSpares` | src-tauri/src/memory_files.rs:383-391 | a swap, complete or half done, keeps the displaced entry |
| `OwnedFile.NothingLost` | src-tauri/src/memory_files.rs:298-299 | over a whole history whatever an editor left at the note ends at the note or at the recovery copy |
| `FileDelivery.Delivery.Reconcile` | src-tauri/src/memory.rs:986-1028 | a stopped attempt succeeds without writing exactly when its stored intent is what the note holds |
| `FileDelivery.Delivery.Write` | src-tauri/src/memory.rs:1029-1080 | intent, write, ownership, outcome: the states a crash can leave between them; a conflict is recorded with its recovery copy, a failure only after a fault |
| `FileDelivery.Delivery.Deliver` | src-tauri/src/memory.rs:919-1081 | undisturbed, an attempt ends succeeded exactly when the note was clean, with one hash on disk, in the receipt and in the ownership record; otherwise in conflict with the note untouched. Whatever interferes, a success records one hash, of bytes read back from the note |
| `FileDelivery.Delivery.DeliverWithRestarts` | src-tauri/src/memory.rs:919-1081 | any number of crashes and restarts keeps the note clean, and the run that finishes succeeds |
| `FileDelivery.AnotherRunConflicts` | src-tauri/src/memory.rs:986-1035 | after a stop the note is clean for that attempt alone: another run of the same path that goes first gets a conflict |
| `RevisionRoot.FindBaseReport` | src-tauri/src/memory.rs:1107-1142 | the walk ends on every store, cyclic ones included, with the specified result |
| `RevisionRoot.WalkFollowsChain` | src-tauri/src/memory.rs:1113-1140 | the seen set never stops a walk along a finite chain |
| `RevisionRoot.BaseIsChainEnd` | src-tauri/src/memory.rs:1107-1142 | the walk succeeds exactly when a finite chain of same-scope parents exists, and returns its end |
| `RevisionRoot.WhyNoBase` | src-tauri/src/memory.rs:1113-1140 | the error says what is wrong at the first run where something is: its parent was met before, is not stored, or is of another scope |
| `RevisionRoot.RevisionSharesBase` | src-tauri/src/memory.rs:1107-1142 | a revision has a base exactly when its parent is stored, has the same scope and has that base |
| `RevisionRoot.PathIsInjective` | src-tauri/src/memory_files.rs:95-120 | one path determines the range, and the base or the date |
| `RevisionRoot.RevisionSharesNote` | src-tauri/src/memory.rs:1176-1182 | a revision is written to the note of the run it revises |
| `RevisionRoot.RevisionsShareOneNote` | src-tauri/src/memory.rs:1176-1182 | every run on the chain from a selected-range report's revision down to the base has this base and the same note |
| `RevisionRoot.OneNoteOneReport` | src-tauri/src/memory.rs:1176-1182 | different ranges or bases never share a note |
| `WireFormats.NoteLayout` | src-tauri/src/memory_files.rs:95-120 | a daily note is named after its date, a note over a range after its first and last day and the base report |
| `DigestChunks.Bounded` | src-tauri/src/memory_telegram.rs:96-104 | the longest prefix that fits, never splitting a scalar |
| `DigestChunks.LongestUnique` | src-tauri/src/memory_telegram.rs:96-104 | there is only one longest fitting prefix |
| `DigestChunks.Split` | src-tauri/src/memory_telegram.rs:136-149 | the chunks concatenate to the text; each is nonempty and at most 3500 units; each but the last is full |
| `DigestChunks.GreedyStaysAhead` | src-tauri/src/memory_telegram.rs:136-149 | the first chunks reach at least as far as the first parts of any other split |
| `DigestChunks.GreedyIsMinimal` | src-tauri/src/memory_telegram.rs:136-149 | no order-preserving split into fitting parts has fewer parts |
| `DigestChunks.LabelledFits` | src-tauri/src/memory_telegram.rs:150-156 | a labelled chunk is within the 4096 units of a message unless the count has more than 296 digits |
| `DigestChunks.AtMostThreeMessages` | src-tauri/src/memory_telegram.rs:121-149 | a digest is at most three messages |
| `DigestChunks.LabelledChunks` | src-tauri/src/memory_telegram.rs:105-156 | the messages are the labelled chunks of the cut text; with a header of at most 390 units they are at most three, each within 4096 units |
| `WireFormats.LabelLayout` | src-tauri/src/memory_telegram.rs:150-156 | the label of a chunk, for fewer than ten messages |
| `WireFormats.DigestLayout` | src-tauri/src/memory_telegram.rs:119-135 | a digest is the header and the whole report, or as much of it as fits into 10000 units, followed by a notice |
| `ExportStream.JoinConcat` | crates/api/src/export.rs:109-121 | joins of two parts meet in one comma |
| `ExportStream.Stream.CollectMarks` | crates/api/src/export.rs:139-174 | exactly the marks in the window, comma-joined and counted |
| `ExportStream.Stream.WritePage` | crates/api/src/export.rs:108-117 | a comma before every row but the first of the export |
| `ExportStream.Stream.Next` | crates/api/src/export.rs:86-133 | one step of the phase machine |
| `ExportStream.EmittedMore` | crates/api/src/export.rs:92-129 | a page extends the rows in id order without a gap |
| `ExportStream.Drain` | crates/api/src/export.rs:74-135 | for every page size, and even while the store changes, the chunks are the simple document of rows in id order, each once; counters match; the stream ends, and without a document only if a read failed |
| `ExportStream.UnchangedStore` | crates/api/src/export.rs:74-135 | over an unchanged store the export holds exactly the rows of the window |
| `ExportStream.PagesDoNotMatter` | crates/api/src/export.rs:74-135 | the document does not depend on how the pages were cut |
| `WireFormats.EmptyDocument` | crates/api/src/export.rs:74-135 | an export with nothing in it, character by character |
| `WireFormats.WindowEdges` | crates/api/src/export.rs:92-129 | the window holds its start and not its end |
| `ApiConfig.PortRoundTrip` | src-tauri/src/local_api.rs:371-392 | a persisted port reads back as itself |
| `ApiConfig.ApiRuntime.ApplyConfig` | src-tauri/src/local_api.rs:448-565 | the code performs the specified transition whatever read, write or bind fails |
| `ApiConfig.ApiRuntime.RotateLegacyToken` | src-tauri/src/local_api.rs:682-694 | persisted first, live second, or nothing |
| `ApiConfig.ApiRuntime.ChangeReadCredential` | src-tauri/src/local_api.rs:713-760 | the specified change: persisted first, installed second, or nothing |
| `ApiConfig.ConfiguredAgrees` | src-tauri/src/local_api.rs:448-565 | a configuration keeps the live server and the settings in agreement, whatever fails |
| `ApiConfig.RunAgrees` | src-tauri/src/local_api.rs:448-760 | over every sequence of commands, restarts and failures a running server is the persisted one, behind the persisted credentials |
| `ApiConfig.RefusedCredentialChange` | src-tauri/src/local_api.rs:713-729 | a refused credential change leaves everything as it was |
| `ApiConfig.CredentialChangeGrantedWhen` | src-tauri/src/local_api.rs:731-760 | exactly when a change is granted: a create only over nothing, a rotation only over something, when reads and writes succeed |
| `ApiConfig.GrantedCredentialChange` | src-tauri/src/local_api.rs:713-760 | after a granted revocation no read credential is stored or live; after a creation or rotation the new one is both; settings and server are otherwise unchanged |
| `ApiConfig.GrantedRotation` | src-tauri/src/local_api.rs:682-694 | the legacy token is rotated exactly when it can be stored; the new one is then stored and live, and all else unchanged |
| `ApiConfig.RefusedConfiguration` | src-tauri/src/local_api.rs:442-448 | a refused configuration never touches the running server or a credential; it also leaves the settings alone, except in exactly one case known beforehand: the server is to run, nothing earlier fails, no legacy token is live or readable and none can be stored |
| `ApiConfig.GrantedConfiguration` | src-tauri/src/local_api.rs:442-448 | a granted configuration does what was asked: the settings hold it and what was not asked for stays; a server runs exactly when enabled and bound, on that port and address, behind the stored credentials |
| `ApiConfig.ConfigurationGrantedWhen` | src-tauri/src/local_api.rs:448-565 | exactly when a configuration is granted |
| `ApiConfig.AutostartConfigures` | src-tauri/src/local_api.rs:577-610 | the start of the program configures the server with what is stored, when that says so |
| `ApiConfig.FirstEnable` | src-tauri/src/local_api.rs:371-392 | on a new store nothing runs by itself, and the first enable serves the loopback address on port 43210 behind a new token |
| `ApiConfig.RestartRestores` | src-tauri/src/local_api.rs:577-605 | after a restart the autostart brings back the same server with the same credentials |
| `ApiConfig.TokenReplacedWhen` | src-tauri/src/local_api.rs:512-536 | a configuration overwrites the stored legacy token exactly when none is live and the stored one is absent or unreadable |
| `Maintenance.SafePathWhen` | src-tauri/src/lib.rs:2351-2371 | a path is safe exactly when it starts at frames and never leaves it |
| `Maintenance.Archive.RemoveImage` | src-tauri/src/lib.rs:2172-2183 | exactly this frame's safe image path goes, and no other file; done only when no image file is left where the sweep may delete |
| `Maintenance.Archive.MergeBatch` | src-tauri/src/lib.rs:2245-2255 | the cursor passes every listed frame and stays clean only if all were merged |
| `Maintenance.Archive.MergePurgedSpansOnce` | src-tauri/src/lib.rs:2223-2270 | the sweep ends; its watermark means every purged frame was merged; without failures it is set |
| `Maintenance.Archive.PurgeSelfCaptures` | src-tauri/src/lib.rs:2284-2349 | the sweep ends under any failures; its watermark means no own-window row remains; without failures it is set; no row goes while its image exists; only images of own-window frames go |
| `Maintenance.Archive.PurgeBatch` | src-tauri/src/lib.rs:2316-2335 | image before row; a batch that counts progress has removed a row; only images of own-window frames go |
| `Maintenance.Archive.RunRetentionOnce` | src-tauri/src/lib.rs:2150-2203 | only images of candidates go, whatever fails; no row is flagged while its image exists; the count is the newly flagged rows; without failures all candidates are |
| `Maintenance.Archive.DegradeOne` | src-tauri/src/lib.rs:2171-2195 | a candidate is degraded exactly when neither its image nor its row failed; then its image is gone and no other |
| `Maintenance.ExpiredWhen` | src-tauri/src/lib.rs:2158-2168 | a frame is listed exactly when it is older than the retention period, also where the subtraction saturates |

## Left out

- Network, TLS, HTTP framing, query-string parsing and the Telegram call itself: a response or a send outcome is a parameter.
- SQLite, JSON and serde: records are values, stored JSON is the record, a transaction is one step with one clock reading.
- The `coverage_json` column of a reconciliation row and the state file's schema and source checks.
- The consumer's command line, time-zone and URL parsing, and its lock file; calls on one state file are taken to be serial.
- Text filters of the frame page: the consumer sends none, and `FrameServer.Answer` names a filtered request as outside the model.
- The order in which textless frames are re-read: any order is modelled.
- Pruning of old report runs, which removes receipts from a family; the delivery invariants speak of unpruned ledgers.
- Scheduling, report generation, Markdown, credential masking and model inference; a finished and a blocked run are one phase.
- The order of file writes in the dispatch machine: there a file attempt may take any state at any time; `FileDelivery` models its writing.
- An editor that touches the writer's temporary or recovery names, directory guards and handle sharing: the editor acts on the note itself.
- The index note's content and the choice among superseded file attempts: `FileDelivery` follows the attempt in force.
- Concurrent writers during a maintenance sweep; saturation of the retention product, which cannot overflow for a 32-bit day count.
- The API's status report (`current_status`), which only reads.
- IP address parsing: a stored address is a literal or a damaged text.
- Server-sent status, toasts, logging, Windows capture, updater and user interface.
