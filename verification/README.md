# ConfigDeck in Dafny

ConfigDeck is a configuration manager in Rust over SQLite. This project models its four cores and proves what they promise.

* **The `.env` language** (`Text`, `Bytes`, `Dotenv`, `DotenvRender`, `DotenvRoundTrip`, `DotenvExact`, `DotenvScanner`, `DotenvValues`, `DotenvLines`, `DotenvOrder`, `BrowserCopy`, `BrowserCopyExact`, `PreviewLines`). The server reads and writes it, the browser copies single records out of it, and the preview of a change marks its lines. Four scanners with different state must agree on where a record begins and ends.
* **The change workflow as optimistic concurrency** (`Model`, `Store`, `StoreProofs`, `StoreRuns`, `RowOrder`, `Outcomes`, `RowOutcomes`, `Fingerprint`, `Workflow`, `WorkflowStale`, `PreviewContents`, `PreviewExport`, `PreviewApplies`, `Calls`, `CallValues`, `CallMeta`, `Refusals`, `Import`, `ImportProofs`, `ImportReview`, `ImportRepeat`, `ImportSpaced`, `ConfigStore`). A call reads, prepares, and then commits one transaction; any other transactions may come between. `Store.Run` is such an interleaving, `Store.Inv` what every state keeps, `Store.Grows` what only grows.
* **Key rotation** (`Rotation`, `RotationProofs`, `RotationRuns`, `KeyRotation`, `RotationProgress`, `RotationBridge`, `RotationWrites`, `SealedCalls`). The rotation of an environment key is a resumable protocol of many transactions, that of the master key a single one; a crash or a restart may come between any two. The bridge shows that both machines are about the same tables: a rotation step is the rekeying step of the workflow's interleavings, and a workflow write is an ordinary write of the rotation's machine.
* **Encodings and cursors** (`Crypto`, `Fingerprint`, `Audit`). Length-prefixed authenticated data, the preimage of the selection fingerprint, and the cursor of the audit list.

## How it is modelled

Text is `seq<char>` with its UTF-8 length where the program counts bytes. SQLite integers are bounded (`Model.Count`), and a counter that would pass the bound makes its write fail. A database is a value (`Model.Db`); each transaction is a function on it (`Store`), and the class `ConfigDatabase.ConfigStore` computes that function statement by statement in place, with the rollback. Loops of the program are loops here, proved equal to recursive functions (`DotenvReader`, `DotenvWriter`, `BrowserCopy`, `WorkflowReads`, `KeyRotation`, `Audit`), about which the theorems are proved.

Encryption is ideal: a blob opens only under the key and the authenticated data it was sealed with. The model compares the context that the data encode; `Crypto.OpensOnlyInItsContext` proves that comparing the bytes is the same, from the injectivity of the encoding. SHA-256 is injective, so a digest is its preimage. Fresh identifiers, nonces and keys are parameters. The order of rows that a query leaves open, and the order in an export or a review, is a parameter over which the theorems quantify.

`Store.Run1` takes a transaction only when it is `Shaped`: what the code before the transaction guarantees whatever was committed since it read. It is proved of each call from its own read phase: `Calls.CreateIsShaped`, `Calls.FulfillIsShaped`, `Calls.EditIsShaped`, `Calls.DeleteIsShaped`, `ImportProofs.RecordIsShaped`, `PreviewExport.ApplyIsShaped` and `ImportRepeat.ImportIsShaped`. Approvals, rejections and stored previews need nothing.

## Where a promise needs a condition

* A list of entries comes back from its text exactly when it is `DotenvRoundTrip.Writable`. Normalising a group name is not idempotent: `=<tab>=x` becomes `=x`, which becomes `x` (`DotenvExact.UnstableGroup`), so groups must be their own normal form.
* `PreviewThenApply` needs distinct request ids, which normalising the list gives, new identifiers, and counters below their bound.
* The browser's copy is the server's rendering exactly when no selected entry stands in a group whose name holds a line terminator of JavaScript (carriage return, U+2028, U+2029); the server's headings may hold them, the browser's pattern `.+` does not match them (`BrowserCopyExact.CopyIsRenderExactly`, and `SeparatedHeading` for one such list).
* An import repeated returns 0 and changes nothing exactly when every key stands for itself. With white space around a key the first import looks up its current row under the untrimmed key and the transaction under the trimmed one, so a repetition fails (`ImportRepeat.RepeatedImport`, and `ImportSpaced.SpacedKeyFails` for the key " A").
* `fulfill_value` tests the status of its request before its transaction only. What keeps a rejected request rejected is the CHECK on the table (`StoreRuns.FulfilAfterRejection`).
* The claim of `docs/architecture.md` that a restricted proposal hides current values on the comparison page differs from the code; that page is not part of this model.

## Model

| member | source | states |
|---|---|---|
| DotenvReader.QuotedValueIsClosed | src/dotenv/mod.rs:143-155 | The scan of one line with its escape flag is the recursive `Closes`: whether it holds an unescaped closing quote, for either quote; only double quotes have escapes. |
| DotenvReader.ParseDoubleQuoted | src/dotenv/mod.rs:233-259 | The character loop decodes escapes as `DecodeDouble` does, error cases included. |
| DotenvReader.ParseMultilineAssignment | src/dotenv/mod.rs:111-141 | Collecting continuation lines and advancing the line index takes as many lines and gives the same entry or error as `ParseMultiline`. |
| DotenvReader.ParseText | src/dotenv/mod.rs:32-109 | The whole line loop, with its mutable index, group and key set, computes `Parse` for every input. |
| DotenvExact.ReadingIsGood | src/dotenv/mod.rs:32-109 | For every input a report has at most 500 entries, with valid, distinct keys and values within the limit; no entries means a reported issue. |
| DotenvScanner.CollectorStopsAtClosingQuote | src/dotenv/mod.rs:111-155 | Whenever an assignment is accepted, the lines consumed are exactly those up to the one holding the closing quote that the whole-value decoder finds, for both quotes, although the scanner resets its escape state at each line; an unquoted one takes no further line. |
| DotenvValues.OneLineExactly | src/dotenv/mod.rs:32-269 | A text `key=raw` is read as the value v, without an issue, if and only if raw is v without quotes, v between single quotes, or a spelling of v between double quotes (each character itself or as an escape that stands for it), with white space around it, and all limits are kept. |
| DotenvValues.ManyLines | src/dotenv/mod.rs:32-109 | Lines that each write a value are read one by one: the first use of each key becomes an entry with its value, numbered from zero, every later use an issue with its line number. |
| DotenvLines.DecoratedLine | src/dotenv/mod.rs:173-190 | White space before a line, the word `export`, and white space around the key change nothing. |
| DotenvLines.ExportAsKey | src/dotenv/mod.rs:173-178 | A key `export` with a space behind it is the one exception: the word is taken for the prefix and the key is missing. |
| DotenvLines.MarkedLine | src/dotenv/mod.rs:40-56 | A byte order mark before the first line is not part of it. |
| DotenvLines.KeyExactly | src/dotenv/mod.rs:355-380 | A key is valid if and only if it has 1 to 255 letters, digits, underscores and dots and begins with a letter or an underscore. |
| DotenvLines.GroupName | src/dotenv/mod.rs:215-221 | A normal group name is one piece of the text, 1 to 80 characters, visible at both ends, with only white space and decoration around it. |
| DotenvWriter.RenderValueText | src/dotenv/mod.rs:329-353 | The quoting loop leaves safe values bare and escapes the others as `RenderValue` does. |
| DotenvValues.WrittenValue | src/dotenv/mod.rs:329-353 | Every value is written as a spelling of itself: bare exactly when all its characters are plain, otherwise between double quotes without a carriage return or tab in the text. |
| DotenvWriter.GroupPositions | src/dotenv/mod.rs:273-285 | The loop over the entries gives each group its smallest position. |
| DotenvWriter.RenderText | src/dotenv/mod.rs:271-327 | Sorting in place and emitting headings, blank lines and records into a buffer gives `Render`. |
| DotenvOrder.WrittenOrder | src/dotenv/mod.rs:271-304 | The written list has the same entries: ungrouped ones first, groups by smallest position and then by name, and within a group by position and then by key. |
| DotenvOrder.StrLessIsBefore | src/dotenv/mod.rs:295-303 | Names compare at the first character in which they differ, a prefix first. |
| DotenvRender.RenderOrderIndependent | src/dotenv/mod.rs:271-327 | Two permutations of entries with distinct keys have the same order and the same text. |
| DotenvRender.RenderCanonical | src/dotenv/mod.rs:271-327 | The canonical, renumbered list is in order already and is written as the original list is. |
| DotenvRoundTrip.ParseOfRender | src/dotenv/mod.rs:32-353 | A writable list is parsed back from its text without an issue, in canonical order, numbered from zero. |
| DotenvExact.RoundTripExactly | src/dotenv/mod.rs:32-353 | Parsing the rendered text reports no issue and gives the entries in canonical order, numbered from zero, if and only if the list is writable: 1 to 500 entries, valid distinct keys, NUL-free values within 32 KiB, groups that are their own normal form and free of line feeds and NUL, text within 256 KiB. |
| DotenvExact.RenderedTextIsStable | src/dotenv/mod.rs:32-353 | For a writable list, rendering what was parsed gives the same text, and the canonical list is writable and its own canonical form. |
| DotenvExact.UnstableGroup | src/dotenv/mod.rs:215-221 | A concrete group that normalisation changes twice, and the list with it that is not writable. |
| BrowserCopy.ClosesDotenvQuote | static/app.js:350-358 | The browser's scan of one line finds an unescaped double quote as `Closes` defines it on rendered lines. |
| BrowserCopy.SelectDotenvEntries | static/app.js:360-396 | The index loop with its current and emitted group computes `SelectEntries` on every text. |
| BrowserCopyExact.CopyIsRenderExactly | static/app.js:350-396 | For stored entries, copying selected keys out of the rendered text equals rendering the selected entries of the canonical list, byte for byte, if and only if no selected entry's group holds a line terminator of the browser. |
| BrowserCopyExact.SeparatedHeading | static/app.js:360-396 | A concrete list whose copy differs from the rendering: a group name with a line separator (U+2028). |
| PreviewLines.AnnotateLines | src/requests/review.rs:41-92 | The line loop with its remaining counter and marker computes `Annotated`. |
| PreviewLines.LinesMarkedByOwner | src/requests/review.rs:41-92 | On rendered text every line carries the marker of the item that names the key of the record it lies in, continuation lines included, headings and blank lines none; lines are numbered from 1 and joining them gives the text back. |
| PreviewLines.MarkerTellsAction | src/requests/review.rs:46-58 | With one item a key, a line is NEW exactly for an ADD item and UPDATE exactly for an UPDATE item. |
| Crypto.AadBuilder.PushField | src/crypto/mod.rs:471-476 | Extending the buffer appends one length-prefixed field to the list the buffer stands for. |
| Crypto.BuildAad | src/crypto/mod.rs:418-460 | The five builders produce the versioned, purpose-tagged, length-prefixed bytes of their context. |
| Bytes.BigEndianValue | src/crypto/mod.rs:470-481 | The length prefixes and numbers are big-endian: their bytes, the first weighing most, stand for the number. |
| Bytes.Utf8CharStandsFor | src/crypto/mod.rs:418-460 | The bytes of a character stand for its code point in UTF-8, continuation bytes marked. |
| Crypto.AadInjective | src/crypto/mod.rs:418-485 | Equal bytes imply the same purpose and equal fields, for all identifiers shorter than 2^32 bytes and all 64-bit numbers. |
| Crypto.OpensOnlyInItsContext | src/crypto/mod.rs:379-416 | Opening by authenticated bytes is opening by context: for all identifiers shorter than 2^32 bytes a ciphertext opens under exactly the key and the context it was sealed with, not in another row, version or purpose. |
| Fingerprint.SelectionFingerprint | src/requests/mod.rs:1585-1648 | The running digest over requests, items and rows is fed exactly `SelectionDigest`. |
| Fingerprint.ItemIsNotRow | src/requests/mod.rs:1595-1642 | Bytes that begin with an item never begin with a row: the action words and the lifecycle words are disjoint. |
| Fingerprint.DigestTellsSelection | src/requests/mod.rs:1585-1648 | The preimage is uniquely decodable: for the same request ids, equal bytes mean equal request revisions, equal items and equal rows, although no list length is written; blank and absent optional texts are one. |
| ConfigDatabase.ConfigStore.CreateRequest | src/requests/mod.rs:354-409 | The inserts of a request and its items are atomic: all committed, or the database unchanged on a constraint. |
| RowOutcomes.CreateOutcome | src/requests/mod.rs:354-409 | A creation adds one request row at revision 1, not approved, NEEDS_INPUT exactly when a value is missing, its items as new rows, and one audit event; nothing else changes. |
| ConfigDatabase.ConfigStore.ApproveRequest | src/requests/mod.rs:1126-1180 | The transaction commits exactly `Approve`, or leaves the database unchanged; the invariants are kept and rows only grow. |
| Outcomes.ApproveOutcome | src/requests/mod.rs:1126-1180 | An approval commits exactly for a waiting request, not yet approved, with a next revision; then it is approved, READY_TO_APPLY exactly when no value is missing, without a fingerprint, and nothing else changes. |
| ConfigDatabase.ConfigStore.RejectRequest | src/requests/mod.rs:1182-1229 | The transaction commits exactly `Reject`, or leaves the database unchanged; the invariants are kept and rows only grow. |
| Outcomes.RejectOutcome | src/requests/mod.rs:1182-1229 | A rejection commits exactly for a request that is REQUESTED, NEEDS_INPUT or READY_TO_APPLY and has a next revision; then it is REJECTED, without a fingerprint, and no other row changes. |
| Outcomes.DecidedForEver | migrations/0001_initial.sql:185-214 | Over every run a rejected or applied request keeps its row, and no preview, apply, approval or rejection of it commits again. |
| ConfigDatabase.ConfigStore.FulfillValue | src/requests/mod.rs:973-1024 | The item update, the recomputed status and the audit row commit together or not at all; kept invariants included. |
| RowOutcomes.FulfillOutcome | src/requests/mod.rs:973-1024 | A fulfilment stores the sealed value in its item at the next revision; its request gets the next revision, no fingerprint, and the status that the missing values and the approval give; nothing else changes. |
| ConfigDatabase.ConfigStore.RecordPreview | src/requests/mod.rs:1274-1301 | The request loop stores the fingerprint on every request of the revision read, or on none. |
| Outcomes.PreviewOutcome | src/requests/mod.rs:1274-1301 | A preview is stored exactly when every request is still READY_TO_APPLY at the revision read; then each holds the fingerprint with its other columns unchanged, and no other row differs. |
| ConfigDatabase.ConfigStore.MutateCurrent | src/variables/mod.rs:747-822 | A row is written only when its environment, version and lifecycle are those expected. |
| ConfigDatabase.ConfigStore.PersistVersion | src/requests/mod.rs:1913-2002 | The current row and its history row of the same version, value, metadata and lifecycle are written together. |
| RowOutcomes.VersionOutcome | src/requests/mod.rs:1913-2002 | One version writes exactly its own row and one new history row, with the value, metadata, version and lifecycle of the write. |
| ConfigDatabase.ConfigStore.MarkApplied | src/requests/mod.rs:1346-1401 | Reload, validation, fingerprint, key version, the writes and the status changes are one atomic transaction. |
| Outcomes.ApplyOutcome | src/requests/mod.rs:1346-1401 | An apply that commits leaves each request of its selection, which are distinct, with status APPLIED, `applied` true and the next revision, one audit event each, and no other request, item or key changed. |
| ConfigDatabase.ConfigStore.EditPreview | src/requests/review.rs:177-226 | A correction commits the item and its request together, or changes nothing. |
| RowOutcomes.EditOutcome | src/requests/review.rs:177-226 | A correction writes value, group and order of its item at the next revision; its request gets the next revision and loses its fingerprint; an unchanged one writes nothing. |
| ConfigDatabase.ConfigStore.PersistApplied | src/variables/mod.rs:644-666 | A direct record or delete inserts its request and item and writes its version, or changes nothing. |
| RowOutcomes.DirectOutcome | src/variables/mod.rs:644-745 | A direct write leaves an applied request with its one item, the version and its history row, and one audit event. |
| ConfigDatabase.ConfigStore.ImportReviewed | src/variables/mod.rs:437-493 | A refused batch writes nothing; an accepted one writes the changed entries, counts them and adds one audit row unless there were none. |
| ImportReview.ImportOutcome | src/variables/mod.rs:437-493 | An import returns the number of its changed entries and adds one audit event for each and one of its own; with none it leaves the database as it was. |
| StoreProofs.WriteKeeps | src/requests/mod.rs:1913-2002 | One new version keeps every invariant: unique keys, history 1..n with the newest row equal to the current row, all ciphertexts readable. |
| StoreProofs.FulfillKeeps | src/requests/mod.rs:973-1024 | Fulfilling keeps the invariants although the status was tested before the transaction. |
| StoreProofs.ApplyKeeps | src/requests/mod.rs:1346-1401 | Applying a selection keeps the invariants, and nothing goes back. |
| StoreRuns.EditedIsCurrent | src/requests/review.rs:177-200 | When the digest matches inside the transaction, the item a correction was prepared from is still the stored one. |
| StoreRuns.EveryRun | migrations/0001_initial.sql:144-300 | Over every interleaving of creations, fulfilments, approvals, rejections, previews, corrections, applies, direct records and deletes, imports, new and archived environments and rekeyings, the invariants hold and versions and revisions only grow. |
| StoreRuns.StatusOverRuns | migrations/0001_initial.sql:185-214 | In every interleaving a request's status is a function of rejected, applied, approved and missing values; revisions never fall; REJECTED and APPLIED are final. |
| StoreRuns.FulfilAfterRejection | src/requests/mod.rs:973-1013 | A fulfilment whose request was rejected since its status test fails and changes nothing. |
| StoreRuns.HistoryOverRuns | src/variables/mod.rs:656-881 | Over every run a variable's history versions are exactly 1..n, n its current version, and the newest history row equals the current row in value, metadata and lifecycle. |
| StoreRuns.StaleWriterChangesNothing | src/variables/mod.rs:778-821 | A direct writer whose variable was changed, deleted, revived or created since it read leaves the database unchanged. |
| WorkflowReads.ValidateSelection | src/requests/mod.rs:1550-1583 | The loops with their id and key sets accept exactly the valid selections. |
| RowOrder.RowsRise | src/requests/mod.rs:1499-1521 | The rows of an environment are read once each, tombstones included, by key and then by identifier. |
| RowOrder.ItemsRise | src/requests/mod.rs:1463-1497 | The items of a request are read once each, in the same order. |
| WorkflowReads.ResolveDotenv | src/requests/mod.rs:1650-1741 | Inserting rows and then inserting, replacing and removing items in a map, entry by entry, computes the resolved text and its marked lines, with every conflict; `PreviewHolds` says which values these are. |
| WorkflowReads.PrepareApplyItems | src/requests/mod.rs:1800-1911 | The item loop over the two row maps pushes the writes that `PrepareApply` defines, with every conflict. |
| WorkflowReads.PreviewResulting | src/requests/mod.rs:1242-1256 | The read phase of a preview: loading, checks, fingerprint and text, in the order of their errors; `PreviewIsExported` says what the text promises. |
| WorkflowReads.ExportEnvironment | src/variables/mod.rs:1131-1156 | Decrypting row by row and rendering gives the export; `ExportOfShown` says what it holds. |
| PreviewContents.PreviewHolds | src/requests/mod.rs:1650-1741 | The previewed text is the rendering of exactly these values: at a key that an ADD or UPDATE item names, its proposal; at a key that no item names, the ACTIVE row of the environment; nothing at a key that a DELETE item names. |
| WorkflowStale.NothingChanged | src/requests/mod.rs:1585-1648 | When an earlier and a later state have the same digest, items, rows and revisions at every state between are the same up to ciphertexts of the same values. |
| WorkflowStale.StaleWritesAreCurrent | src/requests/mod.rs:1336-1373 | With the fingerprint of an earlier preview, whatever was committed in between, if the check inside the transaction passes then the writes prepared from earlier reads equal those that would be prepared inside it, for the same fresh ids and nonces. |
| PreviewExport.ApplyIsShaped | src/requests/mod.rs:1352-1373 | The writes that an apply prepared from earlier reads are a well-formed transaction whenever its check passes: each for the version after the one it expects, sealed for its own row and version under a key that exists. |
| PreviewExport.WritesShow | src/requests/mod.rs:1674-2002 | Folding items over a map and inserting, updating, reviving and tombstoning rows stay in step, item by item. |
| PreviewExport.ExportOfShown | src/variables/mod.rs:1131-1156 | An export of an environment that a map shows is the rendering of that map, in whatever order the rows are read. |
| PreviewExport.PreviewIsExported | src/requests/mod.rs:1231-1401 | If a preview gives a text and a fingerprint and an apply later succeeds with that fingerprint, with any calls in between, then exporting the committed environment gives exactly the previewed text. |
| PreviewApplies.PreviewThenApply | src/requests/mod.rs:1231-1401 | A preview of distinct requests is stored, and the apply read right after it commits with its fingerprint, whenever identifiers are new and the counters it moves have a next number. |
| PreviewApplies.PreviewApplyExport | src/requests/mod.rs:1231-1401 | Those two transactions, one after the other, are a run after which the export is the previewed text and every request is APPLIED. |
| Calls.PrepareCreate | src/requests/mod.rs:305-341 | The item loop with its key set and next order prepares the items that `ReadCreate` defines. |
| Calls.CreateIsShaped | src/requests/mod.rs:723-848 | While the key that sealed its values exists, a request prepared at one time is well formed at every later one. |
| Calls.CreateCommits | migrations/0001_initial.sql:216-262 | With new identifiers no CHECK, unique index or trigger refuses a prepared request. |
| Calls.FulfillIsShaped | src/requests/mod.rs:935-973 | A fulfilment prepared at one time is well formed at every later one while its key exists: its value is sealed for the next revision of its item. |
| Calls.DeleteIsShaped | src/variables/mod.rs:534-597 | A direct delete prepared at one time is well formed at every later one while its key exists: it is sealed for the version after the one it read. |
| Calls.DeleteKeepsValue | src/variables/mod.rs:555-640 | A direct delete writes a tombstone that holds the value and the metadata it deletes. |
| Calls.EditIsShaped | src/requests/review.rs:116-176 | A correction prepared from an earlier read is well formed at every later state while its key exists: its value is sealed for the next revision of the item it read. |
| CallValues.CreateHoldsSubmitted | src/requests/mod.rs:723-848 | Each item of a prepared request has the action, key, visibility, type and texts submitted, is about the ACTIVE row of its key or a key without one, and its proposal opens to the submitted value. |
| CallMeta.CreateWrites | src/requests/mod.rs:723-848 | Each item has the order and group of the row of its key; a new key has the order asked for, or the next free one counted over the request. |
| CallValues.FulfillLands | src/requests/mod.rs:926-1024 | After a fulfilment the stored item opens to the value that was given. |
| CallValues.EditLands | src/requests/review.rs:116-226 | After a correction the stored item opens to the corrected value, or to its previous one when none was given, with the group and order given. |
| CallValues.RecordLands | src/variables/mod.rs:259-386 | After a direct record the ACTIVE row of its key opens to the value given, with the visibility and type given. |
| CallMeta.RecordWrites | src/variables/mod.rs:272-386 | A record of a new key is version 1 with an order above all others; of a known key the next version, with the order kept, the group kept unless given, and a tombstone revived. |
| CallMeta.NextOrderIs | src/variables/mod.rs:1446-1456 | The next display order is right above the greatest of the environment, and 0 in an empty one. |
| CallValues.DeleteLands | src/variables/mod.rs:534-640 | After a direct delete the row is a tombstone at the next version that opens to the value it had. |
| Refusals.NoPreviewOrApply | src/requests/mod.rs:1231-1345 | In an archived environment or App no preview and no apply is prepared. |
| Refusals.NoDirectWrite | src/variables/mod.rs:1384-1390 | There no record, delete or import goes through. |
| ImportProofs.RecordIsShaped | src/variables/mod.rs:272-386 | A direct record prepared at one time is well formed at every later one while its key exists: value and proposal are sealed for their own row, version and item. |
| ImportRepeat.ImportIsShaped | src/variables/mod.rs:398-493 | The changed entries of an import whose transaction passes its checks are well-formed direct writes, whatever was committed since it read. |
| ImportRepeat.ImportIsAStep | src/variables/mod.rs:398-493 | An import whose transaction passes its checks is a step of the interleavings and keeps the invariants, whatever was committed since it read. |
| ImportProofs.ImportLeaves | src/variables/mod.rs:437-493 | After an import every key has an ACTIVE row with the metadata of its entry, changed or not, a changed one with the value written, and no other row moved. |
| ImportRepeat.EntryLanded | src/variables/mod.rs:398-532 | After an import the ACTIVE row of every entry, unchanged ones included, holds the value and the metadata of the entry, whatever was committed between read and transaction. |
| ImportRepeat.OneVisibility | src/variables/import_review.rs:68-143 | After every successful import all ACTIVE rows of an imported key across the App's active environments have the visibility of the import. |
| ImportReview.AllowedExactly | src/variables/import_review.rs:68-143 | A review lets a key be written with a visibility if and only if every use of the key has it, no proposal for it is open in the environment, every open proposal elsewhere has it too, and without any use those are Restricted. |
| ImportRepeat.ReviewAgain | src/variables/import_review.rs:68-143 | A review that allowed an import allows it again over the references of the committed state. |
| ImportRepeat.RepeatedImport | src/variables/mod.rs:398-532 | Repeating a successful import with no write in between returns 0 and leaves the database as it is if and only if every key stands for itself and its row has a next version; otherwise it fails. Revived keys and defaulted group, description and order included. |
| ImportSpaced.SpacedKeyFails | src/variables/mod.rs:398-532 | Importing the key " A" into an environment without variables writes one variable, and the same import again fails. |
| ImportRepeat.ParsedKeysStand | src/dotenv/mod.rs:173-190 | The keys of every parsed text stand for themselves. |
| RotationProofs.StepsKeep | src/rotations/mod.rs:201-933 | Over every run of writes, restarts, enrolments and both rotations, with crashes and resumed calls anywhere, each cell names an existing key that opens it, one key an environment is ACTIVE, at most one operation is open, and its counters are right. |
| RotationProofs.BatchKeeps | src/rotations/mod.rs:642-855 | A batch of any of the three tables keeps that, keeps every plaintext, and lowers the references to the source version by its size. |
| RotationProofs.RestartKeeps | src/db.rs:41-135 | A restart that passes the start-up checks keeps a sound state, whatever keys are mounted. |
| RotationRuns.RotationKeepsPlaintexts | src/rotations/mod.rs:399-933 | From preparation to finish, through crashes, restarts, resumed calls and attempted writes, every cell keeps its row, its place and its plaintext. |
| RotationRuns.OneActiveKey | migrations/0001_initial.sql:109-133 | In every reachable state an environment has exactly one ACTIVE key, and each of its cells opens under a key that still exists. |
| RotationRuns.DestroyedUnreferenced | src/rotations/mod.rs:891-912 | A step that destroys a key does so when no cell names it, before and after. |
| RotationRuns.FinishOutcome | src/rotations/mod.rs:857-925 | Finishing makes the target ACTIVE, destroys the source, completes the operation and leaves all records on the target. |
| RotationRuns.SourceOnlyFalls | src/rotations/mod.rs:184-198 | While an operation is open no step adds a reference to its source version, so an emptiness seen by a batch stays. |
| RotationRuns.BatchIsAllowed | src/rotations/mod.rs:1059-1081 | In a sound state under the ACTIVE master key no batch of an open operation is refused: every row opens and the checkpoint fits. |
| RotationRuns.FinishIsAllowed | src/rotations/mod.rs:857-890 | Once nothing names the source, counts and ciphertexts always verify. |
| RotationRuns.RotationsExclude | src/rotations/mod.rs:1236-1249 | Where a master-key rotation can start, no environment-key rotation can be prepared, go on or finish, and writes are blocked. |
| RotationRuns.KekAllowedExactly | src/rotations/mod.rs:201-295 | In a sound state a master-key rotation starts exactly when the ACTIVE key is mounted as previous, the primary key is new and nothing is open; the checks of each key and each seed never fail. |
| RotationRuns.KekOutcome | src/rotations/mod.rs:292-397 | All or nothing: after the commit every key not retired and every seed opens with the primary key alone and to what it was; otherwise nothing changed. |
| RotationProgress.KekRecord | src/rotations/mod.rs:292-397 | The commit makes the primary key ACTIVE under the next version and the old one inactive, moves every ACTIVE key and every seed to it, keeps the status of every key, and records one completed operation. |
| RotationRuns.NothingUnderRetiredKek | src/rotations/mod.rs:201-397 | In every state of every run, restarts included, no ACTIVE or PENDING key is left under a retired master key, and the mounted keys open each. |
| KeyRotation.RotationService.SelectBatch | src/rotations/mod.rs:649-657 | At most 64 rows of the table, none only when none is left. |
| KeyRotation.RotationService.TakeBatch | src/rotations/mod.rs:642-700 | Preparing each row and writing them with the checkpoint is one batch step, or leaves everything unchanged. |
| KeyRotation.RotationService.MigrateAll | src/rotations/mod.rs:527-587 | From any sound state with an open operation, migrating or verifying, the loop ends with no reference to the source, status VERIFYING and every plaintext kept. |
| KeyRotation.RotationService.RotateDek | src/rotations/mod.rs:399-525 | Started or resumed from any sound state, a rotation ends COMPLETED exactly when the environment exists, the primary key is ACTIVE and no other operation is open; otherwise it changes nothing. |
| RotationProgress.ResumeCompletes | src/rotations/mod.rs:427-933 | From any sound state with an open operation under the ACTIVE master key, migrating or verifying, a resumed call ends COMPLETED however it chooses its batches: source retired and destroyed, target ACTIVE, every record on the target, every plaintext kept, writes allowed again. |
| RotationProgress.RotationCompletes | src/rotations/mod.rs:399-933 | After any run of writes, restarts, crashes and earlier calls that leaves an operation open under the ACTIVE master key, the next call completes it in the same way. |
| RotationProgress.BatchProgress | src/rotations/mod.rs:527-587 | In such a state each batch that the queries can give commits and lowers the references to the source version by its size. |
| RotationProgress.GateExactly | src/rotations/mod.rs:184-198 | Writes are allowed exactly when no operation is under way and the ACTIVE master key is the primary one. |
| RotationProgress.PrepareOutcome | src/rotations/mod.rs:427-525 | A prepared rotation adds one PENDING key that opens to the new secret and one MIGRATING operation counting every record of the source; nothing else changes, and writes are blocked. |
| RotationProgress.HalfDone | src/rotations/mod.rs:642-700 | A rotation stopped after one of two records is a sound state in which both key versions are named once. |
| KeyRotation.RotationService.RotateMasterKey | src/rotations/mod.rs:201-397 | The preparing loops and the one transaction compute the master-key rotation exactly when it is allowed, and change nothing otherwise. |
| RotationBridge.RotationIsRekeying | src/rotations/mod.rs:399-933 | Every rotation step, on the tables of the workflow, leaves the same rows with other ciphertexts of the same values, all readable. |
| RotationBridge.WorkflowIsOrdinaryWrite | src/rotations/mod.rs:184-198 | A workflow write that seals under the ACTIVE keys is an ordinary write of the rotation's machine. |
| RotationWrites.TransactionIsOrdinaryWrite | src/rotations/mod.rs:184-198 | Every workflow transaction, committed or refused, is an ordinary write of the rotation's machine while the gate is open; an apply and a correction because they test the ACTIVE key themselves, the others when their values were sealed under it. |
| SealedCalls.CreateSealsActive | src/requests/mod.rs:723-848 | A creation seals its values under the ACTIVE key it read, so it is such a write while that key stays ACTIVE. |
| SealedCalls.RecordSealsActive | src/variables/mod.rs:272-386 | A direct record seals its value and its proposal under the ACTIVE key it read. |
| SealedCalls.ImportSealsActive | src/variables/mod.rs:437-493 | An import that passes its checks has sealed every changed entry under the key that is ACTIVE at the commit. |
| Audit.ListPage | src/audit/mod.rs:146-204 | The query in either order, the truncation and the reversal give `List`. |
| Audit.OlderPage | src/audit/mod.rs:163-203 | The page below a row is the up to 25 matching rows right below it, newest first, whatever was appended. |
| Audit.WalkVisitsAll | src/audit/mod.rs:146-204 | Following the older cursor from the first page ends and visits every matching event present at the start exactly once in descending order, although events are appended between the pages. |
| Audit.NewerStepReturns | src/audit/mod.rs:146-204 | One newer step from the next older page returns exactly the page before it. |

## Left out

- PreviewIsExported: a read phase is one snapshot; the program reads with several statements that are not in one transaction.
- StaleWritesAreCurrent: the archived flags, which the apply transaction does not read again, are not compared.
- CreateIsShaped: the key version that sealed the values must still exist at the commit; writes are taken to be gated as a whole while a rotation runs, as the program's gate intends.
- FulfillIsShaped: the same condition on the key version.
- DeleteIsShaped: the same condition on the key version.
- RecordIsShaped: the same condition on the key version.
- EditIsShaped: the same condition on the key version.
- RotationIsRekeying: for databases without old direct proposals, which the workflow never decrypts; their re-encryption is in the rotation's own model.
- TransactionIsOrdinaryWrite: a creation, a fulfilment and a direct write do not test the ACTIVE key in their transactions; that it did not change since they read is a condition, which the write gate is there for.
- WalkVisitsAll: the filters on action, outcome and actor are one fixed predicate on events; text patterns and renamed users are not modelled.
- BatchKeeps: a batch may select any of the rows, not the first by identifier.
- Real cryptography: ciphers, key derivation, hashing and randomness are ideal interfaces. An identifier of 2^32 bytes or more, at which the program stops, has a context here like any other.
- Time: no timestamps, so history and requests carry none.
- Roles, sessions, organisations, rate limits, password and TOTP checks; a call is one that was authorised.
- HTTP routes, templates, connection pools, logging, and the rest of the browser code.
- Titles, reasons, names of environments and the display texts of an import review.
- Parsing a value as boolean, integer or URL: an input says whether its value has its type.
- Normalising a list of request ids: theorems hold for every list of ids, or say that they are distinct.
- Shared inline edits, the comparison page, redacted previews, single-record copies.
- Backup, restore and audit archives.
- The record of a failed batch in `failure_code`, and the readiness flag after a rotation.
