# Verified model of the business ledger and its durability core

The application keeps a small business's books in append-only files: journals, stock movements, invoices,
refunds and closed periods, written by Python services through a native C core that checksums every record
and announces every operation in a write-ahead log. This project models three linked parts of it in Dafny
and proves what holds over whole runs and at every crash point. `dafny verify dfyconfig.toml` checks it.

**The native record core.** `Sha256` is the streaming hash over its context struct, proved equal to the
one-shot definition of FIPS 180-4, with the constants as roots of primes in `Sha256Constants` and a known answer in
`Sha256Example`. `Text` holds string search and decimals; `Record` the canonical text, checksum insertion and the line
verifier, `ReadBack` which records a printed line gives back; `JsonPayload` the compact JSON the application puts into
records; `JsonlStore` the record file; `Wal`, `WalMeaning` and
`WalRuns` the write-ahead log with its fixed table of transactions; `Snapshot` the snapshot file.

**The business ledger.** `Books` is the state: one sequence per file, one `Step` per append, and `Written`,
what a list of appends adds whatever was there before. Every operation is a *plan*, the exact appends it makes
in order and the error it stops with; the service classes (`Inventory`, `Accounting`, `BillingService`,
`Reconciliation`, `UseCases`) run the loops and dictionaries of the source over a `Store` and are proved to make
exactly the planned appends. `Writes` says what completed plans add; `Reconciliation` states the five checks
between subledgers and ledger; `Agreement`, `SaleAgreement` and `ReturnAgreement` give the exact condition under
which each operation keeps them, and `ReconciledRuns` and `ReportRuns` carry this over every run of `Runs`;
`Stops` says what a command that stops half way has written. `Valuation` and `StockRuns` are about the weighted
average, `Equation` about the ledger equation and net income, `RefundSafety` and `Availability` about refunds,
`RefundLedger` about refunds in the ledger, `Closing` and `LateInvoice` about closed periods, `Completion` and
`RefundCompletion` about what stops an accepted invoice or refund, `Outcomes` about how any command ends, told
from the state before it.

The following modules say what the operations do in terms of files alone, with account numbers, sums and rounding
written out and none of the plans' own functions: `Admission` when a command completes and `Refusals` what an error
means; `Contents` and `StockPrices` which records a completed command leaves, field by field, and `Trails` its log,
audit and event records; `Appends`, `AppendRuns` and `Documents` what holds of every record in every run, whatever is
cut where; `ReportRows` what a row of the refund report says.

**Crash and recovery.** `PendingView` compares the application's reading of the log with the core's decisions.
`Recovery` has startup health, the table of side effects and automatic recovery; `Crash` cuts operations at
every append; `CrashRuns` runs them with crashes; `ManualRecovery` has manual decisions and accounting
adjustments, `RecoveryRuns` the state machine of both among commands and recoveries, each cut anywhere.
`CleanLog` says what a clean log means in such runs without manual recovery, `Retries` what an id used again does
to recovery, and `CutRefunds` what a refund cut between its record and its lines does to refund safety.
`Capacity` is about the limit of 512 transactions. `Identity` is the pair of identity files.

## Where the code falls short of its documentation

These are properties of the code as it is; the lemmas named say when the promise fails and when it holds.

- The file storage document under docs/ calls the sequence monotonic per file. A rollback that drops a line in front of
  one it keeps makes a later append repeat a sequence number (`WalRuns.RepeatedSequence`,
  `WalRuns.RepeatedSequenceHappens`); the lines stay numbered exactly as long as no rollback does so
  (`WalRuns.RunNumbers`).
- An invoice is costed once before its movements, each movement again at the average it finds. One item on two
  lines can post less cost than its movements take out (`SaleAgreement.RepeatedItemCanBreak`); the exact
  condition is in `SaleAgreement.InvoiceReconciles`.
- docs/INVARIANTS.md has closed periods reject mutations. Billing checks the period of the document, while its
  movements go by the timestamp, so they can land in a closed period (`LateInvoice.LateSale`); the exact conditions
  are in `Closing.InvoiceInClosedPeriod`, `Closing.RefundInClosedPeriod` and `Closing.SparingIsExact`.
- An accepted invoice with subtotal zero, or whose journal id a refund already uses, stops after its
  announcement; in the second case automatic recovery refuses to take the announcement back
  (`Completion.InvoiceCompletes`, `Completion.RefusedJournalNeedsRecovery`, `Completion.JournalIdsCollide`). A refund
  checks its restocked items only after its journal is posted (`RefundCompletion.RefundCompletes`). A command that
  does not complete breaks the five checks exactly when it is accepted and stops behind its first domain record,
  which the state before it tells (`Outcomes.Strands`, `ReconciledRuns.StoppedReconciles`). A refund that stops
  there is no refund, but its journal stands, so with a second attempt the ledger can restore more cost than the
  invoice posted (`RefundLedger.LedgerRefundsWithinInvoice`).
- An invoice or refund that stops behind its announcement, repeated under the same id and completed, gives the old
  announcement side effects: automatic recovery then refuses for ever (`Retries.RetriedInvoiceBlocks`,
  `Retries.RetriedRefundBlocks`, `Retries.UnpricedInvoiceRetried`).
- A refund writes its record in front of its lines, and the guard counts lines. Cut in between, its money is
  counted and its quantities are not, whatever is decided afterwards, and the guard accepts it again
  (`CutRefunds.RefundedTwice`); in no other way do stored refunds exceed an invoice (`CutRefunds.CutRunsAreSafe`).
- The closing of a period has no entry in the table of side effects, and the stock use case has no transaction
  around its two (`Completion.CutClosingStaysClosed`, `Completion.CutStockUseCase`). A closing without its audit
  record and a movement without its journal are all that a clean log can hide (`CleanLog.CleanLogIsComplete`).
- A decision or an adjustment that is cut behind its record and before its commit cannot be finished by any later
  one (`RecoveryRuns.CutDecisionIsStuck`, `RecoveryRuns.CutAdjustmentIsStuck`, `RecoveryRuns.StuckIsRefused`,
  `RecoveryRuns.StuckNeverCommits`), unless it is a decision that asks for an adjustment. An adjustment cut behind
  its journal can post a second correction (`RecoveryRuns.SecondCorrection`).
- The log keeps every committed transaction and the core scans at most 512, so a store can be used up
  (`Capacity.UsedUp`, `Capacity.ProtectedForever`).
- Reported net income is short of the change in net worth whenever an expense account nets to a credit
  (`Equation.NetIncomeIsNetWorth`).
- The reader of a record undoes no escape and takes the first occurrence of a key, and the payload scan of the
  printer ignores string context: an actor id with a quotation mark, a payload with its own record id or with a
  bracket in a string is read back as something else (`ReadBack.QuotedActor`, `ReadBack.RecordIdInPayload`,
  `ReadBack.PayloadSurvives`). `ReadBack.ReadsBackExactly` has the exact condition.

## Model

| member | source | states |
|---|---|---|
| `Sha256.ExpandWord` | core/src/storage/bms_sha256.c:50-54 | Each expanded schedule word is the word of section 6.2.2 of FIPS 180-4. |
| `Sha256.RoundStep` | core/src/storage/bms_sha256.c:65-80 | One pass of the round loop is one round of section 6.2.2. |
| `Sha256.Sha256Ctx.LoadSchedule` | core/src/storage/bms_sha256.c:41-54 | The array m holds the whole schedule of the block, big endian words first. |
| `Sha256.Sha256Ctx.Transform` | core/src/storage/bms_sha256.c:38-90 | The state becomes the compression of the old state and the block; data, datalen and bitlen stay. |
| `Sha256.Sha256Ctx.Update` | core/src/storage/bms_sha256.c:106-119 | After absorbing, datalen is the absorbed length modulo 64 and the state is the fold of the block function over the full blocks, for messages below 2^64 bits. |
| `Sha256.Sha256Ctx.PadTo56` | core/src/storage/bms_sha256.c:121-139 | Both padding branches leave the buffer of the padded message of section 5.1.1. |
| `Sha256.Sha256Ctx.Final` | core/src/storage/bms_sha256.c:121-156 | The hash array is the one-shot digest of everything absorbed. |
| `Sha256.LengthFieldIsLength` | core/src/storage/bms_sha256.c:140-148 | The eight length bytes encode the bit length exactly when it is below 2^64. |
| `Sha256.LeastZeroBytes` | core/src/storage/bms_sha256.c:126-138 | The padding uses the least number of zero bytes that brings the message to 56 modulo 64. |
| `Sha256.Sha256Hex` | core/src/storage/bms_sha256.c:158-174 | The streaming hash of a text is the hexadecimal form of the one-shot digest. |
| `Sha256.HexReadsBack` | core/src/storage/bms_sha256.c:158-174 | Two lower-case hexadecimal digits for each byte, the higher one first. |
| `Sha256Constants.RoundConstants` | core/src/storage/bms_sha256.c:14-31 | The t-th word of the table is the 32-bit fraction of the cube root of the t-th prime, for all 64. |
| `Sha256Constants.InitialWords` | core/src/storage/bms_sha256.c:96-103 | The initial state holds the fractions of the square roots of the first eight primes. |
| `Sha256Constants.OnePrime` | core/src/storage/bms_sha256.c:14-31 | No other number is the t-th prime, so the two statements name the numbers they speak of. |
| `Sha256Example.DigestOfAbc` | core/src/storage/bms_sha256.c:158-174 | The digest of "abc" is the published one, ba7816bf to f20015ad, of appendix B.1 of FIPS 180-2: one value that depends on every rotation, shift, constant and byte order. |
| `Record.BuildCanonical` | core/src/storage/bms_record.c:97-161 | The grown buffer holds the canonical text: keys in order, strings escaped, payload raw, no checksum. |
| `Record.FindPayloadEnd` | core/src/storage/bms_record.c:335-358 | The bracket scan stops behind the first bracket that closes the payload, or at the end of the text. |
| `Record.StringPayloadEnd` | core/src/storage/bms_record.c:335-358 | A string payload is passed whole, whatever quotation marks and backslashes its text has. |
| `Record.ScalarPayloadEnd` | core/src/storage/bms_record.c:335-358 | A number, truth value or null is passed up to the comma or brace behind it. |
| `Record.ComputeChecksum` | core/src/storage/bms_record.c:273-297 | The checksum is sha256: and the digest of the canonical text; an empty payload is refused. |
| `Record.ToJsonLine` | core/src/storage/bms_record.c:299-383 | The printed line or the status, by the rules of checksum insertion and buffer size. |
| `Record.VerifyJsonLine` | core/src/storage/bms_record.c:390-443 | The verifier reads the fields in order with its buffers and compares the recomputed checksum. |
| `Record.PlainRoundTrip` | core/src/storage/bms_record.c:299-443 | A printed record with plain envelope strings and a balanced payload without the names read behind it verifies when its fields fit the reader's buffers, and is answered BufferTooSmall otherwise. |
| `Record.TamperedLine` | core/src/storage/bms_record.c:390-443 | A changed record carrying the checksum of another one verifies exactly when the two checksums agree, so a change goes unseen only on a hash collision. |
| `Record.VerifyWireLine` | core/src/storage/bms_record.c:390-443 | What verification answers for any checksum put into a printed line. |
| `Record.AcceptsOwnChecksum` | core/src/storage/bms_record.c:390-443 | A line that is read is accepted exactly when it has a payload and carries sha256: and the digest of its own canonical text; otherwise the status says which. |
| `Record.RefusesArguments` | core/src/storage/bms_record.c:299-318 | Printing answers InvalidArgument exactly without room or without a payload. |
| `Record.PrintedLine` | core/src/storage/bms_record.c:299-383 | The printed line is the canonical text with the checksum behind the payload. |
| `Text.ReadsNumber` | core/src/storage/bms_record.c:229-271 | The number readers skip the white space of the C locale, take a sign and digits and ignore the rest; the unsigned one saturates at 2^64 - 1 and takes a negative number modulo 2^64. |
| `Record.DecodeEscaped` | core/src/storage/bms_record.c:62-91 | Reading escapes as section 7 of RFC 8259 does inverts the escaping of any string. |
| `Record.EscapeIsShortest` | core/src/storage/bms_record.c:62-91 | No JSON string that decodes to a text is shorter than its escaped form, so every short escape is used. |
| `Record.ParseInvertsCanonical` | core/src/storage/bms_record.c:97-161 | The canonical text parses back to every envelope field and the payload. |
| `Record.CanonicalDeterminesRecord` | core/src/storage/bms_record.c:97-161 | Two records with balanced payloads have the same canonical text exactly when they agree on every field. |
| `ReadBack.FieldReadsBack` | core/src/storage/bms_record.c:163-196 | A printed string field reads back as itself exactly when its value needs no escape and fits the buffer. |
| `ReadBack.QuotedActor` | core/src/storage/bms_record.c:163-196 | An actor id with a quotation mark is read back as another one, cut at the mark. |
| `ReadBack.PayloadSurvives` | core/src/storage/bms_record.c:198-227 | A payload in brackets is read back whole exactly when its bracket scan is not misled and it contains no checksum token. |
| `ReadBack.ReadsBackExactly` | core/src/storage/bms_record.c:299-443 | Reading a printed line gives the record back exactly when the strings before the payload need no escape and fit, the payload is balanced, fits and holds no checksum token, and for every later field the first occurrence of its key yields its own value. |
| `ReadBack.RoundTrip` | core/src/storage/bms_record.c:299-443 | A record printed with its checksum reads back as itself exactly under that condition, and then verifies. |
| `ReadBack.RecordIdInPayload` | core/src/storage/bms_record.c:163-196 | A payload that carries its own record id replaces the record's. |
| `Record.TokenPosition` | core/src/storage/bms_record.c:326-332 | The payload key is found at the payload of any record, whatever its strings contain. |
| `JsonPayload.JsonRoundTrip` | src/bms/core.py:75-99 | A record whose payload is the compact JSON of bracket-free strings and plain keys round-trips through printer and verifier. |
| `JsonPayload.GoodPayload` | src/bms/core.py:75-77 | Such JSON is balanced and hides every name the reader searches behind it. |
| `JsonPayload.PrintOneLine` | src/bms/core.py:75-77 | Compact JSON holds no newline. |
| `JsonlStore.LogFile.NextSequence` | core/src/storage/bms_jsonl_store.c:58-81 | The next sequence is one more than the number of fgets reads. |
| `JsonlStore.LogFile.ContainsIdempotencyKey` | core/src/storage/bms_jsonl_store.c:83-114 | A key is found exactly when some line carries it. |
| `JsonlStore.LogFile.Append` | core/src/storage/bms_jsonl_store.c:121-187 | One line with the next sequence and its checksum is appended, or the file is unchanged and the status says why. |
| `JsonlStore.LogFile.VerifyFile` | core/src/storage/bms_jsonl_store.c:194-238 | The first line that fails decides the status; otherwise the count of lines. |
| `JsonlStore.FirstFailureDecides` | core/src/storage/bms_jsonl_store.c:194-238 | All lines verify exactly when the file does; otherwise the status is that of the first line that does not. |
| `JsonlStore.ChunksOfLines` | core/src/storage/bms_jsonl_store.c:194-238 | One fgets call reads one record. |
| `JsonlStore.AppendAccepts` | core/src/storage/bms_jsonl_store.c:121-187 | Appending a clean record with a fresh key that fits succeeds, and the log stays clean with keys pairwise distinct. |
| `JsonlStore.LogVerifies` | core/src/storage/bms_jsonl_store.c:194-238 | A clean log verifies. |
| `Wal.FindOrAddTransaction` | core/src/wal/bms_wal.c:311-340 | The table gains a slot exactly when the id is new and there is room; otherwise the status. |
| `Wal.ScanTransactions` | core/src/wal/bms_wal.c:342-399 | The array holds the table of all lines, or the status of the first line that cannot be noted. |
| `Wal.CompactUncommittedPending` | core/src/wal/bms_wal.c:427-503 | The file becomes the lines that are not pending without a commit, or stays when a line cannot be read. |
| `Wal.InspectStartup` | core/src/wal/bms_wal.c:517-576 | Status and decision of the inspection. |
| `Wal.RecoverStartup` | core/src/wal/bms_wal.c:590-643 | Status, decision and file after recovery. |
| `WalMeaning.ScanMeaning` | core/src/wal/bms_wal.c:342-399 | The scan succeeds exactly when at most 512 ids occur, and then describes every entry. |
| `WalMeaning.ReadsFittingEntry` | core/src/wal/bms_wal.c:257-293 | A line's id and state are read as long as they are shorter than 256 and 32 characters. |
| `WalMeaning.InspectDecides` | core/src/wal/bms_wal.c:517-576 | The decision in terms of the transactions: protected beyond 512 ids, rollback if something is pending without a commit, missing snapshot, clean. |
| `WalMeaning.RollbackIsExact` | core/src/wal/bms_wal.c:427-503 | Rollback removes exactly the pending lines without a commit, in order, or nothing. |
| `WalMeaning.BrokenLog` | core/src/wal/bms_wal.c:517-643 | The first line that does not verify decides: a bad checksum or syntax protects the store, a failing call is passed on, and the log stays as it is. |
| `WalMeaning.UnreadableLog` | core/src/wal/bms_wal.c:517-643 | A verified line without an id or a state of its size protects the store and the log stays as it is. |
| `WalMeaning.AfterRollback` | core/src/wal/bms_wal.c:590-643 | After a rollback the log verifies, inspects clean unless commits exist and the snapshot is missing, and a second rollback changes nothing. |
| `WalRuns.AppendWalRecord` | core/src/wal/bms_wal.c:60-111 | One log line is appended, or nothing when key or payload exceed their buffers. |
| `WalRuns.LongEntryRefused` | core/src/wal/bms_wal.c:60-111 | A key of 256 characters or a payload of 4096 is refused, and nothing shorter is. |
| `WalRuns.KeyInjective` | core/src/wal/bms_wal.c:80-85 | The idempotency keys of two log records agree exactly when transaction and state agree. |
| `WalRuns.ReadEntryOfWire` | core/src/wal/bms_wal.c:257-293 | The scanner reads back the transaction and state that were written. |
| `WalRuns.RunRefines` | core/src/wal/bms_wal.c:60-111 | Every run of appends and rollbacks on the text is the run on entries; it verifies and no transaction has two lines of one state. |
| `WalRuns.SequenceAfterRollback` | core/src/wal/bms_wal.c:427-503 | An append after a rollback keeps the sequence increasing exactly when no dropped line stood before a kept one. |
| `WalRuns.RunNumbers` | core/src/wal/bms_wal.c:60-111 | Along a run every line carries its line number after every step exactly as long as every rollback drops lines at the end only. |
| `WalRuns.RepeatedSequence` | core/src/wal/bms_wal.c:427-503 | Announce a, announce and commit b, roll back, announce c: two lines with sequence 3. |
| `WalRuns.RepeatedSequenceHappens` | core/src/wal/bms_wal.c:427-503 | Such a run exists: with any three short ids, the third unlike the second and the second unlike the first, its lines fit the buffers and it repeats the number. |
| `PendingView.PendingTransactions` | src/bms/app/recovery.py:390-448 | The list in order: pending lines without a commit, and lines whose payload, transaction or body is malformed. |
| `PendingView.MalformedListed` | src/bms/app/recovery.py:393-422 | A malformed entry, which blocks automatic recovery, is listed exactly when some line is unreadable. |
| `PendingView.CorrelationListed` | src/bms/app/recovery.py:390-422 | Every entry names the correlation of its line, or unknown when the line gives none. |
| `PendingView.ViewsAgree` | src/bms/app/recovery.py:390-448 | On written lines nothing is malformed; the application lists something exactly when the core decides on a rollback, and the rollback leaves exactly the lines not listed. |
| `Snapshot.SnapshotStore.WriteAtomic` | core/src/storage/bms_snapshot.c:89-136 | The snapshot holds the new text, or nothing changed and the status names the size that did not fit. |
| `Snapshot.SnapshotStore.VerifyFile` | core/src/storage/bms_snapshot.c:138-175 | The verifier's answer for any content. |
| `Snapshot.SnapshotVerifies` | core/src/storage/bms_snapshot.c:138-175 | A written snapshot without the checksum pattern verifies exactly when its texts hold no newline. |
| `Snapshot.SnapshotText` | core/src/storage/bms_snapshot.c:20-67 | The text on disk, key by key, with the digest of the object in front of it; BufferTooSmall exactly from 8192 or 9000 characters on. |
| `Snapshot.AcceptsExactly` | core/src/storage/bms_snapshot.c:138-175 | A file is accepted exactly when its first line carries, behind at most 8190 characters, the digest of what stands in front of it, and answered BufferTooSmall exactly when more stand there. |
| `Snapshot.SnapshotAtEveryCut` | core/src/storage/bms_snapshot.c:89-136 | At every step of a write the path holds the old or the complete new content. |
| `Books.Store.AppendEach` | src/bms/storage/file_store/core_store.py:36-61 | A loop of appends adds the records in order to their files. |
| `Books.TransactionWrites` | src/bms/domain/accounting/service.py:45-127 | A transaction adds its body between its two log records, then audit and event. |
| `Inventory.InventoryService.GetStockOnHand` | src/bms/domain/inventory/service.py:255-260 | The sum of the item's quantity deltas. |
| `Inventory.InventoryService.GetAllStockOnHand` | src/bms/domain/inventory/service.py:262-269 | One entry for every item that moved, each equal to the item's own fold. |
| `Inventory.InventoryService.GetAverageCost` | src/bms/domain/inventory/service.py:291-295 | The floor of value over quantity, zero without stock. |
| `Inventory.InventoryService.CommitMovement` | src/bms/domain/inventory/service.py:110-224 | The appended records and the error, by the movement plan of the old state. |
| `Inventory.InventoryService.RegisterItem` | src/bms/domain/inventory/service.py:18-86 | The appended records and the error, by the registration plan. |
| `StockPrices.MovementIsPriced` | src/bms/domain/inventory/service.py:110-166 | An accepted movement changes the item's value by its quantity at the caller's cost when stock comes in or a cost is given, at the average otherwise; it stores that price and the new totals, and leaves every other item as it was. |
| `StockPrices.UseCasePosts` | src/bms/app/use_cases.py:36-64 | A completed stock use case changes the ledger of its period by that value: in from owner's equity to inventory, out from inventory to its adjustment, and no other account or period. |
| `Valuation.MovementKeepsTotals` | src/bms/domain/inventory/service.py:115-166 | A movement keeps every stored quantity and value equal to the prefix sums of its item. |
| `Valuation.TotalIsSumOverItems` | src/bms/domain/inventory/service.py:271-282 | The total value is the sum of the values of the items. |
| `Valuation.StockOutAtAverage` | src/bms/domain/inventory/service.py:345-357 | What a stock-out at the floor average leaves: value, the stranded remainder, and an average that never falls and stays exactly when the remainder is below the quantity left. |
| `Valuation.StockInBetween` | src/bms/domain/inventory/service.py:291-295 | A stock-in moves the average between its old value and the cost of the stock-in. |
| `StockRuns.RunMovesAverages` | src/bms/domain/inventory/service.py:110-166 | In every run, every stored movement of an item in stock moves the average as it should: out at the average it finds, the rest keeps its share and the remainder and the average rises or stays, exactly stays when the remainder is below the quantity left; in, it ends between the old average and the cost. |
| `Valuation.MovementKeepsSolvent` | src/bms/domain/inventory/service.py:110-122 | A decrease costed at the average keeps quantity and value of every item non-negative. |
| `StockRuns.RunStaysSound` | src/bms/domain/inventory/service.py:110-166 | Over every run, commands that stop half way included: stored totals are prefix sums, stored stock is never negative under the default policy, and values are not either while decreases are costed at the average. |
| `StockRuns.RunNeverNegative` | src/bms/domain/inventory/service.py:117-122 | Under the default policy the stock on hand of no item is ever negative. |
| `Accounting.AccountingService.constructor` | src/bms/domain/accounting/service.py:24-34 | A new service holds the closed periods of the log. |
| `Accounting.AccountingService.PostJournal` | src/bms/domain/accounting/service.py:36-128 | The appended records and the error, by the journal plan of the old state. |
| `Accounting.AccountingService.GetTrialBalance` | src/bms/domain/accounting/service.py:133-140 | The totals of the period's entries. |
| `Accounting.AccountingService.GetLedgerBalances` | src/bms/domain/accounting/service.py:142-183 | Fails exactly on unknown accounts, empty currencies or mixed currencies; otherwise debit, credit and currency for exactly the touched accounts. |
| `Accounting.AccountingService.ClosePeriod` | src/bms/domain/accounting/service.py:185-263 | The appended records and the error; the set in memory stays the set in the log. |
| `Equation.RunSound` | src/bms/domain/accounting/service.py:296-303 | In every store any run reaches, also after errors, entries total their lines and debits equal credits in every period. |
| `Equation.AccountingEquation` | src/bms/domain/accounting/service.py:339-342 | Debit-normal balances equal credit-normal balances in every period. |
| `Equation.GetProfitAndLoss` | src/bms/domain/reporting/service.py:321-360 | The report is computed from the balances, expenses clamped at zero. |
| `Equation.ProfitByAccount` | src/bms/domain/reporting/service.py:321-360 | Net revenue is sales less returns, gross profit takes off the cost of goods sold, operating expense is the inventory adjustment, each from its own account. |
| `Equation.NetIncomeIsNetWorth` | src/bms/domain/reporting/service.py:327-360 | Reported net income equals the change in assets less liabilities less equity exactly when no expense account nets to a credit; it is never more. |
| `BillingService.BillingService.ValidateStockAvailable` | src/bms/domain/billing/service.py:607-619 | The first item, in order, that is unknown, inactive or short of the summed quantity. |
| `BillingService.BillingService.MoveSold` | src/bms/domain/billing/service.py:143-159 | The movements of all lines, each priced at the average it finds. |
| `BillingService.BillingService.CreateInvoice` | src/bms/domain/billing/service.py:44-254 | Every append of an invoice in order, and the error it stops with. |
| `BillingService.BillingService.OriginalInvoiceQuantities` | src/bms/domain/billing/service.py:572-579 | Sold quantity for every item and price; empty exactly when the invoice has no lines. |
| `BillingService.BillingService.ValidateRefundAgainstOriginalInvoice` | src/bms/domain/billing/service.py:539-570 | The guard's first error. |
| `BillingService.BillingService.OriginalInvoiceCogsUnitCosts` | src/bms/domain/billing/service.py:590-605 | The floor of posted cost over sold quantity for every item and price. |
| `BillingService.BillingService.CreateRefund` | src/bms/domain/billing/service.py:256-469 | Every append of a refund in order, and the error it stops with. |
| `Writes.InvoiceWrites` | src/bms/domain/billing/service.py:100-253 | A completed invoice writes its journal, one movement per line, itself and its lines, and nothing else. |
| `Writes.RefundWrites` | src/bms/domain/billing/service.py:316-468 | A completed refund writes its journal, a stock-in per restocked line, itself and its lines, and nothing else. |
| `Contents.SaleStores` | src/bms/domain/billing/service.py:100-253 | A completed invoice leaves, field by field: itself with subtotal, floored tax and total; its lines, costed at the floored average before it; a movement for each at what the item is worth then; a journal with total, tax, subtotal and cost on their accounts and nothing on others; and no other record. |
| `Contents.ReturnStores` | src/bms/domain/billing/service.py:316-468 | A completed refund leaves, field by field: itself; its lines, restored at the floored unit cost the invoice posted; a stock-in at that cost for each restocked line; a journal with total, tax, subtotal and restored cost on their accounts and nothing on others; and no other record. |
| `Contents.MoveStores` | src/bms/app/use_cases.py:36-64 | A completed stock move leaves its movement and, when it is worth something, the two-line journal of that value in the base currency. |
| `Contents.PostStores` | src/bms/domain/accounting/service.py:45-127 | A completed posting leaves one entry with both totals and its lines numbered from 1. |
| `Contents.RegisterStores` | src/bms/domain/inventory/service.py:18-86 | A completed registration adds the item and nothing else. |
| `Contents.CloseStores` | src/bms/domain/accounting/service.py:202-262 | A completed closing adds its period once and nothing else. |
| `Trails.CompletedTrail` | src/bms/domain/billing/service.py:100-253 | A completed command adds to log, audit and event files exactly its announcement, the transactions of its journal and movements in order under the next ids, and its commit, each with its action and event. |
| `AppendRuns.FilesAreKept` | src/bms/storage/file_store/core_store.py:36-61 | In every run of commands, decisions, adjustments and restarts, each cut at any append: every record is well formed, ids are used once, every document is booked with its tax and total, and lines belong to stored headers in their currency. |
| `Documents.InvoiceMoney` | src/bms/domain/billing/service.py:622-623 | In every such run the tax of a stored invoice is the rate's part of its subtotal in ten-thousandths rounded down, and its journal carries total, tax and subtotal on cash, output tax and sales. |
| `Documents.RefundMoney` | src/bms/domain/billing/service.py:622-623 | The same of every stored refund, with its restored cost from cost of goods sold to inventory. |
| `Documents.RefundCurrency` | src/bms/domain/billing/service.py:264-265 | In every such run a stored refund has the currency of the one stored invoice it names, and so have its lines and the ledger lines of its journal. |
| `Documents.LineOfEntry` | src/bms/domain/accounting/service.py:310-337 | In every such run a ledger line is of an account of the chart, has an amount on exactly one side, and the period and currency of the one entry of its journal. |
| `Completion.InvoiceCompletes` | src/bms/domain/billing/service.py:44-254 | An accepted invoice completes exactly when its subtotal is positive, no average is negative, and its journal and movement ids are free. |
| `RefundCompletion.RefundCompletes` | src/bms/domain/billing/service.py:256-469 | An accepted refund completes exactly when its subtotal is positive, its journal id is free, and every restocked line has a known active item, a non-negative cost, a free movement id and enough stock to come out non-negative. |
| `Completion.JournalIdsCollide` | src/bms/domain/billing/service.py:278 | The journal id of refund X is that of an invoice named refund_X. |
| `Completion.RefusedJournalNeedsRecovery` | src/bms/domain/billing/service.py:100-140 | An invoice with a refused journal leaves an announcement that recovery takes back exactly when no record carries its ids. |
| `RefundSafety.GuardMeaning` | src/bms/domain/billing/service.py:539-570 | The guard accepts exactly the requests within the remaining quantity at every item and price. |
| `RefundSafety.RefundsWithinInvoice` | src/bms/domain/billing/service.py:539-605 | In every run, commands that stop half way included, refunded quantity stays within sold quantity, and restored cost within posted cost, per item and price. |
| `RefundSafety.TaxOfParts` | src/bms/domain/billing/service.py:622-623 | Taxing two parts loses at most one unit against taxing the whole. |
| `RefundSafety.RefundMoneyWithinInvoice` | src/bms/domain/billing/service.py:622-623 | In every run, stops included, refund totals stay within the invoice total; a full refund in n parts falls short by at most n - 1. |
| `RefundLedger.LedgerRefundsWithinInvoice` | src/bms/domain/billing/service.py:256-469 | In every run the journals of an invoice's refunds credit to the cost of goods sold what its stored refunds restore, at most what the invoice debited, plus what refunds restore that stopped behind their journal; so they stay within the debits exactly when the latter fit, in particular when no refund stops there. |
| `CutRefunds.CutRunsAreSafe` | src/bms/domain/billing/service.py:373-430 | In every run of commands, decisions, adjustments and recoveries, each cut anywhere, the books stay safe exactly when no refund is cut behind its record and in front of lines of some amount. |
| `CutRefunds.CutRunWithinInvoice` | src/bms/domain/billing/service.py:373-430 | In such runs refunded quantity, cost and money stay within the invoice. |
| `CutRefunds.CutRefundUnseen` | src/bms/domain/billing/service.py:539-579 | A refund cut right behind its record, whatever is decided afterwards: its money is counted and for every item and price as much remains as before. |
| `CutRefunds.RefundedTwice` | src/bms/domain/billing/service.py:539-579 | So the guard accepts the same request again, and the invoice has then paid it twice. |
| `Availability.ReportingService.GetRefundAvailability` | src/bms/domain/reporting/service.py:141-222 | Fails exactly on untraceable lines; otherwise a row for exactly the sold items in scope, with period, description, currency, quantities and amounts. |
| `Availability.ReportIsRemaining` | src/bms/domain/reporting/service.py:198-202 | In a safe store the clamp never takes effect and the row equals the guard's remaining quantity. |
| `Availability.ReportEqualsGuard` | src/bms/domain/reporting/service.py:141-222 | In the store any run reaches, stops included, the guard accepts exactly what the report says remains. |
| `ReportRows.ReportAddsUp` | src/bms/domain/reporting/service.py:141-222 | In the store any run reaches, refunded and remaining quantity of a row add up to what was sold, and so do the amounts at the price; the row is described by the first line that sold the item at it. |
| `ReportRows.RowsAreSold` | src/bms/domain/reporting/service.py:141-222 | There is a row for exactly the items and prices that the invoices in scope sold. |
| `ReportRows.RowIsClamped` | src/bms/domain/reporting/service.py:198-202 | Whatever the files hold, remaining is what was sold less what was refunded, and zero when that is negative. |
| `Reconciliation.ReconciliationService.GetReconciliationReport` | src/bms/domain/reconciliation/service.py:17-50 | The five checks over all files, or the error. |
| `Reconciliation.ReconciliationService.InvoiceCogs` | src/bms/domain/reconciliation/service.py:108-117 | The cost sum joined through the dictionary from invoice to period. |
| `Admission.ReportAdmitted` | src/bms/domain/reconciliation/service.py:17-24 | The report is made exactly for a period that is named and whose accounts are on the chart in one currency each. |
| `Reconciliation.ReportsAdd` | src/bms/domain/reconciliation/service.py:17-50 | The report over old and new records is the sum of their reports. |
| `Agreement.ManualJournalReconciles` | src/bms/domain/accounting/service.py:36-128 | A journal posted by hand keeps the checks exactly when it is neutral on the controlled totals. |
| `Agreement.StockMovementReconciles` | src/bms/app/use_cases.py:36-64 | A completed stock movement through its use case keeps the checks. |
| `SaleAgreement.SoldAtLeastCost` | src/bms/domain/billing/service.py:57-61 | The movements take out at least the posted cost, and exactly that when every line is stable. |
| `SaleAgreement.InvoiceReconciles` | src/bms/domain/billing/service.py:57-158 | A completed invoice keeps the checks exactly when the averages stay valid along its lines and its period is that of its timestamp, or there is no cost. |
| `SaleAgreement.DistinctItemsAreStable` | src/bms/domain/billing/service.py:57-61 | One line per item always keeps the averages valid. |
| `SaleAgreement.RepeatedItemCanBreak` | src/bms/domain/billing/service.py:143-159 | Value 5 on 3 units sold as 2 and 1 posts cost 3 and moves 5. |
| `SaleAgreement.RepeatedItemExample` | src/bms/domain/billing/service.py:143-159 | Two units bought at one and one at three are such a stock: cost 3 posted, 5 moved. |
| `ReturnAgreement.RefundReconciles` | src/bms/domain/billing/service.py:256-469 | A completed refund keeps the checks exactly when its period is that of its timestamp or it restores no cost. |
| `Outcomes.CompletesExactly` | src/bms/domain/billing/service.py:44-469 | Whether any command completes is told by the state before it: for an invoice by subtotal, averages and free ids, for a refund by subtotal, free journal id and restockable lines, for a stock move by a free journal id or no value. |
| `Admission.Admitted` | src/bms/domain/billing/service.py:471-619 | A command completes exactly when conditions on its fields and on the files it finds stand, said as sums, accounts and ids without the checks of the code. |
| `Admission.ManualAdmitted` | src/bms/app/recovery.py:171-302 | A decision is recorded, and an adjustment made, exactly under such conditions: authorized, announced and not committed, and not decided before, or waiting for the correction it brings. |
| `Refusals.RefusedTruly` | src/bms/domain/billing/service.py:471-619 | The error of a command refused before it wrote anything is true of what it asks or of the files it finds. |
| `Refusals.ManualRefusal` | src/bms/app/recovery.py:171-302 | The same of refused decisions and adjustments. |
| `Outcomes.StrandsExactly` | src/bms/domain/billing/service.py:44-469 | A command that does not complete leaves a domain record exactly when, in the state before it, an invoice or refund is accepted, sells or returns for something at a non-negative cost under a free journal id, or a stock move of some value is accepted under a taken one. |
| `ReconciledRuns.StoppedReconciles` | src/bms/domain/reconciliation/service.py:17-50 | A command that does not complete breaks the checks exactly when that condition on the state before it holds. |
| `ReconciledRuns.CommandConforms` | src/bms/domain/reconciliation/service.py:17-50 | Any command keeps the checks exactly when it conforms in the state before it: it would complete and meets its condition, or would neither complete nor strand. |
| `ReconciledRuns.RunReconciles` | src/bms/domain/reconciliation/service.py:17-50 | All checks hold for every period after every command of any run exactly when every command conforms in the state it finds. |
| `ReportRuns.EveryReportPasses` | src/bms/app/use_cases.py:72-89 | After such a run in one currency every period's report is ready, passes, and the period can be closed. |
| `UseCases.CommitStockMovementUseCase.Execute` | src/bms/app/use_cases.py:31-64 | The movement, then its journal, or the error. |
| `UseCases.ClosePeriodUseCase.Execute` | src/bms/app/use_cases.py:72-89 | Closing behind a passed report; the set in memory stays the set in the log. |
| `Closing.ClosedPeriodFrozen` | src/bms/domain/billing/service.py:47-48 | A closed period shows the same records after any command, completed, refused, or cut at any append, if the command's movements fall outside it or in the command's own period. |
| `Closing.ClosedReportStays` | src/bms/app/use_cases.py:72-89 | A period closed through its use case passes its report after any later run and at any cut. |
| `Closing.InvoiceInClosedPeriod` | src/bms/domain/billing/service.py:47-48 | A completed invoice leaves a closed period as it is exactly when its timestamp falls outside. |
| `Closing.RefundInClosedPeriod` | src/bms/domain/billing/service.py:262-371 | A completed refund changes a closed period exactly when it restocks a line at a time inside it. |
| `Closing.SparingIsExact` | src/bms/domain/billing/service.py:47-48 | Any completed command leaves a closed period as it is exactly when it spares it. |
| `LateInvoice.LateSale` | src/bms/domain/billing/service.py:47-48 | From the empty store: register an item, stock it in January, close January; then a sale posted to February and dated in January is accepted, completes and changes January. |
| `Closing.ClosedSet` | src/bms/domain/accounting/service.py:265-271 | Only a completed closing adds a closed period. |
| `Recovery.CoreDecides` | src/bms/app/startup.py:38-69 | On any log text that reads as these records the native core decides as the health says, and rolls back to what is kept. |
| `Recovery.RecoveryService.PendingTransactions` | src/bms/app/recovery.py:424-434 | On well-formed records: the pending ones without a commit, in order. |
| `Recovery.PendingIsListed` | src/bms/app/recovery.py:390-448 | The list the application makes of the lines names exactly these records, in order. |
| `Recovery.RecoveryService.DurableSideEffects` | src/bms/app/recovery.py:468-561 | The side effects found for an announced operation, in order. |
| `Recovery.EffectsAreFound` | src/bms/app/recovery.py:468-561 | An effect is listed exactly when the operation announces such a record and the files hold it. |
| `Recovery.RecoveryService.RecoverStorage` | src/bms/app/recovery.py:135-168 | The files and the error after automatic recovery. |
| `Recovery.RecoveryOnlyDropsPending` | src/bms/app/recovery.py:135-168 | Automatic recovery only drops pending log records, and only when none has a side effect. |
| `Crash.EffectsGrow` | src/bms/app/recovery.py:553-561 | An operation shows in joined files exactly when it shows in one of them. |
| `Crash.CrashAtomicity` | src/bms/app/recovery.py:135-168 | Cut at any append, or stopped by itself, a registration, journal, invoice or refund must be recovered; recovery restores the very files before exactly when no domain record was written and no stored record carries its ids, and otherwise changes nothing. |
| `CleanLog.CleanLogIsComplete` | src/bms/app/recovery.py:135-168 | In every run of commands, each cut at any append or stopping by itself, and of restarts whose recovery succeeds or refuses: whenever no pending transaction shows in the files, so whenever the log is clean or the store healthy, the domain files are exactly those of the commands whose records were all appended, each of which completes, and of stock use cases left behind their movement. |
| `CleanLog.CleanLogIsRun` | src/bms/app/recovery.py:135-168 | Without such half stock use cases they are those of a run of the completed commands alone. |
| `CrashRuns.CrashRunIsRun` | src/bms/app/recovery.py:135-168 | The runs in which recovery follows every crash and succeeds: the log is clean after each event and the documents are those of the other commands. |
| `Retries.BlockedForever` | src/bms/app/recovery.py:135-168 | Once an uncommitted announcement shows in the files, no later work and no restart makes the store healthy, and every recovery refuses and changes nothing. |
| `Retries.RetriedInvoiceBlocks` | src/bms/app/recovery.py:553-561 | An invoice that stops, and later, its announcement still in the log, an invoice under the same id that completes: recovery refuses for ever. |
| `Retries.RetriedRefundBlocks` | src/bms/app/recovery.py:553-561 | The same of refunds. |
| `Retries.UnpricedInvoiceRetried` | src/bms/domain/billing/service.py:44-254 | In particular an accepted invoice with subtotal zero, followed by one under its id that completes. |
| `Completion.CutClosingStaysClosed` | src/bms/app/recovery.py:468-498 | A closing cut after its period record is recovered with success and stays closed. |
| `Completion.CutStockUseCase` | src/bms/app/use_cases.py:36-50 | Cut between its two transactions the stock use case leaves a healthy store that is reconciled exactly when the movement has no value. |
| `ManualRecovery.ManualRecoveryService.Reconcile` | src/bms/app/recovery.py:171-268 | The appended records and the error of a decision. |
| `ManualRecovery.ManualRecoveryService.ResolveAccountingAdjustment` | src/bms/app/recovery.py:271-387 | The appended records and the error of an adjustment. |
| `RecoveryRuns.RecoveryRunKeepsOrder` | src/bms/app/recovery.py:171-387 | In every run of decisions, adjustments, recoveries and commands, each cut anywhere: one decision and one adjustment per transaction, adjustments only after a decision that asked and a balanced correction, and no transaction known at the start committed without a resolved record. |
| `RecoveryRuns.CommitNeedsRecord` | src/bms/app/recovery.py:171-387 | From the empty store on: a transaction left uncommitted at any point of the run is committed later only with a resolved record of it in the files. |
| `RecoveryRuns.RecordsAreAskedFor` | src/bms/app/recovery.py:171-387 | In every run every record was asked for by an authorized actor with a reason, as that decision or with that correction. |
| `RecoveryRuns.CommitIsAskedFor` | src/bms/app/recovery.py:171-387 | So was every later commit of a transaction left uncommitted at any point of the run. |
| `RecoveryRuns.CutDecisionIsStuck` | src/bms/app/recovery.py:214-262 | A decision leaves the transaction stuck exactly when it is cut behind its record and before its commit, and asks for no adjustment. |
| `RecoveryRuns.CutAdjustmentIsStuck` | src/bms/app/recovery.py:318-381 | An adjustment leaves the transaction stuck exactly when it is cut behind its record and before its commit. |
| `RecoveryRuns.StuckIsRefused` | src/bms/app/recovery.py:198-302 | A pending transaction is stuck exactly when no decision and no adjustment of it is accepted, whatever the caller brings. |
| `RecoveryRuns.StuckStays` | src/bms/app/recovery.py:171-387 | Whatever operation follows, completed or cut, a stuck transaction stays stuck, or automatic recovery drops it from the log. |
| `RecoveryRuns.StuckNeverCommits` | src/bms/app/recovery.py:171-387 | In no run is a stuck transaction ever committed. |
| `RecoveryRuns.SecondCorrection` | src/bms/app/recovery.py:304-345 | An adjustment cut behind its journal can be made again exactly with another unused journal id, posting a second correction. |
| `Capacity.UsedUp` | core/src/wal/bms_wal.c:311-340 | Once more than 512 commands have completed the store is protected and recovery refuses it. |
| `Capacity.ProtectedForever` | core/src/wal/bms_wal.c:517-576 | A store with more than 512 commits stays protected through every later run. |
| `Identity.IdentityService.ReplaceRoleAssignment` | src/bms/app/auth.py:265-279 | The actor's assignment is replaced, or added when absent. |
| `Identity.IdentityService.UpdateUserRoles` | src/bms/app/auth.py:155-205 | The two files and the error after an update. |
| `Identity.UpdateStores` | src/bms/app/auth.py:155-191 | A completed update leaves every user in its place with its name, sets the active flag of the actor alone, gives the actor exactly the requested roles, each once in the order of first mention, and leaves every other assignment in its place. |
| `Identity.UpdateGrants` | src/bms/app/auth.py:160-191 | Afterwards the actor holds Admin exactly when it was requested and is active exactly when asked. |
| `Identity.RefusedExactly` | src/bms/app/auth.py:155-205 | An update is accepted exactly when it names roles and a known user and either makes that user an active admin or another one remains. |
| `Identity.AdminAlwaysRemains` | src/bms/app/auth.py:155-191 | Starting from an active admin one remains in every state of every run of updates, every one of them cut in front of, between or behind its two writes, and users and assignments stay single. |

Plans are the specification of the service methods: a method's contract equates the new store with the plan of
the old one, and the lemmas above are about plans and what they write.

## Left out

- Desktop interface, command line, demo data, release checks, packaging and the ctypes binding: no algorithm.
- Logging, metrics and telemetry parameters: no effect on results.
- Real files: a file is its text or its sequence of records, an append or a rename is one step. A line cut in the middle is a line that fails verification, and startup is modelled over files that pass their integrity checks.
- Growth of the C string builder: a growing sequence, keeping the size limits that decide return codes.
- Schema validation of payloads, events and commands, error messages, and the lookup of roles for an operation, which enters as a parameter.
- The event append of a stock movement: the event schema forbids the period field the caller passes (src/bms/domain/events/schemas.py:12-45, src/bms/domain/inventory/service.py:199); the append is modelled as the opaque step that succeeds.
- Idempotency keys of domain, audit and event records: taken not to collide, as their ids are checked to be new.
- Clocks and uuids: timestamps are inputs, transaction ids are numbers, the next one above all in use.
- Account codes are numbers and accounts are active; the chart is the baseline chart.
- How json.loads structures a line: the application's view of the log starts from the structured lines, and non-ASCII text is not escaped by the JSON printer of the model.
- Recovery.RecoveryService.PendingTransactions: well-formed log records only; the entries for malformed lines are in PendingView.PendingTransactions.
- The order of report rows, and the invoice, refund, stock, tax and business-unit reports.
- adjust_stock and get_items: the first only builds a command, the second is the last registration of an item.
- Backups and restore, and the design documents without code.
- Collision resistance of the hash: only functional equality is proved.
- Crash.CrashAtomicity: does not cover closing a period and the stock use case, for which it is false; the two lemmas of Completion say what happens instead.
- CrashRuns.CrashRunIsRun: only runs in which automatic recovery follows every crash and succeeds, because it also says that the log is clean then; CleanLog.CleanLogIsComplete has no such condition.
- CleanLog.CleanLogIsComplete: runs without manual decisions and adjustments, because these commit what a cut command left behind, and then the log is clean over half an operation; CutRefunds.RefundedTwice is such a case.
- Closing.ClosedPeriodFrozen: asks that the command spares the period, because Closing.SparingIsExact shows it to be false of any other that completes.
- StockRuns.RunStaysSound: values stay non-negative only if manual decreases are costed at the average, because a caller may pass any unit cost.
- ReadBack.RoundTrip: payloads in brackets, as the application writes them; of string and scalar payloads only the scan is covered, by Record.StringPayloadEnd and Record.ScalarPayloadEnd.
- Fields no operation reads again (actors, timestamps, reasons, memos, payment methods): checked where the source checks them, and not kept in the records of the model.
- Refusals.RefusedTruly: does not say which of several true errors is raised; that order is the order of the checks in the plans and the service methods.
