# Advertisement lifecycle, modelled in Dafny

This project models the advertisement workflow of a newspaper marketing
department. An advertisement record is captured by a marketing-staff
registry. Capture validates the input and numbers the record `A001`,
`A002`, .... The record is then reviewed for inappropriate content, paid
for, approved, forwarded to the processing centre for publication, and
archived when it went unused.

The project has three layers:

- The plain workflow (`Task1.java`): the record, the registry, the
  review, payment and processing operators, and the archive.
- The command layer (`Task2.java`): one command object per operator call,
  run in FIFO order by an executor.
- A checked variant (`Task3.java`): it validates fewer fields, refuses
  duplicate identifiers, guards publication on payment, and archives by
  setting a sticky flag on the record.

Modules:

- `Text`: Java's `String.contains` as a substring test, and the
  `String.format("A%03d", n)` identifier. It proves the identifier
  round-trip and the distinctness of sequentially assigned identifiers.
- `Workflow`: the review status, the mutable part of a record as a value
  (`Lifecycle`), the transition each operator applies (`Assess`,
  `ConfirmPayment`, `Approve`, `Receive`), their composition `Run`, and the
  capture checks (`CheckCapture`). The lifecycle lemmas are proved here.
- `Advertising`: the plain workflow's classes. The record and the registry
  are classes updated in place. The operator methods are specified by the
  `Workflow` transitions through the two-state predicate `Stepped`. The
  archive is specified by the function `Archive`.
- `Commands`: the six commands as a datatype, and the executor as a class
  holding a `seq<Command>` queue.
- `CheckedAdvertising`: the checked variant.

Dates are day numbers; only their order matters. The archive's "six months
ago" cutoff is a parameter. A Java exception becomes an `Outcome` failure
naming the exception's cause. A `null` record argument is an
`Advertisement?` that is `null`, and fails with `NullReference`. A `null`
string or date passed to capture is `None`.

Two behaviours of the code are worth stating outright:

- When a command throws, `clear()` (Task2.java:141) is not reached, so the
  queue stays intact (`Commands.CommandExecutor.ExecuteCommands`).
- `NotPaid` can be left again by a new review, because review overwrites the
  status whatever it was (`Workflow.ReviewReopensNotPaid`). A payment does
  not leave it (`Workflow.NotPaidSurvivesPayment`).

## Model

| member | source | states |
|---|---|---|
| `Text.ContainsIff` | Task1.java:285 | the substring test holds exactly when the word occurs at some index of the content |
| `Text.FormatIdShape` | Task1.java:200-203 | an identifier is "A" and at least three more characters, exactly four characters in all for numbers below 1000 |
| `Text.FormatIdDigits` | Task1.java:200-203 | after the leading "A" an identifier holds only decimal digits |
| `Text.IdRoundTrip` | Task1.java:200-203 | the number read back out of the formatted identifier of n is n |
| `Text.FormatIdInjective` | Task1.java:200-203 | distinct numbers give distinct identifiers |
| `Text.SequentialAppend` | Task1.java:188-203 | appending the identifier numbered after the list keeps the numbering sequential |
| `Text.SequentialIdsDistinct` | Task1.java:188-203 | identifiers numbered 1, 2, ... in list order are pairwise distinct, and the next one is not among them |
| `Workflow.StatusNameInjective` | Task1.java:212-219 | the four stored status strings are distinct, so comparing strings compares statuses |
| `Workflow.Assess` | Task1.java:284-292 | review gives Rejected exactly when the content contains "inappropriate", Approved otherwise, and keeps both flags |
| `Workflow.ConfirmPayment` | Task1.java:268-271 | payment sets the paid flag and changes nothing else |
| `Workflow.Approve` | Task1.java:212-224 | approval changes the status only for an approved unpaid record, which becomes NotPaid; the flags never change |
| `Workflow.Receive` | Task1.java:300-307 | forwarding sets the processed flag exactly when the record is approved and paid, and changes nothing else |
| `Workflow.RunAppend` | Task2.java:137-140 | running one series of calls and then another equals running their concatenation |
| `Workflow.AssessIdempotent` | Task1.java:284-292 | reviewing twice equals reviewing once |
| `Workflow.ConfirmPaymentIdempotent` | Task1.java:268-271 | confirming payment twice equals confirming once |
| `Workflow.ReceiveIdempotent` | Task1.java:300-307 | forwarding twice equals forwarding once |
| `Workflow.NotPaidSurvivesPayment` | Task1.java:212-224 | a NotPaid record stays NotPaid through payment and approval, and forwarding does not process it |
| `Workflow.ReviewReopensNotPaid` | Task1.java:284-292 | reviewing a NotPaid record with acceptable content makes it Approved again |
| `Workflow.StatusWriters` | Task1.java:266-307 | payment and forwarding never change the status |
| `Workflow.FlagsNeverReset` | Task1.java:266-307 | no series of operator calls clears the paid or the processed flag |
| `Workflow.ProcessedOnlyIfPaid` | Task1.java:300-307 | under any series of operator calls, a processed record is a paid one |
| `Workflow.NoReviewNoProcessing` | Task1.java:298-307 | without a review a new record stays Pending and is never processed |
| `Workflow.PipelineOutcome` | Task1.java:284-307 | review, optional payment, approval and forwarding leave a new record processed exactly when its content is acceptable and it was paid; otherwise it ends Rejected or NotPaid |
| `Workflow.CheckCapture` | Task1.java:166-185 | capture accepts exactly when all six inputs are present and non-empty and the size has at most 1000 characters; otherwise it names the first failing field, in the order of the checks |
| `Workflow.SizeBoundary` | Task1.java:183-185 | a size of 1000 characters is accepted and one of 1001 is refused |
| `Advertising.Advertisement.constructor` | Task1.java:84-95 | a new record holds its arguments and is Pending, unpaid and unprocessed |
| `Advertising.Advertisement.SetReviewStatus` | Task1.java:110-112 | only the status changes, to the given value |
| `Advertising.Advertisement.SetPaid` | Task1.java:118-120 | only the paid flag changes, to the given value |
| `Advertising.Advertisement.SetProcessed` | Task1.java:126-128 | only the processed flag changes, to the given value |
| `Advertising.WithStatus` | Task1.java:227-235 | the result holds exactly the listed records whose stored status equals the argument |
| `Advertising.MarketingStaff.constructor` | Task1.java:160-164 | a new registry is empty |
| `Advertising.MarketingStaff.CaptureAdvertisementDetails` | Task1.java:166-196 | invalid input fails naming the first bad field and leaves the list unchanged; valid input appends exactly one fresh Pending, unpaid, unprocessed record holding the inputs, with identifier "A%03d" of the old size plus one; sequential numbering is preserved |
| `Advertising.MarketingStaff.GenerateAdvertId` | Task1.java:200-203 | the identifier is "A%03d" of the list size plus one, and under sequential numbering no listed record has it |
| `Advertising.MarketingStaff.ReviewAdvertisementSuitability` | Task1.java:206-209 | the record's new state is the review transition of its old state; a null record fails |
| `Advertising.MarketingStaff.ApproveAdvertisement` | Task1.java:212-224 | the record's new state is the approval transition of its old state; a null record fails |
| `Advertising.MarketingStaff.GetAdvertisementsByStatus` | Task1.java:227-235 | returns the registry's records with the given status, in list order, and changes nothing; a null status matches no record and gives an empty list |
| `Advertising.CapturedIdsDistinct` | Task1.java:188-203 | records numbered by capture have pairwise distinct identifiers and the first is "A001" |
| `Advertising.ArchiveExtends` | Task1.java:245-253 | archiving only appends: the old archive is a prefix of the new one |
| `Advertising.ArchiveMembers` | Task1.java:245-253 | a record is in the new archive exactly when it was archived before, or it was scanned, is unprocessed and is dated strictly before the cutoff |
| `Advertising.ArchiveNoDuplicates` | Task1.java:245-253 | an archive without duplicates stays without duplicates |
| `Advertising.ArchiveManager.constructor` | Task1.java:242 | a new archive is empty |
| `Advertising.ArchiveManager.ArchiveUnusedAdvertisements` | Task1.java:245-253 | the new archive is the old one with each qualifying record not yet in it appended, in input order |
| `Advertising.ArchiveManager.GetArchivedAdvertisements` | Task1.java:258-260 | returns the archive's contents |
| `Advertising.AssessSuitability` | Task1.java:284-292 | the record's new state is the review transition of its old state; a null record fails |
| `Advertising.ConfirmPayment` | Task1.java:268-271 | the record's new state is the payment transition of its old state; a null record fails |
| `Advertising.CheckPaymentStatus` | Task1.java:274-276 | reports the record's paid flag |
| `Advertising.ReceiveAdvertisement` | Task1.java:300-307 | the record's new state is the forwarding transition of its old state; a null record fails |
| `Commands.Execute` | Task2.java:36-123 | each command has exactly the effect and outcome of the one operator call on its bound arguments, and touches no other record |
| `Commands.FirstFailure` | Task2.java:137-140 | every command before the returned index succeeds, and the command at it fails |
| `Commands.QueueOutcomeFirstFailure` | Task2.java:137-141 | a queue fails exactly when one of its commands fails, with the first failure's error; a successful queue ran every command |
| `Commands.RunOpsOnStep` | Task2.java:138-140 | executing one more command applies its operator call to the record it names and leaves every other record as it was |
| `Commands.CommandExecutor.constructor` | Task2.java:129 | a new executor has an empty queue |
| `Commands.CommandExecutor.AddCommand` | Task2.java:132-134 | the command is appended at the tail and earlier entries are unchanged |
| `Commands.CommandExecutor.ExecuteCommands` | Task2.java:137-142 | the result is the error of the first failing command, or success when none fails; on success the queue is empty, on failure it is unchanged; each record named by a review, payment, approval or forwarding command ends in the state those calls produce, applied in queue order up to and including the first failing command |
| `Commands.CommandExecutor.GetCommandQueue` | Task2.java:144-146 | returns the queue |
| `Commands.CommandExecutor.SetCommandQueue` | Task2.java:148-150 | replaces the whole queue with the given list |
| `CheckedAdvertising.Advertisement.constructor` | Task3.java:88-100 | a new record holds its raw arguments and is Pending, unpaid, unprocessed and not archived |
| `CheckedAdvertising.Advertisement.SetReviewStatus` | Task3.java:115-117 | only the status changes, to the given value |
| `CheckedAdvertising.Advertisement.SetPaid` | Task3.java:123-125 | only the paid flag changes, to the given value |
| `CheckedAdvertising.Advertisement.SetProcessed` | Task3.java:131-133 | only the processed flag changes, to the given value |
| `CheckedAdvertising.Advertisement.SetArchived` | Task3.java:161-163 | only the archived flag changes, to the given value |
| `CheckedAdvertising.Advertisement.ValidateDetails` | Task3.java:166-172 | the check fails, as incomplete, exactly when the advertiser name, contact or content is absent or empty |
| `CheckedAdvertising.Advertisement.ArchiveIfUnused` | Task3.java:174-178 | the archived flag becomes set when the date is strictly before the cutoff and is never cleared; the processed flag plays no part; an undated record fails |
| `CheckedAdvertising.Advertisement.RequiresSuitability` | Task3.java:180-182 | the suitability test never holds, since no stored status has that name |
| `CheckedAdvertising.Advertisement.EnsurePaidBeforePublication` | Task3.java:184-188 | the guard fails, asking for payment, exactly when the record is unpaid |
| `CheckedAdvertising.StatusNameNeverPendingSuitability` | Task3.java:180-182 | none of the four stored statuses is "Pending Suitability Assessment" |
| `CheckedAdvertising.ValidateWeakerThanCapture` | Task3.java:166-172 | input the plain capture accepts passes validation, and validation fails exactly when the plain capture fails on one of its first three fields |
| `CheckedAdvertising.MarketingStaff.constructor` | Task3.java:200-204 | a new registry is empty |
| `CheckedAdvertising.MarketingStaff.CaptureAdvertisementDetails` | Task3.java:207-215 | an incomplete record, then a taken identifier, fails and leaves the list unchanged; otherwise exactly one fresh record with the raw inputs and identifier "A%03d" of the old size plus one is appended; under sequential numbering no duplicate is reported |
| `CheckedAdvertising.MarketingStaff.GenerateAdvertId` | Task3.java:217-220 | the identifier is "A%03d" of the list size plus one, and under sequential numbering no listed record has it |
| `CheckedAdvertising.MarketingStaff.AddAdvertisement` | Task3.java:223-230 | fails as a duplicate exactly when a listed record has the same identifier, leaving the list unchanged; otherwise appends the record |
| `CheckedAdvertising.MarketingStaff.ReviewAdvertisementSuitability` | Task3.java:233-239 | the effect is exactly the review's; the suitability-mismatch failure is never raised |
| `CheckedAdvertising.MarketingStaff.ApproveAdvertisement` | Task3.java:242-254 | the record's new state is the approval transition of its old state; a null record fails |
| `CheckedAdvertising.FirstUndated` | Task3.java:271-278 | every record before the returned index is dated, and the record at it is not |
| `CheckedAdvertising.ArchiveUnusedAdvertisements` | Task3.java:271-278 | records up to the first undated one are archived when dated before the cutoff; the first undated record stops the scan with a failure; no other field changes |
| `CheckedAdvertising.AssessSuitability` | Task3.java:294-302 | the record's new state is the review transition of its old state; a null record, or one without content, fails unchanged |
| `CheckedAdvertising.ConfirmPayment` | Task3.java:284-288 | payment is set before the publication guard runs, so the guard passes and the effect is the payment transition |
| `CheckedAdvertising.ReceiveAdvertisement` | Task3.java:309-316 | the record's new state is the forwarding transition of its old state; a null record fails |

## Left out

- The `main` demonstration methods, all console logging, and `getDetails` string formatting: these are output only.
- `LocalDate.now().minusMonths(6)`: the clock and the month arithmetic are replaced by the `sixMonthsAgo` parameter.
- Text.FormatId: writes the number with the ASCII digits '0' to '9'. Java's `String.format("A%03d", n)` (Task1.java:202, Task3.java:219) uses the zero digit of the default format locale, so under a locale such as `th-TH-u-nu-thai` the first identifier is not "A001". `Text.FormatIdDigits` and the "A001" clause of `Advertising.CapturedIdsDistinct` hold only for a locale whose zero digit is '0'.
- The static `advertisementList` with `recordDetails` and `getAdvertisementList` (Task1.java:70, 136-144): no modelled operation uses it.
- The `staffID` and `name` fields of the marketing staff: no operation reads them.
- The getters of the records: they are field reads in the model.
- Re-entrant `addCommand` during `executeCommands`: Java raises a concurrent-modification error there, which the program does not handle.
- The test classes: they are not modelled.
- Null component objects: a command's bound staff, archive manager, payment processor or processing centre is assumed present. The stateless payment processor and processing centre are not stored in the commands at all.
- Advertising.Advertisement: its string fields are never null and its date is always present. The constructor and the `advertisements` list are public (Task1.java:84, 157), so records can be built directly and appended without the capture checks; such records are assumed to have non-null fields, and one with a null content or date is not modelled.
- Advertising.CheckPaymentStatus: takes a present record; the null-argument exception is not modelled.
- Workflow.CheckCapture: counts the size's length in characters, not in UTF-16 code units.
- Commands.Execute: an archive command binds the list of records as a value. The Java command holds a reference to a list that earlier commands in the same queue may still extend.
- Commands.CommandExecutor.GetCommandQueue: returns a copy of the queue. In Java `getCommandQueue` returns the live list, which a caller can then change.
- Advertising.ArchiveManager.GetArchivedAdvertisements: returns a copy of the archive. In Java `getArchivedAdvertisements` returns the live list, which a caller can then change.
- Commands.CommandExecutor.SetCommandQueue: stores a copy of the given list. In Java (Task2.java:148-150) the executor keeps a reference to the caller's list, so the `clear()` in `executeCommands` (Task2.java:141) also empties the caller's list, and anything the caller later adds to that list joins the queue.
- Advertising.Advertisement.SetReviewStatus: accepts only the four statuses of `ReviewStatus`. Java's `setReviewStatus(String)` (Task1.java:110-112) stores any string.
- CheckedAdvertising.Advertisement.SetReviewStatus: accepts only the four statuses of `ReviewStatus`. Java's `setReviewStatus(String)` (Task3.java:115-117) stores any string.
- CheckedAdvertising.Advertisement.RequiresSuitability: its `ensures !pending` holds only because a stored status is one of the four `ReviewStatus` values. In Java, `requiresSuitability()` (Task3.java:180-182) returns true after `setReviewStatus("Pending Suitability Assessment")`. The suitability-mismatch failure of `reviewAdvertisementSuitability` is still never raised in Java, because its second conjunct contradicts its first (Task3.java:236).
- The checked variant's `getAdvertisementsByStatus` (Task3.java:257-265) is line for line the plain one, so it is not modelled twice.
- Commands.CommandExecutor.ExecuteCommands: the effect on registries and archives is stated per command by `Execute`, not composed over the whole queue; only the records' states are. So the contract does not say that each capture or archive command runs exactly once: an executor that skipped them, or ran one twice, would meet it. The ghost `log` is written by the executor itself and adds no such guarantee. For the records, the state clause cannot tell one payment, review or forwarding from two, since those calls are idempotent.
