# Battery passport platform: verified model

This project models the transactional protocols and the serialisers of the EU
battery passport platform in Dafny and proves what they are for:

- an intake is mailed at most once, whatever crashes, lost replies and lease
  expiries happen between the site's table and the mail worker's journal;
- a published passport always says what the live rows say, rests on evidence that
  has not been rejected since, and has a version history that the export accepts;
- all this holds however transactions overlap that read and decide under row locks
  and write later: they leave the rows that some run of whole transactions leaves;
- transactions on the same rows never wait in a circle, evidence decisions survive
  slow byte checks, and a delegated transaction never outlives its authorisation;
- the two encodings (canonical JSON and the Registry draft XML) can be read back,
  and drafts lose, repeat and mix no record;
- the rate limiter, the readiness engine and the applicability review compute what
  their users rely on.

Check everything with `dafny verify dfyconfig.toml`.

## Layout

| file | what it holds |
|---|---|
| `Prelude.dfy`, `Text.dfy` | optional values, set sizes; white space, trimming, UTF-16 length |
| `IntakeTable.dfy`, `MailWorker.dfy`, `DeliveryProtocol.dfy` | the intake table's statements, the worker's journal, and both as one state machine with every message in flight |
| `DeliveryProgram.dfy` | the worker's methods as runs of that machine |
| `DeliveryReached.dfy` | runs of that machine that mail twelve times and that settle an intake |
| `DeliveryLimits.dfy`, `DeliverySettling.dfy` | which receipts are acknowledged in the end: what is refused stays refused, and the exact condition |
| `StateMachine.dfy`, `Catalogue.dfy`, `Readiness.dfy`, `Applicability.dfy`, `ApplicabilityMeaning.dfy` | the rules package and the applicability review, and what a complete review is |
| `PassportValues.dfy`, `PassportTables.dfy` | the value table with its links; items, models, versions and what is read from them |
| `PassportSteps.dfy`, `PassportInvariant.dfy`, `PassportRuns.dfy` | each endpoint as one transaction, the invariant every one keeps, and runs of them in any order |
| `PassportMeaning.dfy`, `PublishingMeaning.dfy` | what each endpoint promises, said of the rows before and after; when an item may be published and what its version says |
| `PassportProjection.dfy` | what a projection of the document reveals |
| `PassportDocument.dfy` | what the stored and the public JSON say, read by key |
| `PassportService.dfy`, `PassportHistory.dfy` | the endpoints as methods over stored rows; the history check of the export |
| `PassportStory.dfy`, `HistoryStory.dfy` | runs that publish, and what publishing and a version's hash do not say |
| `LockOrder.dfy`, `EvidenceCas.dfy`, `Delegation.dfy` | concurrency: row locks, compare-and-set on evidence, delegated transactions against revocation |
| `Footprint.dfy`, `Stability.dfy`, `Transactions.dfy` | the locks each step needs, what they keep as it is, and a decision read under them as against its later write |
| `Interleaving.dfy`, `Serialisation.dfy`, `Overlap.dfy` | any number of transactions lock by lock, the rejection of evidence among them; the run of whole steps behind every interleaving, and the interleaving behind every run |
| `CanonicalJson.dfy`, `CompactText.dfy`, `CanonicalOrder.dfy` | JSON text with its reader; that no text is shorter; key order, canonical text, hashes |
| `RegistryXml.dfy`, `RegistryDocument.dfy`, `Grouping.dfy`, `RegistryDraft.dfy` | escaping, the XML draft with its reader, grouping and chunking, the preparation |
| `RegistryCandidates.dfy` | what the preparation reads of the passports |
| `RateLimiter.dfy` | the in-process limiter |

Results about runs quantify over every list of states and steps in which each step
was enabled. `PassportSteps` writes a transaction as a function of the rows it
locks; `PassportService` performs the same work statement by statement and is
proved to end in that function's result; `PassportMeaning` and `PublishingMeaning` say
what that result is in terms of the rows alone. `Interleaving` takes the transactions
apart: one takes the locks of its `LockOrder` program one by one, reads and decides,
and writes later over what the rows have become. `Serialisation` puts the pieces
together again, in the order of the commits but for a validation whose bad verdict
is out of date when it is written, which goes where it read.

Lemmas that only read back a table, a guard or an order
(`StateMachine.InvalidationIsPermitted`, `Delegation.PermissionIsExplicit`,
`IntakeTable.SelectionUnique` and the like) are helpers and have no row below.

## What is assumed

- SHA-256 is injective: a digest is kept as its preimage, and the worker's journal
  keeps the payload where the program keeps its digest.
- UUIDs and leases are fresh: they are numbered in the order they are drawn, and
  ids are compared as numbers wherever the program sorts them.
- `mail()` answering false means the message was not queued. A process that dies
  inside `mail()` leaves the answer unknown. One worker process runs at a time.
- A reply belongs to its request: a waiting worker receives a job claimed after it
  asked. Everything else in flight may be late, repeated or lost, and receipts may
  be flushed in any order. The clock does not go back between claims and
  acknowledgements; inserts and clean-ups may carry earlier times.
- Text is a sequence of Unicode scalar values: `jsonb` refuses lone surrogates.
  Key order is that of UTF-16 code units. A number is its rendered token.
- The reader that inverts the JSON writer follows RFC 8259, sections 2 to 7. The
  XML reader follows XML 1.0, sections 2.4 and 2.11, for the elements and
  references the drafts use.
- Ids are spelled as UUIDs and field numbers as JSON numbers, different ones differently.
- New items start `draft` and `original`, and `PassportVersion.schemaVersion`
  defaults to `eubatterypassport.v2` (`apps/api/prisma/schema.prisma:241-242`, `514`).
- No program path sets `registry_pending` or `registered`; the results about
  published passports cover these states all the same.

## Where the program does less than one might think

- Not every receipt is acknowledged in the end. A mail is sent under an intake's
  first lease and the eleven later claims get lost: the attempts run out, and the
  receipt, whether it says queued, refused or unknown, names a lease the table no
  longer honours (`DeliverySettling.SomeReceiptsAreStuck`).
  `DeliverySettling.SettlesIff` gives the exact condition, and
  `DeliveryLimits.RefusedForGood` says that what the table would refuse now it
  refuses for ever.
- A readiness score of 100 means "no blockers" only while fewer than 200 fields are
  required; `Readiness.ScoreIsFull` gives the exact condition.
- A version's hash covers its document, not the previous version's hash, so the
  newest hash alone does not determine the history: `HistoryStory.NewestHashIsNotHistory`
  has two runs that end with the same hash and began with different documents.
  `PassportHistory.AllHashesSayHistory` says when histories are the same, and the
  export's payload hash does determine the whole payload
  (`PassportHistory.PayloadHashDetermines`).
- A field may be published unvalidated exactly when nothing requires it
  (`PassportStory.ValidationIsForRequired`); `PassportStory.PublishingHappens`
  publishes such a value.

## Model

| member | source | states |
|---|---|---|
| `IntakeTable.BackoffBounds` | websites/marketing/lib/intake-delivery.ts:45 | the delay after a refused send lies between two minutes and one hour and never shrinks as attempts grow |
| `IntakeTable.BackoffDoubles` | websites/marketing/lib/intake-delivery.ts:45 | it is two minutes after the first attempt and doubles with each one until it reaches the hour |
| `IntakeTable.SweepKeepsSelection` | websites/marketing/lib/intake-delivery.ts:34-35 | moving exhausted rows to "uncertain" first does not change which row is claimed |
| `IntakeTable.InsertKeepsRate` | websites/marketing/app/api/intake/route.ts:31 | an insert leaves every one-hour window with at most five intakes per sender, whatever creation times the other rows carry |
| `IntakeTable.IntakeDb.Select` | websites/marketing/lib/intake-delivery.ts:35 | the scan returns the least eligible row, or none when there is none |
| `IntakeTable.IntakeDb.Claim` | websites/marketing/lib/intake-delivery.ts:29-40 | one claim: heartbeat, exhausted rows set aside, the least eligible row leased with one more attempt, and the job describes that row |
| `IntakeTable.IntakeDb.Acknowledge` | websites/marketing/lib/intake-delivery.ts:43-50 | only the current lease's row changes, and the answer says whether the row now has, or had, that outcome under that lease |
| `IntakeTable.IntakeDb.CheckReady` | websites/marketing/lib/intake-delivery.ts:22-27 | ready means a fresh heartbeat and no row uncertain or unaccepted for half an hour |
| `IntakeTable.IntakeDb.Post` | websites/marketing/app/api/intake/route.ts:20-33 | each answer's exact condition, also when another request inserts the same id in between; success means this payload is stored under the id; stored intakes keep their content and the windows stay bounded |
| `MailWorker.Worker.Deliver` | websites/marketing/ops/mail-worker/worker.php:59-94 | what is on disk and how often `mail()` was called, for each point at which the process may die: an intake without a receipt, or whose last call was refused, is mailed once by a delivery that completes, any other is not, and other receipts stay |
| `MailWorker.Worker.Flush` | websites/marketing/ops/mail-worker/worker.php:96-110 | the receipts before the first lost reply are settled, the others untouched |
| `MailWorker.FlushedAt` | websites/marketing/ops/mail-worker/worker.php:96-110 | flushing changes exactly the unacknowledged receipts whose acknowledgement was confirmed |
| `DeliveryProtocol.AtMostOneMail` | websites/marketing/ops/mail-worker/worker.php:59-94 | in every run all `mail()` calls for an intake but the last were refused, and there are at most twelve, even if the row was cleaned up and inserted again |
| `DeliveryReached.TwelveCallsHappen` | websites/marketing/ops/mail-worker/worker.php:59-94 | twelve calls, all refused, happen in a run: the bound is reached, so refused mails are tried again to the end |
| `DeliveryReached.UnsentIsMailed` | websites/marketing/ops/mail-worker/worker.php:75-92 | a worker holding a job whose intake has no receipt or a refused one can go on to mail it once and record the answer |
| `DeliveryReached.AnIntakeIsSettled` | websites/marketing/lib/intake-delivery.ts:43-50 | a run inserts an intake, mails it and has the answer acknowledged, whether it was queued or refused |
| `DeliveryProtocol.TableAgreesWithMail` | websites/marketing/lib/intake-delivery.ts:43-50 | an accepted row means exactly one queued message, a row in retry means none, and confirmed receipts name the row's outcome |
| `DeliveryProtocol.ClaimsAreNumbered` | websites/marketing/lib/intake-delivery.ts:29-40 | until acceptance, successive claims of an intake carry growing attempt numbers out of 1..12 |
| `DeliveryProtocol.AttemptsMeasure` | websites/marketing/lib/intake-delivery.ts:35 | every claim uses up one of the remaining attempts and no step gives one back |
| `DeliveryProtocol.StoredIntakesStay` | websites/marketing/app/api/intake/route.ts:24-25 | from any point of a run on, a stored intake keeps payload, time and sender unless a clean-up past 90 days took it while accepted |
| `DeliveryProtocol.RateBoundedInEveryRun` | websites/marketing/app/api/intake/route.ts:31 | every run keeps the one-hour windows bounded |
| `DeliveryProtocol.AtMostFiveAnHour` | websites/marketing/app/api/intake/route.ts:31 | so in every run no half-open hour holds more than five stored intakes of one sender |
| `DeliveryLimits.RefusedForGood` | websites/marketing/lib/intake-delivery.ts:43-50 | in every run, an acknowledgement sent or reported that the table would refuse now is refused at every later time, whatever its outcome, also after clean-up and re-insert |
| `DeliveryLimits.StuckForGood` | websites/marketing/lib/intake-delivery.ts:29-50 | a receipt that can no longer be settled stays unacknowledged in every continuation |
| `DeliverySettling.SettlesIff` | websites/marketing/lib/intake-delivery.ts:29-50 | in every reachable state a receipt is acknowledged in some continuation exactly when it is confirmable now or its intake can still be leased to it again |
| `DeliverySettling.SomeReceiptsAreStuck` | websites/marketing/ops/mail-worker/worker.php:96-110 | reachable states with a queued, a refused and an unknown mail whose receipt no continuation acknowledges |
| `DeliveryProtocol.EarlyReclaimNeedsRetry` | websites/marketing/lib/intake-delivery.ts:29-50 | two claims under ten minutes apart have an effective retry of the first lease between them, followed by its whole backoff |
| `DeliveryProgram.DeliverIsARun` | websites/marketing/ops/mail-worker/worker.php:59-94 | wherever the worker method stops, an enabled sequence of the machine's steps leaves the same journal, calls and table |
| `DeliveryProgram.FlushIsARun` | websites/marketing/ops/mail-worker/worker.php:96-110 | so does its flushing of receipts, with the replies the table gives |
| `Readiness.CalculateReadiness` | packages/rules/src/engine.ts:18-40 | blockers are the required fields without a value, warnings those without validation or evidence, in catalogue order; complete + blockers = required and verified + warnings = complete |
| `Readiness.ListsMean` | packages/rules/src/engine.ts:5-36 | for each field of the catalogue, by its requirement for the category and its last value, whether each list and counter includes it |
| `Readiness.IdsInOrder` | packages/rules/src/engine.ts:23-37 | a list names exactly the catalogue places that hold, in catalogue order |
| `Readiness.ScoreRounds` | packages/rules/src/engine.ts:38 | the score is the percentage rounded to the nearest whole number, halves up |
| `Readiness.ReadyMeansProven` | packages/rules/src/engine.ts:23-37 | no blocker and no warning exactly when every field required now has a validated value with usable evidence |
| `Readiness.ScoreIsFull` | packages/rules/src/engine.ts:38 | the rounded score is 100 exactly when at most every two-hundredth required field is missing |
| `Readiness.FullScoreMeansNoBlockers` | packages/rules/src/engine.ts:38 | below 200 required fields a full score means no blockers; with 200 it need not |
| `Applicability.AssessConditionalReview` | apps/api/src/modules/batteries/applicability-review.ts:28-65 | complete means: every conditional field decided once by a valid entry, matching stored ids, a signed current profile; the unresolved ids are the undecided fields |
| `ApplicabilityMeaning.CompleteMeans` | apps/api/src/modules/batteries/applicability-review.ts:28-65 | a review is complete exactly when a named person, at a date, for the category and the profile as it is now, gave for each conditional field one decision with a reason of 10 to 1000 UTF-16 units, and the stored ids are those decided applicable, each once |
| `ApplicabilityMeaning.FingerprintTellsProfiles` | apps/api/src/modules/batteries/applicability-review.ts:23-26 | two fingerprints agree exactly when the conditional fields and their requirements do |
| `ApplicabilityMeaning.ReviewedMeans` | apps/api/src/modules/batteries/applicability-review.ts:67-74 | a recorded review holds the decisions as given, the applicable ids in order, and who signed which profile when; the rest of the context stays |
| `Applicability.FreshReviewComplete` | apps/api/src/modules/batteries/applicability-review.ts:67-74 | a freshly recorded review is complete exactly when its decisions parse, list each conditional field once, and actor and date are valid, whatever the context held before |
| `Applicability.CompleteIdsAreApplicable` | apps/api/src/modules/batteries/applicability-review.ts:49-55 | a context assessed complete requires exactly the fields its decisions call applicable |
| `Applicability.ParsedParses` | apps/api/src/modules/batteries/applicability-review.ts:6-10 | a decision the endpoint lets through parses again when the stored review is assessed |
| `PassportValues.PutKeeps` | apps/api/src/modules/values/values.controller.ts:26-28 | creating a value keeps one current row per owner and field, and disjoint chains that lead back |
| `PassportValues.ChainsGoBack` | apps/api/src/modules/values/values.controller.ts:27-28 | following supersedes links always leads to earlier rows, so no chain closes |
| `PassportValues.ChainsDisjoint` | apps/api/src/modules/values/values.controller.ts:27-28 | rows whose chains meet lie on one chain |
| `PassportValues.LastSubmissionWins` | apps/api/src/modules/suppliers/suppliers.controller.ts:154-164 | after the acceptance loop, a field's current value carries its last submission's content and evidence |
| `PassportTables.DocumentListsFields` | apps/api/src/modules/passports/passports.controller.ts:71-74 | the document lists fields in order, each once: the item's own current value, else the model's |
| `PassportTables.PublishableIsSupported` | apps/api/src/modules/passports/passport-data.service.ts:34-53 | a publishable item has, for each field required now, a validated value with usable evidence |
| `PublishingMeaning.PublishableMeans` | apps/api/src/modules/passports/passport-data.service.ts:42-53 | an item is publishable exactly when it is open, its model's review is complete, every field asked of it has a validated row with evidence good at that time, voltages, capacity, weight and manufacture date fit, and field 67 names the lifecycle status |
| `PublishingMeaning.DocumentSaysRows` | apps/api/src/modules/passports/passports.controller.ts:71-74 | the document lists exactly the rows the item shows, by field, each with its row's content, unit, status, source and evidence and the catalogue's name and tier |
| `PublishingMeaning.PublishMeans` | apps/api/src/modules/passports/passports.controller.ts:46-91 | when publishing is refused; otherwise the next version, its number, chained hash, document and time, the one active snapshot and the identifier, and that nothing else changed |
| `PassportProjection.ProjectionShows` | apps/api/src/modules/passports/passport-projection.ts:11-33 | the projected values are exactly the document's values of fields the catalogue shows to the tier, each once and in order, without tier, status, source and evidence |
| `PassportProjection.ProjectionMeans` | apps/api/src/modules/passports/passport-projection.ts:11-33 | a projection column by column: the open battery columns, the lifecycle status if field 67 is open, and of each value the tier may see its number, name, content and unit only |
| `PassportDocument.DocumentReads` | apps/api/src/modules/passports/passports.controller.ts:65-76 | read by key, the stored JSON says the whole document: each value's number, content, unit, status, source, name, tier and evidence ids in order, and every battery column |
| `PassportDocument.PublicReads` | apps/api/src/modules/passports/passport-projection.ts:16-33 | likewise the public JSON, which has no other key |
| `PassportDocument.EqualHashesEqualDocuments` | apps/api/src/modules/passports/passports.controller.ts:76 | two documents with one hash say the same |
| `PassportProjection.ProjectionSaysOnly` | apps/api/src/modules/passports/passport-projection.ts:11-33 | two documents have the same projection exactly when they agree on what the tier may see; internal ids, evidence, other fields and, unless field 67 is shown, the lifecycle status make no difference |
| `PassportProjection.ProjectTwice` | apps/api/src/modules/resolver/resolver.controller.ts:5 | projecting the stored projection again changes nothing |
| `PassportInvariant.WriterKeepsPublication` | apps/api/src/common/tenant/passport-lock.ts:34-40 | a writer that invalidates the owners whose rows, links or trust in evidence it changes leaves every published passport agreeing with the live rows and backed |
| `PassportInvariant.PublishKeeps` | apps/api/src/modules/passports/passports.controller.ts:46-91 | publishing keeps the whole invariant: agreement, backing, numbering, hash chain, one active snapshot |
| `PassportInvariant.AcceptKeeps` | apps/api/src/modules/suppliers/suppliers.controller.ts:139-174 | accepting a request keeps it |
| `PassportInvariant.RejectEvidenceKeeps` | apps/api/src/common/storage/evidence-storage.service.ts:64-86 | rejecting evidence keeps it: every passport resting on the evidence is invalidated |
| `PassportInvariant.RecordEventKeeps` | apps/api/src/modules/lifecycle/lifecycle.controller.ts:38-77 | a lifecycle event keeps it, and the recorded transitions stay a path from "original" to the current status |
| `PassportInvariant.ReviewKeeps` | apps/api/src/modules/batteries/batteries.controller.ts:42-58 | recording an applicability review keeps it |
| `PassportRuns.PublishedSaysWhatIsLive` | apps/api/src/modules/passports/passports.controller.ts:56-86 | in every run, a published item's latest version has the battery block and values `publish` would write now, evidence ids as sets |
| `PassportRuns.PublishedIsBacked` | apps/api/src/common/storage/evidence-storage.service.ts:16-22 | and each field required of it now is validated and linked to evidence that is still verified and scanned |
| `PublishingMeaning.PublishedSaysTheRows` | apps/api/src/modules/passports/passports.controller.ts:56-86 | in terms of rows: in every run a published item's last version lists exactly the rows the item shows now and says what they say, its battery is the item and model, and each field asked of it rests on a validated row with verified evidence |
| `PassportRuns.ValuesStayChained` | apps/api/src/modules/values/values.controller.ts:24-67 | in every run: at most one current row per owner and field, no row superseded twice |
| `PassportRuns.VersionsNeverChange` | apps/api/src/modules/passports/passports.controller.ts:62-79 | earlier versions are a prefix of later histories |
| `PassportRuns.EveryVersionWasSupported` | apps/api/src/modules/passports/passports.controller.ts:56-79 | every version ever published was written by a publish with a complete review, and its document holds, for each mandatory field and each conditional field decided applicable, a validated value with evidence usable then |
| `PassportRuns.UpisStayApart` | apps/api/prisma/schema.prisma:239 | in every run no two items carry the same passport identifier |
| `PassportStory.PublishingHappens` | apps/api/src/modules/passports/passports.controller.ts:20-92 | for any deployment a run publishes an item with a mandatory field and a conditional one decided applicable, both validated and evidenced, and an optional value that is neither |
| `PassportStory.ValidationIsForRequired` | apps/api/src/modules/passports/passport-data.service.ts:34-53 | the merged value of a publishable item may lose its validation and the item still be published exactly when no catalogue field of that number is required |
| `PassportRuns.RecycledStaysFrozen` | apps/api/src/modules/lifecycle/lifecycle.controller.ts:66-68 | from recycling on, an item's state, history, snapshots, events and readings never change |
| `PassportRuns.AcceptedStaysAccepted` | apps/api/src/modules/suppliers/suppliers.controller.ts:32-46 | from acceptance on, in every run, a request is never changed and every further acceptance is refused |
| `PassportRuns.AcceptTakesTheLast` | apps/api/src/modules/suppliers/suppliers.controller.ts:139-174 | acceptance makes each field's last submission by (time, id) its current value |
| `PassportHistory.VerifyHistory` | apps/api/src/modules/passports/passport-export.service.ts:39-58 | the loop accepts exactly the histories in which every row has its place's number, names the hash of the row before, carries its own document's hash and is published, with matching document fields and UUID evidence ids, and collects exactly the ids some version names |
| `PassportHistory.CheckExport` | apps/api/src/modules/passports/passport-export.service.ts:26-61 | the exact condition of each refusal, for lack of versions, limits or integrity, and of going ahead |
| `PassportHistory.EveryHistoryIsAccepted` | apps/api/src/modules/passports/passport-export.service.ts:39-58 | every history any run of publishing builds is accepted, in whatever key order the database returns the documents |
| `PassportHistory.OneActiveSnapshot` | apps/api/src/modules/passports/passports.controller.ts:80-85 | exactly the last snapshot is active, and it is the projection of the latest version |
| `PassportHistory.PayloadHashDetermines` | apps/api/src/modules/passports/passport-export.service.ts:90-91 | equal payload hashes mean payloads equal up to key order |
| `PassportHistory.AllHashesSayHistory` | apps/api/src/modules/passports/passport-export.service.ts:39-58 | two accepted histories hold the same documents exactly when they are equally long and all their hashes agree |
| `HistoryStory.NewestHashIsNotHistory` | apps/api/src/modules/passports/passports.controller.ts:65-79 | two runs end with the same newest hash and began with different documents |
| `PassportService.PassportDb.CreateValue` | apps/api/src/modules/values/values.controller.ts:22-34 | the method performs its transaction, or reports its code and changes nothing; the invariant holds after it |
| `PassportMeaning.CreateMeans` | apps/api/src/modules/values/values.controller.ts:22-34 | creating a value: when it is refused, the row added, the one row it ends, and the items withdrawn from publication |
| `PassportService.PassportDb.ValidateValue` | apps/api/src/modules/values/values.controller.ts:40-54 | likewise; validating again invalidates nothing |
| `PassportMeaning.ConfirmMeans` | apps/api/src/modules/values/values.controller.ts:40-54 | a current value is validated exactly when it rests on good evidence and its owner is open; only then, and only the first time, items are withdrawn |
| `PassportService.PassportDb.RejectValue` | apps/api/src/modules/values/values.controller.ts:57-68 | likewise for rejecting a value |
| `PassportMeaning.RejectMeans` | apps/api/src/modules/values/values.controller.ts:57-68 | rejecting a value ends its row and withdraws the owner's items |
| `PassportService.PassportDb.LinkEvidence` | apps/api/src/modules/evidence/evidence.controller.ts:40-55 | likewise for linking evidence |
| `PassportMeaning.LinkMeans` | apps/api/src/modules/evidence/evidence.controller.ts:40-55 | linking adds one link, to evidence neither rejected nor superseded, and withdraws the owner's items |
| `PassportService.PassportDb.RejectEvidence` | apps/api/src/common/storage/evidence-storage.service.ts:65-86 | likewise, invalidating link by link exactly the owners of linked values |
| `PassportMeaning.RejectEvidenceMeans` | apps/api/src/common/storage/evidence-storage.service.ts:65-86 | rejecting evidence withdraws exactly the items with a value, their own or their model's, that it is linked to |
| `PassportService.PassportDb.Submit` | apps/api/src/modules/suppliers/suppliers.controller.ts:111-136 | likewise for a supplier's submissions: all are stored, or the first that may not be gives its code and none is |
| `PassportMeaning.SubmitMeans` | apps/api/src/modules/suppliers/suppliers.controller.ts:111-136 | all submissions of a body are stored under their ids, or none, with the exact condition |
| `PassportService.PassportDb.Accept` | apps/api/src/modules/suppliers/suppliers.controller.ts:139-174 | likewise for the acceptance loops |
| `PassportMeaning.AcceptMeans` | apps/api/src/modules/suppliers/suppliers.controller.ts:139-174 | acceptance: its exact condition, one row of the model per submission in order with its evidence, the rows it ends, the request closed, the model's items withdrawn |
| `PassportService.PassportDb.RecordEvent` | apps/api/src/modules/lifecycle/lifecycle.controller.ts:38-77 | likewise for a lifecycle event |
| `PassportMeaning.EventMeans` | apps/api/src/modules/lifecycle/lifecycle.controller.ts:19-77 | each kind of event leads to its own lifecycle status; which status and which prior passport may be named; recycling closes the item, any other event withdraws it |
| `PassportService.PassportDb.Ingest` | apps/api/src/modules/lifecycle/lifecycle.controller.ts:80-96 | likewise for telemetry |
| `PassportMeaning.IngestMeans` | apps/api/src/modules/lifecycle/lifecycle.controller.ts:80-96 | one to a thousand readings are appended in order and the item withdrawn |
| `PassportService.PassportDb.ReviewApplicability` | apps/api/src/modules/batteries/batteries.controller.ts:42-58 | likewise for the applicability review |
| `PassportMeaning.ReviewMeans` | apps/api/src/modules/batteries/batteries.controller.ts:42-58 | a review is stored exactly when it decides each conditional field once with a reason, under a name and a date |
| `PassportService.PassportDb.LoadMerged` | apps/api/src/modules/passports/passport-data.service.ts:15-19 | the map holds the item's own current value of a field, else the model's |
| `PassportService.PassportDb.CheckPublishable` | apps/api/src/modules/passports/passport-data.service.ts:42-53 | publishable means no missing or unproven required field, a complete review, sound cross-field values and an open lifecycle |
| `PassportService.PassportDb.Validate` | apps/api/src/modules/passports/passports.controller.ts:20-38 | likewise for validating, which never throws a forbidden transition |
| `PassportMeaning.ValidateMeans` | apps/api/src/modules/passports/passports.controller.ts:20-38 | validating moves the state as the verdict says and changes nothing else |
| `PassportService.PassportDb.Publish` | apps/api/src/modules/passports/passports.controller.ts:46-92 | likewise for publishing, which also aborts when another item has the passport identifier |
| `LockOrder.EveryEndpointDisciplined` | apps/api/src/common/tenant/passport-lock.ts:6-32 | every endpoint, delegated or not, takes models in order, then a request, then evidence in order, and items only under their model's lock |
| `LockOrder.PreparationLocks` | apps/api/src/modules/registry/registry-preparation.service.ts:33-40 | preparing a draft locks exactly the requested items and their models |
| `LockOrder.NeverWaitsForItem` | apps/api/src/common/tenant/passport-lock.ts:13-19 | no transaction ever waits for an item row |
| `LockOrder.NoDeadlock` | apps/api/src/common/storage/evidence-storage.service.ts:65-82 | no reachable set of any number of transactions waits in a circle |
| `LockOrder.SomebodyGoesOn` | apps/api/src/modules/registry/registry-preparation.service.ts:33-40 | while transactions run, one of them has all its locks or can take the next |
| `EvidenceCas.EvidenceObject.FinishFinalize` | apps/api/src/common/storage/evidence-storage.service.ts:119-126 | what finalizing does to the row after the byte check, with every refusal |
| `EvidenceCas.EvidenceObject.FinishVerify` | apps/api/src/common/storage/evidence-storage.service.ts:128-134 | likewise for verifying |
| `EvidenceCas.FinishMeans` | apps/api/src/common/storage/evidence-storage.service.ts:93-134 | both write exactly when the bytes have the stated digest, the evidence is in use and the row is as loaded; what the row then says of digest, version and scan, and that an earlier scan leaves nothing behind |
| `EvidenceCas.ReadyMeansReleasable` | apps/api/src/common/storage/evidence-storage.service.ts:136-152 | evidence may leave storage exactly when it is in use, uploaded, and these very bytes, in this version, were scanned clean by ClamAV |
| `EvidenceCas.EvidenceObject.RejectMalware` | apps/api/src/common/storage/evidence-storage.service.ts:64-92 | at most three attempts; the first whose links are, under its locks, those it began with rejects the row if it is still as loaded |
| `EvidenceCas.EvidenceObject.IssueDownload` | apps/api/src/common/storage/evidence-storage.service.ts:136-186 | a review link is issued exactly when the loaded and the current row are ready, the object's head matches and nothing changed, for the longest time up to sixty seconds that does not pass expiry |
| `EvidenceCas.StatusOnlyMovesOn` | apps/api/src/common/storage/evidence-storage.service.ts:99-134 | under any overlap: rejected is final, verified moves only to rejected or to itself with a fresh scan, pending never straight to verified |
| `EvidenceCas.RejectedForever` | apps/api/src/common/storage/evidence-storage.service.ts:78-81 | a rejected row never changes again |
| `EvidenceCas.StoredBytesMatched` | apps/api/src/common/storage/evidence-storage.service.ts:93-105 | every uploaded or verified row carries the checksum of bytes that matched its digest |
| `EvidenceCas.WritesAreAggregateMoves` | apps/api/src/common/storage/evidence-storage.service.ts:99-117 | every write of such a run is one the passport aggregate's steps allow |
| `Footprint.NeedsAre` | apps/api/src/common/tenant/passport-lock.ts:6-32 | the locks of each endpoint's program, for the rows as they are |
| `Stability.StepStable` | apps/api/src/common/tenant/passport-lock.ts:4-32 | a step leaves alone the values, links, items, requests and evidence guarded by locks disjoint from its own, and rejects no evidence linked under a held model |
| `Transactions.PublishableStays` | apps/api/src/modules/passports/passports.controller.ts:54-57 | what was publishable when it was read under the model's lock is publishable when it is written, though evidence rows are not locked |
| `Transactions.WriteIsStep` | apps/api/src/modules/passports/passports.controller.ts:47-91 | for every endpoint, what was decided and computed from the rows read under its locks is, when written later, the whole step done then, unless the identifier was taken or a bad verdict is out of date |
| `Interleaving.PublicationHoldsInEveryRun` | apps/api/src/modules/passports/passports.controller.ts:54-91 | in every run of overlapping transactions a published item's latest version says what the rows say now, and every field required of it is validated and rests on evidence not rejected since |
| `Interleaving.DecidedCanFinish` | apps/api/src/modules/passports/passports.controller.ts:47-91 | a transaction that has decided can always write |
| `Interleaving.CommitIsRejection` | apps/api/src/common/storage/evidence-storage.service.ts:65-86 | among any transactions that link, accept, create and publish meanwhile, a rejection that commits invalidates exactly the owners linked now, and holds each one's model alone |
| `Interleaving.RetryNeedsNewLink` | apps/api/src/common/storage/evidence-storage.service.ts:74-89 | the re-check fails exactly when a value was linked since the links were read; the third failure ends the transaction |
| `Interleaving.LoopIsRechecks` | apps/api/src/common/storage/evidence-storage.service.ts:65-89 | the method's comparison of two readings passes, tries again and gives up as the machine's re-check does |
| `Interleaving.ValidationIsWholeIff` | apps/api/src/modules/passports/passports.controller.ts:20-38 | a validation writes what it would find at that moment exactly unless it found the item wanting and the item is publishable by now |
| `Overlap.ValidationMayBeStale` | apps/api/src/modules/passports/passports.controller.ts:20-38 | a run in which that happens: a byte check verifies the missing evidence between the validation's reading and its writing |
| `Serialisation.RefinesRuns` | apps/api/src/common/tenant/tenant-db.service.ts:11-45 | whatever overlapping transactions make of the rows, a run of whole steps, one after the other, makes of them |
| `Overlap.RunsAreInterleavings` | apps/api/src/common/tenant/tenant-db.service.ts:11-45 | and whatever rows a run of whole steps reaches, transactions reach, lock by lock |
| `Serialisation.HistoriesAreAccepted` | apps/api/src/modules/passports/passport-export.service.ts:39-58 | so the export accepts every history, however the transactions overlapped that wrote it |
| `Delegation.AuthorisationDb.Guard` | apps/api/src/common/tenant/tenant.guard.ts:25-42 | the guard picks the active grant with the least id, or none when none is active |
| `Delegation.AuthorisationDb.Create` | apps/api/src/modules/authorisations/authorisations.controller.ts:29-51 | which check refuses first; a stored grant has an explicit scope, a proper interval, another provider, and the digest of its own tenant's verified document |
| `Delegation.AuthorisationDb.Revoke` | apps/api/src/modules/authorisations/authorisations.controller.ts:54-70 | only the responsible operator's grant is revoked, with one audit row |
| `Delegation.AuthorisationDb.Run` | apps/api/src/common/tenant/tenant-db.service.ts:11-45 | when a transaction commits; then, and only then, its work's audit rows are there, followed by its own on the responsible tenant; one on another tenant commits only under an unrevoked authorisation that has begun, has not ended and names the scope |
| `Delegation.CommittedWasAuthorised` | apps/api/src/common/tenant/tenant-db.service.ts:18-36 | in every interleaving a committed delegated transaction held the lock on an unrevoked grant that had begun when it was checked, had not ended and names the scope as true, and no revocation committed before it did |
| `Delegation.OneAuditRowEach` | apps/api/src/common/tenant/tenant-db.service.ts:36-43 | however works, audit inserts, commits and aborts interleave, the log's rows for delegated transactions are those of the committed ones, one each in commit order; likewise for revocations |
| `Delegation.RevocationWaits` | apps/api/src/common/tenant/tenant-db.service.ts:19-25 | while a delegated transaction holds its grant, no revocation of it starts or is under way |
| `Delegation.RunIsThoseSteps` | apps/api/src/common/tenant/tenant-db.service.ts:18-36 | run alone, the method gets to its work exactly when the machine's steps do |
| `Delegation.WorkedRunCommits` | apps/api/src/common/tenant/tenant-db.service.ts:36-43 | and from there they leave the same audit rows |
| `CanonicalJson.ParseInvertsWrite` | apps/api/src/common/crypto/canonical.ts:9-11 | a reader of the RFC 8259 grammar recovers every JSON value from its text |
| `CanonicalJson.WriteInjective` | apps/api/src/modules/registry/registry-contract.ts:83 | different values have different texts, which batching keys rely on |
| `CompactText.WriteIsShortest` | apps/api/src/common/crypto/canonical.ts:9-11 | of all texts that read as a value the one written is a shortest: it has no white space and no needless escape |
| `CanonicalOrder.CanonicalIffSame` | apps/api/src/common/crypto/canonical.ts:3-14 | two values have the same canonical text exactly when they are equal up to key order |
| `CanonicalOrder.CanonicalReadsBack` | apps/api/src/common/crypto/canonical.ts:3-14 | the canonical text reads back to an equal value, whose canonical text is the same |
| `CanonicalOrder.CanonicalAscends` | apps/api/src/common/crypto/canonical.ts:11 | in the canonical form the keys of every object, at every depth, ascend by UTF-16 code units |
| `RegistryXml.ChainIsOnePass` | apps/api/src/modules/registry/registry-contract.ts:56-59 | the six chained replacements equal one substitution per character |
| `RegistryXml.EscapedIsCharData` | apps/api/src/modules/registry/registry-contract.ts:56-59 | escaped text holds no raw markup character and no carriage return |
| `RegistryXml.AmpersandsAreReferences` | apps/api/src/modules/registry/registry-contract.ts:56-59 | every ampersand of escaped text begins one of the six references |
| `RegistryXml.UnescapeInverts` | apps/api/src/modules/registry/registry-contract.ts:56-59 | resolving the references restores the text |
| `RegistryDocument.XmlRoundTrip` | apps/api/src/modules/registry/registry-contract.ts:61-72 | reading the record elements of the whole document, also after end-of-line normalisation, yields the records in order |
| `RegistryDocument.XmlHoldsRecords` | apps/api/src/modules/registry/registry-contract.ts:69-70 | the element read for a record holds each of its nine columns under its name |
| `RegistryDocument.EntriesInjective` | apps/api/src/modules/registry/registry-contract.ts:69-70 | different record lists have different entries |
| `Grouping.Group` | apps/api/src/modules/registry/registry-contract.ts:81-86 | the Map's keys are in first-seen order and each group holds its records in caller order |
| `Grouping.ChunkForRegistry` | packages/rules/src/registry.ts:7 | sizes outside 1..100 are refused; otherwise the loop cuts the list into consecutive chunks |
| `Grouping.ChunksPartition` | packages/rules/src/registry.ts:7 | chunks concatenate to the list and hold 1 to the maximum each |
| `Grouping.ChunkAt` | packages/rules/src/registry.ts:7 | the chunk at each place is the stretch of the list that begins at that many times the maximum: only the last may be shorter |
| `Grouping.ChunkCount` | packages/rules/src/registry.ts:7 | their number is the ceiling of a hundredth |
| `Grouping.GroupedPermutes` | apps/api/src/modules/registry/registry-contract.ts:81-87 | grouping is a permutation of the records |
| `RegistryDraft.DraftPartitions` | apps/api/src/modules/registry/registry-contract.ts:81-87 | batches concatenate to the stable grouping, a permutation of the records, and number the sum of the groups' ceilings |
| `RegistryDraft.DraftBatchesAreUniform` | apps/api/src/modules/registry/registry-contract.ts:79-87 | every batch holds 1 to 100 records of one category, schema and rule set |
| `RegistryDraft.GroupKeyInjective` | apps/api/src/modules/registry/registry-contract.ts:83 | the text key separates exactly the triples |
| `RegistryDraft.CollectRecords` | apps/api/src/modules/registry/registry-preparation.service.ts:41-78 | the candidate loop yields, item by item, one code or one record |
| `RegistryDraft.SurvivorsAreAccepted` | apps/api/src/modules/registry/registry-preparation.service.ts:45-88 | no code exactly when every item passes, and then both inner validators accept the list and every batch |
| `RegistryDraft.BuildDraft` | apps/api/src/modules/registry/registry-contract.ts:74-101 | the draft exists exactly when the list is accepted; no batch is refused afterwards |
| `RegistryDraft.RegistryDb.Prepare` | apps/api/src/modules/registry/registry-preparation.service.ts:32-104 | all or nothing: a draft exactly when every requested item was found, current, publishable, with a sound latest version and a new identifier, then one submission row per record; otherwise no row, and each item that lacks one of these is reported with the first it lacks; it never fails in between |
| `RegistryDraft.AllPassMeansDraftable` | apps/api/src/modules/registry/registry-preparation.service.ts:45-68 | the loop passes every item exactly when each of them is one that may be drafted, said of the rows |
| `RegistryDraft.ReasonIsReported` | apps/api/src/modules/registry/registry-preparation.service.ts:45-58 | an item that is missing, not current, not publishable or without version, identifier or serial is reported with its reason |
| `RegistryCandidates.DraftedArePublishable` | apps/api/src/modules/registry/registry-preparation.service.ts:41-68 | so every item a draft submits is published and publishable in the rows that were read |
| `RegistryDraft.EachItemSubmittedOnce` | apps/api/src/modules/registry/registry-preparation.service.ts:86-97 | a successful draft writes exactly one submission per requested item |
| `RegistryDraft.SubmissionsMean` | apps/api/src/modules/registry/registry-preparation.service.ts:86-97 | the rows written are those of the records of the batches, each with its place |
| `RegistryCandidates.IdentityAgrees` | apps/api/src/modules/registry/registry-preparation.service.ts:57-63 | in every run, what a published item's latest version says of its identifier, serial, category, schema, rule set and hash is what the item and the row say |
| `RegistryCandidates.CodesArePossible` | apps/api/src/modules/registry/registry-preparation.service.ts:47-68 | so for candidates read from reachable rows the preparation never refuses one for a mismatched document or a repeated identifier |
| `RegistryDraft.FilesReadBack` | apps/api/src/modules/registry/registry-contract.ts:88-95 | reading back all XML files of a draft yields the grouped records |
| `RateLimiter.Limiter.Handle` | apps/api/src/common/http/security.middleware.ts:27-50 | one request: clean-up once a minute, counting under its address and, if sensitive, under a second key, each against its own limit in a minute that begins with its first request; the first refusal ends it |
| `RateLimiter.LessThanTwiceTheLimit` | apps/api/src/common/http/security.middleware.ts:27-50 | no half-open minute lets more than twice the limit less one pass under a key, and there are never more than 30000 buckets |
| `RateLimiter.BoundIsReached` | apps/api/src/common/http/security.middleware.ts:35-49 | for every limit that bound is reached |
| `RateLimiter.HandleStep` | apps/api/src/common/http/security.middleware.ts:27-50 | a limiter object at the state of a run ends its next request at the run's next state |
| `RateLimiter.AdmittedPasses` | apps/api/src/common/http/security.middleware.ts:35-49 | an admitted request passes once under each of its keys, so counting passes counts admissions |
| `RateLimiter.SameAsWithoutCleanup` | apps/api/src/common/http/security.middleware.ts:27-49 | until the capacity guard fires, every answer is that of a limiter that never cleans up |

## Left out

- Web pages, translations, marketing copy: no state worth proving.
- Foreign calls: object storage, ClamAV, identity providers, QR codes. A byte check is an arbitrary verdict, a signed URL is opaque.
- Row-level security, foreign-key share locks and unique-index waits of the database; only the explicit row locks and the item rows written under them are modelled.
- Database collation: ids sort the same way in JavaScript and in the database.
- Field formats: URL parsing is a parameter, a UUID is its shape without the version digit, `Date.parse` is a parameter.
- `JSON.stringify` of the JSON draft files (indentation) and the file names of a draft.
- The canonical text of values `JSON.stringify` itself changes first (dates, holes, undefined properties): the model starts from the JSON value that is left.
- Floating point: the score and the cross-field rules use exact numbers; only the blocking cross-field rules that `validateTx` reaches are modelled.
- Rows with no later effect: audit metadata, validity start times, submission attestations, link locators, integrity hashes of events and readings.
- One organisation's rows at a time; tenant filters on every query are taken as given.
- A transaction reads the clock once, where the program may read it again moments later.
- `Transactions.WriteIsStep`: takes the reads of a transaction at one moment under its locks; only the acceptance loop looks up each prior row as it writes. Registry preparation, which locks the same rows, is not among the steps.
- `MailWorker.Worker.Deliver`: does not model malformed jobs and corrupt journal files, which stop the worker before it sends anything.
- `PassportService.PassportDb.Submit`: does not model which supplier an evidence object belongs to; evidence of another supplier is refused like unknown evidence.
- `Interleaving.CommitIsRejection`: lets a rejection commit whenever the row has the status it was loaded with, where the program also compares its time stamp; `EvidenceCas` has the time stamp.
- `Delegation.AuthorisationDb.Guard`: does not model routes without a scope and requests for the own tenant, single branches before the selection.
- The worker's limit of three claims per start: the state machine allows any number of them.
- The worker's health report, alerting, bearer tokens of the worker API, request-id headers and logging.
- Registry gate, registry identity, access tokens and role guards: single-branch members.
