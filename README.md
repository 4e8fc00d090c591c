# Inspection platform: record, report and notification logic

A Dafny model of the sequential logic of a property-inspection platform. The
platform has three parts. An inspection API creates, reads, updates and lists
inspection records and works out the object keys of image uploads. A report
service scores a completed checklist, moves the record to `REPORT_GENERATED` and
publishes an event. A notification worker turns a batch of those events into
notifications.

The shared record store is a class `Store.Table` holding a
`map<string, Inspection>` from inspection identifier to item. Its invariant
(`Store.WellFormed`) says an item's key attributes follow from the rest:
`PK = "INSPECTION#" + id`, `SK = "METADATA"`, `GSI1PK = "STATUS#" + status`, and
`GSI1SK = createdAt`. Every handler that writes keeps this invariant.

Remote calls are parameters:
- the random UUID and the clock reading;
- whether a topic is configured and whether the bus accepts a publish;
- the items a query or scan returned.

Timestamps are the instants (`int` milliseconds) that the stored ISO-8601 text
stands for. JSON parsing in the worker is a `Parse<T>` value, either the parsed
payload or the message of the exception it raised.

Modules, one per source file plus shared pieces:
- `Common`: Option, the handler `Result`, the failure taxonomy (NotFound
  404, Invalid 400, Unexpected 500), JavaScript truthiness.
- `Store`: the record, the checklist, image references, update-expression SET
  clauses and the `Table` class.
- `Events`: the notification event.
- `ReportService`, `InspectionApi`, `SendNotification`: the three core files.
- `Workflow`: client methods and lemmas that cross the services.

Behaviours of the code that the model keeps:
- The image object key is `inspections/{inspectionId}/{imageId}.{ext}`.
- A download grant answers with the freshly derived key as `s3Key`, even when
  the body's `s3Key` is the one actually signed.
- A `PUT` that sets `status` to `REPORT_GENERATED` also makes get-report answer.
  In that case the report's `generatedAt` is missing unless an earlier generate
  wrote `reportGeneratedAt`: only generate writes that field, and an update keeps it.
- Get-report on a generated item without a checklist throws in `Object.values`.
  It answers 500 (`Unexpected`).

## Model

| member | source | states |
|---|---|---|
| `Store.Ratings` | services/report-service/src/index.js:47 | `Object.values(checklist)`: one rating per entry, in key order |
| `Store.Complete` | services/report-service/src/index.js:78-81 | a checklist passes generate's test exactly when it is present and none of its values (`Object.values`) is null |
| `Store.ApplyAllAppend` | services/inspection-api/src/index.js:216-245 | a SET clause appended to an update expression is applied after all earlier clauses |
| `Store.ApplyAllCons` | services/report-service/src/index.js:117-125 | the first SET clause of an update expression is applied first |
| `Store.AllWellFormedPut` | services/inspection-api/src/index.js:103-105 | storing a well-formed item keeps the whole table well formed |
| `Store.Table.Put` | services/inspection-api/src/index.js:103-105 | a put stores the item under its identifier and replaces any item already there |
| `Store.Table.Update` | services/inspection-api/src/index.js:247-258 | an update applies its SET clauses to the existing item and returns the new item (`ALL_NEW`); no other item changes |
| `ReportService.Score` | services/report-service/src/index.js:48-49 | Good scores 3, Fair 2, Poor 1, and every other value, null included, scores 0; both directions |
| `ReportService.TotalScore` | services/report-service/src/index.js:49 | the summed score is at most 3 per checklist value |
| `ReportService.FullScoreIffAllGood` | services/report-service/src/index.js:48-49 | the sum reaches 3 per value exactly when every value is Good |
| `ReportService.OverallCondition` | services/report-service/src/index.js:46-54 | the scoring policy the report uses, with integer thresholds: an empty checklist is Poor (NaN average), and a non-empty all-Good checklist is Good; its meaning over the real average is `ReportService.ConditionByAverage` |
| `ReportService.ConditionByAverage` | services/report-service/src/index.js:50-53 | on the real-valued average: Good iff the average is >= 2.5, Fair iff 1.5 <= average < 2.5, Poor iff below 1.5 or the checklist is empty (NaN); the boundaries 2.5 and 1.5 are included |
| `ReportService.ExampleChecklistIsFair` | services/report-service/src/index.js:46-54 | the scores 3,3,2,3,1 total 12, average 2.4, and give Fair |
| `ReportService.LookupAsWritten` | services/report-service/src/index.js:48-49 | `scores[v] \|\| 0` gives a non-number exactly for names inherited from Object.prototype, and otherwise the policy score |
| `ReportService.ConditionAsWritten` | services/report-service/src/index.js:46-54 | `calculateOverallCondition` as written, with the JavaScript reduce (number or concatenated string); an empty checklist is Poor |
| `ReportService.ConditionAsWrittenAgrees` | services/report-service/src/index.js:46-54 | as written, the condition equals the policy's whenever no value names an inherited member |
| `ReportService.ConditionAsWrittenInheritedIsPoor` | services/report-service/src/index.js:46-54 | as written, one value naming an inherited member makes the condition Poor whatever the others are |
| `ReportService.InheritedNameCounterexample` | services/report-service/src/index.js:48-53 | four Good values plus "toString": the policy says Fair (2.4), the code says Poor |
| `ReportService.ReportId` | services/report-service/src/index.js:91 | the report id is `report_` followed by the inspection id: its first seven characters are `report_` and the rest is the inspection id |
| `ReportService.BuildReport` | services/report-service/src/index.js:90-110 | the report carries the stored checklist verbatim and its overall condition; `images` defaults to the empty list; `totalImages` equals the number of images in the report (0 when absent) |
| `ReportService.ReportIgnoresGeneratedFields` | services/report-service/src/index.js:196-216 | the projection reads none of status, GSI1PK, reportGeneratedAt and updatedAt, so rebuilding it after generation gives the same report |
| `ReportService.Generated` | services/report-service/src/index.js:113-127 | generate's SET expression: status becomes REPORT_GENERATED, reportGeneratedAt and updatedAt become `now`, GSI1PK follows the status so a well-formed item stays well formed, and no other attribute changes |
| `ReportService.EventFor` | services/report-service/src/index.js:136-144 | the published message: type REPORT_GENERATED, the inspection id, `report_`+id, the item's emails, and `now` as generatedAt |
| `ReportService.Generate` | services/report-service/src/index.js:59-169 | missing item: NotFound, store unchanged, nothing published; checklist absent or with a null value: ChecklistIncomplete, store unchanged, nothing published; otherwise exactly status, GSI1PK, reportGeneratedAt and updatedAt change (the last two both to `now`), the report is returned, and the event is published only when a topic is configured; the result does not depend on whether the publish succeeds |
| `ReportService.GetReport` | services/report-service/src/index.js:172-225 | missing item: NotFound; status other than REPORT_GENERATED: ReportNotGenerated; otherwise the same projection with `generatedAt = reportGeneratedAt` (Unexpected when the checklist is absent); changes nothing |
| `SendNotification.InspectorNotification` | lambda/sendNotification/index.js:31-42 | the inspector notification goes to the event's inspector email and its subject ends with the property address |
| `SendNotification.ClientNotification` | lambda/sendNotification/index.js:44-57 | a client notification exists iff the client email is truthy; it goes to that email and its subject ends with the property address |
| `SendNotification.FilterTruthy` | lambda/sendNotification/index.js:79 | `filter(Boolean)` keeps at most as many values as it is given |
| `SendNotification.FilterTruthyAppend` | lambda/sendNotification/index.js:79 | filtering a concatenation filters each part and keeps their order |
| `SendNotification.FilterTruthyKeepsTruthy` | lambda/sendNotification/index.js:79 | a string survives `filter(Boolean)` exactly when it is present among the values and non-empty |
| `SendNotification.RecipientsAreTruthyEmails` | lambda/sendNotification/index.js:76-80 | the recipients are the inspector's email, then the client's, each only when non-empty |
| `SendNotification.EntryFor` | lambda/sendNotification/index.js:11-89 | a record adds at most one result: exactly one iff a parse throws or the type is REPORT_GENERATED; a throwing record gives `{recordId: messageId, status: "error", error}`; a report event gives its inspection id and recipients |
| `SendNotification.NotificationsFor` | lambda/sendNotification/index.js:27-62 | a REPORT_GENERATED event logs the inspector notification and, iff the client email is truthy, the client one after it; any other record logs nothing |
| `SendNotification.Outcomes` | lambda/sendNotification/index.js:10-90 | the `results` array of a batch: each record's entry in input order, never more entries than records |
| `SendNotification.OutcomesConcatenate` | lambda/sendNotification/index.js:10-90 | the results of a concatenated batch are the results of its parts, in order |
| `SendNotification.NotificationsConcatenate` | lambda/sendNotification/index.js:10-90 | the logged notifications of a concatenated batch are those of its parts, in order |
| `SendNotification.FailureIsIsolated` | lambda/sendNotification/index.js:82-89 | a throwing record contributes exactly its error entry, and the records before and after it give the results they would give without it |
| `SendNotification.FailureLogsNothing` | lambda/sendNotification/index.js:82-89 | a throwing record logs no notification and does not change what the other records log |
| `SendNotification.ProcessedCount` | lambda/sendNotification/index.js:94-97 | `processed` is the number of failing records plus the number of REPORT_GENERATED records, never more than the batch size |
| `SendNotification.ResultsFollowInputOrder` | lambda/sendNotification/index.js:10-90 | when every record fails or is a report event, result i belongs to record i |
| `SendNotification.ExampleBatchWithMalformedRecord` | lambda/sendNotification/index.js:10-97 | a malformed record followed by a report event with both emails gives two results, the error first, and two notifications |
| `SendNotification.AppendRecord` | lambda/sendNotification/index.js:10-90 | one more record extends the results and the log by exactly that record's share |
| `SendNotification.ProcessRecord` | lambda/sendNotification/index.js:11-89 | the try/catch body for one record pushes exactly that record's entry and logs exactly its notifications |
| `SendNotification.Handler` | lambda/sendNotification/index.js:5-98 | the loop returns statusCode 200, the results of every record in input order, `processed` = number of results, and the notifications it would send |
| `InspectionApi.Restore` | services/inspection-api/src/index.js:79-82 | the key attributes derived from an item's id, status and creation time form a well-formed item |
| `InspectionApi.StripLosesOnlyKeys` | services/inspection-api/src/index.js:153-155 | stripping PK, SK, GSI1PK and GSI1SK from a well-formed item loses no information |
| `InspectionApi.Strip` | services/inspection-api/src/index.js:153-155 | `({ PK, SK, GSI1PK, GSI1SK, ...rest }) => rest`, also used by get and update at lines 186 and 260: the stripped item is restored exactly iff it was well formed, so only the derived keys are dropped |
| `InspectionApi.InspectionIdFor` | services/inspection-api/src/index.js:75 | a new id is `insp_` followed by the first 8 characters of the UUID (all of it when shorter) |
| `InspectionApi.EmptyChecklist` | services/inspection-api/src/index.js:92-98 | the initial checklist holds exactly roof, foundation, plumbing, electrical and hvac, in that order, all null |
| `InspectionApi.NewInspection` | services/inspection-api/src/index.js:78-101 | a new item is well formed, has status DRAFT and GSI1PK `STATUS#DRAFT`, createdAt = updatedAt = now, no report time, the five null categories (so it is not complete), notes "", images [], and client name and email defaulting to "" |
| `InspectionApi.Create` | services/inspection-api/src/index.js:58-123 | a missing or empty propertyAddress, inspectorName or inspectorEmail gives 400 and stores nothing; otherwise exactly the new item is put under `insp_`+UUID prefix and its summary returned |
| `InspectionApi.GetInspection` | services/inspection-api/src/index.js:171-194 | NotFound iff the id is absent; otherwise the stored item without its keys, from which a well-formed table's item is recovered exactly, so keying the table by inspection id loses nothing |
| `InspectionApi.Merged` | services/inspection-api/src/index.js:216-245 | the per-field merge of an update: updatedAt always becomes `now`; checklist and images change when given, notes when not undefined, and clientName, clientEmail and status only when non-empty; GSI1PK follows status, so it stays in sync; no other attribute changes |
| `InspectionApi.MergedKeepsWellFormed` | services/inspection-api/src/index.js:240-245 | an update that sets status sets GSI1PK to `STATUS#` + status, so the invariant is kept |
| `InspectionApi.MergedIsIdempotent` | services/inspection-api/src/index.js:216-245 | repeating the same update at the same instant stores the same record |
| `InspectionApi.EmptyNotesClearEmptyNameKeeps` | services/inspection-api/src/index.js:224-235 | `notes: ""` clears the notes, while `clientName: ""` leaves the client name as it was |
| `InspectionApi.UpdateClauses` | services/inspection-api/src/index.js:215-245 | the SET clauses built step by step perform the merge: updatedAt always; checklist and images whenever given; notes whenever not undefined; clientName, clientEmail and status only when non-empty; GSI1PK with status |
| `InspectionApi.Update` | services/inspection-api/src/index.js:197-268 | a missing id gives NotFound and changes nothing; otherwise only that item changes, to the merge, and is returned without its keys |
| `InspectionApi.StripAll` | services/inspection-api/src/index.js:153-155 | each listed item is the stored item without its key attributes, in the same order |
| `InspectionApi.InsertNewestFirst` | services/inspection-api/src/index.js:158 | inserting adds exactly the new element (as a multiset), and the result starts with it or with the old head |
| `InspectionApi.InsertKeepsOrder` | services/inspection-api/src/index.js:158 | inserting into a newest-first list keeps it newest first |
| `InspectionApi.SortNewestFirst` | services/inspection-api/src/index.js:157-159 | the sort returns a permutation of its input ordered by createdAt, newest first |
| `InspectionApi.SortIsStable` | services/inspection-api/src/index.js:158 | inspections created at the same instant keep their input order |
| `InspectionApi.ListInspections` | services/inspection-api/src/index.js:153-161 | the listed items are the store's items without keys (none when the store returned no list); with a status filter they keep the store's order, without one they are the stable newest-first sort of them; `count` is their number |
| `InspectionApi.ListKeepsTies` | services/inspection-api/src/index.js:157-159 | without a status filter, inspections created at the same instant are listed in the scan's order |
| `InspectionApi.Split` | services/inspection-api/src/index.js:283 | `split` gives at least one part: exactly the whole string without a separator, more than one with one |
| `InspectionApi.Extension` | services/inspection-api/src/index.js:283 | `fileName.split(".").pop()`: a name without a dot is its own extension (see `ExtensionAfterLastDot` for the dotted case) |
| `InspectionApi.ExtensionAfterLastDot` | services/inspection-api/src/index.js:283 | the extension is the dot-free text after the last dot, or the whole name when there is no dot |
| `InspectionApi.ExtensionOfDottedName` | services/inspection-api/src/index.js:283-284 | a name that ends in "." followed by a dot-free extension has that extension |
| `InspectionApi.ObjectKey` | services/inspection-api/src/index.js:284 | every object key starts with `inspections/` |
| `InspectionApi.KeyKeepsExtension` | services/inspection-api/src/index.js:282-284 | the extension of the object key is the extension of the uploaded file name |
| `InspectionApi.Presign` | services/inspection-api/src/index.js:272-310 | a missing inspectionId or fileName gives 400; otherwise the image id is `img_` + UUID prefix, the key is derived from it, "download" expires in 3600 and any other operation is an upload expiring in 300, signed for the derived key with content type defaulting to image/jpeg, and a download is signed for the body's s3Key when one is given |
| `Workflow.GenerateThenGet` | services/report-service/src/index.js:172-216 | right after a successful generate, get-report returns the same report |
| `Workflow.CreateThenGenerate` | services/report-service/src/index.js:78-85 | generating the report of a freshly created inspection is refused as incomplete, and the table is left exactly as the create made it |
| `Workflow.EditAfterGenerate` | services/report-service/src/index.js:195-216 | notes edited after generation show up in the fetched report, whose generation time stays the generate call's |
| `Workflow.PublishedEventIsNotified` | lambda/sendNotification/index.js:27-80 | the event generate publishes reaches the worker as one result with the inspection id and the non-empty emails, and one notification to the inspector, plus one to the client when the client email is non-empty |

## Findings

| source | as written | input that shows it | evidently intended | confidence | as-written member | corrected member |
|---|---|---|---|---|---|---|
| services/report-service/src/index.js:48-49 | `scores[v] \|\| 0` looks `v` up in an object literal, which inherits the Object.prototype members; for a value such as "toString" the lookup is a function, which `\|\| 0` keeps, and the running sum becomes a string, so the average is NaN and the condition Poor | checklist Good, Good, Good, Good, "toString" | any value other than Good, Fair, Poor scores 0: 12 / 5 = 2.4, Fair | medium, not executed | `ReportService.InheritedNameCounterexample` | `ReportService.ConditionByAverage` |

`ReportService.ConditionAsWritten` models the code as written. `ReportService.OverallCondition`
is the policy, and the report projection uses it.

## Left out

- ReportService.BuildReport: the overall condition is the corrected `ReportService.OverallCondition`, not `calculateOverallCondition` as written. So `Generate` and `GetReport` report Fair for the checklist Good, Good, Good, Good, "toString", where the program reports Poor (see "## Findings"). `ReportService.ConditionAsWrittenAgrees` proves the two agree whenever no checklist value names an Object.prototype member.

- HTTP plumbing is not modelled: Express setup, CORS and JSON middleware, request logging, the health endpoints, the 404 and error middleware, and `app.listen`. Handlers return a `Result`, and `Common.StatusCode` maps failures to 404, 400 or 500.
- The DynamoDB, S3 and SNS clients and `getSignedUrl` are foreign calls. The table is a map. A publish is a bus answer passed in. The presigned URL itself is not produced.
- An exception from a store call or from `getSignedUrl` (the 500 path of every handler) is not modelled. The only modelled 500 is the `Object.values(undefined)` throw in get-report. A refused publish is `publishSucceeds == false` in `ReportService.Generate`, and the handler swallows it.
- Query and scan are not modelled: neither which items they select (including `status.toUpperCase()` in the query key) nor their order (`ScanIndexForward: false`). `ListInspections` takes the returned items as a parameter.
- `Store.Table.Update` requires the key to exist. DynamoDB would create an item for a missing key, but no handler reaches that sequentially, because each one reads the item first. The race between that read and the later write is concurrency and is left out.
- `randomUUID`, `new Date()` and `toISOString` are parameters. An invalid date, which would make the sort comparator return NaN, is not modelled.
- `SendNotification.InspectorNotification`: the notification body text is not modelled. It holds the locale-formatted time from `toLocaleString`. The same goes for `SendNotification.ClientNotification`. The notifications passed to `console.log("Would send to …")` (lambda/sendNotification/index.js:59-61) are the returned `logged` list. The handler's other log lines (6, 16, 83, 92) are not modelled.
- SendNotification.Render: an event-message field that is JSON `null` or not a string is not modelled. `Events.EventMessage` has `None` only for a missing field, which renders as `undefined`. A `null` propertyAddress would put `null` at the end of the subjects of `SendNotification.InspectorNotification` and `SendNotification.ClientNotification`. No published event has such a field, since `ReportService.EventFor` fills every field from the stored item.
- JSON text is not modelled. Each parse is a `Parse<T>`. `Events.Delivered` stands for serialise, publish, deliver and parse again.
- The publish's `Subject` and `MessageAttributes` are not modelled. Only the event payload and whether the bus accepted it are.
- Request-body values of unexpected types are not modelled: numbers or objects where strings are expected, `notes: null`, a non-array `images`, or a non-object `checklist`. A non-null checklist value is represented by the property-key text it converts to, which is what the score lookup reads.
- Floating-point division is replaced by integer cross-multiplication. `ReportService.ConditionByAverage` ties that to the real-valued average.
- `services/frontend/src/services/api.js` (a `fetch` wrapper) and `services/frontend/vite.config.js` (build configuration) are not part of this model.
