# Healthcare chaincode on Hyperledger Fabric private data

This project models, in Dafny, a Go chaincode that keeps patient
information, medical records, drug information and hospital fees in
Hyperledger Fabric private-data collections, and logs every query and
modify of patient data so that it can be read back. It exists in two
deployment variants that share most handlers:

- `heathcare_chaincode.go` (module `Chaincode`): `createMedicalRecord`,
  `createDrugInformation` (seven arguments), `createPatientInformation`,
  `createHospitalFees`, `historyModify`, `historyQuery`, `modifyData`,
  `query`;
- `history_access/heathcare_chaincode.go` (module `HistoryAccess`): the same
  creates and readers with a six-argument `createDrugInformation`, and three
  modify entry points, `modifyDrugData`, `modifyMedicalData` and
  `modifyPatientInformation`, in place of `modifyData`.

The files:

- `ledger.dfy` (module `Ledger`): the entities as datatypes, the store as a
  map from (collection, key) to value, where a key is a plain id or a
  composite key (index name plus attributes) and a value is an entity, an
  access event or raw bytes such as the one-byte index marker; the store
  calls a handler makes (`Call`), the peer `Response` (success with an
  optional payload, error with a message, or a Go runtime panic), and the
  `Stub` class whose `GetPrivateData` and `PutPrivateData` update the
  entries and record every call in order. Store errors are described by
  `Faults`: collections whose every call fails, and single (collection, key)
  pairs whose writes the store refuses while it takes other writes to the
  same collection; a write at the empty id is always refused, as the shim
  rejects an empty key.
- `arguments.dfy` (module `Arguments`): the argument check that every
  create handler except `createHospitalFees`, and both history readers,
  start with: an exact count, then the first empty argument reported by its
  1-based position through `strconv.Itoa`. `createHospitalFees` checks only
  the count.
- `handlers.dfy` (module `Handlers`): the handlers both variants share. Each
  is a specification function giving its `Outcome` (response plus the
  ordered store calls) and a method that performs it on a `Stub`, proved to
  leave the stub exactly in that outcome's state.
- `properties.dfy` (module `Properties`): what the shared handlers promise
  and how one handler's writes are seen by the next.
- `chaincode.dfy`, `history_access.dfy`: each variant's dispatcher and the
  handlers that differ, with their own properties.
- `intended.dfy` (module `Intended`): the handlers whose code cannot do what
  it was written to do, as evidently intended, with the properties the
  written versions lack (see Findings).

The handlers are modelled as written, defects included: the modify handlers
test the read's error a second time where they mean to test its data, so
they never rewrite anything; `createHospitalFees` and `modifyMedicalData`
read more arguments than their count check admits, so they panic;
`modifyDrugData` reads a collection no handler writes; the drug index key
repeats the expiration date and leaves out the prescriber; the result of
every index-marker write is ignored, so a create or an access whose marker
the store refuses still answers as if it had been written.

The time of an access is a parameter (`now`). A handler that stops with an
error after some writes leaves those writes in the model's state; on a real
peer the error response means the transaction is not committed.

## Model

| member | source | states |
|---|---|---|
| Ledger.Stub.GetPrivateData | history_access/heathcare_chaincode.go:856-861 | a read reports a failure for an unavailable collection, nil for a missing key, else the stored value, and changes nothing but the call trace |
| Ledger.Stub.PutPrivateData | history_access/heathcare_chaincode.go:871-874 | a write overwrites the key unless the store refuses it (a failing collection, a failing key, or the empty id), and reports exactly whether it refused |
| Arguments.Itoa | history_access/heathcare_chaincode.go:138 | the position in an empty-argument message is a non-empty string of decimal digits |
| Arguments.AtoiItoa | history_access/heathcare_chaincode.go:138 | the digits read back as the number they were made from |
| Arguments.EmptyArgumentInjective | history_access/heathcare_chaincode.go:136-140 | two empty-argument messages are equal only for the same position |
| Arguments.FirstEmpty | history_access/heathcare_chaincode.go:136-140 | the index found holds an empty argument and none before it does; none is found exactly when every argument is non-empty |
| Arguments.Validation | history_access/heathcare_chaincode.go:132-140 | validation passes exactly when the count matches and every argument is non-empty |
| Arguments.CheckArguments | history_access/heathcare_chaincode.go:132-140 | the count check then the loop over the arguments give the message `Validation` specifies |
| Arguments.ValidationRejectsCount | history_access/heathcare_chaincode.go:132-134 | a wrong count is reported with the count message whatever the arguments hold |
| Arguments.ValidationReportsFirstEmpty | history_access/heathcare_chaincode.go:136-140 | with the right count, the first empty argument is the one reported |
| Arguments.ValidationNamesOnlyFirstEmpty | history_access/heathcare_chaincode.go:136-140 | a reported position holds an empty argument and no earlier one does |
| Handlers.AuthorizeAndAudit | history_access/heathcare_chaincode.go:856-885 | the identity read, the refusals for a failed or missing identity, the event write at the user id and the unchecked marker write, as `AuditOutcome` gives them |
| Handlers.Store | history_access/heathcare_chaincode.go:410-424 | the entity write at its id, which ends the call on failure, then the unchecked marker write at its index key |
| Handlers.CreatePatientInformation | history_access/heathcare_chaincode.go:377-435 | validation of five arguments, then the patient and its index marker stored as `CreatePatientInformationOutcome` gives them |
| Handlers.CreateMedicalRecord | history_access/heathcare_chaincode.go:127-187 | validation of seven arguments, then the record and its index marker stored |
| Handlers.CreateDrugInformation | history_access/heathcare_chaincode.go:308-365 | validation of the variant's count, then the drug built from the first six arguments and its index marker stored |
| Handlers.CreateHospitalFees | history_access/heathcare_chaincode.go:453-473 | the handler never succeeds: a count other than three is refused, three arguments panic |
| Handlers.Query | history_access/heathcare_chaincode.go:838-906 | count check, guard and audit, then the patient read, with each failure message, as `QueryOutcome` gives them |
| Handlers.Modify | history_access/heathcare_chaincode.go:640-701 | count check, the panic when fewer arguments than are read, guard and audit, the target read, and failure whatever the read returns |
| Handlers.History | history_access/heathcare_chaincode.go:740-778 | validation of one argument, then the one log read and its three outcomes |
| Handlers.HistoryQuery | history_access/heathcare_chaincode.go:760-765 | historyQuery reads queryCollection with its own messages |
| Handlers.HistoryModify | history_access/heathcare_chaincode.go:809-814 | historyModify reads modifyCollection with its own messages, "err2" for a missing entry |
| Properties.StoreOutcomeEffect | history_access/heathcare_chaincode.go:410-424 | a create writes the entity then the marker and nothing else; a refused entity write fails the call and changes nothing; once the entity is written the call succeeds, with the marker present only if the store took it; doing it twice is doing it once |
| Properties.StoreMarkerLost | history_access/heathcare_chaincode.go:424 | a create whose marker write is refused still answers success, with the entity stored and the index key as it was before |
| Properties.StoreWritesOnlyItsCollection | history_access/heathcare_chaincode.go:410-424 | a create writes to no collection but the one it stores in |
| Properties.AuditOutcomeEffect | history_access/heathcare_chaincode.go:856-885 | the identity read comes first; a failed or missing identity stops the call before any write; a refused event write stops it with the store's error; otherwise the user gets the event at their id and then the marker, present only if the store took it |
| Properties.AuditMarkerLost | history_access/heathcare_chaincode.go:885 | a guard whose marker write is refused still lets the call through, with the event logged and the index key as it was before |
| Properties.AuditKeepsOtherCollections | history_access/heathcare_chaincode.go:871-885 | the audit writes touch only the log collection of their purpose |
| Properties.CreatePatientInformationValidates | history_access/heathcare_chaincode.go:382-390 | a wrong count or the first empty argument is reported, and nothing is written |
| Properties.CreatePatientInformationStores | history_access/heathcare_chaincode.go:396-424 | a valid call whose entity write is taken succeeds, stores the patient at args[0] with its fields in argument order and, if the store takes it, the marker at the key over all five arguments; the patient then reads back |
| Properties.CreatePatientInformationIdempotent | history_access/heathcare_chaincode.go:410-424 | creating the same patient twice leaves the store as creating it once |
| Properties.CreateMedicalRecordValidates | history_access/heathcare_chaincode.go:132-140 | a wrong count or the first empty argument is reported, and nothing is written |
| Properties.CreateMedicalRecordStores | history_access/heathcare_chaincode.go:141-176 | a valid call whose entity write is taken succeeds, stores the record at args[0] and, if the store takes it, the marker at the key "id" over all seven arguments |
| Properties.CreateHospitalFeesNeverStores | history_access/heathcare_chaincode.go:459-473 | the fees handler makes no store call and never succeeds; it panics exactly when given three arguments |
| Properties.QueryRefusesUnknownUser | history_access/heathcare_chaincode.go:856-861 | a user missing from the named collection is refused after the one identity read, with nothing written |
| Properties.QueryLogsThenReads | history_access/heathcare_chaincode.go:863-905 | a registered user's query logs the event and the marker (if taken), then returns the stored patient unchanged, "user id does not exist", or the failed-state message when the patient collection fails |
| Properties.QueryWritesOnlyItsLog | history_access/heathcare_chaincode.go:838-906 | a query writes to no collection but queryCollection |
| Properties.QueryIsRecordedForHistory | history_access/heathcare_chaincode.go:871 | after a registered user's query, historyQuery for that user returns exactly the event it logged |
| Properties.CreatedPatientIsQueried | history_access/heathcare_chaincode.go:888-905 | a patient created and then queried by a registered user comes back as stored |
| Properties.ModifyNeverRewrites | history_access/heathcare_chaincode.go:695-701 | no modify call succeeds or writes to its target collection; every key there reads as before |
| Properties.ModifyWritesOnlyItsLog | history_access/heathcare_chaincode.go:640-701 | a modify writes to no collection but modifyCollection |
| Properties.ModifyRefusesUnknownUser | history_access/heathcare_chaincode.go:663-668 | a user missing from the named collection is refused before anything is written |
| Properties.ModifyLogsThenFails | history_access/heathcare_chaincode.go:670-701 | a registered user's modify logs the "modify" event and the marker (if taken), reads the target, then fails: with the failed-state message when the target collection fails, else with "patient's data does not exist" |
| Properties.ModifyIsRecordedForHistory | history_access/heathcare_chaincode.go:678 | after such a modify, historyModify returns the event it logged, although the modify failed; this holds only because the model keeps the writes of a call that answers with an error: on a peer the failed modify is never committed, so historyModify answers "err2" there |
| Properties.HistoryQueryReadsLatest | history_access/heathcare_chaincode.go:740-778 | historyQuery writes nothing, returns the value at the user id, "query data history does not exist" for a missing entry, or "cannot get data of query" when queryCollection fails, and checks its one argument |
| Properties.HistoryModifyReadsLatest | history_access/heathcare_chaincode.go:789-827 | historyModify writes nothing, returns the value at the user id, "err2" for a missing entry, or "cannot get modify data" when modifyCollection fails, and checks its one argument |
| Properties.HistoryShowsOnlyLatestQuery | history_access/heathcare_chaincode.go:871 | after two queries by one user, historyQuery shows only the second: the log keeps one event per user |
| HistoryAccess.CreateDrugInformation | history_access/heathcare_chaincode.go:308-365 | six arguments validated, the drug and its marker stored |
| HistoryAccess.ModifyDrugData | history_access/heathcare_chaincode.go:203-266 | the modify handler with nine arguments and "drugInformationCollection" as its target |
| HistoryAccess.ModifyMedicalData | history_access/heathcare_chaincode.go:528-550 | the modify handler whose count check admits eight arguments while ten are read |
| HistoryAccess.ModifyPatientInformation | history_access/heathcare_chaincode.go:640-701 | the modify handler with eight arguments on PatientInformationCollection |
| HistoryAccess.Invoke | history_access/heathcare_chaincode.go:83-113 | the function name selects one of ten handlers, and its outcome is the call's |
| HistoryAccess.InvokeRejectsUnknown | history_access/heathcare_chaincode.go:109-111 | an unknown name is refused with "Received unknown function invocation" and no store call |
| HistoryAccess.CreateDrugInformationValidates | history_access/heathcare_chaincode.go:313-321 | a count other than six or the first empty argument is reported, and nothing is written |
| HistoryAccess.CreateDrugInformationStores | history_access/heathcare_chaincode.go:323-353 | a valid call whose entity write is taken succeeds, stores the drug at args[0] and, if taken, the marker at a key listing the expiration date twice and no prescriber |
| HistoryAccess.NothingWritesMisnamedDrugCollection | history_access/heathcare_chaincode.go:260 | no handler of this variant ever writes the collection modifyDrugData reads |
| HistoryAccess.ModifyDrugDataNeverRewrites | history_access/heathcare_chaincode.go:260-284 | modifyDrugData never succeeds, and every key of both drug collections reads as before |
| HistoryAccess.ModifyMedicalDataNeverRuns | history_access/heathcare_chaincode.go:535-550 | modifyMedicalData makes no store call: a count other than eight is refused, eight arguments panic |
| HistoryAccess.ModifyPatientInformationLogsThenFails | history_access/heathcare_chaincode.go:663-701 | a registered user's call logs the "modify" event, fails with "patient's data does not exist", and leaves every patient key as it was |
| Chaincode.CreateDrugInformation | heathcare_chaincode.go:465-524 | seven arguments validated, the drug built from the first six and its marker stored |
| Chaincode.ModifyData | heathcare_chaincode.go:373-434 | the modify handler with eight arguments on PatientInformationCollection and the count message "expecting 4 argument" |
| Chaincode.Invoke | heathcare_chaincode.go:83-109 | the function name selects one of eight handlers, and its outcome is the call's |
| Chaincode.InvokeRejectsUnknown | heathcare_chaincode.go:105-107 | an unknown name is refused with "Received unknown function invocation" and no store call |
| Chaincode.CreateDrugInformationValidates | heathcare_chaincode.go:470-478 | a count other than seven or the first empty argument is reported, and nothing is written |
| Chaincode.CreateDrugInformationIgnoresSeventh | heathcare_chaincode.go:470-486 | an empty seventh argument is reported as argument 7, but a non-empty one has no effect on the outcome |
| Chaincode.CreateDrugInformationStores | heathcare_chaincode.go:481-512 | a valid call whose entity write is taken succeeds, stores the drug from the first six arguments and, if taken, the marker at a key listing the expiration date twice |
| Chaincode.ModifyDataNeverRewrites | heathcare_chaincode.go:428-451 | modifyData never succeeds and leaves every patient key as it was; a registered user's call logs the "modify" event and fails with "patient's data does not exist" |
| Intended.Target.Update | heathcare_chaincode.go:436-446 | the rewritten record is of the target's kind, holds the new fields, and keeps the old record's object type and id |
| Intended.Rewrite | heathcare_chaincode.go:428-451 | the read of the record, then its rewrite at its key, failing with the handler's own message when the store refuses it, as `RewriteOutcome` gives them |
| Intended.Guarded | heathcare_chaincode.go:396-451 | the guard and audit, then the rewrite step, as `GuardedOutcome` gives them |
| Intended.Modify | heathcare_chaincode.go:373-461 | the modify handler as intended: count matching the arguments read, the data tested, the record found rewritten at its key |
| Intended.RewriteEffect | heathcare_chaincode.go:436-451 | with the record there and the rewrite taken, the step succeeds and changes exactly the record's key |
| Intended.ModifyAfterGate | heathcare_chaincode.go:396-451 | past the guard, a modify makes the audit's calls then the rewrite step's, and answers as the step does |
| Intended.ModifyRewrites | heathcare_chaincode.go:428-461 | a registered user's modify of an existing record, with the rewrite taken, succeeds; the record holds the new fields under its old id; the access is logged; the other keys of the target collection, and every key of any collection but the target and modifyCollection, read as before |
| Intended.ModifyReportsRefusedWrite | heathcare_chaincode.go:448-451 | a rewrite the store refuses fails with the handler's own message and leaves the record as it was |
| Intended.ModifyReportsMissing | heathcare_chaincode.go:428-434 | a record that is not there is reported missing and the target collection is not written |
| Intended.CreatedDrugIsModified | history_access/heathcare_chaincode.go:260-284 | with DrugInformationCollection as the target, a drug created by createDrugInformation is found by its id and rewritten |
| Intended.AsWrittenDrugIndexKeyCollides | history_access/heathcare_chaincode.go:347-348 | two drugs that differ only in their prescriber get the same index key |
| Intended.DrugIndexKeyInjective | history_access/heathcare_chaincode.go:347-348 | the key over every field once determines the drug |
| Intended.DrugFromInjective | history_access/heathcare_chaincode.go:323-334 | the drug built from six arguments determines them |
| Intended.CreateDrugInformation | history_access/heathcare_chaincode.go:308-365 | the six-argument create storing its marker under the intended key |
| Intended.DistinctDrugsDistinctMarkers | history_access/heathcare_chaincode.go:347-353 | two valid creates of different drugs put their markers at different keys |
| Intended.CreateHospitalFees | history_access/heathcare_chaincode.go:453-513 | the fees create as intended: ten arguments, the record and its marker stored |
| Intended.CreateHospitalFeesStores | history_access/heathcare_chaincode.go:463-501 | ten arguments store the record at args[0] with its fields in argument order, or, when the store refuses the record (always for an empty id), fail with "cannot put private data of pharmacy" writing nothing |

## Left out

- JSON encoding and decoding: entities are stored as datatype values, so a
  marshal error (impossible for these all-string structs) and an unmarshal
  error are not modelled; `Intended.Target.Update` decodes a value of another
  kind as an empty record.
- `CreateCompositeKey` internals and its error branch (an attribute that is
  not valid UTF-8 or holds U+0000 or U+10FFFF): a composite key is the
  datatype `Composite(index, attributes)`, which is injective by
  construction. On a peer, plain and composite keys share one string key
  space (a composite key is the string U+0000, index, U+0000, each attribute
  followed by U+0000); the model keeps them apart, so a plain id spelled
  like a composite key (possible for the unchecked user id of
  `historyQuery` and `historyModify`) never reads an index marker here.
- The text of store errors: every failure the peer reports reads as one
  fixed message. Failing reads are per collection: a read of one key cannot
  fail while a read of another key of the same collection succeeds.
- The shim's refusal of an empty collection name: the collection a user is
  looked up in is caller-supplied and may be empty; the model treats the
  empty name like any other, so it fails only when `Faults` says so.
- Transaction semantics of the peer: an error response after some writes
  keeps those writes in the model, whereas the peer discards the whole
  transaction; read-your-writes within one call is never exercised, since no
  handler reads a key it wrote earlier in the same call.
- `Init`, `main`, timing (`time.Now`, `time.Sleep`) and console output; the
  access time is the parameter `now`.
- The commented-out `createUser` handler (heathcare_chaincode.go:111-169);
  user identity records are raw bytes the chaincode only tests for presence.
- Handlers.Modify: the field rewrite after the read is unreachable as
  written (the branch before it is always taken) and is not part of it; it
  is modelled in `Intended.Modify`.

## Findings

| source | as written | input that shows it | evidently intended | confidence | as-written member | corrected member |
|---|---|---|---|---|---|---|
| heathcare_chaincode.go:428-434 | `else if errPatientAsByte == nil` tests the read's error again, so every successful read returns "patient's data does not exist" and the rewrite below never runs; the same in history_access/heathcare_chaincode.go:260-266, 587-593 and 695-701 | `modifyData` by a registered user on an existing patient | test the data for nil and rewrite the found record | high, not executed | Chaincode.ModifyDataNeverRewrites | Intended.ModifyRewrites |
| history_access/heathcare_chaincode.go:260 | `modifyDrugData` reads "drugInformationCollection" while `createDrugInformation` writes "DrugInformationCollection" | `createDrugInformation` then `modifyDrugData` on the same id | read and write DrugInformationCollection | high, not executed | HistoryAccess.NothingWritesMisnamedDrugCollection | Intended.CreatedDrugIsModified |
| history_access/heathcare_chaincode.go:535-550 | the count check admits eight arguments, then args[8] and args[9] are read | any eight-argument `modifyMedicalData` | demand ten arguments | high, not executed | HistoryAccess.ModifyMedicalDataNeverRuns | Intended.ModifyRewrites |
| history_access/heathcare_chaincode.go:348 | the drug index key lists ExpirationDate twice and omits PrescribedBy (also heathcare_chaincode.go:507) | two drugs differing only in the prescriber | every field once | medium, not executed | Intended.AsWrittenDrugIndexKeyCollides | Intended.DistinctDrugsDistinctMarkers |
| history_access/heathcare_chaincode.go:459-473 | the count check admits three arguments, then args[3] to args[9] are read (also heathcare_chaincode.go:532-546) | any three-argument `createHospitalFees` | demand ten arguments and store the fees | high, not executed | Properties.CreateHospitalFeesNeverStores | Intended.CreateHospitalFeesStores |
