# HarperDB validation harness, modelled in Dafny

The repository is an external validation harness for a HarperDB store reached over its HTTP
operation API. This project models three parts of it.

- **The workflow script** (`scripts/workflow.py`):
  - the `HarperWorkflow` object and its append-only metrics log;
  - one method per stage: container check, schema/table setup, metrics sample, load of ten
    generated records, even-id price update, fail-fast price validation, stats-endpoint check,
    metrics save;
  - `run_workflow`, whose three gates decide how far a run goes.
- **The service test script** (`scripts/test_service.py`):
  - four tests;
  - the idempotent-setup rule, which treats a 400 reply whose `error` contains
    "already exists" as success;
  - the runner, which runs every test and reports whether all passed.
- **The custom component** (`components/table-stats/index.js`): `getTableStats`, a fold over the
  records of a table. Per field it keeps numeric stats (min, max, sum, avg) or string stats
  (total length, up to five sample values). The tracked fields are fixed by the first record.

How the model is built:
- Every HTTP reply whose outcome decides what happens next, every container-stats reading and
  every clock value is an input: one `Response` per such call site, gathered in `Workflow.Server`
  and `ServiceTests.Replies`. Replies that are only checked and then logged, with nothing
  depending on them, have no input. These are the workflow's create_table reply
  (`scripts/workflow.py:57-58`), its read-back after the insert (`:113-116`) and its update reply
  (`:154-156`).
- Every external call is returned in order, as a `Workflow.Effect` or `Protocol.Call` trace.
  This lets the contracts say which requests are sent and which are not.
- `raise_for_status()` raises exactly for statuses 400..599, as the `requests` library does.
  Calling `.json()` on a body that is not JSON raises a `RequestException` too. That holds from
  `requests` 2.27 on, where `JSONDecodeError` is a `RequestException`, and that version is assumed.
  Earlier versions raise a plain `ValueError`, which the stages' handlers do not catch.
- Prices are whole cents. Python's `round(x, 2)` is a parameter `Rounding` from tenths of a cent
  to cents, so no property depends on how floats round.
- JavaScript numbers are `real`s, and records are `map<string, Json>`.

Modules:

| file | module | covers |
|---|---|---|
| `wrappers.dfy` | `Wrappers` | `Option` |
| `decimal.dfy` | `Decimal` | `str(n)` for ids and its inverse |
| `protocol.dfy` | `Protocol` | JSON values, the operation requests, replies, `raise_for_status` |
| `workflow_records.dfy` | `WorkflowRecords` | generated records, update deltas, price validation, an idealised store |
| `workflow.dfy` | `Workflow` | the `HarperWorkflow` class and the specification of a whole run |
| `service_tests.dfy` | `ServiceTests` | the test script |
| `table_stats.dfy` | `TableStats` | the statistics endpoint |

Where the written design of the harness and the code disagree, the model follows the code:
- The design says a failed setup or load step is fatal. In the code those stages log and swallow
  the error, and the run carries on to validation (`Workflow.EarlyFailuresDoNotStop`).
- The design says the data stage first clears the table with a wildcard `delete`. Only the test
  script does that. The workflow never sends a delete (`Workflow.NeverDeletes`).
- The design says success means 2xx. `raise_for_status` passes 1xx and 3xx as well
  (`Protocol.RaisesForStatus`).
- The design says the expected price is `round(round(id*10.99, 2)*1.1, 2)`. The code raises the
  unrounded `id*10.99`. `WorkflowRecords.UnroundedOriginalAgrees` states when the two agree.

## Model

| member | source | states |
|---|---|---|
| `Protocol.RaisesForStatus` | scripts/workflow.py:55-58 | `raise_for_status()` raises for 400..599; every 2xx and 3xx passes and a 400 raises |
| `Decimal.NatToString` | scripts/workflow.py:89-92 | `str(i)` in the f-strings: a nonempty string of decimal digits |
| `Decimal.NatToStringRoundTrip` | scripts/workflow.py:89 | the decimal numeral written for an id reads back as that id |
| `Decimal.NatToStringCanonical` | scripts/workflow.py:89 | a numeral starts with '0' only for 0, so numerals carry no leading zeros |
| `Decimal.NatToStringInjective` | scripts/workflow.py:89 | two ids get the same numeral exactly when they are equal |
| `Decimal.LabelInjective` | scripts/workflow.py:89-92 | "<prefix><id>" labels are equal exactly when the ids are equal |
| `WorkflowRecords.GenerateRecords` | scripts/workflow.py:85-97 | exactly ten records, ids 1..10 in order, each obeying the field rules for name, value, description, category, price and in_stock |
| `WorkflowRecords.FieldRulesDetermineRecord` | scripts/workflow.py:87-96 | the field rules and the id determine the whole record |
| `WorkflowRecords.GeneratedIdsIncreasing` | scripts/workflow.py:86-88 | generated ids strictly increase, so no two records share the hash key |
| `WorkflowRecords.GeneratedNamesDistinct` | scripts/workflow.py:89-91 | no two generated records share a name or a description |
| `WorkflowRecords.GeneratedCategoriesCycle` | scripts/workflow.py:92 | every category is "Category 1", "Category 2" or "Category 3", and it is "Category 1" exactly when id mod 3 is 0 |
| `WorkflowRecords.GeneratedAreSampleRecords` | scripts/workflow.py:78-97 | any list the generator loop yields is the fixed ten-record sample the insert carries |
| `WorkflowRecords.RecordRows` | scripts/workflow.py:87-97 | one row per record, in order; each row has exactly the seven generated keys, and reading its id and price back gives the record's id and price |
| `WorkflowRecords.WholeOf` | scripts/workflow.py:88 | a whole-number JSON value is read back as the int it encodes |
| `WorkflowRecords.CentsOf` | scripts/workflow.py:93 | a JSON price with at most two decimals is read back as the cents it encodes |
| `WorkflowRecords.PriceReadsBack` | scripts/workflow.py:93 | a price written in cents reads back as the same cents |
| `WorkflowRecords.RowReadsBack` | scripts/workflow.py:87-96 | the id/price view of a generated row is the record's id and price |
| `WorkflowRecords.BuildUpdateDeltas` | scripts/workflow.py:138-144 | the loop builds one delta per even-id record, in input order, each raising that record's stored price by ten percent |
| `WorkflowRecords.Raised` | scripts/workflow.py:143 | the new price `round(price * 1.1, 2)`, from the stored price alone |
| `WorkflowRecords.Evens` | scripts/workflow.py:139-140 | the selection never has more records than the input |
| `WorkflowRecords.EvensMembers` | scripts/workflow.py:139-140 | a record is selected exactly when it is in the input and its id is even |
| `WorkflowRecords.EvensConcat` | scripts/workflow.py:139-140 | selection keeps order: it distributes over concatenation |
| `WorkflowRecords.NoEvensNoDeltas` | scripts/workflow.py:138-146 | the delta list is empty exactly when no fetched id is even |
| `WorkflowRecords.DeltaRows` | scripts/workflow.py:141-144 | every update row carries exactly the keys `id` and `price`, and reads back as its delta's id and new price |
| `WorkflowRecords.FirstMismatch` | scripts/workflow.py:178-186 | none exactly when every record passes; otherwise the index of a failing record with every earlier record passing |
| `WorkflowRecords.ExpectedPrice` | scripts/workflow.py:180-181 | the validator's expected price is the update rule applied to the unrounded `id * 10.99` (1099 cents per id), not to the stored price |
| `WorkflowRecords.Mismatch` | scripts/workflow.py:179-182 | a record fails the check only if its id is even and its price is not the expected price |
| `WorkflowRecords.OddIdsNeverMismatch` | scripts/workflow.py:179 | an odd id never fails validation, whatever its price |
| `WorkflowRecords.ExpectedIgnoresStoredPrice` | scripts/workflow.py:180-182 | the expected price depends on the id alone; a record fails exactly when its price is more than one cent from that value |
| `WorkflowRecords.UnroundedOriginalAgrees` | scripts/workflow.py:180-181 | when rounding leaves the exact generated price alone, recomputing from the unrounded `id*10.99` matches raising the stored price |
| `WorkflowRecords.DeltaIdsFromRecords` | scripts/workflow.py:141-142 | every delta's id belongs to a fetched record |
| `WorkflowRecords.FindDeltaConcat` | scripts/workflow.py:146-155 | looking up a delta in concatenated lists finds the first list's delta if it has one |
| `WorkflowRecords.FindDeltaAbsent` | scripts/workflow.py:146-155 | no delta is found for an id that no delta carries |
| `WorkflowRecords.FindOwnDelta` | scripts/workflow.py:138-155 | with distinct ids, a record's delta is the one built from it for an even id, and there is none for an odd id |
| `WorkflowRecords.ApplyUpdate` | scripts/workflow.py:146-155 | a store applying the partial update keeps one record per stored record |
| `WorkflowRecords.StoredSample` | scripts/workflow.py:85-101 | the stored id/price view has ten entries with ids 1..10 at positions 0..9, each priced `round(id * 10.99, 2)`, and no two sharing an id |
| `WorkflowRecords.StoredSampleIsInsertedView` | scripts/workflow.py:99-101 | the stored view is what reading back the id and price of each inserted row gives |
| `WorkflowRecords.SampleUpdateValidates` | scripts/workflow.py:85-186 | after insert and update: odd ids are unchanged, even ids carry the raised price, and validation passes (given exact-cent rounding) |
| `Workflow.HarperWorkflow.constructor` | scripts/workflow.py:21-29 | a new workflow starts with an empty metrics log |
| `Workflow.HarperWorkflow.ValidateContainer` | scripts/workflow.py:31-38 | a single health request; ready exactly when the reply status is 200 (a transport error is not ready) |
| `Workflow.HarperWorkflow.CreateSchemaAndTable` | scripts/workflow.py:40-61 | create_schema first; create_table only when that succeeded; errors never leave the method |
| `Workflow.HarperWorkflow.CollectMetrics` | scripts/workflow.py:211-229 | one stats read; a full reading appends exactly one sample and returns it; any failure leaves the log unchanged and returns nothing |
| `Workflow.SampleOf` | scripts/workflow.py:213-229 | a sample exists only for a reading with all four keys, and carries its timestamp, CPU total, memory usage, eth0 and block-I/O values unchanged; otherwise there is none |
| `Workflow.HarperWorkflow.LoadTestData` | scripts/workflow.py:63-119 | describe, then insert the ten generated records, then read everything back, each step only after the previous one succeeded |
| `Workflow.HarperWorkflow.UpdateData` | scripts/workflow.py:121-159 | read ids and prices, then send the even-id update only when the read succeeded and there is at least one delta |
| `Workflow.HarperWorkflow.ValidateChanges` | scripts/workflow.py:161-189 | one search; true exactly when it succeeds with JSON and no even-id record is more than a cent off; it stops at the index `FirstMismatch` gives |
| `Workflow.HarperWorkflow.TestCustomComponent` | scripts/workflow.py:191-209 | one GET of the stats path; true exactly when it succeeds with a JSON body |
| `Workflow.HarperWorkflow.SaveMetrics` | scripts/workflow.py:231-244 | writes the whole current log to the fixed metrics file |
| `Workflow.HarperWorkflow.RunWorkflow` | scripts/workflow.py:246-283 | the calls made and the final log are those of `WorkflowRun`, the stage-by-stage specification with its three gates |
| `Workflow.UnreadyContainerStopsEverything` | scripts/workflow.py:250-253 | a container not answering 200 yields only the health check, and the log is unchanged |
| `Workflow.FailedValidationStopsRun` | scripts/workflow.py:267-270 | failed validation makes the validation search the last call: no stats check, no write, and only the first sample is logged |
| `Workflow.FailedComponentStopsRun` | scripts/workflow.py:272-275 | a failed stats check is the last call: no write, and only the first sample is logged |
| `Workflow.EarlyFailuresDoNotStop` | scripts/workflow.py:255-265 | the setup, load and update replies never decide whether validation, the stats check and the save happen, nor what the final log is |
| `Workflow.NeverDeletes` | scripts/workflow.py:246-283 | no run ever issues a delete |
| `Workflow.CompletedRunSavesBothSamples` | scripts/workflow.py:277-281 | a completed run reads stats again, then writes the log, which ends with the before and after samples in order |
| `Workflow.UpdateSelectsEvens` | scripts/workflow.py:137-146 | the update request is sent exactly when some fetched id is even |
| `ServiceTests.Contains` | scripts/test_service.py:41 | the substring scan is true exactly when the part occurs somewhere in the text |
| `ServiceTests.AlreadyExists` | scripts/test_service.py:41 | the tolerated conflict is a reply that `raise_for_status` would reject: a 400 whose `error` (default "") contains "already exists" |
| `ServiceTests.CreateAccepted` | scripts/test_service.py:40-45 | a transport error is never accepted, and every reply that `raise_for_status` passes is accepted |
| `ServiceTests.CreateAcceptedExactly` | scripts/test_service.py:40-45 | a create step goes on exactly when it is a 400 whose `error` contains "already exists", or the status is outside 400..599 |
| `ServiceTests.AbsentErrorNeverTolerated` | scripts/test_service.py:41 | a reply without an `error` member is never a tolerated conflict, and a 400 then fails |
| `ServiceTests.OtherErrorsFail` | scripts/test_service.py:40-45 | any 4xx/5xx other than 400 fails the create step, whatever the body |
| `ServiceTests.TableStepOks` | scripts/test_service.py:71-127 | one verdict per table-test step |
| `ServiceTests.PassedSteps` | scripts/test_service.py:63-132 | the number of leading steps that go on: all before it succeed, and the one at it fails |
| `ServiceTests.IssuedSteps` | scripts/test_service.py:63-132 | the number of steps issued never exceeds the number of steps |
| `ServiceTests.FirstFailureStopsTheTest` | scripts/test_service.py:63-132 | the first failing step is the last one issued |
| `ServiceTests.TestHealth` | scripts/test_service.py:19-28 | one health request; passes exactly when `raise_for_status` does not raise |
| `ServiceTests.TestSchemaOperations` | scripts/test_service.py:30-59 | create_schema, then describe_schema only if the create was accepted; passes exactly when both steps go on |
| `ServiceTests.TestTableOperations` | scripts/test_service.py:61-132 | create, describe, wildcard delete, insert, search in that order, stopping at the first failure; passes exactly when all five go on |
| `ServiceTests.TestCustomComponent` | scripts/test_service.py:134-147 | one GET of the stats path; passes exactly when it succeeds with JSON |
| `ServiceTests.RunTest` | scripts/test_service.py:153-163 | entry k of the test list runs test k |
| `ServiceTests.AllPassed` | scripts/test_service.py:172 | true exactly when every recorded result is true |
| `ServiceTests.RunAllTests` | scripts/test_service.py:149-172 | all four tests run in order whatever earlier ones did; one (name, result) per test; passes exactly when all pass |
| `ServiceTests.EveryTestRuns` | scripts/test_service.py:160-165 | every test issues at least one call, and its calls form their own block after the earlier tests' calls |
| `ServiceTests.PrefixOfLonger` | scripts/test_service.py:160-165 | the calls of the first m tests are a prefix of the calls of the first n tests, for m <= n |
| `TableStats.NumbersOf` | components/table-stats/index.js:43-70 | a tracked numeric field's values are nonempty and start with the first record's value |
| `TableStats.StringsOf` | components/table-stats/index.js:43-75 | a tracked string field's values are nonempty and start with the first record's value |
| `TableStats.LastNumberAt` | components/table-stats/index.js:61-70 | the index of the last record holding a number under the field, which is the index the last avg update used |
| `TableStats.NumberAdded` | components/table-stats/index.js:65-70 | one number's update: the new min and max are the old ones or the number and bound both, the sum grows by it, and avg times (i + 1) is the sum |
| `TableStats.StringAdded` | components/table-stats/index.js:71-76 | one string's update: its length is added, the samples only grow, they never pass five, and the string is appended exactly when fewer than five are held |
| `TableStats.StatsOf` | components/table-stats/index.js:33-80 | the stats of the records: the record count, and no field tracked both as numeric and as string |
| `TableStats.FirstRecordStats` | components/table-stats/index.js:43-58 | after the first record: min, max, sum and avg all equal its number; a string gives its length and a one-value sample |
| `TableStats.NumericStep` | components/table-stats/index.js:61-70 | one more record applies `Math.min`, `Math.max`, `sum +=` and `avg = sum/(i+1)` to a numeric field if it holds a number there, and otherwise changes nothing |
| `TableStats.StringStep` | components/table-stats/index.js:61-77 | one more record adds its string's length and samples it while fewer than five are held, and otherwise changes nothing |
| `TableStats.FoldedIsStats` | components/table-stats/index.js:33-80 | the fold state after every record gives the reference stats |
| `TableStats.InitFields` | components/table-stats/index.js:43-58 | the first record's keys fix the numeric and string fields and their first stats |
| `TableStats.AddRecord` | components/table-stats/index.js:61-79 | processing record i turns the stats of the first i records into the stats of the first i+1 |
| `TableStats.FoldStep` | components/table-stats/index.js:63-78 | applying record i's values field by field gives the stats of the first i+1 records |
| `TableStats.GetTableStats` | components/table-stats/index.js:15-92 | a thrown query gives a failure with its message; a non-array gives "Invalid table data"; records give success with the reference stats and the record count |
| `TableStats.EmptyTableHasNoFields` | components/table-stats/index.js:33-39 | an empty table gives zero records and no fields |
| `TableStats.TrackedFieldsFromFirstRecord` | components/table-stats/index.js:33-57 | the record count, and the fields are exactly the first record's number-typed and string-typed keys |
| `TableStats.LaterRecordsAddNoFields` | components/table-stats/index.js:65-71 | appending a record never changes the set of tracked fields |
| `TableStats.NonNumberIgnored` | components/table-stats/index.js:65 | a non-number under a numeric field leaves its stats unchanged |
| `TableStats.NonStringIgnored` | components/table-stats/index.js:71 | a non-string under a string field leaves its stats unchanged |
| `TableStats.MinMaxBound` | components/table-stats/index.js:67-68 | min and max of a nonempty list bound every element and are elements |
| `TableStats.NumericBounds` | components/table-stats/index.js:46-68 | every number value of a field lies between the field's min and max, which are themselves values |
| `TableStats.AvgAfterUpdate` | components/table-stats/index.js:70 | when the last record holds a number under the field, avg is sum divided by the record count |
| `TableStats.AvgCountsRecordsNotValues` | components/table-stats/index.js:70 | avg divides by the record index, not by the number of values: three records with 2, nothing and 4 give avg 2, where the mean of the values is 3 |
| `TableStats.SampleValuesArePrefix` | components/table-stats/index.js:52-76 | the samples are the first min(5, n) string values in record order, and total_length is the sum of all their lengths |

## Left out

- HTTP, the container runtime, the filesystem and the clock are not modelled as such: replies, stats readings and timestamps are inputs, and calls are a returned trace. Logging (the only output of most stages) is left out.
- The request headers and base URL (`scripts/workflow.py:22-26`) are constants of the transport and are not modelled.
- `created_at` (a wall-clock timestamp in each generated record) is not part of `WorkflowRecords.Record`, and the sample timestamp is the probe's input `now`.
- Float arithmetic: `round(x, 2)` is an uninterpreted parameter from tenths of a cent to cents, and JSON prices are exact decimals. The case where the validator's tolerance `> 0.01` is met by a float error of a few ulps is not modelled.
- Only the parts of replies the code reads are modelled: `Response<()>` stands for "some JSON". `load_test_data` logs but never checks the read-back count, and neither script reads the update, insert or delete reply bodies.
- Crashes outside the caught exception types are not modelled. The model treats a JSON body as well formed. In the source these raise an uncaught exception:
  - a create reply body that is not an object (`.get` on a list);
  - an `error` member that is null, a number or a boolean (`in` on it raises `TypeError`);
  - a fetched record without `id`, or an even-id record without `price` (`KeyError`; the `price` of an odd-id record is never read, `scripts/workflow.py:140,179`);
  - a stats reply without `stats.total_records`.
- `ServiceTests.AlreadyExists`: an `error` member that is a list or an object is not modelled (`ErrorBody.error` is a string). For such a value Python's `in` tests membership (`scripts/test_service.py:41,74`), so a 400 whose `error` is `["already exists"]` is tolerated by the source without raising.
- `Workflow.HarperWorkflow.TestCustomComponent`: passes on any 2xx/3xx JSON reply; the source would also crash on a body lacking the logged `stats` keys.
- `Workflow.HarperWorkflow.SaveMetrics`: a failed directory creation or write is caught and only logged, so the model returns the write effect unconditionally.
- `WorkflowRecords.SampleUpdateValidates`: it assumes an idealised store that applies a partial update by hash key and rounds nothing (`KeepsWholeCents`); the real store is not part of this model.
- `TableStats`: the order of `Object.keys` is not modelled, since every result is independent of it. `NaN`, `Infinity` and `-0`, JavaScript's UTF-16 `length` (lengths here are code-point counts), and field names that collide with `Object.prototype` members (such as `constructor`, which the `stats.numeric_fields[field]` truthiness check would see) are not modelled.
- `TableStats.GetTableStats`: query results whose elements are not objects are not modelled, since `Records` holds JSON objects only. In the source a `null` element makes `Object.keys` throw a `TypeError`, which the `catch` turns into a failure reply. A string element contributes its indices `"0"`, `"1"`, … as keys.
- `TableStats.GetTableStats`: `req.params` and the query call are folded into the `QueryResult` input, and the HTTP status 500 of the failure reply is implied by `Failure`.
- The component's `initialize` registration and the `if __name__ == "__main__"` entry points are not modelled.
