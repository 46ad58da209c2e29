# Governed ingestion gate of GNIS, in Dafny

This project models the ingestion gate of the GNIS data platform. The gate has three stages that
every fetched record passes through, in order.

- **Schema validator** (`SchemaValidator`, `Quality`). It checks one geographic record.
  - Errors: the JSON-schema errors come first, then the business rules GEO-001/002, TIME-002/005,
    DEMO-001 and META-006.
  - The DEMO-003 warning.
  - Quality metrics: completeness over ten dotted paths, accuracy over a recursive count of keys
    and array indices, consistency over the TIME/DEMO findings, and their weighted overall, each
    rounded to three decimals.
  - A record is `valid` when it has no error and an overall of at least 0.90.
- **Truth Governor** (`TruthGovernor`). A fixed-order policy engine.
  - Each firing forbidden-action rule (FA-001/002/003/005/008) and each firing
    required-validation rule (RV-001/002/004/006) adds a CRITICAL violation.
  - The compliance checks GDPR-001, CCPA-001 and CLASS-001 add warnings only.
  - From the violation list come `approved`, the reason and severity of the first CRITICAL
    violation, and the escalation level.
- **Ingestion pipeline** (`IngestionWorkflow`). It splits the fetched records into batches and
  processes the batches one after the other.
  - Each record goes through validate → quality threshold → governor.
  - Each outcome updates the run counters and the error list of a mutable `PipelineResult`.
  - Accepted records get their governance approval fields set.
  - At the end, run-level `success` is decided. A fetch failure becomes the run's single PIPELINE
    error.

The JavaScript the gate is written in is modelled where it decides outcomes:

- optional-chained reads and truthiness;
- `ToNumber` in relational comparisons, including strings, booleans, `null` and arrays through
  their text;
- string-against-string comparison;
- `new Date(v)` with TimeClip;
- the `TypeError` that `const [lon, lat] = coordinates` throws on a truthy non-iterable;
- NaN and -Infinity from an accuracy ratio over a record with no keys.

A rejected record's message is the message of the error thrown by the stage that stopped it.

Two consequences of the code as written are proved:

- **META-006 requires approval before approval is granted.** META-006 makes every record whose
  `metadata.governance.truthGovernorApproved` is falsy invalid, yet that flag is only set after
  approval. So a freshly fetched record is always rejected (`FreshRecordRejected`).
- **Nothing sets `metadata.quality.validationPassed`.** So FA-002 rejects every record without it
  (`UnvalidatedRecordRejected`).

## Structure

- `json_value.dfy` — module `JsonValue`. The JSON value datatype, records as objects, property
  reads, truthiness, number and string conversion, dates, and `Host`.
  - `Host` stands for what the runtime supplies and the core cannot see: the clock, date
    parsing, string-to-number conversion and `JSON.stringify`.
- `text.dfy` — module `Text`.
  - Lower-casing, `includes`, `split`/`join` and `startsWith`.
  - The secret-scan regular expressions, each written as an explicit predicate.
  - The 32-hex-digit pattern is a left-to-right scan, proved to find exactly the runs the
    pattern matches.
- `quality.dfy` — module `Quality`.
  - Two imperative methods: `countPresentFields` as a loop that reassigns `current`, and
    `countTotalFields` as a recursive traversal that adds to a count. Each is proved against the
    function that defines its result.
  - The metric arithmetic, with JavaScript's `Math.round` half-up rounding.
- `schema_validator.dfy` — module `SchemaValidator`. `validate` as a method that pushes errors,
  proved against the function `Validation`, plus the rule-by-rule properties.
- `truth_governor.dfy` — module `TruthGovernor`.
  - `review` and the three check methods. Each run of `if (c) push(v)` is a `Collect` of fired
    conditions.
  - The escalation level, and the properties of the engine.
- `ingestion_pipeline.dfy` — module `IngestionWorkflow`, with two classes.
  - `PipelineResult` holds the mutable counters and error list.
  - `IngestionPipeline` has the methods `Execute`, `ProcessBatch`, `ProcessRecord` and
    `CreateBatches`. `CreateBatches` is proved against `Flatten`: its batches concatenate to the
    items. The other three are proved against the function `ProcessOutcome` and the run
    summaries `AcceptedCount`, `RejectionErrors` and `Applied`.

### Where the documented design and the code differ

The model follows the code in each case.

- **Accuracy** counts array indices as keys, because `Object.keys` of an array lists them
  (`schema-validator.ts:240-241`).
- **The metrics are not all in [0,1].** Accuracy is negative when more distinct fields carry
  errors than the record has keys. It is NaN or -Infinity for a record without keys. So
  `overall` can fall outside [0,1] as well (`AccuracyRange`).
- **`approvalTimestamp` is not write-once.** Stage 4 overwrites it every time a record is
  accepted. Because of META-006, every accepted record already carried a truthy approval flag.

## Model

| member | source | states |
|---|---|---|
| JsonValue.Lookup | gnis/ingestion/validators/schema-validator.ts:231 | reading a key finds a value exactly when some entry has that key, and the value is that entry's |
| JsonValue.SetKey | gnis/ingestion/pipelines/ingestion-workflow.ts:156-157 | after an assignment the key reads back the new value and every other key reads as before |
| JsonValue.Truncate | gnis/ingestion/validators/schema-validator.ts:117-118 | the time value of a numeric date is the number truncated toward zero |
| Text.IncludesIffOccurs | gnis/ingestion/validators/truth-governor.ts:272 | `includes` holds exactly when the pattern occurs at some position |
| Text.Split | gnis/ingestion/validators/schema-validator.ts:227 | splitting yields at least one piece and no piece contains the separator |
| Text.JoinSplit | gnis/ingestion/validators/schema-validator.ts:227 | joining the pieces of a split gives the text back |
| Text.SplitJoin | gnis/ingestion/validators/schema-validator.ts:227 | splitting a join of separator-free pieces gives the pieces back |
| Text.HexScanFinds | gnis/ingestion/validators/truth-governor.ts:246 | the scan, started after `run` digits, succeeds exactly when the text so extended holds 32 hexadecimal digits in a row |
| Text.HasHexRunIff | gnis/ingestion/validators/truth-governor.ts:246 | the secret scan finds `[a-f0-9]{32}` exactly when 32 hexadecimal digits stand in a row somewhere |
| Quality.RequiredFields | gnis/ingestion/validators/schema-validator.ts:210-223 | there are ten required paths, none empty |
| Quality.PathStaysAbsent | gnis/ingestion/validators/schema-validator.ts:228-232 | once a read along a path yields undefined or null, the whole path is absent |
| Quality.CountPresentFields | gnis/ingestion/validators/schema-validator.ts:225-235 | the loop counts exactly the fields whose path leads to a value neither undefined nor null, at most all of them |
| Quality.Traverse | gnis/ingestion/validators/schema-validator.ts:239-246 | the traversal adds to the count the keys and indices of the value and of everything nested in it |
| Quality.CountTotalFields | gnis/ingestion/validators/schema-validator.ts:237-249 | the count is the number of keys and array indices in the record, one less than the number of values it holds |
| Quality.TotalFieldsCountsValues | gnis/ingestion/validators/schema-validator.ts:240-244 | the recursive key count of a value is one less than the number of values in it |
| Quality.Round3Close | gnis/ingestion/validators/schema-validator.ts:203-206 | rounding to three decimals moves a value by at most half a thousandth and yields whole thousandths |
| Quality.Round3Monotone | gnis/ingestion/validators/schema-validator.ts:203-206 | rounding to three decimals preserves order |
| Quality.Round3Unit | gnis/ingestion/validators/schema-validator.ts:203-206 | rounding keeps a value of [0,1] in [0,1] |
| Quality.CompletenessAndConsistencyBounds | gnis/ingestion/validators/schema-validator.ts:183-197 | completeness is the rounded present/10 and consistency the rounded 1 − min(k/10, 1); both lie in [0,1] |
| Quality.AccuracyRange | gnis/ingestion/validators/schema-validator.ts:188-190 | accuracy is finite exactly when the record has keys; it is then at most 1 and negative exactly when error fields outnumber keys; without keys and with errors it is -Infinity |
| Quality.OverallIsWeighted | gnis/ingestion/validators/schema-validator.ts:199-206 | overall is the rounded 0.35·completeness + 0.35·accuracy + 0.30·consistency of the unrounded scores, and lies in [0,1] when error fields do not outnumber keys |
| Quality.ConsistencyFloor | gnis/ingestion/validators/schema-validator.ts:193-197 | with at most four consistency findings the consistency score is at least 0.6 |
| Quality.CleanOverall | gnis/ingestion/validators/schema-validator.ts:185-206 | with no error field and at most one consistency finding, overall reaches 0.90 exactly when at least eight required paths are present |
| Quality.PerfectAccuracy | gnis/ingestion/validators/schema-validator.ts:188-190 | a record with keys and no error field has accuracy exactly 1 |
| SchemaValidator.TimeOrDemoCount | gnis/ingestion/validators/schema-validator.ts:193-195 | the TIME/DEMO errors are at most all the errors |
| SchemaValidator.CalculateQualityMetrics | gnis/ingestion/validators/schema-validator.ts:177-207 | the method computes the record's score from the counted paths, keys, distinct error fields and consistency findings |
| SchemaValidator.Validate | gnis/ingestion/validators/schema-validator.ts:49-80 | the pushing method ends with exactly what `Validation` describes, including the thrown TypeError |
| SchemaValidator.CustomErrorsFollowFlags | gnis/ingestion/validators/schema-validator.ts:85-172 | the business-rule errors are the fired rules in the fixed order GEO-001, GEO-002, TIME-002, TIME-005, DEMO-001, META-006 |
| SchemaValidator.ErrorListFacts | gnis/ingestion/validators/schema-validator.ts:66-69 | schema errors fill the front of the list, each business rule appears exactly when it fired, and at most three errors are TIME/DEMO |
| SchemaValidator.ValidationOutcome | gnis/ingestion/validators/schema-validator.ts:66-79 | the result holds the schema errors then the rule errors, the DEMO warnings, the metrics of those, and `valid` as no errors and overall at least 0.90 |
| SchemaValidator.ValidationThrowsIff | gnis/ingestion/validators/schema-validator.ts:93-94 | validate rejects exactly when the coordinates are truthy and not iterable, with the iteration TypeError |
| SchemaValidator.SchemaErrorsFirst | gnis/ingestion/validators/schema-validator.ts:53-69 | every schema error comes before every custom error and is CRITICAL, rule SCHEMA, with its path (or `root`) and message (or `Validation failed`) |
| SchemaValidator.GeoRulesIff | gnis/ingestion/validators/schema-validator.ts:93-113 | GEO-001 fires exactly when coordinates are truthy and the latitude is out of range, GEO-002 likewise for the longitude, independently |
| SchemaValidator.TimeRulesIff | gnis/ingestion/validators/schema-validator.ts:116-137 | with both timestamps truthy, TIME-002 fires exactly when created is later than modified and TIME-005 exactly when either is later than now; neither fires otherwise |
| SchemaValidator.DemoRulesIff | gnis/ingestion/validators/schema-validator.ts:140-159 | DEMO-001 fires exactly when demographics are truthy and a defined population is below 0; the DEMO-003 warning is the only warning and appears exactly when households and population are truthy and households exceed population; a population of 0 gives no warning |
| SchemaValidator.Meta006Iff | gnis/ingestion/validators/schema-validator.ts:161-169 | META-006 fires exactly when the approval flag is falsy, and such a record is invalid |
| SchemaValidator.ValidIff | gnis/ingestion/validators/schema-validator.ts:74-79 | valid exactly when there are no errors and overall is at least 0.90; a valid record has no schema error and no rule fired |
| SchemaValidator.ValidWithoutErrors | gnis/ingestion/validators/schema-validator.ts:74-79 | warnings alone never make a record invalid: without errors, valid exactly when at least eight of the ten required paths are present, with or without the DEMO-003 warning |
| SchemaValidator.ConsistencyAtLeast | gnis/ingestion/validators/schema-validator.ts:192-197 | the consistency of a validated record is between 0.6 and 1 |
| SchemaValidator.ValidAccuracyIsOne | gnis/ingestion/validators/schema-validator.ts:187-190 | a valid record has accuracy exactly 1 |
| TruthGovernor.CollectMembers | gnis/ingestion/validators/truth-governor.ts:72-126 | a run of conditional pushes holds an item exactly when its condition held |
| TruthGovernor.CollectIsSubsequence | gnis/ingestion/validators/truth-governor.ts:72-126 | a run of conditional pushes keeps the items in their order |
| TruthGovernor.CollectAppend | gnis/ingestion/validators/truth-governor.ts:41-46 | pushing two runs one after the other is one run over both |
| TruthGovernor.Criticals | gnis/ingestion/validators/truth-governor.ts:53 | the CRITICAL filter yields at most the violations |
| TruthGovernor.CriticalsFacts | gnis/ingestion/validators/truth-governor.ts:53-59 | the filter keeps only CRITICAL violations, is empty exactly when none is CRITICAL, and starts with the first CRITICAL one |
| TruthGovernor.VerdictFacts | gnis/ingestion/validators/truth-governor.ts:53-66 | approved exactly when no violation is CRITICAL, exactly when reason and severity are undefined; otherwise they are those of the first CRITICAL violation |
| TruthGovernor.ReviewOutcome | gnis/ingestion/validators/truth-governor.ts:36-67 | review rejects exactly on truthy non-iterable coordinates, with its own TypeError `record.geometry.coordinates is not iterable`; otherwise it is the verdict on all violations in rule order and the compliance warnings |
| TruthGovernor.AllRulesDistinct | gnis/ingestion/validators/truth-governor.ts:75-185 | the nine violations are distinct and all CRITICAL |
| TruthGovernor.ApprovedIffNoViolations | gnis/ingestion/validators/truth-governor.ts:53-63 | since every rule is CRITICAL, approved exactly when there is no violation; a rejection carries the first violation's reason and severity CRITICAL |
| TruthGovernor.ViolationOrder | gnis/ingestion/validators/truth-governor.ts:41-46 | the violations appear in the order FA-001, 002, 003, 005, 008, RV-001, 002, 004, 006 |
| TruthGovernor.RuleFires | gnis/ingestion/validators/truth-governor.ts:72-188 | each rule is reported exactly when its own condition holds, whatever the others do |
| TruthGovernor.ForbiddenRulesIff | gnis/ingestion/validators/truth-governor.ts:72-126 | FA-001 fires exactly on manual ingestion, FA-002 on a falsy `validationPassed`, FA-003 on `schemaBypassed === true`, FA-005 on PII without authorisation, FA-008 on a secret pattern |
| TruthGovernor.RequiredRulesIff | gnis/ingestion/validators/truth-governor.ts:131-188 | RV-001 fires exactly when id, type, name or geometry is falsy, RV-002 without an API endpoint, RV-004 when a present quality block is below configured thresholds (never without thresholds), RV-006 on out-of-range coordinates |
| TruthGovernor.UnvalidatedNotApproved | gnis/ingestion/validators/truth-governor.ts:86-93 | a record without a truthy `validationPassed` is not approved |
| TruthGovernor.EmailIsPii | gnis/ingestion/validators/truth-governor.ts:230-233 | a serialisation mentioning `email` contains PII |
| TruthGovernor.EmailNeedsAuthorization | gnis/ingestion/validators/truth-governor.ts:106-113 | a record mentioning `email` without PII authorisation is not approved |
| TruthGovernor.ComplianceWarningsIff | gnis/ingestion/validators/truth-governor.ts:193-225 | GDPR-001, CCPA-001 and CLASS-001 are warned exactly under their conditions, and the warnings never change approved, reason or severity |
| TruthGovernor.GetEscalationLevel | gnis/ingestion/validators/truth-governor.ts:278-291 | L3 exactly when some violation is CRITICAL, L2 exactly when none is CRITICAL and some is HIGH |
| TruthGovernor.Highs | gnis/ingestion/validators/truth-governor.ts:285 | the HIGH filter is non-empty exactly when some violation is HIGH |
| TruthGovernor.ReviewEscalation | gnis/ingestion/validators/truth-governor.ts:278-291 | a review escalates to L1 when approved and to L3 when not |
| IngestionWorkflow.Outcomes | gnis/ingestion/pipelines/ingestion-workflow.ts:96-98 | each record of a batch gets processRecord's outcome for it |
| IngestionWorkflow.AcceptedCount | gnis/ingestion/pipelines/ingestion-workflow.ts:99 | at most every record is accepted |
| IngestionWorkflow.Applied | gnis/ingestion/pipelines/ingestion-workflow.ts:155-157 | the records after the run are as many as before |
| IngestionWorkflow.PipelineResult.constructor | gnis/ingestion/pipelines/ingestion-workflow.ts:50-57 | a run starts unsuccessful, with zero counters, no errors and zero duration |
| IngestionWorkflow.IngestionPipeline.constructor | gnis/ingestion/pipelines/ingestion-workflow.ts:38-43 | the pipeline keeps its configuration and decides each record as processRecord does |
| IngestionWorkflow.IngestionPipeline.DecidedOutcomes | gnis/ingestion/pipelines/ingestion-workflow.ts:96-98 | the outcomes the batch loops record are the processRecord outcomes |
| IngestionWorkflow.IngestionPipeline.CreateBatches | gnis/ingestion/pipelines/ingestion-workflow.ts:168-174 | the batches concatenate to the items; each is non-empty and at most batchSize long; all but the last are exactly batchSize; there are ⌈n/batchSize⌉ of them |
| IngestionWorkflow.BatchCount | gnis/ingestion/pipelines/ingestion-workflow.ts:170 | the loop's stride reaches past the end after exactly ⌈n/size⌉ steps |
| IngestionWorkflow.IngestionPipeline.ProcessRecord | gnis/ingestion/pipelines/ingestion-workflow.ts:118-163 | the method decides a record as `ProcessOutcome` does |
| IngestionWorkflow.IngestionPipeline.Tally | gnis/ingestion/pipelines/ingestion-workflow.ts:96-110 | one callback adds one to accepted or rejected, one to processed, and a PROCESSING error only for a rejection; nothing else changes |
| IngestionWorkflow.IngestionPipeline.ProcessBatch | gnis/ingestion/pipelines/ingestion-workflow.ts:92-113 | the counters grow by the batch's acceptances, rejections and size; the errors grow by the batch's rejection errors; success and duration stay; the batch comes back marked |
| IngestionWorkflow.IngestionPipeline.ProcessBatches | gnis/ingestion/pipelines/ingestion-workflow.ts:67-69 | processing the batches in order amounts to processing their concatenation |
| IngestionWorkflow.IngestionPipeline.Execute | gnis/ingestion/pipelines/ingestion-workflow.ts:48-87 | a fetch failure leaves a fresh unsuccessful result with zero counters and its single PIPELINE error; otherwise the counters and errors summarise every fetched record's outcome and success follows the 95% rule; processed is always accepted plus rejected and duration is the elapsed time |
| IngestionWorkflow.AcceptedIff | gnis/ingestion/pipelines/ingestion-workflow.ts:118-163 | a record is accepted exactly when it validates, meets the quality threshold and is approved; it then comes back with the approval fields set |
| IngestionWorkflow.GovernorAfterValidation | gnis/ingestion/pipelines/ingestion-workflow.ts:121-144 | the governor cannot throw on a record that validate resolved for |
| IngestionWorkflow.RejectionMessage | gnis/ingestion/pipelines/ingestion-workflow.ts:121-153 | a rejection's message is the validator's coordinates TypeError when validate throws; `Validation failed: ` and the first error's message (`undefined` without errors) when invalid; `Quality threshold not met` below the threshold; otherwise the governor did not approve and it is `Truth Governor rejected: ` and the governor's reason |
| IngestionWorkflow.RejectionStage | gnis/ingestion/pipelines/ingestion-workflow.ts:123-153 | every rejection message is the coordinates TypeError, starts with `Validation failed: `, is `Quality threshold not met`, or starts with `Truth Governor rejected: ` |
| IngestionWorkflow.UndefinedReason | gnis/ingestion/pipelines/ingestion-workflow.ts:121-129 | a record validated without errors fails validation exactly when fewer than eight required paths are present, and is then rejected with `Validation failed: undefined` |
| IngestionWorkflow.FreshRecordRejected | gnis/ingestion/pipelines/ingestion-workflow.ts:121-130 | a record whose approval flag is not already truthy is rejected at validation |
| IngestionWorkflow.UnvalidatedRecordRejected | gnis/ingestion/validators/truth-governor.ts:86-93 | a record without a truthy `validationPassed` is always rejected |
| IngestionWorkflow.LowThresholdIsMoot | gnis/ingestion/pipelines/ingestion-workflow.ts:133-140 | a quality threshold of at most 0.90 decides every record as no threshold would |
| IngestionWorkflow.SetApprovalMarks | gnis/ingestion/pipelines/ingestion-workflow.ts:156-157 | stage 4 sets the flag to true and the timestamp to the run's time and leaves every other key of the record, its metadata and its governance block unchanged |
| IngestionWorkflow.AcceptedCountFacts | gnis/ingestion/pipelines/ingestion-workflow.ts:99-101 | the acceptance count is the batch size exactly when all are accepted and 0 exactly when all are rejected |
| IngestionWorkflow.RejectionErrorsFacts | gnis/ingestion/pipelines/ingestion-workflow.ts:100-108 | errors and acceptances add up to the records; every error is PROCESSING, stamped with the run's time, carrying a rejected record's id and message |
| IngestionWorkflow.AppliedFacts | gnis/ingestion/pipelines/ingestion-workflow.ts:155-157 | after the run an accepted record is its marked copy and a rejected one is unchanged |
| IngestionWorkflow.RunSucceedsIff | gnis/ingestion/pipelines/ingestion-workflow.ts:71-72 | a run succeeds exactly when nothing was rejected or 20·accepted ≥ 19·processed; an empty run succeeds |

## Left out

- Fetching: the connector (HTTP, rate limiting, retries) is not part of this model.
  `fetchGeographicData` becomes a `FetchResult` parameter of `Execute`: the fetched records, or
  the failure message.
- A `response.data` that is not an array of objects: records are JSON objects, as the census
  connector builds them. A `null` record would make the catch block of processBatch throw on
  `record.id`.
- Ajv and the JSON files it compiles (the geo-object schema, the validation rules, the
  governance policy) are not part of this model. The schema errors of a record come from the
  environment's `schema` function. The RV-004 thresholds are a `Thresholds` option, with None for
  a policy without them.
- The audit logger, `logDecision` and its `console.log`: fire-and-forget output with no effect
  on any result.
- `getStatistics`: it only returns the configuration.
- Concurrency: `Promise.all` over a batch is a sequential loop in batch order. The counters come
  out the same, but the order of errors within a batch may differ from a real run. The
  `concurrency` setting is unused by the code and by the model.
- Clocks: every `new Date().toISOString()` of a run is the one text `Host.isoNow`, and
  `Date.now()` is the one time value `Host.now`. `duration` is the `elapsed` parameter of
  `Execute`.
- `JSON.stringify`, the date-string parser and `StringToNumber` are functions the `Host`
  supplies.
- Number formatting: the text JavaScript gives a number inside an array is not modelled
  (`JoinedText`). DEMO-003 compares such an array numerically rather than as text. `new Date`
  of such an array is an Invalid Date.
- Regular expressions: only their six fixed patterns are modelled, each as a predicate.
  Lower-casing folds ASCII letters only; the few non-ASCII characters whose lower case is ASCII
  are not folded.
- Floating point: scores are exact reals. Only NaN and -Infinity from a zero denominator are
  modelled, through `Score`; rounding error is not modelled.
- Records are values. processRecord updates the fetched object in place. Here `Execute` returns
  the records after the run, with accepted records replaced by their marked copies, so aliasing
  is not modelled.
- Objects with duplicate keys: a read takes the first entry with the key. JavaScript objects
  never repeat a key, so the model is meant for records whose keys are distinct.
- Quality.TotalFields: counts every entry of an object, so an object that repeated a key would
  count it twice although a read sees only its first entry; the count is that of
  `Object.keys` only for distinct keys.
- JsonValue.StringLess: compares characters by Unicode code point, while JavaScript's `<`
  compares UTF-16 code units. The two orders differ only between a character above U+FFFF and
  one in U+E000–U+FFFF, which matters only to DEMO-003 when both operands are strings.
- IngestionWorkflow.IngestionPipeline.CreateBatches: requires a batchSize above 0, as the
  pipeline configuration documents a positive integer. With a batchSize of 0 the source loops
  forever when there are items, and returns no batch for an empty list.
- IngestionWorkflow.IngestionPipeline.Execute: requires a batchSize above 0 for the same reason.
  With a batchSize of 0 the source still ends normally when the fetch fails or returns no
  record.
