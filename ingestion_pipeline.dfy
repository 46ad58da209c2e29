/** The ingestion pipeline (ingestion-workflow.ts): split the fetched records into batches, run
    each record through schema validation, the quality threshold and the Truth Governor, count
    the outcomes and the errors into a run result, and mark the accepted records as approved. */
module IngestionWorkflow {
  import opened JsonValue
  import opened Quality
  import opened SchemaValidator
  import opened TruthGovernor
  import opened Text

  datatype PipelineConfig = PipelineConfig(
    source: string,
    batchSize: nat,
    concurrency: nat,
    qualityThreshold: real)

  /** What the pipeline's collaborators contribute and the model cannot see: the errors the
      compiled canonical schema reports for each record, the RV-004 thresholds of the policy
      file, and the runtime. */
  datatype Environment = Environment(
    schema: Record -> seq<SchemaError>,
    thresholds: Option<Thresholds>,
    host: Host)

  datatype PipelineError = PipelineError(recordId: Value, stage: string, error: string, timestamp: string)

  /** How `connector.fetchGeographicData` ends: the records of its response, or a throw whose
      message is present exactly when an Error was thrown. */
  datatype FetchResult = Fetched(data: seq<Record>) | FetchFailed(error: Option<string>)

  /** How processRecord ends: the record as it was marked on acceptance, or the message of the
      error it threw. */
  datatype Outcome = Accepted(record: Record) | Rejected(message: string)

  /** `error instanceof Error ? error.message : 'Unknown error'`. */
  function ErrorText(message: Option<string>): string
  {
    if message.Some? then message.value else "Unknown error"
  }

  /** `${x}` for a string that may be undefined. */
  function Interpolate(s: Option<string>): string
  {
    if s.Some? then s.value else "undefined"
  }

  /** `record.metadata.governance` is an object, so the two assignments of stage 4 succeed. */
  predicate ApprovalWritable(record: Record)
  {
    var governance := Governance(record);
    governance.Some? && governance.value.Obj?
  }

  /** Stage 4: `truthGovernorApproved = true` and `approvalTimestamp = stamp` on the record's
      governance block. */
  function SetApproval(record: Record, stamp: string): Record
    requires ApprovalWritable(record)
  {
    var metadata := Member(Some(record), "metadata").value;
    var governance := Member(Some(metadata), "governance").value;
    var marked := SetKey(SetKey(governance.entries, "truthGovernorApproved", Bool(true)), "approvalTimestamp", Str(stamp));
    Obj(SetKey(record.entries, "metadata", Obj(SetKey(metadata.entries, "governance", Obj(marked)))))
  }

  /** What processRecord does with one record: validate, check the threshold, ask the
      governor, and mark the record on acceptance; each failure is the error it throws. */
  function ProcessOutcome(record: Record, config: PipelineConfig, env: Environment): Outcome
  {
    var schema := env.schema(record);
    match Validation(record, schema, env.host)
    case Thrown(message) => Rejected(message)
    case Normal(v) =>
      if !v.valid then
        Rejected("Validation failed: " + Interpolate(if |v.errors| > 0 then Some(v.errors[0].message) else None))
      else if Below(v.qualityMetrics.overall, config.qualityThreshold) then
        Rejected("Quality threshold not met")
      else
        match Review(record, env.thresholds, env.host)
        case Thrown(message) => Rejected(message)
        case Normal(r) =>
          if !r.approved then Rejected("Truth Governor rejected: " + Interpolate(r.reason))
          else
            Meta006Iff(record, schema, env.host);
            Accepted(SetApproval(record, env.host.isoNow))
  }

  /** The PROCESSING error a rejection logs, carrying the record's id. */
  function ErrorOf(record: Record, outcome: Outcome, stamp: string): seq<PipelineError>
  {
    match outcome
    case Accepted(_) => []
    case Rejected(message) => [PipelineError(Member(Some(record), "id"), "PROCESSING", message, stamp)]
  }

  /** The record after processRecord: marked when accepted, as it was when rejected. */
  function Marked(record: Record, outcome: Outcome): Record
  {
    match outcome
    case Accepted(marked) => marked
    case Rejected(_) => record
  }

  /** `f` applied to each element of `s`, in order. */
  function Map<A, B>(f: A -> B, s: seq<A>): (r: seq<B>)
    ensures |r| == |s|
  {
    if |s| == 0 then [] else Map(f, s[..|s| - 1]) + [f(s[|s| - 1])]
  }

  /** What processRecord decides for each record of `batch`, in order. */
  function Outcomes(batch: seq<Record>, config: PipelineConfig, env: Environment): (outcomes: seq<Outcome>)
    ensures |outcomes| == |batch|
    ensures forall k :: 0 <= k < |batch| ==> outcomes[k] == ProcessOutcome(batch[k], config, env)
  {
    var decide := (r: Record) => ProcessOutcome(r, config, env);
    MapIndex(decide, batch);
    Map(decide, batch)
  }

  /** The number of acceptances among `outcomes`. */
  function AcceptedCount(outcomes: seq<Outcome>): (n: nat)
    ensures n <= |outcomes|
  {
    if |outcomes| == 0 then 0
    else AcceptedCount(outcomes[..|outcomes| - 1]) + (if outcomes[|outcomes| - 1].Accepted? then 1 else 0)
  }

  /** The PROCESSING error of each rejected record of `batch`, in order. */
  function RejectionErrors(batch: seq<Record>, outcomes: seq<Outcome>, stamp: string): seq<PipelineError>
    requires |outcomes| == |batch|
  {
    if |batch| == 0 then []
    else
      RejectionErrors(batch[..|batch| - 1], outcomes[..|batch| - 1], stamp)
      + ErrorOf(batch[|batch| - 1], outcomes[|batch| - 1], stamp)
  }

  /** The records of `batch` after the run: accepted ones marked, rejected ones as they were. */
  function Applied(batch: seq<Record>, outcomes: seq<Outcome>): (r: seq<Record>)
    requires |outcomes| == |batch|
    ensures |r| == |batch|
  {
    if |batch| == 0 then []
    else Applied(batch[..|batch| - 1], outcomes[..|batch| - 1]) + [Marked(batch[|batch| - 1], outcomes[|batch| - 1])]
  }

  /** `recordsRejected === 0 || recordsAccepted / recordsProcessed >= 0.95`; a division by
      zero gives NaN, which compares false. */
  function RunSucceeds(accepted: nat, rejected: nat, processed: nat): bool
  {
    rejected == 0 || (processed > 0 && accepted as real / processed as real >= 0.95)
  }

  /** The batches concatenated. */
  function Flatten<T>(batches: seq<seq<T>>): seq<T>
  {
    if |batches| == 0 then [] else Flatten(batches[..|batches| - 1]) + batches[|batches| - 1]
  }

  class PipelineResult {
    var success: bool
    var recordsProcessed: nat
    var recordsAccepted: nat
    var recordsRejected: nat
    var errors: seq<PipelineError>
    var duration: int

    /** The result execute starts from. */
    constructor ()
      ensures !success && recordsProcessed == 0 && recordsAccepted == 0 && recordsRejected == 0
      ensures errors == [] && duration == 0
    {
      success := false;
      recordsProcessed := 0;
      recordsAccepted := 0;
      recordsRejected := 0;
      errors := [];
      duration := 0;
    }

    /** Every processed record is counted as accepted or as rejected. */
    predicate Balanced()
      reads this
    {
      recordsProcessed == recordsAccepted + recordsRejected
    }
  }

  class IngestionPipeline {
    const config: PipelineConfig
    const env: Environment
    /** What processRecord decides for a record, named so that the batch loops can speak of it. */
    ghost const decide: Record -> Outcome

    /** `decide` is processRecord's decision. The trigger keeps the decision folded until a
        proof speaks of ProcessOutcome itself. */
    ghost predicate Valid()
    {
      forall r {:trigger ProcessOutcome(r, config, env)} :: decide(r) == ProcessOutcome(r, config, env)
    }

    constructor (config: PipelineConfig, env: Environment)
      ensures this.config == config && this.env == env
      ensures Valid()
    {
      this.config := config;
      this.env := env;
      this.decide := (r: Record) => ProcessOutcome(r, config, env);
    }

    /** The outcomes the batch loops record are those of ProcessOutcome. */
    lemma DecidedOutcomes(batch: seq<Record>)
      requires Valid()
      ensures Map(decide, batch) == Outcomes(batch, config, env)
    {
      MapIndex(decide, batch);
      var outcomes := Outcomes(batch, config, env);
      forall k | 0 <= k < |batch| ensures Map(decide, batch)[k] == outcomes[k] {
        assert outcomes[k] == ProcessOutcome(batch[k], config, env);
      }
      SameElements(Map(decide, batch), outcomes);
    }

    /** createBatches: slices of `batchSize` items from the front, the last one shorter. */
    static method CreateBatches<T>(items: seq<T>, batchSize: nat) returns (batches: seq<seq<T>>)
      requires batchSize > 0
      ensures Flatten(batches) == items
      ensures forall j :: 0 <= j < |batches| ==> 0 < |batches[j]| <= batchSize
      ensures forall j :: 0 <= j < |batches| - 1 ==> |batches[j]| == batchSize
      ensures |batches| == (|items| + batchSize - 1) / batchSize
    {
      batches := [];
      var i := 0;
      while i < |items|
        invariant BatchesSoFar(items, batchSize, batches, i)
        decreases |items| - i
      {
        var end := if i + batchSize < |items| then i + batchSize else |items|;
        NextBatch(items, batchSize, batches, i);
        batches := batches + [items[i..end]];
        i := i + batchSize;
      }
      BatchCount(|items|, batchSize, |batches|);
    }

    /** processRecord, with the marking of an accepted record returned to the caller. */
    method ProcessRecord(record: Record) returns (outcome: Outcome)
      requires Valid()
      ensures outcome == decide(record)
    {
      var schema := env.schema(record);
      var validation := Validate(record, schema, env.host);
      match validation {
        case Thrown(message) =>
          outcome := Rejected(message);
        case Normal(v) =>
          if !v.valid {
            var first := if |v.errors| > 0 then Some(v.errors[0].message) else None;
            outcome := Rejected("Validation failed: " + Interpolate(first));
          } else if Below(v.qualityMetrics.overall, config.qualityThreshold) {
            outcome := Rejected("Quality threshold not met");
          } else {
            var review := Review(record, env.thresholds, env.host);
            match review {
              case Thrown(message) =>
                outcome := Rejected(message);
              case Normal(r) =>
                if !r.approved {
                  outcome := Rejected("Truth Governor rejected: " + Interpolate(r.reason));
                } else {
                  Meta006Iff(record, schema, env.host);
                  outcome := Accepted(SetApproval(record, env.host.isoNow));
                }
            }
          }
      }
      assert outcome == ProcessOutcome(record, config, env);
    }

    /** processBatch: each record's outcome counted and, when rejected, logged; `marked` is the
        batch after stage 4 and `outcomes` what processRecord decided for each record. */
    method ProcessBatch(batch: seq<Record>, result: PipelineResult) returns (marked: seq<Record>, ghost outcomes: seq<Outcome>)
      modifies result
      requires Valid()
      ensures outcomes == Map(decide, batch)
      ensures result.recordsAccepted == old(result.recordsAccepted) + AcceptedCount(outcomes)
      ensures result.recordsRejected == old(result.recordsRejected) + (|batch| - AcceptedCount(outcomes))
      ensures result.recordsProcessed == old(result.recordsProcessed) + |batch|
      ensures result.errors == old(result.errors) + RejectionErrors(batch, outcomes, env.host.isoNow)
      ensures result.success == old(result.success) && result.duration == old(result.duration)
      ensures marked == Applied(batch, outcomes)
    {
      marked := [];
      outcomes := [];
      for i := 0 to |batch|
        invariant outcomes == Map(decide, batch[..i])
        invariant result.recordsAccepted == old(result.recordsAccepted) + AcceptedCount(outcomes)
        invariant result.recordsRejected == old(result.recordsRejected) + (i - AcceptedCount(outcomes))
        invariant result.recordsProcessed == old(result.recordsProcessed) + i
        invariant result.errors == old(result.errors) + RejectionErrors(batch[..i], outcomes, env.host.isoNow)
        invariant result.success == old(result.success) && result.duration == old(result.duration)
        invariant marked == Applied(batch[..i], outcomes)
      {
        var outcome := ProcessRecord(batch[i]);
        RecordStep(decide, batch, i, outcomes, outcome, env.host.isoNow);
        Tally(result, batch[i], outcome);
        Associative(old(result.errors), RejectionErrors(batch[..i], outcomes, env.host.isoNow), ErrorOf(batch[i], outcome, env.host.isoNow));
        marked := marked + [Marked(batch[i], outcome)];
        outcomes := outcomes + [outcome];
      }
      Whole(batch);
    }

    /** The body of one `batch.map` callback: count the outcome, log a rejection. */
    method Tally(result: PipelineResult, record: Record, outcome: Outcome)
      modifies result
      ensures result.recordsAccepted == old(result.recordsAccepted) + (if outcome.Accepted? then 1 else 0)
      ensures result.recordsRejected == old(result.recordsRejected) + (if outcome.Accepted? then 0 else 1)
      ensures result.recordsProcessed == old(result.recordsProcessed) + 1
      ensures result.errors == old(result.errors) + ErrorOf(record, outcome, env.host.isoNow)
      ensures result.success == old(result.success) && result.duration == old(result.duration)
    {
      match outcome {
        case Accepted(_) =>
          result.recordsAccepted := result.recordsAccepted + 1;
        case Rejected(message) =>
          result.recordsRejected := result.recordsRejected + 1;
          result.errors := result.errors
            + [PipelineError(Member(Some(record), "id"), "PROCESSING", message, env.host.isoNow)];
      }
      result.recordsProcessed := result.recordsProcessed + 1;
    }

    /** The `for` loop of execute: the batches processed one after the other. */
    method ProcessBatches(batches: seq<seq<Record>>, result: PipelineResult) returns (records: seq<Record>, ghost outcomes: seq<Outcome>)
      modifies result
      requires Valid()
      ensures outcomes == Map(decide, Flatten(batches))
      ensures result.recordsAccepted == old(result.recordsAccepted) + AcceptedCount(outcomes)
      ensures result.recordsRejected == old(result.recordsRejected) + (|Flatten(batches)| - AcceptedCount(outcomes))
      ensures result.recordsProcessed == old(result.recordsProcessed) + |Flatten(batches)|
      ensures result.errors == old(result.errors) + RejectionErrors(Flatten(batches), outcomes, env.host.isoNow)
      ensures result.success == old(result.success) && result.duration == old(result.duration)
      ensures records == Applied(Flatten(batches), outcomes)
    {
      records := [];
      outcomes := [];
      for k := 0 to |batches|
        invariant outcomes == Map(decide, Flatten(batches[..k]))
        invariant result.recordsAccepted == old(result.recordsAccepted) + AcceptedCount(outcomes)
        invariant result.recordsRejected == old(result.recordsRejected) + (|Flatten(batches[..k])| - AcceptedCount(outcomes))
        invariant result.recordsProcessed == old(result.recordsProcessed) + |Flatten(batches[..k])|
        invariant result.errors == old(result.errors) + RejectionErrors(Flatten(batches[..k]), outcomes, env.host.isoNow)
        invariant result.success == old(result.success) && result.duration == old(result.duration)
        invariant records == Applied(Flatten(batches[..k]), outcomes)
      {
        FlattenStep(batches, k);
        var marked, decided := ProcessBatch(batches[k], result);
        Associative(old(result.errors), RejectionErrors(Flatten(batches[..k]), outcomes, env.host.isoNow),
          RejectionErrors(batches[k], decided, env.host.isoNow));
        MapAppend(decide, Flatten(batches[..k]), batches[k]);
        SummaryAppend(Flatten(batches[..k]), outcomes, batches[k], decided, env.host.isoNow);
        records := records + marked;
        outcomes := outcomes + decided;
      }
      Whole(batches);
    }

    /** execute: fetch, process the batches in order, then decide success; a fetch failure
        becomes the run's single PIPELINE error. `elapsed` is the run's duration and `records`
        the fetched records after the run. */
    method Execute(fetch: FetchResult, elapsed: int) returns (result: PipelineResult, records: seq<Record>)
      requires Valid()
      requires config.batchSize > 0
      ensures fresh(result)
      ensures result.duration == elapsed
      ensures result.Balanced()
      ensures fetch.FetchFailed? ==>
        && !result.success
        && result.recordsProcessed == 0 && result.recordsAccepted == 0 && result.recordsRejected == 0
        && result.errors == [PipelineError(None, "PIPELINE", ErrorText(fetch.error), env.host.isoNow)]
        && records == []
      ensures fetch.Fetched? ==>
        var outcomes := Map(decide, fetch.data);
        && result.recordsProcessed == |fetch.data|
        && result.recordsAccepted == AcceptedCount(outcomes)
        && result.recordsRejected == |fetch.data| - AcceptedCount(outcomes)
        && result.errors == RejectionErrors(fetch.data, outcomes, env.host.isoNow)
        && result.success == RunSucceeds(result.recordsAccepted, result.recordsRejected, result.recordsProcessed)
        && records == Applied(fetch.data, outcomes)
    {
      result := new PipelineResult();
      records := [];
      match fetch {
        case FetchFailed(error) =>
          result.errors := result.errors + [PipelineError(None, "PIPELINE", ErrorText(error), env.host.isoNow)];
          result.success := false;
        case Fetched(data) =>
          var batches := CreateBatches(data, config.batchSize);
          ghost var outcomes;
          records, outcomes := ProcessBatches(batches, result);
          result.success := RunSucceeds(result.recordsAccepted, result.recordsRejected, result.recordsProcessed);
      }
      result.duration := elapsed;
    }
  }

  // ---------------------------------------------------------------------------------------
  // Properties of the pipeline

  /** The state of createBatches' loop: the batches cut so far cover the items before `i`, each
      holding `size` items except a shorter last one at the end of the items. */
  ghost predicate BatchesSoFar<T>(items: seq<T>, size: nat, batches: seq<seq<T>>, i: int)
  {
    && i == |batches| * size
    && (|batches| > 0 ==> i - size < |items|)
    && Flatten(batches) == items[..if i < |items| then i else |items|]
    && BatchSizes(batches, size, i < |items|)
  }

  /** Each batch holds between one and `size` items, all but the last exactly `size`, and the
      last one too when `full`. */
  ghost predicate BatchSizes<T>(batches: seq<seq<T>>, size: nat, full: bool)
  {
    && (forall j :: 0 <= j < |batches| ==> 0 < |batches[j]| <= size)
    && (forall j :: 0 <= j < |batches| - 1 ==> |batches[j]| == size)
    && (full ==> forall j :: 0 <= j < |batches| ==> |batches[j]| == size)
  }

  /** One turn of createBatches' loop keeps its state. */
  lemma NextBatch<T>(items: seq<T>, size: nat, batches: seq<seq<T>>, i: int)
    requires size > 0 && i < |items|
    requires BatchesSoFar(items, size, batches, i)
    ensures var end := if i + size < |items| then i + size else |items|;
      0 <= i <= end && BatchesSoFar(items, size, batches + [items[i..end]], i + size)
  {
    var end := if i + size < |items| then i + size else |items|;
    var slice := items[i..end];
    MultiplySucc(|batches|, size);
    FlattenPush(batches, slice);
    assert items[..end] == items[..i] + slice;
    NextSizes(batches, size, slice, i + size < |items|);
  }

  lemma MultiplySucc(b: nat, size: nat)
    ensures (b + 1) * size == b * size + size
  {
  }

  lemma FlattenPush<T>(batches: seq<seq<T>>, slice: seq<T>)
    ensures Flatten(batches + [slice]) == Flatten(batches) + slice
  {
    assert (batches + [slice])[..|batches|] == batches;
  }

  lemma NextSizes<T>(batches: seq<seq<T>>, size: nat, slice: seq<T>, full: bool)
    requires BatchSizes(batches, size, true)
    requires 0 < |slice| <= size && (full ==> |slice| == size)
    ensures BatchSizes(batches + [slice], size, full)
  {
  }

  /** `b` batches of `size`, the last one started before the end of `n` items and all of them
      covering the items: `b` is the rounded-up quotient. */
  lemma BatchCount(n: nat, size: nat, b: nat)
    requires size > 0
    requires b * size >= n
    requires b > 0 ==> b * size - size < n
    ensures b == (n + size - 1) / size
  {
    var q := (n + size - 1) / size;
    DivisionBounds(n + size - 1, size);
    if b < q {
      MultiplyMonotone(b + 1, q, size);
      MultiplySucc(b, size);
    } else if b > q {
      MultiplyMonotone(q + 1, b, size);
      MultiplySucc(q, size);
    }
  }

  lemma DivisionBounds(x: nat, size: nat)
    requires size > 0
    ensures (x / size) * size <= x < (x / size) * size + size
  {
  }

  lemma MultiplyMonotone(x: nat, y: nat, k: nat)
    requires x <= y
    ensures x * k <= y * k
  {
  }

  lemma {:induction false} MapIndex<A, B>(f: A -> B, s: seq<A>)
    ensures forall k :: 0 <= k < |s| ==> Map(f, s)[k] == f(s[k])
  {
    if |s| > 0 {
      MapIndex(f, s[..|s| - 1]);
    }
  }

  lemma SameElements<T>(a: seq<T>, b: seq<T>)
    requires |a| == |b| && forall k :: 0 <= k < |a| ==> a[k] == b[k]
    ensures a == b
  {
  }

  lemma Associative<T>(a: seq<T>, b: seq<T>, c: seq<T>)
    ensures (a + b) + c == a + (b + c)
  {
  }

  /** One more element extends the mapped prefix by its own image. */
  lemma MapStep<A, B>(f: A -> B, s: seq<A>, i: nat)
    requires i < |s|
    ensures Map(f, s[..i + 1]) == Map(f, s[..i]) + [f(s[i])]
  {
    assert s[..i + 1][..i] == s[..i];
  }

  /** One more record of the batch extends what the loop of processBatch has gathered by that
      record's outcome and its share of the summaries. */
  lemma RecordStep(f: Record -> Outcome, batch: seq<Record>, i: nat, outcomes: seq<Outcome>, outcome: Outcome, stamp: string)
    requires i < |batch| && outcomes == Map(f, batch[..i]) && outcome == f(batch[i])
    ensures Map(f, batch[..i + 1]) == outcomes + [outcome]
    ensures AcceptedCount(outcomes + [outcome]) == AcceptedCount(outcomes) + (if outcome.Accepted? then 1 else 0)
    ensures RejectionErrors(batch[..i + 1], outcomes + [outcome], stamp) == RejectionErrors(batch[..i], outcomes, stamp) + ErrorOf(batch[i], outcome, stamp)
    ensures Applied(batch[..i + 1], outcomes + [outcome]) == Applied(batch[..i], outcomes) + [Marked(batch[i], outcome)]
  {
    MapStep(f, batch, i);
    SummaryStep(batch[..i], outcomes, batch[i], outcome, stamp);
    assert batch[..i + 1] == batch[..i] + [batch[i]];
  }

  lemma Whole<T>(s: seq<T>)
    ensures s[..|s|] == s
  {
  }

  /** One more batch extends the concatenation of the batches before it. */
  lemma FlattenStep<T>(batches: seq<seq<T>>, k: nat)
    requires k < |batches|
    ensures Flatten(batches[..k + 1]) == Flatten(batches[..k]) + batches[k]
  {
    assert batches[..k + 1][..k] == batches[..k];
  }

  /** One more record extends the three run summaries by its own contribution. */
  lemma SummaryStep(done: seq<Record>, outcomes: seq<Outcome>, record: Record, outcome: Outcome, stamp: string)
    requires |outcomes| == |done|
    ensures AcceptedCount(outcomes + [outcome]) == AcceptedCount(outcomes) + (if outcome.Accepted? then 1 else 0)
    ensures RejectionErrors(done + [record], outcomes + [outcome], stamp) == RejectionErrors(done, outcomes, stamp) + ErrorOf(record, outcome, stamp)
    ensures Applied(done + [record], outcomes + [outcome]) == Applied(done, outcomes) + [Marked(record, outcome)]
  {
    assert (done + [record])[..|done|] == done;
    assert (outcomes + [outcome])[..|done|] == outcomes;
  }

  lemma {:induction false} FlattenAppend<T>(a: seq<seq<T>>, b: seq<seq<T>>)
    ensures Flatten(a + b) == Flatten(a) + Flatten(b)
    decreases |b|
  {
    if |b| > 0 {
      assert (a + b)[..|a + b| - 1] == a + b[..|b| - 1];
      FlattenAppend(a, b[..|b| - 1]);
    } else {
      assert a + b == a;
    }
  }

  lemma {:induction false} MapAppend<A, B>(f: A -> B, a: seq<A>, b: seq<A>)
    ensures Map(f, a + b) == Map(f, a) + Map(f, b)
    decreases |b|
  {
    if |b| > 0 {
      assert (a + b)[..|a + b| - 1] == a + b[..|b| - 1];
      MapAppend(f, a, b[..|b| - 1]);
    } else {
      assert a + b == a;
    }
  }

  lemma {:induction false} AcceptedCountAppend(a: seq<Outcome>, b: seq<Outcome>)
    ensures AcceptedCount(a + b) == AcceptedCount(a) + AcceptedCount(b)
    decreases |b|
  {
    if |b| > 0 {
      assert (a + b)[..|a + b| - 1] == a + b[..|b| - 1];
      AcceptedCountAppend(a, b[..|b| - 1]);
    } else {
      assert a + b == a;
    }
  }

  lemma {:induction false} RejectionErrorsAppend(a: seq<Record>, p: seq<Outcome>, b: seq<Record>, q: seq<Outcome>, stamp: string)
    requires |p| == |a| && |q| == |b|
    ensures RejectionErrors(a + b, p + q, stamp) == RejectionErrors(a, p, stamp) + RejectionErrors(b, q, stamp)
    decreases |b|
  {
    if |b| > 0 {
      assert (a + b)[..|a + b| - 1] == a + b[..|b| - 1];
      assert (p + q)[..|a + b| - 1] == p + q[..|b| - 1];
      RejectionErrorsAppend(a, p, b[..|b| - 1], q[..|b| - 1], stamp);
    } else {
      assert a + b == a && p + q == p;
    }
  }

  lemma {:induction false} AppliedAppend(a: seq<Record>, p: seq<Outcome>, b: seq<Record>, q: seq<Outcome>)
    requires |p| == |a| && |q| == |b|
    ensures Applied(a + b, p + q) == Applied(a, p) + Applied(b, q)
    decreases |b|
  {
    if |b| > 0 {
      assert (a + b)[..|a + b| - 1] == a + b[..|b| - 1];
      assert (p + q)[..|a + b| - 1] == p + q[..|b| - 1];
      AppliedAppend(a, p, b[..|b| - 1], q[..|b| - 1]);
    } else {
      assert a + b == a && p + q == p;
    }
  }

  /** One more batch extends the three run summaries by the batch's own. */
  lemma SummaryAppend(a: seq<Record>, p: seq<Outcome>, b: seq<Record>, q: seq<Outcome>, stamp: string)
    requires |p| == |a| && |q| == |b|
    ensures AcceptedCount(p + q) == AcceptedCount(p) + AcceptedCount(q)
    ensures RejectionErrors(a + b, p + q, stamp) == RejectionErrors(a, p, stamp) + RejectionErrors(b, q, stamp)
    ensures Applied(a + b, p + q) == Applied(a, p) + Applied(b, q)
  {
    AcceptedCountAppend(p, q);
    RejectionErrorsAppend(a, p, b, q, stamp);
    AppliedAppend(a, p, b, q);
  }

  // ---------------------------------------------------------------------------------------
  // Properties of processRecord

  /** A record is accepted exactly when it validates, meets the quality threshold and the
      governor approves it; it is then returned with its governance block marked. */
  lemma AcceptedIff(record: Record, config: PipelineConfig, env: Environment)
    ensures var validation := Validation(record, env.schema(record), env.host);
      var review := Review(record, env.thresholds, env.host);
      ProcessOutcome(record, config, env).Accepted? <==>
        && validation.Normal? && validation.value.valid
        && !Below(validation.value.qualityMetrics.overall, config.qualityThreshold)
        && review.Normal? && review.value.approved
    ensures ProcessOutcome(record, config, env).Accepted? ==>
      && ApprovalWritable(record)
      && ProcessOutcome(record, config, env).record == SetApproval(record, env.host.isoNow)
  {
    var schema := env.schema(record);
    if Validation(record, schema, env.host).Normal? {
      Meta006Iff(record, schema, env.host);
    }
  }

  /** The governor is only asked about records that validated, and it cannot throw on them:
      both throw on the same coordinates. */
  lemma GovernorAfterValidation(record: Record, schema: seq<SchemaError>, thresholds: Option<Thresholds>, host: Host)
    ensures Validation(record, schema, host).Normal? ==> Review(record, thresholds, host).Normal?
  {
    ValidationThrowsIff(record, schema, host);
    ReviewOutcome(record, thresholds, host);
  }

  /** Each rejection carries the exact message of the stage that stopped the record: the
      validator's TypeError, the first error's message (`undefined` when the record failed on
      its score alone), the threshold text, or the governor's first violation. */
  lemma RejectionMessage(record: Record, config: PipelineConfig, env: Environment)
    requires ProcessOutcome(record, config, env).Rejected?
    ensures var validation := Validation(record, env.schema(record), env.host);
      var m := ProcessOutcome(record, config, env).message;
      && (validation.Thrown? ==> m == NotIterable && CoordinatesThrow(Coordinates(record)))
      && (validation.Normal? && !validation.value.valid ==>
            var errors := validation.value.errors;
            m == "Validation failed: " + (if |errors| > 0 then errors[0].message else "undefined"))
      && (validation.Normal? && validation.value.valid
          && Below(validation.value.qualityMetrics.overall, config.qualityThreshold) ==>
            m == "Quality threshold not met")
      && (validation.Normal? && validation.value.valid
          && !Below(validation.value.qualityMetrics.overall, config.qualityThreshold) ==>
            var review := Review(record, env.thresholds, env.host);
            review.Normal? && !review.value.approved
            && m == "Truth Governor rejected: " + Interpolate(review.value.reason))
  {
    var schema := env.schema(record);
    ValidationThrowsIff(record, schema, env.host);
    GovernorAfterValidation(record, schema, env.thresholds, env.host);
  }

  /** So every rejection message is one of four kinds, told apart by its opening words. */
  lemma RejectionStage(record: Record, config: PipelineConfig, env: Environment)
    requires ProcessOutcome(record, config, env).Rejected?
    ensures var m := ProcessOutcome(record, config, env).message;
      || (m == NotIterable && CoordinatesThrow(Coordinates(record)))
      || StartsWith(m, "Validation failed: ")
      || m == "Quality threshold not met"
      || StartsWith(m, "Truth Governor rejected: ")
  {
    RejectionMessage(record, config, env);
    match Validation(record, env.schema(record), env.host)
    case Thrown(_) =>
    case Normal(v) =>
      StartsWithConcat("Validation failed: ", if |v.errors| > 0 then v.errors[0].message else "undefined");
      match Review(record, env.thresholds, env.host)
      case Thrown(_) =>
      case Normal(r) =>
        StartsWithConcat("Truth Governor rejected: ", Interpolate(r.reason));
  }

  /** A record that validates without any error fails validation exactly when fewer than
      eight required paths are present, and is then rejected with `Validation failed: undefined`. */
  lemma UndefinedReason(record: Record, config: PipelineConfig, env: Environment)
    requires Validation(record, env.schema(record), env.host).Normal?
    requires Validation(record, env.schema(record), env.host).value.errors == []
    ensures !Validation(record, env.schema(record), env.host).value.valid
            <==> PresentCount(record, RequiredFields()) < 8
    ensures PresentCount(record, RequiredFields()) < 8
            ==> ProcessOutcome(record, config, env) == Rejected("Validation failed: " + Interpolate(None))
  {
    ValidWithoutErrors(record, env.schema(record), env.host);
  }

  /** A record whose governance flag is not already truthy never gets through: META-006 makes
      it invalid, so processRecord only ever re-approves a record that arrives approved. */
  lemma FreshRecordRejected(record: Record, config: PipelineConfig, env: Environment)
    requires !Truthy(GovernorApproval(record))
    ensures ProcessOutcome(record, config, env).Rejected?
    ensures var m := ProcessOutcome(record, config, env).message;
      m == NotIterable || StartsWith(m, "Validation failed: ")
  {
    var schema := env.schema(record);
    ValidationThrowsIff(record, schema, env.host);
    match Validation(record, schema, env.host)
    case Thrown(_) =>
    case Normal(v) =>
      Meta006Iff(record, schema, env.host);
      StartsWithConcat("Validation failed: ", Interpolate(if |v.errors| > 0 then Some(v.errors[0].message) else None));
  }

  /** Nothing in the pipeline sets `metadata.quality.validationPassed`, and a record without it
      never gets through: FA-002 makes the governor reject whatever validates. */
  lemma UnvalidatedRecordRejected(record: Record, config: PipelineConfig, env: Environment)
    requires !Truthy(Member(QualityOf(record), "validationPassed"))
    ensures ProcessOutcome(record, config, env).Rejected?
  {
    var schema := env.schema(record);
    GovernorAfterValidation(record, schema, env.thresholds, env.host);
    if Review(record, env.thresholds, env.host).Normal? {
      UnvalidatedNotApproved(record, env.thresholds, env.host);
    }
  }

  /** A quality threshold of at most 0.90 rejects nothing: a valid record already scores at
      least 0.90 overall, so the run behaves as with no threshold at all. */
  lemma LowThresholdIsMoot(record: Record, config: PipelineConfig, env: Environment)
    requires config.qualityThreshold <= 0.9
    ensures ProcessOutcome(record, config, env) == ProcessOutcome(record, config.(qualityThreshold := 0.0), env)
  {
    var schema := env.schema(record);
    if Validation(record, schema, env.host).Normal? {
      ValidIff(record, schema, env.host);
    }
  }

  /** Stage 4 sets the two governance keys and leaves every other key of the record, of its
      metadata and of its governance block as it was. */
  lemma SetApprovalMarks(record: Record, stamp: string)
    requires ApprovalWritable(record)
    ensures var marked := SetApproval(record, stamp);
      && GovernorApproval(marked) == Some(Bool(true))
      && Member(Governance(marked), "approvalTimestamp") == Some(Str(stamp))
      && ApprovalWritable(marked)
      && (forall k :: k != "metadata" ==> Member(Some(marked), k) == Member(Some(record), k))
      && (forall k :: k != "governance" ==>
            Member(Member(Some(marked), "metadata"), k) == Member(Member(Some(record), "metadata"), k))
      && (forall k :: k != "truthGovernorApproved" && k != "approvalTimestamp" ==>
            Member(Governance(marked), k) == Member(Governance(record), k))
  {
    var metadata := Member(Some(record), "metadata").value;
    var governance := Member(Some(metadata), "governance").value;
    var block := SetKey(SetKey(governance.entries, "truthGovernorApproved", Bool(true)), "approvalTimestamp", Str(stamp));
    var outer := SetKey(metadata.entries, "governance", Obj(block));
    assert Member(Some(SetApproval(record, stamp)), "metadata") == Some(Obj(outer));
    assert Governance(SetApproval(record, stamp)) == Some(Obj(block));
  }

  // ---------------------------------------------------------------------------------------
  // Properties of the run summaries

  /** All records are accepted exactly when the count reaches the number of outcomes, and none
      exactly when it is zero. */
  lemma {:induction false} AcceptedCountFacts(outcomes: seq<Outcome>)
    ensures AcceptedCount(outcomes) == |outcomes| <==> forall k :: 0 <= k < |outcomes| ==> outcomes[k].Accepted?
    ensures AcceptedCount(outcomes) == 0 <==> forall k :: 0 <= k < |outcomes| ==> outcomes[k].Rejected?
  {
    if |outcomes| > 0 {
      var n := |outcomes| - 1;
      AcceptedCountFacts(outcomes[..n]);
      assert forall k :: 0 <= k < n ==> outcomes[..n][k] == outcomes[k];
    }
  }

  /** One PROCESSING error per rejected record, stamped with the run's time and carrying that
      record's id and message; the errors and the acceptances add up to the batch. */
  lemma {:induction false} RejectionErrorsFacts(batch: seq<Record>, outcomes: seq<Outcome>, stamp: string)
    requires |outcomes| == |batch|
    ensures |RejectionErrors(batch, outcomes, stamp)| + AcceptedCount(outcomes) == |batch|
    ensures forall e :: e in RejectionErrors(batch, outcomes, stamp) ==>
      && e.stage == "PROCESSING" && e.timestamp == stamp
      && exists k :: 0 <= k < |batch| && outcomes[k] == Rejected(e.error) && e.recordId == Member(Some(batch[k]), "id")
  {
    if |batch| > 0 {
      var n := |batch| - 1;
      RejectionErrorsFacts(batch[..n], outcomes[..n], stamp);
      var before := RejectionErrors(batch[..n], outcomes[..n], stamp);
      var last := ErrorOf(batch[n], outcomes[n], stamp);
      assert RejectionErrors(batch, outcomes, stamp) == before + last;
      forall e: PipelineError | e in before + last
        ensures exists k :: 0 <= k < |batch| && outcomes[k] == Rejected(e.error) && e.recordId == Member(Some(batch[k]), "id")
      {
        if e in before {
          var k :| 0 <= k < n && outcomes[..n][k] == Rejected(e.error) && e.recordId == Member(Some(batch[..n][k]), "id");
          assert batch[..n][k] == batch[k] && outcomes[..n][k] == outcomes[k];
        } else {
          assert outcomes[n] == Rejected(e.error) && e.recordId == Member(Some(batch[n]), "id");
        }
      }
    }
  }

  /** After the run each record is its marked copy when accepted and unchanged when rejected. */
  lemma {:induction false} AppliedFacts(batch: seq<Record>, outcomes: seq<Outcome>)
    requires |outcomes| == |batch|
    ensures forall k :: 0 <= k < |batch| ==>
      Applied(batch, outcomes)[k] == if outcomes[k].Accepted? then outcomes[k].record else batch[k]
  {
    if |batch| > 0 {
      var n := |batch| - 1;
      AppliedFacts(batch[..n], outcomes[..n]);
      assert forall k :: 0 <= k < n ==> batch[..n][k] == batch[k] && outcomes[..n][k] == outcomes[k];
    }
  }

  /** With every processed record counted, a run succeeds exactly when nothing was rejected or
      at least 95% of the records were accepted. */
  lemma RunSucceedsIff(accepted: nat, rejected: nat)
    ensures RunSucceeds(accepted, rejected, accepted + rejected)
      <==> rejected == 0 || 20 * accepted >= 19 * (accepted + rejected)
  {
    if rejected > 0 {
      RatioAtLeast(accepted as real, (accepted + rejected) as real);
    }
  }

  /** `a / p >= 0.95` written without the division. */
  lemma RatioAtLeast(a: real, p: real)
    requires p > 0.0
    ensures a / p >= 0.95 <==> 20.0 * a >= 19.0 * p
  {
    var q := a / p;
    assert q * p == a;
    Scale(q, 0.95, p);
  }

  lemma Scale(x: real, y: real, p: real)
    requires p > 0.0
    ensures x >= y <==> x * p >= y * p
  {
    if x >= y {
      assert (x - y) * p >= 0.0;
    } else {
      assert (y - x) * p > 0.0;
    }
  }
}
