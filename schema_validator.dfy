/** The schema validator (schema-validator.ts): the canonical-schema errors, the business rules
    GEO-001/002, TIME-002/005, DEMO-001/003 and META-006, the quality score, and the verdict. */
module SchemaValidator {
  import opened JsonValue
  import opened Text
  import opened Quality

  datatype ErrorSeverity = Critical | Error

  datatype ValidationError = ValidationError(
    field: string,
    message: string,
    severity: ErrorSeverity,
    rule: string)

  datatype ValidationWarning = ValidationWarning(field: string, message: string, rule: string)

  datatype ValidationResult = ValidationResult(
    valid: bool,
    errors: seq<ValidationError>,
    warnings: seq<ValidationWarning>,
    qualityMetrics: QualityMetrics)

  /** One error the compiled canonical-object schema reports: its instance path and its
      message, which may be missing. The schema and its compiler are not part of this model;
      the errors they report for a record are an input. */
  datatype SchemaError = SchemaError(instancePath: string, message: Option<string>)

  /** The errors and warnings of the business rules. */
  datatype Findings = Findings(errors: seq<ValidationError>, warnings: seq<ValidationWarning>)

  const Geo001 := ValidationError("geometry.coordinates[1]",
    "Latitude must be between -90 and 90", Critical, "GEO-001")
  const Geo002 := ValidationError("geometry.coordinates[0]",
    "Longitude must be between -180 and 180", Critical, "GEO-002")
  const Time002 := ValidationError("metadata",
    "Created timestamp must be before modified timestamp", Error, "TIME-002")
  const Time005 := ValidationError("metadata", "Timestamps cannot be in the future", Error, "TIME-005")
  const Demo001 := ValidationError("properties.demographics.population",
    "Population must be non-negative", Critical, "DEMO-001")
  const Demo003 := ValidationWarning("properties.demographics",
    "Households should not exceed population", "DEMO-003")
  const Meta006 := ValidationError("metadata.governance.truthGovernorApproved",
    "Record must be approved by Truth Governor", Critical, "META-006")

  /** The TypeError `const [lon, lat] = data.geometry.coordinates` throws on a value that is not
      iterable (the wording is the engine's). */
  const NotIterable := "data.geometry.coordinates is not iterable"

  /** The rule ids of a list of errors, in order. */
  function Rules(errors: seq<ValidationError>): seq<string>
  {
    seq(|errors|, i requires 0 <= i < |errors| => errors[i].rule)
  }

  function Coordinates(data: Record): Value
  {
    Member(Member(Some(data), "geometry"), "coordinates")
  }

  function Created(data: Record): Value
  {
    Member(Member(Some(data), "metadata"), "created")
  }

  function Modified(data: Record): Value
  {
    Member(Member(Some(data), "metadata"), "modified")
  }

  function Demographics(data: Record): Value
  {
    Member(Member(Some(data), "properties"), "demographics")
  }

  function GovernorApproval(data: Record): Value
  {
    Member(Member(Member(Some(data), "metadata"), "governance"), "truthGovernorApproved")
  }

  /** `lat < -90 || lat > 90`. */
  predicate LatitudeOutOfRange(lat: Value, host: Host)
  {
    LessThan(lat, -90.0, host) || GreaterThan(lat, 90.0, host)
  }

  /** `lon < -180 || lon > 180`. */
  predicate LongitudeOutOfRange(lon: Value, host: Host)
  {
    LessThan(lon, -180.0, host) || GreaterThan(lon, 180.0, host)
  }

  /** The coordinate destructuring throws: the coordinates are truthy but not iterable. */
  predicate CoordinatesThrow(coords: Value)
  {
    Truthy(coords) && !Iterable(coords.value)
  }

  /** GEO-001 and GEO-002, each evaluated on its own, only when coordinates are present. */
  function GeoErrors(coords: Value, host: Host): seq<ValidationError>
    requires !CoordinatesThrow(coords)
  {
    if !Truthy(coords) then []
    else
      var (lon, lat) := FirstTwo(coords.value);
      (if LatitudeOutOfRange(lat, host) then [Geo001] else [])
      + (if LongitudeOutOfRange(lon, host) then [Geo002] else [])
  }

  /** `a > b` on two time values; an Invalid Date compares false. */
  predicate Later(a: Option<int>, b: Option<int>)
  {
    a.Some? && b.Some? && a.value > b.value
  }

  /** TIME-002 and TIME-005, only when both timestamps are present. */
  function TimeErrors(data: Record, host: Host): seq<ValidationError>
  {
    var c := Created(data);
    var m := Modified(data);
    if Truthy(c) && Truthy(m) then
      var created := DateValue(c.value, host);
      var modified := DateValue(m.value, host);
      var now := Some(host.now);
      (if Later(created, modified) then [Time002] else [])
      + (if Later(created, now) || Later(modified, now) then [Time005] else [])
    else []
  }

  /** DEMO-001, only when demographics are present. */
  function DemoErrors(data: Record, host: Host): seq<ValidationError>
  {
    var d := Demographics(data);
    var population := Member(d, "population");
    if Truthy(d) && population.Some? && LessThan(population, 0.0, host) then [Demo001] else []
  }

  /** DEMO-003, only when demographics, households and population are all truthy. */
  function DemoWarnings(data: Record, host: Host): seq<ValidationWarning>
  {
    var d := Demographics(data);
    var population := Member(d, "population");
    var households := Member(d, "households");
    if Truthy(d) && Truthy(households) && Truthy(population) && Greater(households, population, host)
    then [Demo003] else []
  }

  /** META-006: the record must already carry the governor's approval. */
  function MetaErrors(data: Record): seq<ValidationError>
  {
    if !Truthy(GovernorApproval(data)) then [Meta006] else []
  }

  /** validateCustomRules: the rules in their fixed order, or the TypeError of the coordinate
      destructuring. */
  function CustomRules(data: Record, host: Host): Completion<Findings>
  {
    var coords := Coordinates(data);
    if CoordinatesThrow(coords) then Thrown(NotIterable)
    else Normal(Findings(
      GeoErrors(coords, host) + TimeErrors(data, host) + DemoErrors(data, host) + MetaErrors(data),
      DemoWarnings(data, host)))
  }

  /** A schema error as the validator reports it: CRITICAL, rule SCHEMA, the instance path (or
      `root` for the empty path), the message (or `Validation failed`). */
  function FromSchemaError(e: SchemaError): ValidationError
  {
    ValidationError(
      if e.instancePath == "" then "root" else e.instancePath,
      if e.message.None? || e.message.value == "" then "Validation failed" else e.message.value,
      Critical,
      "SCHEMA")
  }

  function SchemaErrors(schema: seq<SchemaError>): seq<ValidationError>
  {
    seq(|schema|, i requires 0 <= i < |schema| => FromSchemaError(schema[i]))
  }

  /** The distinct `field`s of the errors. */
  function ErrorFields(errors: seq<ValidationError>): set<string>
  {
    set e | e in errors :: e.field
  }

  /** The rules the consistency score counts: those whose id starts with TIME or DEMO. */
  predicate IsConsistencyRule(rule: string)
  {
    StartsWith(rule, "TIME") || StartsWith(rule, "DEMO")
  }

  /** The errors whose rule starts with TIME or DEMO. */
  function TimeOrDemoCount(errors: seq<ValidationError>): (n: nat)
    ensures n <= |errors|
  {
    if |errors| == 0 then 0
    else TimeOrDemoCount(errors[..|errors| - 1])
         + (if IsConsistencyRule(errors[|errors| - 1].rule) then 1 else 0)
  }

  /** The quality score of a record given the errors and warnings found for it. */
  function MetricsOf(data: Record, errors: seq<ValidationError>, warnings: seq<ValidationWarning>): QualityMetrics
  {
    Metrics(PresentCount(data, RequiredFields()), TotalFields(data), |ErrorFields(errors)|,
            |warnings| + TimeOrDemoCount(errors))
  }

  /** What `validate` resolves to, or rejects with. */
  function Validation(data: Record, schema: seq<SchemaError>, host: Host): Completion<ValidationResult>
  {
    match CustomRules(data, host)
    case Thrown(message) => Thrown(message)
    case Normal(custom) =>
      var errors := SchemaErrors(schema) + custom.errors;
      var metrics := MetricsOf(data, errors, custom.warnings);
      Normal(ValidationResult(errors == [] && AtLeast(metrics.overall, 0.9), errors, custom.warnings, metrics))
  }

  /** calculateQualityMetrics: count the required paths and all keys, then combine. */
  method CalculateQualityMetrics(data: Record, errors: seq<ValidationError>, warnings: seq<ValidationWarning>)
    returns (metrics: QualityMetrics)
    ensures metrics == MetricsOf(data, errors, warnings)
  {
    var required := RequiredFields();
    var present := CountPresentFields(data, required);
    var total := CountTotalFields(data);
    var errorFields := |ErrorFields(errors)|;
    var checks := |warnings| + TimeOrDemoCount(errors);
    metrics := Metrics(present, total, errorFields, checks);
  }

  /** validate: collect the schema errors, then the business rules, then score the record. */
  method Validate(data: Record, schema: seq<SchemaError>, host: Host) returns (r: Completion<ValidationResult>)
    ensures r == Validation(data, schema, host)
  {
    var errors: seq<ValidationError> := [];
    var warnings: seq<ValidationWarning> := [];
    for i := 0 to |schema|
      invariant errors == SchemaErrors(schema[..i])
    {
      errors := errors + [FromSchemaError(schema[i])];
    }
    assert schema[..|schema|] == schema;
    var custom := CustomRules(data, host);
    match custom {
      case Thrown(message) =>
        r := Thrown(message);
      case Normal(found) =>
        errors := errors + found.errors;
        warnings := warnings + found.warnings;
        assert warnings == found.warnings;
        var metrics := CalculateQualityMetrics(data, errors, warnings);
        r := Normal(ValidationResult(|errors| == 0 && AtLeast(metrics.overall, 0.9), errors, warnings, metrics));
    }
  }


  // ---------------------------------------------------------------------------------------
  // Properties of the validator

  /** Which business-rule errors a record raises, each condition stated on its own. */
  datatype RuleFlags = RuleFlags(
    geo001: bool, geo002: bool, time002: bool, time005: bool, demo001: bool, meta006: bool)

  function Fired(data: Record, host: Host): RuleFlags
    requires !CoordinatesThrow(Coordinates(data))
  {
    var coords := Coordinates(data);
    var both := Truthy(Created(data)) && Truthy(Modified(data));
    var d := Demographics(data);
    var population := Member(d, "population");
    RuleFlags(
      Truthy(coords) && LatitudeOutOfRange(FirstTwo(coords.value).1, host),
      Truthy(coords) && LongitudeOutOfRange(FirstTwo(coords.value).0, host),
      both && Later(DateValue(Created(data).value, host), DateValue(Modified(data).value, host)),
      both && (Later(DateValue(Created(data).value, host), Some(host.now))
               || Later(DateValue(Modified(data).value, host), Some(host.now))),
      Truthy(d) && population.Some? && LessThan(population, 0.0, host),
      !Truthy(GovernorApproval(data)))
  }

  function When(c: bool, e: ValidationError): seq<ValidationError>
  {
    if c then [e] else []
  }

  /** The business-rule errors in their fixed order, given which rules fire. */
  function RuleErrors(f: RuleFlags): seq<ValidationError>
  {
    (When(f.geo001, Geo001) + When(f.geo002, Geo002)) + (When(f.time002, Time002) + When(f.time005, Time005))
    + When(f.demo001, Demo001) + When(f.meta006, Meta006)
  }

  /** The rule-by-rule definition of validateCustomRules agrees with the flags. */
  lemma CustomErrorsFollowFlags(data: Record, host: Host)
    requires !CoordinatesThrow(Coordinates(data))
    ensures CustomRules(data, host).value.errors == RuleErrors(Fired(data, host))
  {
    var f := Fired(data, host);
    assert GeoErrors(Coordinates(data), host) == When(f.geo001, Geo001) + When(f.geo002, Geo002);
    assert TimeErrors(data, host) == When(f.time002, Time002) + When(f.time005, Time005);
    assert DemoErrors(data, host) == When(f.demo001, Demo001);
    assert MetaErrors(data) == When(f.meta006, Meta006);
  }

  lemma RulesAppend(a: seq<ValidationError>, b: seq<ValidationError>)
    ensures Rules(a + b) == Rules(a) + Rules(b)
  {
  }

  lemma TimeOrDemoCountAppend(a: seq<ValidationError>, b: seq<ValidationError>)
    ensures TimeOrDemoCount(a + b) == TimeOrDemoCount(a) + TimeOrDemoCount(b)
    decreases |b|
  {
    if |b| > 0 {
      assert (a + b)[..|a + b| - 1] == a + b[..|b| - 1];
      TimeOrDemoCountAppend(a, b[..|b| - 1]);
    } else {
      assert a + b == a;
    }
  }

  /** Only the TIME and DEMO rules count towards consistency. */
  lemma ConsistencyRuleIds()
    ensures IsConsistencyRule(Time002.rule) && IsConsistencyRule(Time005.rule) && IsConsistencyRule(Demo001.rule)
    ensures !IsConsistencyRule(Geo001.rule) && !IsConsistencyRule(Geo002.rule) && !IsConsistencyRule(Meta006.rule)
    ensures !IsConsistencyRule("SCHEMA")
  {
    assert "SCHEMA"[..4][0] == 'S';
    assert "GEO-001"[..4][0] == 'G';
    assert "GEO-002"[..4][0] == 'G';
    assert "META-006"[..4][0] == 'M';
  }

  lemma WhenFacts(c: bool, e: ValidationError)
    ensures Rules(When(c, e)) == (if c then [e.rule] else [])
    ensures TimeOrDemoCount(When(c, e)) == (if c && IsConsistencyRule(e.rule) then 1 else 0)
  {
    if c {
      assert When(c, e)[..0] == [];
    }
  }

  lemma {:induction false} SchemaErrorsFacts(schema: seq<SchemaError>)
    ensures |SchemaErrors(schema)| == |schema|
    ensures forall id :: id in Rules(SchemaErrors(schema)) ==> id == "SCHEMA"
    ensures TimeOrDemoCount(SchemaErrors(schema)) == 0
  {
    var e := SchemaErrors(schema);
    if |schema| > 0 {
      SchemaErrorsFacts(schema[..|schema| - 1]);
      assert e[..|e| - 1] == SchemaErrors(schema[..|schema| - 1]);
      ConsistencyRuleIds();
    }
  }

  function Id(c: bool, id: string): seq<string>
  {
    if c then [id] else []
  }

  /** The ids of the firing rules, in their fixed order. */
  function RuleIds(f: RuleFlags): seq<string>
  {
    (Id(f.geo001, "GEO-001") + Id(f.geo002, "GEO-002")) + (Id(f.time002, "TIME-002") + Id(f.time005, "TIME-005"))
    + Id(f.demo001, "DEMO-001") + Id(f.meta006, "META-006")
  }

  lemma RuleErrorIds(f: RuleFlags)
    ensures Rules(RuleErrors(f)) == RuleIds(f)
  {
    var w1, w2, w3, w4, w5, w6 := When(f.geo001, Geo001), When(f.geo002, Geo002), When(f.time002, Time002),
      When(f.time005, Time005), When(f.demo001, Demo001), When(f.meta006, Meta006);
    RulesAppend((w1 + w2) + (w3 + w4) + w5, w6);
    RulesAppend((w1 + w2) + (w3 + w4), w5);
    RulesAppend(w1 + w2, w3 + w4);
    RulesAppend(w1, w2);
    RulesAppend(w3, w4);
    WhenFacts(f.geo001, Geo001);
    WhenFacts(f.geo002, Geo002);
    WhenFacts(f.time002, Time002);
    WhenFacts(f.time005, Time005);
    WhenFacts(f.demo001, Demo001);
    WhenFacts(f.meta006, Meta006);
    assert Rules(w1 + w2) == Id(f.geo001, "GEO-001") + Id(f.geo002, "GEO-002");
    assert Rules(w3 + w4) == Id(f.time002, "TIME-002") + Id(f.time005, "TIME-005");
  }

  /** At most the three TIME/DEMO rules count towards consistency. */
  lemma RuleErrorConsistency(f: RuleFlags)
    ensures TimeOrDemoCount(RuleErrors(f)) <= 3
  {
    CountSix(When(f.geo001, Geo001), When(f.geo002, Geo002), When(f.time002, Time002),
      When(f.time005, Time005), When(f.demo001, Demo001), When(f.meta006, Meta006));
    CountWhen(f.geo001, Geo001);
    CountWhen(f.geo002, Geo002);
    CountWhen(f.time002, Time002);
    CountWhen(f.time005, Time005);
    CountWhen(f.demo001, Demo001);
    CountWhen(f.meta006, Meta006);
    ConsistencyRuleIds();
  }

  lemma CountWhen(c: bool, e: ValidationError)
    ensures TimeOrDemoCount(When(c, e)) == if c && IsConsistencyRule(e.rule) then 1 else 0
  {
    if c {
      assert When(c, e)[..0] == [];
    }
  }

  /** The count over the six rule slots is the sum of the slots' counts. */
  lemma CountSix(w1: seq<ValidationError>, w2: seq<ValidationError>, w3: seq<ValidationError>,
                 w4: seq<ValidationError>, w5: seq<ValidationError>, w6: seq<ValidationError>)
    ensures TimeOrDemoCount((w1 + w2) + (w3 + w4) + w5 + w6)
      == TimeOrDemoCount(w1) + TimeOrDemoCount(w2) + TimeOrDemoCount(w3)
       + TimeOrDemoCount(w4) + TimeOrDemoCount(w5) + TimeOrDemoCount(w6)
  {
    TimeOrDemoCountAppend((w1 + w2) + (w3 + w4) + w5, w6);
    TimeOrDemoCountAppend((w1 + w2) + (w3 + w4), w5);
    TimeOrDemoCountAppend(w1 + w2, w3 + w4);
    TimeOrDemoCountAppend(w1, w2);
    TimeOrDemoCountAppend(w3, w4);
  }

  lemma IdsMembership(f: RuleFlags, ids: seq<string>)
    requires ids == RuleIds(f)
    ensures "SCHEMA" !in ids
    ensures "GEO-001" in ids <==> f.geo001
    ensures "GEO-002" in ids <==> f.geo002
    ensures "TIME-002" in ids <==> f.time002
    ensures "TIME-005" in ids <==> f.time005
    ensures "DEMO-001" in ids <==> f.demo001
    ensures "META-006" in ids <==> f.meta006
  {
  }

  /** The errors of a record that destructures: the schema errors in order, then one error
      per firing rule in the fixed order. */
  lemma ErrorListFacts(schema: seq<SchemaError>, f: RuleFlags)
    ensures var e := SchemaErrors(schema) + RuleErrors(f);
      && |schema| <= |e|
      && (forall i :: 0 <= i < |schema| ==> e[i] == FromSchemaError(schema[i]))
      && (forall i :: |schema| <= i < |e| ==> e[i].rule != "SCHEMA")
      && ("GEO-001" in Rules(e) <==> f.geo001)
      && ("GEO-002" in Rules(e) <==> f.geo002)
      && ("TIME-002" in Rules(e) <==> f.time002)
      && ("TIME-005" in Rules(e) <==> f.time005)
      && ("DEMO-001" in Rules(e) <==> f.demo001)
      && ("META-006" in Rules(e) <==> f.meta006)
      && TimeOrDemoCount(e) <= 3
  {
    var s := SchemaErrors(schema);
    var r := RuleErrors(f);
    var e := s + r;
    RulesAppend(s, r);
    TimeOrDemoCountAppend(s, r);
    SchemaErrorsFacts(schema);
    RuleErrorIds(f);
    RuleErrorConsistency(f);
    IdsMembership(f, Rules(r));
    forall i | |schema| <= i < |e| ensures e[i].rule != "SCHEMA" {
      assert e[i] == r[i - |schema|];
      assert Rules(r)[i - |schema|] == e[i].rule;
    }
  }

  /** The outcome of `validate` for a record that destructures, in terms of the flags. */
  lemma ValidationOutcome(data: Record, schema: seq<SchemaError>, host: Host)
    requires Validation(data, schema, host).Normal?
    ensures var v := Validation(data, schema, host).value;
      && v.errors == SchemaErrors(schema) + RuleErrors(Fired(data, host))
      && v.warnings == DemoWarnings(data, host)
      && v.qualityMetrics == MetricsOf(data, v.errors, v.warnings)
      && v.valid == (v.errors == [] && AtLeast(v.qualityMetrics.overall, 0.9))
  {
    CustomErrorsFollowFlags(data, host);
  }

  /** `validate` rejects exactly when the coordinates are truthy and not iterable. */
  lemma ValidationThrowsIff(data: Record, schema: seq<SchemaError>, host: Host)
    ensures Validation(data, schema, host).Thrown? <==> CoordinatesThrow(Coordinates(data))
    ensures Validation(data, schema, host).Thrown? ==> Validation(data, schema, host).message == NotIterable
  {
  }

  /** The schema errors come first, one per reported schema error and in the same order, each
      CRITICAL with rule SCHEMA, its path (or `root`) as field and its message (or
      `Validation failed`); no business-rule error carries rule SCHEMA. */
  lemma SchemaErrorsFirst(data: Record, schema: seq<SchemaError>, host: Host)
    requires Validation(data, schema, host).Normal?
    ensures var v := Validation(data, schema, host).value;
      && |schema| <= |v.errors|
      && (forall i :: 0 <= i < |schema| ==>
            && v.errors[i].severity == Critical
            && v.errors[i].rule == "SCHEMA"
            && v.errors[i].field == (if schema[i].instancePath == "" then "root" else schema[i].instancePath)
            && v.errors[i].message ==
                 (if schema[i].message == None || schema[i].message == Some("") then "Validation failed"
                  else schema[i].message.value))
      && (forall i :: |schema| <= i < |v.errors| ==> v.errors[i].rule != "SCHEMA")
  {
    ValidationOutcome(data, schema, host);
    ErrorListFacts(schema, Fired(data, host));
  }

  /** GEO-001 fires exactly when coordinates are present and the latitude lies outside
      [-90, 90]; GEO-002 exactly when they are present and the longitude lies outside
      [-180, 180]. */
  lemma GeoRulesIff(data: Record, schema: seq<SchemaError>, host: Host)
    requires Validation(data, schema, host).Normal?
    ensures var v := Validation(data, schema, host).value;
      var coords := Coordinates(data);
      && ("GEO-001" in Rules(v.errors) <==> Truthy(coords) && LatitudeOutOfRange(FirstTwo(coords.value).1, host))
      && ("GEO-002" in Rules(v.errors) <==> Truthy(coords) && LongitudeOutOfRange(FirstTwo(coords.value).0, host))
  {
    ValidationOutcome(data, schema, host);
    ErrorListFacts(schema, Fired(data, host));
  }

  /** TIME-002 fires exactly when both timestamps are present and created is later than
      modified; TIME-005 exactly when both are present and one of them is later than now. */
  lemma TimeRulesIff(data: Record, schema: seq<SchemaError>, host: Host)
    requires Validation(data, schema, host).Normal?
    ensures var v := Validation(data, schema, host).value;
      var both := Truthy(Created(data)) && Truthy(Modified(data));
      && ("TIME-002" in Rules(v.errors) <==>
            both && Later(DateValue(Created(data).value, host), DateValue(Modified(data).value, host)))
      && ("TIME-005" in Rules(v.errors) <==>
            both && (Later(DateValue(Created(data).value, host), Some(host.now))
                     || Later(DateValue(Modified(data).value, host), Some(host.now))))
  {
    ValidationOutcome(data, schema, host);
    ErrorListFacts(schema, Fired(data, host));
  }

  /** DEMO-001 fires exactly when demographics are present and the population is defined and
      negative; DEMO-003 is a warning, raised exactly when households and population are both
      truthy and households exceeds population, so a population of 0 never raises it. */
  lemma DemoRulesIff(data: Record, schema: seq<SchemaError>, host: Host)
    requires Validation(data, schema, host).Normal?
    ensures var v := Validation(data, schema, host).value;
      var d := Demographics(data);
      var population := Member(d, "population");
      var households := Member(d, "households");
      && ("DEMO-001" in Rules(v.errors) <==>
            Truthy(d) && population.Some? && LessThan(population, 0.0, host))
      && (v.warnings == [Demo003] <==>
            Truthy(d) && Truthy(households) && Truthy(population) && Greater(households, population, host))
      && (v.warnings == [] || v.warnings == [Demo003])
      && (population == Some(Num(0.0)) ==> v.warnings == [])
  {
    ValidationOutcome(data, schema, host);
    ErrorListFacts(schema, Fired(data, host));
  }

  /** META-006 fires exactly when the record lacks a truthy truthGovernorApproved, and such a
      record is never valid. */
  lemma Meta006Iff(data: Record, schema: seq<SchemaError>, host: Host)
    requires Validation(data, schema, host).Normal?
    ensures var v := Validation(data, schema, host).value;
      && ("META-006" in Rules(v.errors) <==> !Truthy(GovernorApproval(data)))
      && (!Truthy(GovernorApproval(data)) ==> !v.valid)
  {
    ValidationOutcome(data, schema, host);
    ErrorListFacts(schema, Fired(data, host));
    var v := Validation(data, schema, host).value;
    if "META-006" in Rules(v.errors) {
      assert v.errors != [];
    }
  }

  /** A record is valid exactly when there is no error and the overall score is at least 0.90;
      then it fired no rule and has no schema error. */
  lemma ValidIff(data: Record, schema: seq<SchemaError>, host: Host)
    requires Validation(data, schema, host).Normal?
    ensures var v := Validation(data, schema, host).value;
      && (v.valid <==> v.errors == [] && AtLeast(v.qualityMetrics.overall, 0.9))
      && (v.valid ==> schema == [] && Fired(data, host) == RuleFlags(false, false, false, false, false, false))
  {
    ValidationOutcome(data, schema, host);
    ErrorListFacts(schema, Fired(data, host));
  }

  /** Consistency counts at most the three TIME/DEMO errors and the one DEMO-003 warning, so
      it never drops below 0.6 and JavaScript's cap of 10 findings is never reached. */
  lemma ConsistencyAtLeast(data: Record, schema: seq<SchemaError>, host: Host)
    requires Validation(data, schema, host).Normal?
    ensures 0.6 <= Validation(data, schema, host).value.qualityMetrics.consistency <= 1.0
  {
    ValidationOutcome(data, schema, host);
    ErrorListFacts(schema, Fired(data, host));
    var v := Validation(data, schema, host).value;
    assert |v.warnings| <= 1;
    ConsistencyFloor(PresentCount(data, RequiredFields()), TotalFields(data), |ErrorFields(v.errors)|,
                     |v.warnings| + TimeOrDemoCount(v.errors));
  }

  /** A valid record has no error at all and, carrying the governor's approval, has keys, so
      its accuracy is exactly 1. */
  lemma ValidAccuracyIsOne(data: Record, schema: seq<SchemaError>, host: Host)
    requires Validation(data, schema, host).Normal?
    requires Validation(data, schema, host).value.valid
    ensures Validation(data, schema, host).value.qualityMetrics.accuracy == Finite(1.0)
  {
    ValidationOutcome(data, schema, host);
    ErrorListFacts(schema, Fired(data, host));
    var v := Validation(data, schema, host).value;
    assert Truthy(GovernorApproval(data));
    assert |data.entries| > 0;
    assert ErrorFields(v.errors) == {};
    PerfectAccuracy(PresentCount(data, RequiredFields()), TotalFields(data), |v.warnings| + TimeOrDemoCount(v.errors));
  }

  /** Warnings never decide validity: without an error, the record is valid exactly when at
      least eight of the ten required paths are present, whether or not DEMO-003 warned. */
  lemma ValidWithoutErrors(data: Record, schema: seq<SchemaError>, host: Host)
    requires Validation(data, schema, host).Normal?
    requires Validation(data, schema, host).value.errors == []
    ensures Validation(data, schema, host).value.valid <==> PresentCount(data, RequiredFields()) >= 8
  {
    ValidationOutcome(data, schema, host);
    ErrorListFacts(schema, Fired(data, host));
    var v := Validation(data, schema, host).value;
    assert Truthy(GovernorApproval(data));
    assert |data.entries| > 0;
    assert ErrorFields(v.errors) == {};
    assert |v.warnings| <= 1;
    CleanOverall(PresentCount(data, RequiredFields()), TotalFields(data), |v.warnings|);
  }
}
