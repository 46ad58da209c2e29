/** The Truth Governor (truth-governor.ts): a fixed-order policy engine over one record. The
    forbidden-action rules FA-001/002/003/005/008 and the required-validation rules
    RV-001/002/004/006 each yield a CRITICAL violation; the compliance checks GDPR-001,
    CCPA-001 and CLASS-001 yield warnings only. */
module TruthGovernor {
  import opened JsonValue
  import opened Text
  import opened SchemaValidator

  datatype Violation = Violation(ruleId: string, rule: string, reason: string, severity: string)

  datatype Warning = Warning(ruleId: string, message: string)

  datatype GovernorReview = GovernorReview(
    approved: bool,
    reason: Option<string>,    // None is undefined
    severity: Option<string>,  // None is undefined
    violations: seq<Violation>,
    warnings: seq<Warning>)

  /** The RV-004 minimums of the governance policy file, which is not part of this model. */
  datatype Thresholds = Thresholds(completeness: real, accuracy: real, consistency: real)

  /** The levels getEscalationLevel names L1_WARNING, L2_REJECTION and L3_CRITICAL. */
  datatype EscalationLevel = L1Warning | L2Rejection | L3Critical

  const Fa001 := Violation("FA-001", "manual_data_entry", "All data must come via validated API endpoints", "CRITICAL")
  const Fa002 := Violation("FA-002", "unvalidated_api_ingestion", "All API data must pass schema validation", "CRITICAL")
  const Fa003 := Violation("FA-003", "schema_bypass", "No operation may bypass canonical schema validation", "CRITICAL")
  const Fa005 := Violation("FA-005", "unauthorized_pii_access",
    "Personal Identifiable Information requires explicit authorization", "CRITICAL")
  const Fa008 := Violation("FA-008", "secret_hardcoding", "Secrets must never be hardcoded in source code", "CRITICAL")
  const Rv001 := Violation("RV-001", "schema_conformance", "All data must conform to canonical geo-object schema", "CRITICAL")
  const Rv002 := Violation("RV-002", "api_authentication",
    "All API requests must include valid authentication tokens", "CRITICAL")
  const Rv004 := Violation("RV-004", "data_quality_threshold",
    "Ingested data must meet minimum quality standards", "CRITICAL")
  const Rv006 := Violation("RV-006", "geographic_bounds_check",
    "Coordinates must be within valid geographic bounds", "CRITICAL")

  const Gdpr001 := Warning("GDPR-001", "EU data subject detected but GDPR compliance not confirmed")
  const Ccpa001 := Warning("CCPA-001", "California resident data detected but CCPA compliance not confirmed")
  const Class001 := Warning("CLASS-001", "Data classification not specified")

  const ForbiddenRules: seq<Violation> := [Fa001, Fa002, Fa003, Fa005, Fa008]
  const RequiredRules: seq<Violation> := [Rv001, Rv002, Rv004, Rv006]
  const ComplianceRules: seq<Warning> := [Gdpr001, Ccpa001, Class001]

  /** Every violation in the order review reports them. */
  const AllRules: seq<Violation> := ForbiddenRules + RequiredRules

  /** The TypeError `const [lon, lat] = record.geometry.coordinates` throws on a value that is
      not iterable; review names its own parameter, so the text differs from the validator's. */
  const RecordNotIterable := "record.geometry.coordinates is not iterable"

  const PiiFields: seq<string> := ["email", "phone", "ssn", "address", "firstName", "lastName"]

  const EuCountries: seq<string> :=
    ["AT", "BE", "BG", "HR", "CY", "CZ", "DK", "EE", "FI", "FR", "DE", "GR", "HU", "IE", "IT", "LV",
     "LT", "LU", "MT", "NL", "PL", "PT", "RO", "SK", "SI", "ES", "SE"]

  /** A run of `if (condition) push(item)`: the items whose condition holds, in order. */
  function Collect<T>(fired: seq<bool>, items: seq<T>): (r: seq<T>)
    requires |fired| == |items|
    ensures |r| <= |items|
  {
    if |fired| == 0 then [] else (if fired[0] then [items[0]] else []) + Collect(fired[1..], items[1..])
  }

  function Source(record: Record): Value
  {
    Member(Member(Some(record), "metadata"), "source")
  }

  function Governance(record: Record): Value
  {
    Member(Member(Some(record), "metadata"), "governance")
  }

  function QualityOf(record: Record): Value
  {
    Member(Member(Some(record), "metadata"), "quality")
  }

  function Location(record: Record): Value
  {
    Member(Member(Some(record), "properties"), "location")
  }

  /** The lower-cased JSON text of the record the text scans work on. */
  function LowerText(record: Record, host: Host): string
  {
    Lower(host.stringify(record))
  }

  /** containsFields: some field name, lower-cased, occurs in the lower-cased JSON text. */
  predicate ContainsFields(obj: Record, fields: seq<string>, host: Host)
  {
    exists i :: 0 <= i < |fields| && Includes(LowerText(obj, host), Lower(fields[i]))
  }

  predicate ContainsPII(record: Record, host: Host)
  {
    ContainsFields(record, PiiFields, host)
  }

  /** containsHardcodedSecrets: one of the six patterns matches the lower-cased JSON text. */
  predicate ContainsHardcodedSecrets(record: Record, host: Host)
  {
    var json := LowerText(record, host);
    (exists k :: 0 <= k < |SecretKeywords| && Includes(json, SecretKeywords[k]))
    || BearerMatch(json) || HasHexRun(json)
  }

  /** containsEUData: `includes` on the list finds only an identical string. */
  predicate ContainsEUData(record: Record)
  {
    var code := Member(Location(record), "countryCode");
    code.Some? && code.value.Str? && code.value.text in EuCountries
  }

  predicate ContainsCaliforniaData(record: Record)
  {
    Member(Location(record), "stateCode") == Some(Str("CA"))
  }

  /** The conditions of FA-001, 002, 003, 005 and 008. */
  function ForbiddenChecks(record: Record, host: Host): (c: seq<bool>)
    ensures |c| == |ForbiddenRules|
  {
    [ Member(Source(record), "ingestionMethod") == Some(Str("manual")),
      !Truthy(Member(QualityOf(record), "validationPassed")),
      Member(Governance(record), "schemaBypassed") == Some(Bool(true)),
      ContainsPII(record, host) && !Truthy(Member(Governance(record), "piiAuthorized")),
      ContainsHardcodedSecrets(record, host) ]
  }

  function CheckForbiddenActions(record: Record, host: Host): seq<Violation>
  {
    Collect(ForbiddenChecks(record, host), ForbiddenRules)
  }

  /** RV-004: some metric of the record's own quality block is below its minimum. */
  predicate BelowThresholds(quality: Value, t: Thresholds, host: Host)
  {
    LessThan(Member(quality, "completeness"), t.completeness, host)
    || LessThan(Member(quality, "accuracy"), t.accuracy, host)
    || LessThan(Member(quality, "consistency"), t.consistency, host)
  }

  /** The conditions of RV-001, 002, 004 and 006, for a record whose coordinates destructure. */
  function RequiredChecks(record: Record, thresholds: Option<Thresholds>, host: Host): (c: seq<bool>)
    requires !CoordinatesThrow(Coordinates(record))
    ensures |c| == |RequiredRules|
  {
    var top := Some(record);
    var coords := Coordinates(record);
    var quality := QualityOf(record);
    [ !Truthy(Member(top, "id")) || !Truthy(Member(top, "type")) || !Truthy(Member(top, "name"))
        || !Truthy(Member(top, "geometry")),
      !Truthy(Member(Source(record), "apiEndpoint")),
      Truthy(quality) && thresholds.Some? && BelowThresholds(quality, thresholds.value, host),
      Truthy(coords)
        && (LatitudeOutOfRange(FirstTwo(coords.value).1, host) || LongitudeOutOfRange(FirstTwo(coords.value).0, host)) ]
  }

  /** checkRequiredValidations, or the TypeError of its coordinate destructuring. */
  function CheckRequiredValidations(record: Record, thresholds: Option<Thresholds>, host: Host): Completion<seq<Violation>>
  {
    if CoordinatesThrow(Coordinates(record)) then Thrown(RecordNotIterable)
    else Normal(Collect(RequiredChecks(record, thresholds, host), RequiredRules))
  }

  /** The conditions of GDPR-001, CCPA-001 and CLASS-001. */
  function ComplianceChecks(record: Record): (c: seq<bool>)
    ensures |c| == |ComplianceRules|
  {
    var governance := Governance(record);
    [ ContainsEUData(record) && !Truthy(Member(governance, "gdprCompliant")),
      ContainsCaliforniaData(record) && !Truthy(Member(governance, "ccpaCompliant")),
      !Truthy(Member(governance, "dataClassification")) ]
  }

  function CheckComplianceRules(record: Record): seq<Warning>
  {
    Collect(ComplianceChecks(record), ComplianceRules)
  }

  /** `violations.filter(v => v.severity === 'CRITICAL')`. */
  function Criticals(violations: seq<Violation>): (r: seq<Violation>)
    ensures |r| <= |violations|
  {
    if |violations| == 0 then []
    else (if violations[0].severity == "CRITICAL" then [violations[0]] else []) + Criticals(violations[1..])
  }

  /** The review built from its violations and warnings. */
  function Verdict(violations: seq<Violation>, warnings: seq<Warning>): GovernorReview
  {
    var critical := Criticals(violations);
    GovernorReview(
      |critical| == 0,
      if |critical| > 0 then Some(critical[0].reason) else None,
      if |critical| > 0 then Some(critical[0].severity) else None,
      violations,
      warnings)
  }

  /** What `review` resolves to, or rejects with. */
  function Review(record: Record, thresholds: Option<Thresholds>, host: Host): Completion<GovernorReview>
  {
    var forbidden := CheckForbiddenActions(record, host);
    match CheckRequiredValidations(record, thresholds, host)
    case Thrown(message) => Thrown(message)
    case Normal(required) => Normal(Verdict(forbidden + required, CheckComplianceRules(record)))
  }

  /** getEscalationLevel: L3 when a violation is CRITICAL, else L2 when one is HIGH, else L1. */
  function GetEscalationLevel(violations: seq<Violation>): (level: EscalationLevel)
    ensures level == L3Critical <==> exists i :: 0 <= i < |violations| && violations[i].severity == "CRITICAL"
    ensures level == L2Rejection <==>
      (forall i :: 0 <= i < |violations| ==> violations[i].severity != "CRITICAL")
      && exists i :: 0 <= i < |violations| && violations[i].severity == "HIGH"
  {
    CriticalsFacts(violations);
    if |Criticals(violations)| > 0 then L3Critical
    else if |Highs(violations)| > 0 then L2Rejection
    else L1Warning
  }

  /** `violations.filter(v => v.severity === 'HIGH')`. */
  function Highs(violations: seq<Violation>): (r: seq<Violation>)
    ensures |r| > 0 <==> exists i :: 0 <= i < |violations| && violations[i].severity == "HIGH"
  {
    if |violations| == 0 then []
    else
      var rest := Highs(violations[1..]);
      assert (exists i :: 0 <= i < |violations| && violations[i].severity == "HIGH") <==>
        violations[0].severity == "HIGH" || exists i :: 0 <= i < |violations[1..]| && violations[1..][i].severity == "HIGH" by {
        if exists i :: 0 <= i < |violations| && violations[i].severity == "HIGH" {
          var i :| 0 <= i < |violations| && violations[i].severity == "HIGH";
          if i > 0 { assert violations[1..][i - 1] == violations[i]; }
        }
      }
      (if violations[0].severity == "HIGH" then [violations[0]] else []) + rest
  }

  // ---------------------------------------------------------------------------------------
  // Properties of the engine

  /** The items `Collect` keeps are exactly those whose condition holds. */
  lemma {:induction false} CollectMembers<T>(fired: seq<bool>, items: seq<T>, x: T)
    requires |fired| == |items|
    ensures x in Collect(fired, items) <==> exists i :: 0 <= i < |items| && fired[i] && items[i] == x
  {
    if |fired| > 0 {
      CollectMembers(fired[1..], items[1..], x);
      if exists i :: 0 <= i < |items| && fired[i] && items[i] == x {
        var i :| 0 <= i < |items| && fired[i] && items[i] == x;
        if i > 0 {
          assert fired[1..][i - 1] && items[1..][i - 1] == x;
        }
      }
      if x in Collect(fired[1..], items[1..]) {
        var i :| 0 <= i < |items| - 1 && fired[1..][i] && items[1..][i] == x;
        assert fired[i + 1] && items[i + 1] == x;
      }
    }
  }

  /** `a` is `b` with some items left out, the rest in their order. */
  predicate IsSubsequence<T(==)>(a: seq<T>, b: seq<T>)
    decreases |b|
  {
    |a| == 0 || (|b| > 0 && ((a[0] == b[0] && IsSubsequence(a[1..], b[1..])) || IsSubsequence(a, b[1..])))
  }

  /** `Collect` keeps its items in their order. */
  lemma {:induction false} CollectIsSubsequence<T>(fired: seq<bool>, items: seq<T>)
    requires |fired| == |items|
    ensures IsSubsequence(Collect(fired, items), items)
  {
    if |fired| > 0 {
      CollectIsSubsequence(fired[1..], items[1..]);
      var rest := Collect(fired[1..], items[1..]);
      if fired[0] {
        assert Collect(fired, items) == [items[0]] + rest;
        assert ([items[0]] + rest)[1..] == rest;
      } else {
        assert Collect(fired, items) == rest;
      }
    }
  }

  lemma {:induction false} CollectAppend<T>(f: seq<bool>, a: seq<T>, g: seq<bool>, b: seq<T>)
    requires |f| == |a| && |g| == |b|
    ensures Collect(f, a) + Collect(g, b) == Collect(f + g, a + b)
  {
    if |f| > 0 {
      CollectAppend(f[1..], a[1..], g, b);
      assert (f + g)[1..] == f[1..] + g && (a + b)[1..] == a[1..] + b;
    } else {
      assert f + g == g && a + b == b;
    }
  }

  /** With distinct items, the item at `k` is kept exactly when its condition holds. */
  lemma CollectKeeps<T>(fired: seq<bool>, items: seq<T>, k: nat)
    requires |fired| == |items| && k < |items|
    requires forall i, j :: 0 <= i < j < |items| ==> items[i] != items[j]
    ensures items[k] in Collect(fired, items) <==> fired[k]
  {
    CollectMembers(fired, items, items[k]);
  }

  lemma {:induction false} CriticalsKept(violations: seq<Violation>)
    ensures forall v :: v in Criticals(violations) ==> v in violations && v.severity == "CRITICAL"
  {
    if |violations| > 0 {
      var rest := violations[1..];
      CriticalsKept(rest);
      forall v | v in Criticals(violations) ensures v in violations && v.severity == "CRITICAL" {
        if v != violations[0] || violations[0].severity != "CRITICAL" {
          assert v in Criticals(rest);
        }
      }
    }
  }

  lemma {:induction false} CriticalsEmptyIff(violations: seq<Violation>)
    ensures |Criticals(violations)| == 0 <==> forall i :: 0 <= i < |violations| ==> violations[i].severity != "CRITICAL"
  {
    if |violations| > 0 && violations[0].severity != "CRITICAL" {
      var rest := violations[1..];
      CriticalsEmptyIff(rest);
      assert Criticals(violations) == Criticals(rest);
      if |Criticals(rest)| == 0 {
        forall i | 0 <= i < |violations| ensures violations[i].severity != "CRITICAL" {
          if i > 0 { assert violations[i] == rest[i - 1]; }
        }
      } else {
        var k :| 0 <= k < |rest| && rest[k].severity == "CRITICAL";
        assert violations[k + 1] == rest[k];
      }
    }
  }

  lemma {:induction false} CriticalsFirst(violations: seq<Violation>)
    ensures |Criticals(violations)| > 0 ==>
      exists i :: 0 <= i < |violations| && violations[i] == Criticals(violations)[0]
        && violations[i].severity == "CRITICAL"
        && forall j :: 0 <= j < i ==> violations[j].severity != "CRITICAL"
  {
    if |violations| > 0 {
      var rest := violations[1..];
      if violations[0].severity != "CRITICAL" {
        CriticalsFirst(rest);
        assert Criticals(violations) == Criticals(rest);
        if |Criticals(rest)| > 0 {
          var i :| 0 <= i < |rest| && rest[i] == Criticals(rest)[0] && rest[i].severity == "CRITICAL"
            && forall j :: 0 <= j < i ==> rest[j].severity != "CRITICAL";
          assert violations[i + 1] == rest[i];
          forall j | 0 <= j < i + 1 ensures violations[j].severity != "CRITICAL" {
            if j > 0 { assert violations[j] == rest[j - 1]; }
          }
          assert violations[i + 1] == Criticals(violations)[0];
        }
      } else {
        assert Criticals(violations)[0] == violations[0];
      }
    }
  }

  /** The CRITICAL filter keeps only CRITICAL violations, is empty exactly when none is
      CRITICAL, and starts with the first CRITICAL violation. */
  lemma CriticalsFacts(violations: seq<Violation>)
    ensures forall v :: v in Criticals(violations) ==> v in violations && v.severity == "CRITICAL"
    ensures |Criticals(violations)| == 0 <==> forall i :: 0 <= i < |violations| ==> violations[i].severity != "CRITICAL"
    ensures |Criticals(violations)| > 0 ==>
      exists i :: 0 <= i < |violations| && violations[i] == Criticals(violations)[0]
        && violations[i].severity == "CRITICAL"
        && forall j :: 0 <= j < i ==> violations[j].severity != "CRITICAL"
  {
    CriticalsKept(violations);
    CriticalsEmptyIff(violations);
    CriticalsFirst(violations);
  }

  /** approved holds exactly when no violation is CRITICAL; otherwise reason and severity are
      those of the first CRITICAL violation, and both are undefined when approved. */
  lemma VerdictFacts(violations: seq<Violation>, warnings: seq<Warning>)
    ensures var r := Verdict(violations, warnings);
      && (r.approved <==> forall i :: 0 <= i < |violations| ==> violations[i].severity != "CRITICAL")
      && (r.approved <==> r.reason.None? && r.severity.None?)
      && (!r.approved ==>
            && r.severity == Some("CRITICAL")
            && exists i :: 0 <= i < |violations| && violations[i].severity == "CRITICAL"
                 && r.reason == Some(violations[i].reason)
                 && forall j :: 0 <= j < i ==> violations[j].severity != "CRITICAL")
      && r.violations == violations && r.warnings == warnings
  {
    CriticalsFacts(violations);
    if |Criticals(violations)| > 0 {
      assert Criticals(violations)[0] in Criticals(violations);
    }
  }

  /** The checks of all nine rules, in review's order. */
  function Checks(record: Record, thresholds: Option<Thresholds>, host: Host): (c: seq<bool>)
    requires !CoordinatesThrow(Coordinates(record))
    ensures |c| == |AllRules|
  {
    ForbiddenChecks(record, host) + RequiredChecks(record, thresholds, host)
  }

  /** `review` rejects exactly when the coordinates are truthy and not iterable; otherwise its
      violations are those of the rules whose condition holds, in the fixed order, and its
      warnings those of the compliance checks that hold. */
  lemma ReviewOutcome(record: Record, thresholds: Option<Thresholds>, host: Host)
    ensures Review(record, thresholds, host).Thrown? <==> CoordinatesThrow(Coordinates(record))
    ensures Review(record, thresholds, host).Thrown? ==> Review(record, thresholds, host).message == RecordNotIterable
    ensures Review(record, thresholds, host).Normal? ==>
      && Review(record, thresholds, host) ==
           Normal(Verdict(Collect(Checks(record, thresholds, host), AllRules), CheckComplianceRules(record)))
  {
    if !CoordinatesThrow(Coordinates(record)) {
      CollectAppend(ForbiddenChecks(record, host), ForbiddenRules, RequiredChecks(record, thresholds, host), RequiredRules);
    }
  }

  lemma AllRulesDistinct()
    ensures forall i, j :: 0 <= i < j < |AllRules| ==> AllRules[i] != AllRules[j]
    ensures forall i :: 0 <= i < |AllRules| ==> AllRules[i].severity == "CRITICAL"
  {
  }

  lemma ComplianceRulesDistinct()
    ensures forall i, j :: 0 <= i < j < |ComplianceRules| ==> ComplianceRules[i] != ComplianceRules[j]
  {
  }

  /** Every rule emits CRITICAL, so a review is approved exactly when it has no violation, and
      then has neither reason nor severity; a rejected review carries the first violation's
      reason. */
  lemma ApprovedIffNoViolations(record: Record, thresholds: Option<Thresholds>, host: Host)
    requires Review(record, thresholds, host).Normal?
    ensures var r := Review(record, thresholds, host).value;
      && (r.approved <==> r.violations == [])
      && (r.approved <==> r.reason.None? && r.severity.None?)
      && (!r.approved ==> r.reason == Some(r.violations[0].reason) && r.severity == Some("CRITICAL"))
  {
    ReviewOutcome(record, thresholds, host);
    var vs := Collect(Checks(record, thresholds, host), AllRules);
    var r := Review(record, thresholds, host).value;
    VerdictFacts(vs, CheckComplianceRules(record));
    AllCritical(Checks(record, thresholds, host), vs);
    if !r.approved {
      var i :| 0 <= i < |vs| && vs[i].severity == "CRITICAL" && r.reason == Some(vs[i].reason)
        && forall j :: 0 <= j < i ==> vs[j].severity != "CRITICAL";
      if i > 0 { assert vs[0].severity == "CRITICAL"; }
    }
  }

  lemma AllCritical(checks: seq<bool>, vs: seq<Violation>)
    requires |checks| == |AllRules| && vs == Collect(checks, AllRules)
    ensures forall i :: 0 <= i < |vs| ==> vs[i].severity == "CRITICAL"
  {
    AllRulesDistinct();
    forall i | 0 <= i < |vs| ensures vs[i].severity == "CRITICAL" {
      CollectMembers(checks, AllRules, vs[i]);
    }
  }

  /** The violations appear in the fixed order FA-001, 002, 003, 005, 008, RV-001, 002, 004,
      006, each at most once. */
  lemma ViolationOrder(record: Record, thresholds: Option<Thresholds>, host: Host)
    requires Review(record, thresholds, host).Normal?
    ensures IsSubsequence(Review(record, thresholds, host).value.violations, AllRules)
  {
    ReviewOutcome(record, thresholds, host);
    CollectIsSubsequence(Checks(record, thresholds, host), AllRules);
  }

  /** The rule at position `k` of the fixed order fires exactly when its check holds: every
      rule is evaluated, none short-circuits another. */
  lemma RuleFires(record: Record, thresholds: Option<Thresholds>, host: Host, k: nat)
    requires Review(record, thresholds, host).Normal?
    requires k < |AllRules|
    ensures AllRules[k] in Review(record, thresholds, host).value.violations <==> Checks(record, thresholds, host)[k]
  {
    ReviewOutcome(record, thresholds, host);
    AllRulesDistinct();
    CollectKeeps(Checks(record, thresholds, host), AllRules, k);
  }

  /** FA-001: manual ingestion; FA-002: validationPassed not truthy; FA-003: schemaBypassed is
      exactly true; FA-005: a PII name occurs in the text and piiAuthorized is not truthy;
      FA-008: a secret pattern matches. */
  lemma ForbiddenRulesIff(record: Record, thresholds: Option<Thresholds>, host: Host)
    requires Review(record, thresholds, host).Normal?
    ensures var vs := Review(record, thresholds, host).value.violations;
      && (Fa001 in vs <==> Member(Source(record), "ingestionMethod") == Some(Str("manual")))
      && (Fa002 in vs <==> !Truthy(Member(QualityOf(record), "validationPassed")))
      && (Fa003 in vs <==> Member(Governance(record), "schemaBypassed") == Some(Bool(true)))
      && (Fa005 in vs <==> ContainsPII(record, host) && !Truthy(Member(Governance(record), "piiAuthorized")))
      && (Fa008 in vs <==> ContainsHardcodedSecrets(record, host))
  {
    RuleFires(record, thresholds, host, 0);
    RuleFires(record, thresholds, host, 1);
    RuleFires(record, thresholds, host, 2);
    RuleFires(record, thresholds, host, 3);
    RuleFires(record, thresholds, host, 4);
  }

  /** RV-001: one of id, type, name, geometry not truthy; RV-002: apiEndpoint not truthy;
      RV-004: a quality block, configured thresholds and a metric below its minimum; RV-006:
      coordinates present and out of the same bounds GEO-001/002 check. */
  lemma RequiredRulesIff(record: Record, thresholds: Option<Thresholds>, host: Host)
    requires Review(record, thresholds, host).Normal?
    ensures var vs := Review(record, thresholds, host).value.violations;
      var top := Some(record);
      var coords := Coordinates(record);
      && (Rv001 in vs <==>
            !Truthy(Member(top, "id")) || !Truthy(Member(top, "type"))
            || !Truthy(Member(top, "name")) || !Truthy(Member(top, "geometry")))
      && (Rv002 in vs <==> !Truthy(Member(Source(record), "apiEndpoint")))
      && (Rv004 in vs <==>
            Truthy(QualityOf(record)) && thresholds.Some?
            && BelowThresholds(QualityOf(record), thresholds.value, host))
      && (thresholds.None? ==> Rv004 !in vs)
      && (Rv006 in vs <==>
            Truthy(coords)
            && (LatitudeOutOfRange(FirstTwo(coords.value).1, host) || LongitudeOutOfRange(FirstTwo(coords.value).0, host)))
  {
    RuleFires(record, thresholds, host, 5);
    RuleFires(record, thresholds, host, 6);
    RuleFires(record, thresholds, host, 7);
    RuleFires(record, thresholds, host, 8);
  }

  /** FA-005 as a text property: a record whose text mentions an email is flagged unless PII
      access is authorised. */
  lemma EmailNeedsAuthorization(record: Record, thresholds: Option<Thresholds>, host: Host)
    requires Review(record, thresholds, host).Normal?
    requires Includes(LowerText(record, host), "email")
    requires !Truthy(Member(Governance(record), "piiAuthorized"))
    ensures !Review(record, thresholds, host).value.approved
  {
    EmailIsPii(record, host);
    ForbiddenRulesIff(record, thresholds, host);
    ApprovedIffNoViolations(record, thresholds, host);
  }

  /** FA-002: a record whose quality block does not say it passed validation is not approved. */
  lemma UnvalidatedNotApproved(record: Record, thresholds: Option<Thresholds>, host: Host)
    requires Review(record, thresholds, host).Normal?
    requires !Truthy(Member(QualityOf(record), "validationPassed"))
    ensures !Review(record, thresholds, host).value.approved
  {
    ForbiddenRulesIff(record, thresholds, host);
    ApprovedIffNoViolations(record, thresholds, host);
  }

  lemma EmailIsPii(record: Record, host: Host)
    requires Includes(LowerText(record, host), "email")
    ensures ContainsPII(record, host)
  {
    LowerKeeps(PiiFields[0]);
  }

  /** The compliance checks yield warnings only: GDPR-001 for an EU country code without
      gdprCompliant, CCPA-001 for California without ccpaCompliant, CLASS-001 exactly when
      dataClassification is not truthy; approval, reason and severity depend on the violations
      alone. */
  lemma ComplianceWarningsIff(record: Record, thresholds: Option<Thresholds>, host: Host)
    requires Review(record, thresholds, host).Normal?
    ensures var r := Review(record, thresholds, host).value;
      var governance := Governance(record);
      && (Gdpr001 in r.warnings <==> ContainsEUData(record) && !Truthy(Member(governance, "gdprCompliant")))
      && (Ccpa001 in r.warnings <==> ContainsCaliforniaData(record) && !Truthy(Member(governance, "ccpaCompliant")))
      && (Class001 in r.warnings <==> !Truthy(Member(governance, "dataClassification")))
      && (forall w :: w in r.warnings ==> w in ComplianceRules)
      && r == Verdict(r.violations, r.warnings)
      && (forall other :: var s := Verdict(r.violations, other);
            s.approved == r.approved && s.reason == r.reason && s.severity == r.severity)
  {
    ReviewOutcome(record, thresholds, host);
    ComplianceRulesDistinct();
    var c := ComplianceChecks(record);
    CollectKeeps(c, ComplianceRules, 0);
    CollectKeeps(c, ComplianceRules, 1);
    CollectKeeps(c, ComplianceRules, 2);
    forall w | w in Review(record, thresholds, host).value.warnings ensures w in ComplianceRules {
      CollectMembers(c, ComplianceRules, w);
    }
  }

  /** A review that is not approved escalates to L3_CRITICAL, and an approved one, having no
      violation, to L1_WARNING. */
  lemma ReviewEscalation(record: Record, thresholds: Option<Thresholds>, host: Host)
    requires Review(record, thresholds, host).Normal?
    ensures var r := Review(record, thresholds, host).value;
      GetEscalationLevel(r.violations) == (if r.approved then L1Warning else L3Critical)
  {
    ApprovedIffNoViolations(record, thresholds, host);
    var r := Review(record, thresholds, host).value;
    if !r.approved {
      assert r.violations[0].severity == "CRITICAL" by {
        ReviewOutcome(record, thresholds, host);
        AllCritical(Checks(record, thresholds, host), r.violations);
      }
    }
  }
}
