/** The quality score of one record (schema-validator.ts, calculateQualityMetrics and its
    helpers): completeness over ten required paths, accuracy over every key and index of the
    record, consistency over the TIME/DEMO findings, and their weighted overall, each rounded
    to three decimals. */
module Quality {
  import opened JsonValue
  import opened Text

  /** A JavaScript number as the accuracy ratio can produce it: its denominator is zero for a
      record without keys, giving NaN (0/0) or -Infinity (negative/0). */
  datatype Score = Finite(value: real) | MinusInfinity | NaN

  datatype QualityMetrics = QualityMetrics(
    completeness: real,
    accuracy: Score,
    consistency: real,
    overall: Score)

  /** `x >= c`; false for NaN and -Infinity. */
  predicate AtLeast(x: Score, c: real)
  {
    x.Finite? && x.value >= c
  }

  /** `x < c`; false for NaN, true for -Infinity. */
  predicate Below(x: Score, c: real)
  {
    x.MinusInfinity? || (x.Finite? && x.value < c)
  }

  /** The dotted paths whose presence makes up completeness. */
  function RequiredFields(): (fields: seq<string>)
    ensures |fields| == 10
    ensures forall i :: 0 <= i < |fields| ==> fields[i] != ""
  {
    ["id", "type", "name.primary", "geometry.type", "geometry.coordinates",
     "metadata.created", "metadata.modified", "metadata.version",
     "metadata.source.provider", "metadata.source.ingestionDate"]
  }

  /** The dotted path leads to a value that is neither undefined nor null. */
  predicate FieldPresent(data: Json, field: string)
  {
    var v := Path(Some(data), Split(field, '.'));
    v.Some? && !v.value.Null?
  }

  /** How many of `fields` are present. */
  function PresentCount(data: Json, fields: seq<string>): (n: nat)
    ensures n <= |fields|
  {
    if |fields| == 0 then 0
    else PresentCount(data, fields[..|fields| - 1])
         + (if FieldPresent(data, fields[|fields| - 1]) then 1 else 0)
  }

  /** Once a read yields undefined or null, every further read yields undefined. */
  lemma {:induction false} PathStaysAbsent(v: Value, keys: seq<string>, j: nat)
    requires j < |keys|
    requires Path(v, keys[..j]).None? || Path(v, keys[..j]).value.Null?
    ensures Path(v, keys) == None
  {
    var n := |keys|;
    if j < n - 1 {
      assert keys[..n - 1][..j] == keys[..j];
      PathStaysAbsent(v, keys[..n - 1], j);
    } else {
      assert keys[..n - 1] == keys[..j];
    }
  }

  /** The filter of countPresentFields: walk each dotted path, stop at the first undefined or
      null, and count the paths that end on a value. */
  method CountPresentFields(data: Json, fields: seq<string>) returns (count: nat)
    ensures count == PresentCount(data, fields)
    ensures count <= |fields|
  {
    count := 0;
    for i := 0 to |fields|
      invariant count == PresentCount(data, fields[..i])
    {
      var keys := Split(fields[i], '.');
      var current: Value := Some(data);
      var reached := true;
      var j := 0;
      while j < |keys|
        invariant 0 <= j <= |keys|
        invariant reached ==> current == Path(Some(data), keys[..j])
        invariant !reached ==> Path(Some(data), keys) == None
        decreases |keys| - j, reached
      {
        if current.None? || current.value.Null? {
          PathStaysAbsent(Some(data), keys, j);
          reached := false;
          break;
        }
        current := Member(current, keys[j]);
        j := j + 1;
        assert keys[..j][..j - 1] == keys[..j - 1];
      }
      if reached {
        assert keys[..j] == keys;
      }
      var present := reached && current.Some? && !current.value.Null?;
      assert present == FieldPresent(data, fields[i]);
      if present {
        count := count + 1;
      }
      assert fields[..i + 1][..i] == fields[..i];
    }
    assert fields[..|fields|] == fields;
  }

  /** Object.keys counted over the whole record: every object's keys and, since Object.keys
      of an array lists its indices, every array's indices. */
  function TotalFields(v: Json): nat
    decreases v
  {
    match v
    case Arr(items) => |items| + ItemFields(items)
    case Obj(entries) => |entries| + EntryFields(entries)
    case _ => 0
  }

  function ItemFields(items: seq<Json>): nat
    decreases items
  {
    if |items| == 0 then 0
    else ItemFields(items[..|items| - 1]) + TotalFields(items[|items| - 1])
  }

  function EntryFields(entries: seq<Entry>): nat
    decreases entries
  {
    if |entries| == 0 then 0
    else EntryFields(entries[..|entries| - 1]) + TotalFields(entries[|entries| - 1].value)
  }

  /** The values of a record's tree, the root included. */
  function Nodes(v: Json): nat
    decreases v
  {
    match v
    case Arr(items) => 1 + ItemNodes(items)
    case Obj(entries) => 1 + EntryNodes(entries)
    case _ => 1
  }

  function ItemNodes(items: seq<Json>): nat
    decreases items
  {
    if |items| == 0 then 0 else ItemNodes(items[..|items| - 1]) + Nodes(items[|items| - 1])
  }

  function EntryNodes(entries: seq<Entry>): nat
    decreases entries
  {
    if |entries| == 0 then 0
    else EntryNodes(entries[..|entries| - 1]) + Nodes(entries[|entries| - 1].value)
  }

  /** Every value below the root is reached through exactly one key or index, so the count of
      keys and indices is the number of values in the tree less the root. */
  lemma {:induction false} TotalFieldsCountsValues(v: Json)
    ensures TotalFields(v) + 1 == Nodes(v)
    decreases v
  {
    match v
    case Arr(items) => ItemFieldsCountsValues(items);
    case Obj(entries) => EntryFieldsCountsValues(entries);
    case _ =>
  }

  lemma {:induction false} ItemFieldsCountsValues(items: seq<Json>)
    ensures ItemFields(items) + |items| == ItemNodes(items)
    decreases items
  {
    if |items| > 0 {
      ItemFieldsCountsValues(items[..|items| - 1]);
      TotalFieldsCountsValues(items[|items| - 1]);
    }
  }

  lemma {:induction false} EntryFieldsCountsValues(entries: seq<Entry>)
    ensures EntryFields(entries) + |entries| == EntryNodes(entries)
    decreases entries
  {
    if |entries| > 0 {
      EntryFieldsCountsValues(entries[..|entries| - 1]);
      TotalFieldsCountsValues(entries[|entries| - 1].value);
    }
  }

  /** The `traverse` closure of countTotalFields: add the keys of `obj` to the running count,
      then traverse each of its values. */
  method Traverse(obj: Json, count: nat) returns (total: nat)
    ensures total == count + TotalFields(obj)
    decreases obj
  {
    total := count;
    match obj {
      case Arr(items) =>
        total := total + |items|;
        for i := 0 to |items|
          invariant total == count + |items| + ItemFields(items[..i])
        {
          assert items[..i + 1][..i] == items[..i];
          total := Traverse(items[i], total);
        }
        assert items[..|items|] == items;
      case Obj(entries) =>
        total := total + |entries|;
        for i := 0 to |entries|
          invariant total == count + |entries| + EntryFields(entries[..i])
        {
          assert entries[..i + 1][..i] == entries[..i];
          assert entries[i] in entries;
          total := Traverse(entries[i].value, total);
        }
        assert entries[..|entries|] == entries;
      case _ =>
    }
  }

  method CountTotalFields(data: Json) returns (count: nat)
    ensures count == TotalFields(data)
    ensures count + 1 == Nodes(data)
  {
    count := Traverse(data, 0);
    TotalFieldsCountsValues(data);
  }

  /** `Math.round(x * 1000) / 1000`: Math.round rounds halves toward +Infinity. */
  function Round3(x: real): real
  {
    ((x * 1000.0 + 0.5).Floor as real) / 1000.0
  }

  function RoundScore(x: Score): Score
  {
    match x
    case Finite(v) => Finite(Round3(v))
    case _ => x
  }

  function Min(a: real, b: real): real
  {
    if a <= b then a else b
  }

  /** (total - errorFields) / total, with JavaScript's results for a zero denominator. */
  function AccuracyOf(total: nat, errorFields: nat): Score
  {
    if total > 0 then Finite((total as real - errorFields as real) / total as real)
    else if errorFields == 0 then NaN
    else MinusInfinity
  }

  function ConsistencyOf(checks: nat): real
  {
    1.0 - Min(checks as real / 10.0, 1.0)
  }

  /** 0.35 completeness + 0.35 accuracy + 0.30 consistency; NaN and -Infinity propagate. */
  function Weighted(completeness: real, accuracy: Score, consistency: real): Score
  {
    match accuracy
    case Finite(a) => Finite(completeness * 0.35 + a * 0.35 + consistency * 0.3)
    case _ => accuracy
  }

  /** calculateQualityMetrics once its four counts are known: `present` required paths found,
      `total` keys and indices, `errorFields` distinct error fields, `checks` consistency
      findings. */
  function Metrics(present: nat, total: nat, errorFields: nat, checks: nat): QualityMetrics
  {
    var completeness := present as real / |RequiredFields()| as real;
    var accuracy := AccuracyOf(total, errorFields);
    var consistency := ConsistencyOf(checks);
    QualityMetrics(
      Round3(completeness),
      RoundScore(accuracy),
      Round3(consistency),
      RoundScore(Weighted(completeness, accuracy, consistency)))
  }

  /** Rounding moves a value by at most half a thousandth and lands on a thousandth. */
  lemma Round3Close(x: real)
    ensures x - 0.0005 < Round3(x) <= x + 0.0005
    ensures (Round3(x) * 1000.0).Floor as real == Round3(x) * 1000.0
  {
    var f := (x * 1000.0 + 0.5).Floor;
    assert f as real <= x * 1000.0 + 0.5 < f as real + 1.0;
    assert Round3(x) * 1000.0 == f as real;
  }

  lemma Round3Monotone(x: real, y: real)
    requires x <= y
    ensures Round3(x) <= Round3(y)
  {
    var fx := (x * 1000.0 + 0.5).Floor;
    var fy := (y * 1000.0 + 0.5).Floor;
    assert fx as real <= x * 1000.0 + 0.5;
    assert y * 1000.0 + 0.5 < fy as real + 1.0;
    assert x * 1000.0 <= y * 1000.0;
    assert fx <= fy;
    assert Round3(x) == fx as real / 1000.0 && Round3(y) == fy as real / 1000.0;
  }

  /** Rounding keeps a value of [0, 1] in [0, 1]. */
  lemma Round3Unit(x: real)
    requires 0.0 <= x <= 1.0
    ensures 0.0 <= Round3(x) <= 1.0
  {
    Round3Monotone(0.0, x);
    Round3Monotone(x, 1.0);
    assert Round3(0.0) == 0.0 && Round3(1.0) == 1.0 by {
      assert (0.0 * 1000.0 + 0.5).Floor == 0;
      assert (1.0 * 1000.0 + 0.5).Floor == 1000;
    }
  }

  /** Completeness is present/10 and consistency is 1 - min(checks/10, 1), both in [0, 1] and
      both exact to three decimals. */
  lemma {:induction false} CompletenessAndConsistencyBounds(present: nat, total: nat, errorFields: nat, checks: nat)
    requires present <= |RequiredFields()|
    ensures var m := Metrics(present, total, errorFields, checks);
      && 0.0 <= m.completeness <= 1.0
      && 0.0 <= m.consistency <= 1.0
      && m.completeness == Round3(present as real / 10.0)
      && m.consistency == (if checks >= 10 then 0.0 else Round3(1.0 - checks as real / 10.0))
  {
    Round3Unit(present as real / 10.0);
    Round3Unit(ConsistencyOf(checks));
    if checks >= 10 {
      assert ConsistencyOf(checks) == 0.0;
      assert (0.0 * 1000.0 + 0.5).Floor == 0;
    }
  }

  /** Accuracy is finite exactly when the record has a key or index; then it is at most 1, and
      it is below 0 exactly when there are more distinct error fields than keys and indices. */
  lemma AccuracyRange(total: nat, errorFields: nat)
    ensures AccuracyOf(total, errorFields).Finite? <==> total > 0
    ensures total > 0 ==> AccuracyOf(total, errorFields).value <= 1.0
    ensures total > 0 ==> (AccuracyOf(total, errorFields).value < 0.0 <==> errorFields > total)
    ensures total == 0 && errorFields > 0 ==> AccuracyOf(total, errorFields).MinusInfinity?
  {
    if total > 0 {
      var t := total as real;
      var a := (t - errorFields as real) / t;
      assert a * t == t - errorFields as real;
    }
  }

  /** Before rounding, the overall score is the fixed convex combination of the other three;
      it lies in [0, 1] whenever accuracy does, and so does its rounded value. */
  lemma {:induction false} OverallIsWeighted(present: nat, total: nat, errorFields: nat, checks: nat)
    requires present <= |RequiredFields()|
    requires total > 0
    ensures var c := present as real / 10.0;
      var a := (total as real - errorFields as real) / total as real;
      var k := ConsistencyOf(checks);
      var m := Metrics(present, total, errorFields, checks);
      && m.overall == Finite(Round3(0.35 * c + 0.35 * a + 0.30 * k))
      && (errorFields <= total ==> 0.0 <= m.overall.value <= 1.0)
  {
    var c := present as real / 10.0;
    var t := total as real;
    var a := (t - errorFields as real) / t;
    var k := ConsistencyOf(checks);
    if errorFields <= total {
      assert a * t == t - errorFields as real;
      assert 0.0 <= a <= 1.0;
      assert 0.0 <= c <= 1.0;
      assert 0.0 <= k <= 1.0;
      Round3Unit(0.35 * c + 0.35 * a + 0.30 * k);
    }
  }

  /** With at most four consistency findings, consistency stays in [0.6, 1]. */
  lemma ConsistencyFloor(present: nat, total: nat, errorFields: nat, checks: nat)
    requires checks <= 4
    ensures 0.6 <= Metrics(present, total, errorFields, checks).consistency <= 1.0
  {
    var c := ConsistencyOf(checks);
    assert 0.6 <= c <= 1.0;
    Round3Monotone(0.6, c);
    Round3Monotone(c, 1.0);
    assert Round3(0.6) == 0.6 by { assert (0.6 * 1000.0 + 0.5).Floor == 600; }
    assert Round3(1.0) == 1.0 by { assert (1.0 * 1000.0 + 0.5).Floor == 1000; }
  }

  /** A record with keys and no error field has accuracy exactly 1. */
  lemma PerfectAccuracy(present: nat, total: nat, checks: nat)
    requires total > 0
    ensures Metrics(present, total, 0, checks).accuracy == Finite(1.0)
  {
    assert (total as real - 0 as real) / total as real == 1.0;
    assert Round3(1.0) == 1.0 by { assert (1.0 * 1000.0 + 0.5).Floor == 1000; }
  }

  /** With no error field and at most one consistency finding, the overall score reaches 0.9
      exactly when at least eight required paths are present: one finding costs 0.03, less
      than the 0.035 one required path is worth, so eight paths and a finding make exactly 0.9
      and seven paths without one make 0.895. */
  lemma CleanOverall(present: nat, total: nat, checks: nat)
    requires present <= |RequiredFields()|
    requires total > 0
    requires checks <= 1
    ensures AtLeast(Metrics(present, total, 0, checks).overall, 0.9) <==> present >= 8
  {
    var t := total as real;
    assert (t - 0 as real) / t == 1.0;
    assert ConsistencyOf(checks) == 1.0 - checks as real / 10.0;
    var x := (present as real / 10.0) * 0.35 + 1.0 * 0.35 + ConsistencyOf(checks) * 0.3;
    assert Metrics(present, total, 0, checks).overall == Finite(Round3(x));
    if present >= 8 {
      assert 0.9 <= x;
      Round3Monotone(0.9, x);
      assert Round3(0.9) == 0.9 by { assert (0.9 * 1000.0 + 0.5).Floor == 900; }
    } else {
      assert x <= 0.895;
      Round3Monotone(x, 0.895);
      assert Round3(0.895) == 0.895 by { assert (0.895 * 1000.0 + 0.5).Floor == 895; }
    }
  }
}
