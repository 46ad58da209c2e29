/** JSON values as the ingestion gate receives them, and the JavaScript operations the
    validators apply to them: optional-chained property reads, truthiness, numeric and
    string conversion for relational comparisons, and `new Date(v)`. */
module JsonValue {

  datatype Option<+T> = None | Some(value: T)

  /** How a JavaScript call ends: with a value, or by throwing an error with a message. */
  datatype Completion<+T> = Normal(value: T) | Thrown(message: string)

  datatype Json =
    | Null
    | Bool(flag: bool)
    | Num(num: real)
    | Str(text: string)
    | Arr(items: seq<Json>)
    | Obj(entries: seq<Entry>)

  /** One own property of an object, in insertion order. */
  datatype Entry = Entry(key: string, value: Json)

  /** A fetched record: the connector always yields JSON objects. */
  type Record = j: Json | j.Obj? witness Obj([])

  /** A JavaScript value read out of a record: None is `undefined`. */
  type Value = Option<Json>

  /** What the JavaScript runtime supplies and the core cannot see: the clock, Date string
      parsing, string-to-number conversion and JSON serialisation. */
  datatype Host = Host(
    now: int,                               // Date.now(), in milliseconds
    isoNow: string,                         // new Date().toISOString()
    parseDate: string -> Option<int>,       // time value of new Date(s); None is an Invalid Date
    stringToNumber: string -> Option<real>, // StringToNumber(s); None is NaN
    stringify: Json -> string)              // JSON.stringify(v)

  /** The value of the first entry named `key`. */
  function Lookup(entries: seq<Entry>, key: string): (r: Value)
    ensures r.Some? <==> exists i :: 0 <= i < |entries| && entries[i].key == key
    ensures r.Some? ==> exists i :: 0 <= i < |entries| && entries[i] == Entry(key, r.value)
  {
    if |entries| == 0 then None
    else if entries[0].key == key then Some(entries[0].value)
    else
      var r := Lookup(entries[1..], key);
      assert r.Some? ==> exists i :: 1 <= i < |entries| && entries[i] == Entry(key, r.value) by {
        if r.Some? {
          var i :| 0 <= i < |entries| - 1 && entries[1..][i] == Entry(key, r.value);
          assert entries[i + 1] == Entry(key, r.value);
        }
      }
      assert (exists i :: 0 <= i < |entries| && entries[i].key == key) ==>
             (exists i :: 0 <= i < |entries[1..]| && entries[1..][i].key == key) by {
        if exists i :: 0 <= i < |entries| && entries[i].key == key {
          var i :| 0 <= i < |entries| && entries[i].key == key;
          assert entries[1..][i - 1].key == key;
        }
      }
      r
  }

  /** `obj[key] = value` on an object's entries: the first entry named `key` takes the value in
      place, or a new entry is appended. Every other key reads as before. */
  function SetKey(entries: seq<Entry>, key: string, value: Json): (r: seq<Entry>)
    ensures Lookup(r, key) == Some(value)
    ensures forall k :: k != key ==> Lookup(r, k) == Lookup(entries, k)
  {
    if |entries| == 0 then [Entry(key, value)]
    else if entries[0].key == key then [Entry(key, value)] + entries[1..]
    else
      var rest := SetKey(entries[1..], key, value);
      assert ([entries[0]] + rest)[1..] == rest;
      [entries[0]] + rest
  }

  /** `v?.key`. Reading from undefined or null yields undefined; only objects carry the keys
      the gate reads (none of them is an array index, `length` or an inherited name). */
  function Member(v: Value, key: string): (r: Value)
    ensures r.Some? ==> v.Some? && v.value.Obj?
  {
    match v
    case Some(Obj(entries)) => Lookup(entries, key)
    case _ => None
  }

  /** The value reached by reading `keys` one after another from `v`. */
  function Path(v: Value, keys: seq<string>): Value
  {
    if |keys| == 0 then v else Member(Path(v, keys[..|keys| - 1]), keys[|keys| - 1])
  }

  /** JavaScript truthiness (NaN is not a value of this model). */
  predicate Truthy(v: Value)
  {
    match v
    case None => false
    case Some(Null) => false
    case Some(Bool(b)) => b
    case Some(Num(x)) => x != 0.0
    case Some(Str(s)) => s != ""
    case Some(_) => true
  }

  /** ToNumber(v); None is NaN. An array converts through its joined text: the empty array
      is 0, a one-element array converts as its element does, a longer one joins with a comma
      and is NaN; an object's text "[object Object]" is NaN. */
  function ToNumber(v: Value, host: Host): Option<real>
  {
    match v
    case None => None
    case Some(Null) => Some(0.0)
    case Some(Bool(b)) => Some(if b then 1.0 else 0.0)
    case Some(Num(x)) => Some(x)
    case Some(Str(s)) => host.stringToNumber(s)
    case Some(Arr(items)) => ArrayToNumber(items, host)
    case Some(Obj(_)) => None
  }

  function ArrayToNumber(items: seq<Json>, host: Host): Option<real>
    decreases items
  {
    if |items| == 0 then Some(0.0)
    else if |items| > 1 then None
    else match items[0]
      case Null => Some(0.0)
      case Bool(_) => None
      case Num(x) => Some(x)
      case Str(s) => host.stringToNumber(s)
      case Arr(inner) => ArrayToNumber(inner, host)
      case Obj(_) => None
  }

  /** `v < c` for a number literal c: false when v converts to NaN. */
  predicate LessThan(v: Value, c: real, host: Host)
  {
    var n := ToNumber(v, host); n.Some? && n.value < c
  }

  /** `v > c` for a number literal c: false when v converts to NaN. */
  predicate GreaterThan(v: Value, c: real, host: Host)
  {
    var n := ToNumber(v, host); n.Some? && n.value > c
  }

  /** The text an array's join yields, when no number sits inside it (number formatting is
      the runtime's). Null elements give the empty string. */
  function JoinedText(items: seq<Json>): Option<string>
    decreases items
  {
    if |items| == 0 then Some("")
    else
      var head := match items[0]
        case Null => Some("")
        case Bool(b) => Some(if b then "true" else "false")
        case Num(_) => None
        case Str(s) => Some(s)
        case Arr(inner) => JoinedText(inner)
        case Obj(_) => Some("[object Object]");
      if |items| == 1 then head
      else
        var rest := JoinedText(items[1..]);
        if head.Some? && rest.Some? then Some(head.value + "," + rest.value) else None
  }

  /** The string ToPrimitive yields for a string, array or object. */
  function PrimitiveText(v: Json): Option<string>
  {
    match v
    case Str(s) => Some(s)
    case Arr(items) => JoinedText(items)
    case Obj(_) => Some("[object Object]")
    case _ => None
  }

  /** JavaScript's string order, lexicographic; characters compare by code point here, where
      JavaScript compares UTF-16 code units. */
  predicate StringLess(a: string, b: string)
  {
    if |b| == 0 then false
    else if |a| == 0 then true
    else if a[0] != b[0] then a[0] < b[0]
    else StringLess(a[1..], b[1..])
  }

  /** `x > y` for two values read from a record: a string comparison when both sides turn into
      strings, a numeric one otherwise (NaN compares false). */
  predicate Greater(x: Value, y: Value, host: Host)
  {
    if x.Some? && y.Some? && PrimitiveText(x.value).Some? && PrimitiveText(y.value).Some? then
      StringLess(PrimitiveText(y.value).value, PrimitiveText(x.value).value)
    else
      var nx := ToNumber(x, host);
      var ny := ToNumber(y, host);
      nx.Some? && ny.Some? && nx.value > ny.value
  }

  /** ToIntegerOrInfinity on a finite number: truncation toward zero. */
  function Truncate(x: real): (r: int)
    ensures 0.0 <= x ==> r as real <= x < r as real + 1.0
    ensures x < 0.0 ==> r as real - 1.0 < x <= r as real
  {
    if x >= 0.0 then x.Floor else -((-x).Floor)
  }

  /** The largest time value a Date can hold, 8.64e15 milliseconds. */
  const MaxTime: real := 8640000000000000.0

  /** The time value of `new Date(v)`; None is an Invalid Date. A number goes through TimeClip,
      a string through the runtime's parser, an array or object through its text. */
  function DateValue(v: Json, host: Host): Option<int>
  {
    match v
    case Null => Some(0)
    case Bool(b) => Some(if b then 1 else 0)
    case Num(x) => if x < -MaxTime || MaxTime < x then None else Some(Truncate(x))
    case _ => var t := PrimitiveText(v); if t.Some? then host.parseDate(t.value) else None
  }

  /** Whether `const [a, b] = v` succeeds: only strings and arrays are iterable. */
  predicate Iterable(v: Json)
  {
    v.Str? || v.Arr?
  }

  /** The first two elements `const [a, b] = v` binds: the first two characters of a string,
      the first two elements of an array, undefined past the end. */
  function FirstTwo(v: Json): (Value, Value)
    requires Iterable(v)
  {
    match v
    case Str(s) =>
      (if |s| > 0 then Some(Str([s[0]])) else None, if |s| > 1 then Some(Str([s[1]])) else None)
    case Arr(items) =>
      (if |items| > 0 then Some(items[0]) else None, if |items| > 1 then Some(items[1]) else None)
  }
}
