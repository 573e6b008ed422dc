/**
 * The schema-directed codec. One traversal serves both directions: it spends one budget of nodes,
 * checks depth, lengths and types, and converts the leaves.
 */
module CodecModel {
  import opened Basics
  import Base64
  import Decimal

  /** A JavaScript number; finite ones other than negative zero are their real value. */
  datatype Number = Finite(value: real) | NegativeZero | NaN | PositiveInfinity | NegativeInfinity

  /** Any value the codec may be handed, native or wire. `Odd` is everything it refuses outright. */
  datatype Value =
    | Bool(flag: bool)
    | Text(text: string)
    | Num(number: Number)
    | Big(integer: int)
    | Raw(bytes: seq<Byte>)
    | List(items: seq<Value>)
    | Record(fields: map<string, Value>)
    | Odd

  datatype Bounds = Bounds(length: Option<nat>, maxLength: Option<nat>)

  datatype Field =
    | BooleanField
    | StringField(bounds: Bounds)
    | IntegerField(bits: nat, signed: bool)
    | FloatField(bits: nat)
    | BytesField(bounds: Bounds)
    | ArrayField(element: Field, bounds: Bounds)
    | ObjectField(fields: seq<Named>)

  datatype Named = Named(name: string, field: Field)

  /** Resource limits, and the rounding of a double to float32. */
  datatype Options = Options(
    maxDepth: nat, maxArrayLength: nat, maxStringBytes: nat, maxByteLength: nat, maxNodes: nat,
    allowNonFinite: bool, fround: Number -> Number)

  function Names(fields: seq<Named>): set<string> {
    set n | n in fields :: n.name
  }

  predicate DistinctNames(fields: seq<Named>) {
    forall i, j :: 0 <= i < j < |fields| ==> fields[i].name != fields[j].name
  }

  /** What schema validation guarantees: supported widths, and object fields named once. */
  predicate WellFormed(f: Field) {
    match f
    case IntegerField(bits, _) => bits in {8, 16, 32, 64}
    case FloatField(bits) => bits == 32 || bits == 64
    case ArrayField(element, _) => WellFormed(element)
    case ObjectField(fields) => DistinctNames(fields) && forall i :: 0 <= i < |fields| ==> WellFormed(fields[i].field)
    case _ => true
  }

  predicate IsFinite(n: Number) {
    n.Finite? || n.NegativeZero?
  }

  /** Rounding is idempotent; nothing else about it is used. */
  ghost predicate Rounding(o: Options) {
    forall n: Number :: o.fround(o.fround(n)) == o.fround(n)
  }

  function Utf8Length(text: string): nat {
    if text == "" then 0
    else
      var c := text[0] as int;
      (if c < 0x80 then 1 else if c < 0x800 then 2 else if c < 0x10000 then 3 else 4) + Utf8Length(text[1..])
  }

  predicate Fits(size: nat, bounds: Bounds, limit: nat) {
    && size <= limit
    && (bounds.length.Some? ==> size == bounds.length.value)
    && (bounds.maxLength.Some? ==> size <= bounds.maxLength.value)
  }

  function Pow2(bits: nat): nat {
    if bits == 8 then 0x100 else if bits == 16 then 0x1_0000 else if bits == 32 then 0x1_0000_0000
    else 0x1_0000_0000_0000_0000
  }

  predicate IntegerRange(bits: nat, signed: bool, i: int) {
    if signed then -(Pow2(bits) / 2) <= i < Pow2(bits) / 2 else 0 <= i < Pow2(bits)
  }

  predicate Integral(n: Number) {
    n.NegativeZero? || (n.Finite? && n.value.Floor as real == n.value)
  }

  function IntegralValue(n: Number): int
    requires Integral(n)
  {
    if n.NegativeZero? then 0 else n.value.Floor
  }

  function Integer(bits: nat, signed: bool, v: Value, encode: bool): Result<Value> {
    if bits == 64 then
      if encode then
        if !v.Big? then Err("64-bit integer type")
        else if !IntegerRange(64, signed, v.integer) then Err("integer range")
        else Ok(Text(Decimal.PrintInt(v.integer)))
      else if !v.Text? || |v.text| > 20 then Err("64-bit decimal length")
      else if !Decimal.CanonicalInt(v.text) then Err("canonical decimal")
      else if !IntegerRange(64, signed, Decimal.ParseInt(v.text)) then Err("integer range")
      else Ok(Big(Decimal.ParseInt(v.text)))
    else if !v.Num? || !Integral(v.number) then Err("integer type")
    else if !IntegerRange(bits, signed, IntegralValue(v.number)) then Err("integer range")
    else Ok(Num(Finite(IntegralValue(v.number) as real)))
  }

  function Tag(n: Number): string
    requires !IsFinite(n)
  {
    if n.NaN? then "NaN" else if n.PositiveInfinity? then "Infinity" else "-Infinity"
  }

  function Untag(text: string): Option<Number> {
    if text == "NaN" then Some(NaN)
    else if text == "Infinity" then Some(PositiveInfinity)
    else if text == "-Infinity" then Some(NegativeInfinity)
    else None
  }

  function Round(o: Options, bits: nat, n: Number): Number {
    if bits == 32 then o.fround(n) else n
  }

  function Floating(o: Options, bits: nat, v: Value, encode: bool): Result<Value> {
    if !encode && v.Text? then
      if o.allowNonFinite && Untag(v.text).Some? then Ok(Num(Untag(v.text).value)) else Err("float tag")
    else if !v.Num? then Err("float type")
    else if !IsFinite(v.number) then
      if encode && o.allowNonFinite then Ok(Text(Tag(v.number))) else Err("non-finite float")
    else if !IsFinite(Round(o, bits, v.number)) then Err("float32 overflow")
    else Ok(Num(Round(o, bits, v.number)))
  }

  /** How long the encoding of `limit` bytes is. */
  function EncodedLimit(limit: nat): nat {
    4 * ((limit + 2) / 3)
  }

  function Binary(o: Options, bounds: Bounds, v: Value, encode: bool): Result<Value> {
    if encode then
      if !v.Raw? then Err("byte array type")
      else if !Fits(|v.bytes|, bounds, o.maxByteLength) then Err("length")
      else Ok(Text(Base64.Encode(v.bytes)))
    else if !v.Text? then Err("base64 type")
    else if |v.text| > EncodedLimit(o.maxByteLength) then Err("encoded byte limit")
    else
      var decoded := Base64.DecodeBytes(v.text);
      if decoded.Err? then Err(decoded.reason)
      else if !Fits(|decoded.value|, bounds, o.maxByteLength) then Err("length")
      else Ok(Raw(decoded.value))
  }

  function Scalar(o: Options, f: Field, v: Value, encode: bool): Result<Value>
    requires !f.ArrayField? && !f.ObjectField?
  {
    match f
    case BooleanField => if v.Bool? then Ok(v) else Err("boolean type")
    case StringField(bounds) =>
      if !v.Text? then Err("string type")
      else if !Fits(Utf8Length(v.text), bounds, o.maxStringBytes) then Err("length")
      else Ok(v)
    case IntegerField(bits, signed) => Integer(bits, signed, v, encode)
    case FloatField(bits) => Floating(o, bits, v, encode)
    case BytesField(bounds) => Binary(o, bounds, v, encode)
  }

  /** Convert one subtree; the second result is the number of nodes spent so far. */
  function Visit(o: Options, f: Field, v: Value, depth: nat, nodes: nat, encode: bool): (Result<Value>, nat)
    decreases f, 0
  {
    if depth > o.maxDepth then (Err("payload complexity"), nodes)
    else if nodes + 1 > o.maxNodes then (Err("payload complexity"), nodes + 1)
    else
      match f
      case ArrayField(element, bounds) =>
        if !v.List? then (Err("array type"), nodes + 1)
        else if !Fits(|v.items|, bounds, o.maxArrayLength) then (Err("length"), nodes + 1)
        else
          var (r, n) := VisitItems(o, element, v.items, depth + 1, nodes + 1, encode);
          (if r.Err? then Err(r.reason) else Ok(List(r.value)), n)
      case ObjectField(fields) =>
        if !v.Record? then (Err("object type"), nodes + 1)
        else if |v.fields| != |fields| then (Err("object field count"), nodes + 1)
        else
          var (r, n) := VisitFields(o, fields, v.fields, depth + 1, nodes + 1, encode);
          (if r.Err? then Err(r.reason) else Ok(Record(r.value)), n)
      case _ => (Scalar(o, f, v, encode), nodes + 1)
  }

  function VisitItems(o: Options, element: Field, items: seq<Value>, depth: nat, nodes: nat, encode: bool)
    : (Result<seq<Value>>, nat)
    decreases element, 1, |items|
  {
    if items == [] then (Ok([]), nodes)
    else
      var (first, n) := Visit(o, element, items[0], depth, nodes, encode);
      if first.Err? then (Err(first.reason), n)
      else
        var (rest, m) := VisitItems(o, element, items[1..], depth, n, encode);
        (if rest.Err? then Err(rest.reason) else Ok([first.value] + rest.value), m)
  }

  function VisitFields(o: Options, fields: seq<Named>, m: map<string, Value>, depth: nat, nodes: nat, encode: bool)
    : (Result<map<string, Value>>, nat)
    decreases fields, 1
  {
    if fields == [] then (Ok(map[]), nodes)
    else if fields[0].name !in m then (Err("missing field"), nodes)
    else
      var (first, n) := Visit(o, fields[0].field, m[fields[0].name], depth, nodes, encode);
      if first.Err? then (Err(first.reason), n)
      else
        var (rest, k) := VisitFields(o, fields[1..], m, depth, n, encode);
        (if rest.Err? then Err(rest.reason) else Ok(rest.value[fields[0].name := first.value]), k)
  }

  function Encode(o: Options, f: Field, native: Value): Result<Value> {
    Visit(o, f, native, 0, 0, true).0
  }

  function Decode(o: Options, f: Field, wire: Value): Result<Value> {
    Visit(o, f, wire, 0, 0, false).0
  }

  /**
   * The normal form of a value under a schema: float32 leaves rounded, negative zero in integers
   * made plain, everything else as it is. It serves native and wire values alike.
   */
  function Normal(o: Options, f: Field, v: Value): Value
    decreases f, 0
  {
    match f
    case IntegerField(bits, _) => if v == Num(NegativeZero) then Num(Finite(0.0)) else v
    case FloatField(bits) => if v.Num? && IsFinite(v.number) then Num(Round(o, bits, v.number)) else v
    case ArrayField(element, _) => if v.List? then List(NormalItems(o, element, v.items)) else v
    case ObjectField(fields) => if v.Record? then Record(NormalFields(o, fields, v.fields)) else v
    case _ => v
  }

  function NormalItems(o: Options, element: Field, items: seq<Value>): seq<Value>
    decreases element, 1, |items|
  {
    if items == [] then [] else [Normal(o, element, items[0])] + NormalItems(o, element, items[1..])
  }

  function NormalFields(o: Options, fields: seq<Named>, m: map<string, Value>): map<string, Value>
    decreases fields, 1
  {
    if fields == [] then map[]
    else
      var rest := NormalFields(o, fields[1..], m);
      if fields[0].name in m then rest[fields[0].name := Normal(o, fields[0].field, m[fields[0].name])] else rest
  }
}
