/** Encoding and decoding invert each other up to the normal form, on every schema and every budget. */
module CodecRoundTrip {
  import opened Basics
  import Base64
  import Decimal
  import opened CodecModel

  lemma NamesCount(fields: seq<Named>)
    requires DistinctNames(fields)
    ensures |Names(fields)| == |fields|
  {
    if fields != [] {
      var rest := fields[1..];
      NamesCount(rest);
      assert Names(fields) == Names(rest) + {fields[0].name};
      assert fields[0].name !in Names(rest);
    }
  }

  lemma NamesHead(fields: seq<Named>)
    requires fields != []
    ensures Names(fields) == Names(fields[1..]) + {fields[0].name}
    ensures DistinctNames(fields) ==> DistinctNames(fields[1..]) && fields[0].name !in Names(fields[1..])
  {
    assert fields == [fields[0]] + fields[1..];
  }

  lemma IntegerRoundTrip(bits: nat, signed: bool, v: Value, encode: bool)
    requires bits in {8, 16, 32, 64}
    ensures var there := Integer(bits, signed, v, encode);
            there.Ok? ==>
              Integer(bits, signed, there.value, !encode) == Ok(if v == Num(NegativeZero) then Num(Finite(0.0)) else v)
  {
    if bits == 64 {
      if encode && v.Big? && IntegerRange(64, signed, v.integer) {
        Decimal.PrintIntParses(v.integer);
        Decimal.TwentyCharactersSuffice(v.integer);
      } else if !encode && v.Text? && Decimal.CanonicalInt(v.text) {
        Decimal.ParseIntPrints(v.text);
      }
    }
  }

  lemma FloatingRoundTrip(o: Options, bits: nat, v: Value, encode: bool)
    requires Rounding(o)
    ensures var there := Floating(o, bits, v, encode);
            there.Ok? ==> Floating(o, bits, there.value, !encode) == Ok(Normal(o, FloatField(bits), v))
  {}

  lemma EncodedFits(bytes: seq<Byte>, limit: nat)
    requires |bytes| <= limit
    ensures |Base64.Encode(bytes)| <= EncodedLimit(limit)
  {}

  lemma BinaryRoundTrip(o: Options, bounds: Bounds, v: Value, encode: bool)
    ensures var there := Binary(o, bounds, v, encode);
            there.Ok? ==> Binary(o, bounds, there.value, !encode) == Ok(v)
  {
    if encode && v.Raw? {
      if |v.bytes| <= o.maxByteLength { EncodedFits(v.bytes, o.maxByteLength); }
      Base64.DecodeExactly(Base64.Encode(v.bytes), v.bytes);
    } else if !encode && v.Text? && Base64.DecodeBytes(v.text).Ok? {
      Base64.DecodeExactly(v.text, Base64.DecodeBytes(v.text).value);
    }
  }

  lemma ScalarRoundTrip(o: Options, f: Field, v: Value, encode: bool)
    requires !f.ArrayField? && !f.ObjectField? && WellFormed(f) && Rounding(o)
    ensures var there := Scalar(o, f, v, encode);
            there.Ok? ==> Scalar(o, f, there.value, !encode) == Ok(Normal(o, f, v))
  {
    match f
    case BooleanField =>
    case StringField(_) =>
    case IntegerField(bits, signed) => IntegerRoundTrip(bits, signed, v, encode);
    case FloatField(bits) => FloatingRoundTrip(o, bits, v, encode);
    case BytesField(bounds) => BinaryRoundTrip(o, bounds, v, encode);
  }

  /**
   * What one direction accepts the other accepts back, as the normal form of what came in, at any
   * depth, with any number of nodes already spent, and spending exactly as many more.
   */
  lemma {:induction false} RoundTrip(o: Options, f: Field, v: Value, depth: nat, nodes: nat, encode: bool)
    requires WellFormed(f) && Rounding(o)
    ensures var (there, n) := Visit(o, f, v, depth, nodes, encode);
            there.Ok? ==> Visit(o, f, there.value, depth, nodes, !encode) == (Ok(Normal(o, f, v)), n)
    decreases f, 0
  {
    hide Scalar;
    var (there, n) := Visit(o, f, v, depth, nodes, encode);
    if there.Ok? {
      match f
      case ArrayField(element, bounds) =>
        ItemsRoundTrip(o, element, v.items, depth + 1, nodes + 1, encode);
      case ObjectField(fields) =>
        var m := VisitFields(o, fields, v.fields, depth + 1, nodes + 1, encode).0.value;
        FieldsRoundTrip(o, fields, v.fields, m, depth + 1, nodes + 1, encode);
        NamesCount(fields);
        assert |m.Keys| == |m|;
      case _ => ScalarRoundTrip(o, f, v, encode);
    }
  }

  lemma {:induction false} ItemsRoundTrip(o: Options, element: Field, items: seq<Value>,
                                          depth: nat, nodes: nat, encode: bool)
    requires WellFormed(element) && Rounding(o)
    ensures var (there, n) := VisitItems(o, element, items, depth, nodes, encode);
            there.Ok? ==>
              && |there.value| == |items|
              && VisitItems(o, element, there.value, depth, nodes, !encode) == (Ok(NormalItems(o, element, items)), n)
    decreases element, 1, |items|
  {
    if items != [] {
      var (first, n) := Visit(o, element, items[0], depth, nodes, encode);
      RoundTrip(o, element, items[0], depth, nodes, encode);
      if first.Ok? {
        ItemsRoundTrip(o, element, items[1..], depth, n, encode);
        var rest := VisitItems(o, element, items[1..], depth, n, encode).0;
        if rest.Ok? { assert ([first.value] + rest.value)[1..] == rest.value; }
      }
    }
  }

  /** The converted fields may sit in any larger record `back` that agrees on the names. */
  lemma NoNames()
    ensures Names([]) == {}
  {}

  lemma TailWellFormed(fields: seq<Named>)
    requires fields != [] && WellFormed(ObjectField(fields))
    ensures WellFormed(ObjectField(fields[1..])) && WellFormed(fields[0].field)
    ensures Names(fields) == Names(fields[1..]) + {fields[0].name} && fields[0].name !in Names(fields[1..])
  {
    NamesHead(fields);
  }

  lemma {:induction false} FieldsRoundTrip(o: Options, fields: seq<Named>, m: map<string, Value>,
                                           back: map<string, Value>, depth: nat, nodes: nat, encode: bool)
    requires WellFormed(ObjectField(fields)) && Rounding(o)
    requires var there := VisitFields(o, fields, m, depth, nodes, encode).0;
             there.Ok? ==> forall k :: k in Names(fields) && k in there.value ==> k in back && back[k] == there.value[k]
    ensures var (there, n) := VisitFields(o, fields, m, depth, nodes, encode);
            there.Ok? ==>
              && there.value.Keys == Names(fields)
              && VisitFields(o, fields, back, depth, nodes, !encode) == (Ok(NormalFields(o, fields, m)), n)
    decreases fields, 1
  {
    hide Visit, Normal, WellFormed, Names, DistinctNames;
    NoNames();
    if fields != [] && fields[0].name in m {
      TailWellFormed(fields);
      var (first, n) := Visit(o, fields[0].field, m[fields[0].name], depth, nodes, encode);
      RoundTrip(o, fields[0].field, m[fields[0].name], depth, nodes, encode);
      if first.Ok? {
        var rest := VisitFields(o, fields[1..], m, depth, n, encode).0;
        if rest.Ok? {
          FieldsRoundTrip(o, fields[1..], m, rest.value, depth, n, encode);
          FieldsRoundTrip(o, fields[1..], m, back, depth, n, encode);
        }
      }
    }
  }

  // ---- Normal forms ----

  lemma {:induction false} NormalItemsAt(o: Options, element: Field, items: seq<Value>, i: nat)
    requires i < |items|
    ensures |NormalItems(o, element, items)| == |items|
    ensures NormalItems(o, element, items)[i] == Normal(o, element, items[i])
    decreases |items|
  {
    if i > 0 { NormalItemsAt(o, element, items[1..], i - 1); }
    else if |items| > 1 { NormalItemsAt(o, element, items[1..], 0); }
  }

  lemma {:induction false} NormalFieldsAt(o: Options, fields: seq<Named>, m: map<string, Value>)
    requires DistinctNames(fields)
    ensures NormalFields(o, fields, m).Keys == Names(fields) * m.Keys
    ensures forall i :: 0 <= i < |fields| && fields[i].name in m ==>
      NormalFields(o, fields, m)[fields[i].name] == Normal(o, fields[i].field, m[fields[i].name])
    decreases |fields|
  {
    if fields != [] {
      NamesHead(fields);
      NormalFieldsAt(o, fields[1..], m);
      forall i | 0 < i < |fields| && fields[i].name in m
        ensures NormalFields(o, fields, m)[fields[i].name] == Normal(o, fields[i].field, m[fields[i].name])
      {
        assert fields[i] == fields[1..][i - 1];
      }
    }
  }

  /** A value whose leaves conversion leaves alone: rounded floats, and no negative zero among the integers. */
  predicate Exact(o: Options, f: Field, v: Value)
    decreases f
  {
    match f
    case IntegerField(_, _) => v != Num(NegativeZero)
    case FloatField(bits) => v.Num? && IsFinite(v.number) ==> Round(o, bits, v.number) == v.number
    case ArrayField(element, _) => v.List? ==> forall i :: 0 <= i < |v.items| ==> Exact(o, element, v.items[i])
    case ObjectField(fields) =>
      v.Record? ==> forall i :: 0 <= i < |fields| && fields[i].name in v.fields ==>
        Exact(o, fields[i].field, v.fields[fields[i].name])
    case _ => true
  }

  /** Records carry exactly the fields their schema names. */
  predicate Shaped(f: Field, v: Value)
    decreases f
  {
    match f
    case ArrayField(element, _) => v.List? ==> forall i :: 0 <= i < |v.items| ==> Shaped(element, v.items[i])
    case ObjectField(fields) =>
      v.Record? ==>
        && v.fields.Keys == Names(fields)
        && forall i :: 0 <= i < |fields| && fields[i].name in v.fields ==>
          Shaped(fields[i].field, v.fields[fields[i].name])
    case _ => true
  }

  /** An exact value is its own normal form, and no other value is. */
  lemma {:induction false} NormalExactly(o: Options, f: Field, v: Value)
    requires WellFormed(f) && Shaped(f, v)
    ensures Normal(o, f, v) == v <==> Exact(o, f, v)
    decreases f, 1
  {
    match f
    case ArrayField(element, _) => if v.List? { ItemsNormalExactly(o, element, v.items); }
    case ObjectField(fields) => if v.Record? { FieldsNormalExactly(o, fields, v.fields); }
    case _ =>
  }

  lemma {:induction false} ItemsNormalExactly(o: Options, element: Field, items: seq<Value>)
    requires WellFormed(element) && forall i :: 0 <= i < |items| ==> Shaped(element, items[i])
    ensures NormalItems(o, element, items) == items <==> forall i :: 0 <= i < |items| ==> Exact(o, element, items[i])
    decreases element, 2
  {
    var normal := NormalItems(o, element, items);
    if items != [] { NormalItemsAt(o, element, items, 0); }
    forall i | 0 <= i < |items|
      ensures |normal| == |items| && (normal[i] == items[i] <==> Exact(o, element, items[i]))
    {
      NormalItemsAt(o, element, items, i);
      NormalExactly(o, element, items[i]);
    }
  }

  lemma {:induction false} FieldsNormalExactly(o: Options, fields: seq<Named>, m: map<string, Value>)
    requires WellFormed(ObjectField(fields)) && m.Keys == Names(fields)
    requires forall i :: 0 <= i < |fields| && fields[i].name in m ==> Shaped(fields[i].field, m[fields[i].name])
    ensures NormalFields(o, fields, m) == m <==>
            forall i :: 0 <= i < |fields| && fields[i].name in m ==> Exact(o, fields[i].field, m[fields[i].name])
    decreases fields, 0
  {
    var normal := NormalFields(o, fields, m);
    NormalFieldsAt(o, fields, m);
    forall i | 0 <= i < |fields|
      ensures fields[i].name in m && fields[i].name in normal
      ensures normal[fields[i].name] == m[fields[i].name] <==> Exact(o, fields[i].field, m[fields[i].name])
    {
      assert fields[i].name in Names(fields);
      NormalExactly(o, fields[i].field, m[fields[i].name]);
    }
    assert forall n :: n in m ==> exists i :: 0 <= i < |fields| && fields[i].name == n;
  }

  /** Whatever a direction produces is shaped and exact, and so is unchanged by another round trip. */
  lemma {:induction false} ResultExact(o: Options, f: Field, v: Value, depth: nat, nodes: nat, encode: bool)
    requires WellFormed(f) && Rounding(o)
    ensures var there := Visit(o, f, v, depth, nodes, encode).0;
            there.Ok? ==> Shaped(f, v) && Shaped(f, there.value) && Exact(o, f, there.value)
    decreases f, 0
  {
    hide Visit, Shaped, Exact;
    if Visit(o, f, v, depth, nodes, encode).0.Ok? {
      match f
      case ArrayField(element, bound) =>
        ArrayVisited(o, f, v, depth, nodes, encode);
        ItemsExact(o, element, v.items, depth + 1, nodes + 1, encode);
        ArrayExact(o, f, v, depth, nodes, encode);
      case ObjectField(fields) =>
        ObjectVisited(o, f, v, depth, nodes, encode);
        FieldsExact(o, fields, v.fields, depth + 1, nodes + 1, encode);
        ObjectExact(o, fields, v.fields, VisitFields(o, fields, v.fields, depth + 1, nodes + 1, encode).0.value);
      case _ => LeafExact(o, f, v, depth, nodes, encode);
    }
  }

  lemma ArrayVisited(o: Options, f: Field, v: Value, depth: nat, nodes: nat, encode: bool)
    requires f.ArrayField? && Visit(o, f, v, depth, nodes, encode).0.Ok?
    ensures v.List? && VisitItems(o, f.element, v.items, depth + 1, nodes + 1, encode).0.Ok?
  {}

  lemma ArrayExact(o: Options, f: Field, v: Value, depth: nat, nodes: nat, encode: bool)
    requires f.ArrayField? && v.List? && Visit(o, f, v, depth, nodes, encode).0.Ok?
    requires forall i :: 0 <= i < |v.items| ==> Shaped(f.element, v.items[i])
    requires var there := VisitItems(o, f.element, v.items, depth + 1, nodes + 1, encode).0;
             there.Ok? && AllExact(o, f.element, there.value)
    ensures var there := Visit(o, f, v, depth, nodes, encode).0.value;
            Shaped(f, v) && Shaped(f, there) && Exact(o, f, there)
  {}

  lemma ObjectVisited(o: Options, f: Field, v: Value, depth: nat, nodes: nat, encode: bool)
    requires f.ObjectField? && Visit(o, f, v, depth, nodes, encode).0.Ok?
    ensures v.Record? && |v.fields| == |f.fields|
    ensures VisitFields(o, f.fields, v.fields, depth + 1, nodes + 1, encode).0.Ok?
    ensures Visit(o, f, v, depth, nodes, encode).0.value
            == Record(VisitFields(o, f.fields, v.fields, depth + 1, nodes + 1, encode).0.value)
  {}

  lemma ObjectExact(o: Options, fields: seq<Named>, m: map<string, Value>, there: map<string, Value>)
    requires DistinctNames(fields) && |m| == |fields| && Names(fields) <= m.Keys && there.Keys == Names(fields)
    requires forall i :: 0 <= i < |fields| ==> FieldExact(o, fields[i], m, there)
    ensures Shaped(ObjectField(fields), Record(m)) && Shaped(ObjectField(fields), Record(there))
    ensures Exact(o, ObjectField(fields), Record(there))
  {
    NamesCount(fields);
    SameKeys(m, Names(fields));
    assert forall i :: 0 <= i < |fields| ==> fields[i].name in m && fields[i].name in there;
  }

  lemma LeafExact(o: Options, f: Field, v: Value, depth: nat, nodes: nat, encode: bool)
    requires WellFormed(f) && Rounding(o) && !f.ArrayField? && !f.ObjectField?
    ensures var there := Visit(o, f, v, depth, nodes, encode).0;
            there.Ok? ==> Shaped(f, v) && Shaped(f, there.value) && Exact(o, f, there.value)
  {}

  /** As many fields as names, each name among them: the names are all the fields. */
  lemma SameKeys(m: map<string, Value>, names: set<string>)
    requires names <= m.Keys && |m| == |names|
    ensures m.Keys == names
  {
    assert |m.Keys - names| == |m.Keys| - |names|;
  }

  predicate AllExact(o: Options, element: Field, items: seq<Value>) {
    forall i :: 0 <= i < |items| ==> Shaped(element, items[i]) && Exact(o, element, items[i])
  }

  lemma AllExactAppend(o: Options, element: Field, first: Value, rest: seq<Value>)
    requires Shaped(element, first) && Exact(o, element, first) && AllExact(o, element, rest)
    ensures AllExact(o, element, [first] + rest)
  {}

  lemma {:induction false} ItemsExact(o: Options, element: Field, items: seq<Value>,
                                          depth: nat, nodes: nat, encode: bool)
    requires WellFormed(element) && Rounding(o)
    ensures var there := VisitItems(o, element, items, depth, nodes, encode).0;
            there.Ok? ==>
              && (forall i :: 0 <= i < |items| ==> Shaped(element, items[i]))
              && AllExact(o, element, there.value)
    decreases element, 1, |items|
  {
    if items != [] {
      ResultExact(o, element, items[0], depth, nodes, encode);
      ItemsExact(o, element, items[1..], depth, Visit(o, element, items[0], depth, nodes, encode).1, encode);
      assert items == [items[0]] + items[1..];
      var there := VisitItems(o, element, items, depth, nodes, encode).0;
      if there.Ok? { AllExactAppend(o, element, there.value[0], there.value[1..]); }
    }
  }

  /** One field was there in its shape, and its result is there, in shape and exact. */
  predicate FieldExact(o: Options, named: Named, m: map<string, Value>, there: map<string, Value>) {
    && named.name in m && Shaped(named.field, m[named.name])
    && named.name in there && Shaped(named.field, there[named.name]) && Exact(o, named.field, there[named.name])
  }

  lemma OtherFieldsExact(o: Options, fields: seq<Named>, m: map<string, Value>, rest: map<string, Value>, first: Value)
    requires fields != [] && fields[0].name !in Names(fields[1..])
    requires forall i :: 0 <= i < |fields| - 1 ==> FieldExact(o, fields[1..][i], m, rest)
    ensures forall i :: 0 < i < |fields| ==> FieldExact(o, fields[i], m, rest[fields[0].name := first])
  {
    hide Shaped, Exact;
    forall i | 0 < i < |fields| ensures FieldExact(o, fields[i], m, rest[fields[0].name := first]) {
      assert fields[i] == fields[1..][i - 1];
      assert fields[i].name in Names(fields[1..]);
    }
  }

  lemma {:induction false} FieldsExact(o: Options, fields: seq<Named>, m: map<string, Value>,
                                       depth: nat, nodes: nat, encode: bool)
    requires WellFormed(ObjectField(fields)) && Rounding(o)
    ensures var there := VisitFields(o, fields, m, depth, nodes, encode).0;
            there.Ok? ==>
              && Names(fields) <= m.Keys && there.value.Keys == Names(fields)
              && (forall i :: 0 <= i < |fields| ==> FieldExact(o, fields[i], m, there.value))
    decreases fields, 1
  {
    hide Shaped, Exact, Visit;
    if fields != [] && fields[0].name in m {
      NamesHead(fields);
      var (first, n) := Visit(o, fields[0].field, m[fields[0].name], depth, nodes, encode);
      ResultExact(o, fields[0].field, m[fields[0].name], depth, nodes, encode);
      FieldsExact(o, fields[1..], m, depth, n, encode);
      var rest := VisitFields(o, fields[1..], m, depth, n, encode).0;
      if first.Ok? && rest.Ok? { OtherFieldsExact(o, fields, m, rest.value, first.value); }
    }
  }

  /**
   * Encoding then decoding yields the normal form, encoding that again yields the same wire value, and
   * the value itself comes back exactly when its leaves are exact.
   */
  lemma EncodeDecode(o: Options, f: Field, native: Value)
    requires WellFormed(f) && Rounding(o) && Encode(o, f, native).Ok?
    ensures var wire := Encode(o, f, native).value;
            && Decode(o, f, wire) == Ok(Normal(o, f, native))
            && Encode(o, f, Normal(o, f, native)) == Ok(wire)
            && (Decode(o, f, wire) == Ok(native) <==> Exact(o, f, native))
  {
    var wire := Encode(o, f, native).value;
    RoundTrip(o, f, native, 0, 0, true);
    RoundTrip(o, f, wire, 0, 0, false);
    ResultExact(o, f, native, 0, 0, true);
    NormalExactly(o, f, wire);
    NormalExactly(o, f, native);
  }

  /** Decoding then encoding yields the normal form of the wire value, which decodes to the same native value. */
  lemma DecodeEncode(o: Options, f: Field, wire: Value)
    requires WellFormed(f) && Rounding(o) && Decode(o, f, wire).Ok?
    ensures var native := Decode(o, f, wire).value;
            && Encode(o, f, native) == Ok(Normal(o, f, wire))
            && Decode(o, f, Normal(o, f, wire)) == Ok(native)
            && (Encode(o, f, native) == Ok(wire) <==> Exact(o, f, wire))
  {
    var native := Decode(o, f, wire).value;
    RoundTrip(o, f, wire, 0, 0, false);
    RoundTrip(o, f, native, 0, 0, true);
    ResultExact(o, f, wire, 0, 0, false);
    NormalExactly(o, f, native);
    NormalExactly(o, f, wire);
  }

  /** A 64-bit field reads exactly the text it prints, for every value in its range. */
  lemma Integer64Exactly(signed: bool, text: string, i: int)
    ensures Integer(64, signed, Text(text), false) == Ok(Big(i))
       <==> IntegerRange(64, signed, i) && Integer(64, signed, Big(i), true) == Ok(Text(text))
  {
    Decimal.PrintIntParses(i);
    if Decimal.CanonicalInt(text) { Decimal.ParseIntPrints(text); }
    if IntegerRange(64, signed, i) { Decimal.TwentyCharactersSuffice(i); }
  }

  /** A byte field reads exactly the base64 text of byte strings within its bounds. */
  lemma BinaryExactly(o: Options, bounds: Bounds, text: string, bytes: seq<Byte>)
    ensures Binary(o, bounds, Text(text), false) == Ok(Raw(bytes))
       <==> Fits(|bytes|, bounds, o.maxByteLength) && text == Base64.Encode(bytes)
  {
    Base64.DecodeExactly(text, bytes);
    if text == Base64.Encode(bytes) {
      if |bytes| <= o.maxByteLength { EncodedFits(bytes, o.maxByteLength); }
    } else {
      assert Base64.DecodeBytes(text) != Ok(bytes);
    }
  }
}
