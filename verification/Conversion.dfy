/** One conversion as the program runs it: a node counter spent by a recursive walk that builds results in loops. */
module Codec {
  import opened Basics
  import opened CodecModel
  import M = CodecModel

  class Conversion {
    const options: Options
    const encode: bool
    var nodes: nat

    constructor (options: Options, encode: bool)
      ensures nodes == 0 && this.options == options && this.encode == encode
    {
      this.options, this.encode, nodes := options, encode, 0;
    }

    method Visit(field: Field, value: Value, depth: nat) returns (r: Result<Value>)
      modifies this
      ensures (r, nodes) == M.Visit(options, field, value, depth, old(nodes), encode)
      decreases field, 0
    {
      if depth > options.maxDepth { return Err("payload complexity"); }
      nodes := nodes + 1;
      if nodes > options.maxNodes { return Err("payload complexity"); }
      if field.ArrayField? {
        if !value.List? { return Err("array type"); }
        if !Fits(|value.items|, field.bounds, options.maxArrayLength) { return Err("length"); }
        var items := VisitItems(field.element, value.items, depth + 1);
        return if items.Err? then Err(items.reason) else Ok(List(items.value));
      }
      if field.ObjectField? {
        if !value.Record? { return Err("object type"); }
        if |value.fields| != |field.fields| { return Err("object field count"); }
        var fields := VisitFields(field.fields, value.fields, depth + 1);
        return if fields.Err? then Err(fields.reason) else Ok(Record(fields.value));
      }
      r := Scalar(options, field, value, encode);
    }

    /** Convert the elements one by one onto the result. */
    method VisitItems(element: Field, items: seq<Value>, depth: nat) returns (r: Result<seq<Value>>)
      modifies this
      ensures (r, nodes) == M.VisitItems(options, element, items, depth, old(nodes), encode)
      decreases element, 1
    {
      var result := [];
      assert items[0..] == items;
      PrependNothing(M.VisitItems(options, element, items, depth, nodes, encode));
      for i := 0 to |items|
        invariant M.VisitItems(options, element, items, depth, old(nodes), encode)
               == Prepend(result, M.VisitItems(options, element, items[i..], depth, nodes, encode))
      {
        assert items[i..][1..] == items[i + 1..];
        ghost var rest := M.VisitItems(options, element, items[i..], depth, nodes, encode);
        var item := Visit(element, items[i], depth);
        if item.Err? { return Err(item.reason); }
        ghost var more := M.VisitItems(options, element, items[i + 1..], depth, nodes, encode);
        assert rest == Prepend([item.value], more);
        PrependTwice(result, [item.value], more);
        result := result + [item.value];
      }
      assert result + [] == result;
      r := Ok(result);
    }

    static function Prepend(front: seq<Value>, tail: (Result<seq<Value>>, nat)): (Result<seq<Value>>, nat) {
      (if tail.0.Err? then tail.0 else Ok(front + tail.0.value), tail.1)
    }

    static lemma PrependNothing(tail: (Result<seq<Value>>, nat))
      ensures Prepend([], tail) == tail
    {
      if tail.0.Ok? { assert [] + tail.0.value == tail.0.value; }
    }

    static lemma PrependTwice(a: seq<Value>, b: seq<Value>, tail: (Result<seq<Value>>, nat))
      ensures Prepend(a, Prepend(b, tail)) == Prepend(a + b, tail)
    {
      if tail.0.Ok? { assert a + (b + tail.0.value) == a + b + tail.0.value; }
    }

    /** Convert the named fields in schema order. */
    method VisitFields(fields: seq<Named>, m: map<string, Value>, depth: nat) returns (r: Result<map<string, Value>>)
      modifies this
      ensures (r, nodes) == M.VisitFields(options, fields, m, depth, old(nodes), encode)
      decreases fields, 1
    {
      if fields == [] { return Ok(map[]); }
      if fields[0].name !in m { return Err("missing field"); }
      var first := Visit(fields[0].field, m[fields[0].name], depth);
      if first.Err? { return Err(first.reason); }
      var rest := VisitFields(fields[1..], m, depth);
      r := if rest.Err? then rest else Ok(rest.value[fields[0].name := first.value]);
    }
  }
}
