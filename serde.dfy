/** The serde adapter of src/serde.rs: a named attribute over a JSON value,
    with `get` (an object-key lookup) and `at` (indexing into the array held
    under that key), each on shared and on exclusive references. Where the
    source panics (`unwrap`, `panic!`, an out-of-range index) the model has
    a precondition. The exclusive variants return a slot; the model gives
    the value after a write into that slot. */
module Serde {
  import opened Json

  datatype SerdeAttribute = SerdeAttribute(name: string)
  {
    /** `name()`: the key this attribute was created with. */
    function Name(): string
    {
      name
    }
  }

  /** `SerdeAttribute::new`. */
  function New(name: string): (a: SerdeAttribute)
    ensures a.Name() == name
  {
    SerdeAttribute(name)
  }

  /** `get` does not panic: the value is an object holding the key. */
  predicate HasField(a: SerdeAttribute, v: Value)
  {
    v.Object? && a.name in v.fields
  }

  /** `get` on `&Value`: the value under the attribute's key, which is
      one of the object's own entries. */
  function Get(a: SerdeAttribute, v: Value): (r: Value)
    requires HasField(a, v)
    ensures r in v.fields.Values
  {
    v.fields[a.name]
  }

  /** `get` on `&mut Value` returns the slot `m[name]`; this is the object
      after `w` is written into that slot. */
  function PutField(a: SerdeAttribute, v: Value, w: Value): (r: Value)
    requires HasField(a, v)
    ensures HasField(a, r) && Get(a, r) == w
    ensures r.fields.Keys == v.fields.Keys
    ensures forall k :: k in v.fields && k != a.name ==> r.fields[k] == v.fields[k]
  {
    Object(v.fields[a.name := w])
  }

  /** `at` does not panic: the key holds an array long enough for `idx`. */
  predicate HasIndex(a: SerdeAttribute, v: Value, idx: nat)
  {
    HasField(a, v) && Get(a, v).Array? && idx < |Get(a, v).items|
  }

  /** `at` on `&Value`: element `idx` of the array under the key, which
      is one of that array's own elements. */
  function At(a: SerdeAttribute, v: Value, idx: nat): (r: Value)
    requires HasIndex(a, v, idx)
    ensures r in Get(a, v).items
  {
    Get(a, v).items[idx]
  }

  /** `at` on `&mut Value` returns the slot of element `idx`; this is the
      object after `w` is written into that slot. */
  function PutAt(a: SerdeAttribute, v: Value, idx: nat, w: Value): (r: Value)
    requires HasIndex(a, v, idx)
    ensures HasIndex(a, r, idx) && At(a, r, idx) == w
    ensures |Get(a, r).items| == |Get(a, v).items|
    ensures forall j :: 0 <= j < |Get(a, v).items| && j != idx ==> Get(a, r).items[j] == Get(a, v).items[j]
    ensures r.fields.Keys == v.fields.Keys
    ensures forall k :: k in v.fields && k != a.name ==> r.fields[k] == v.fields[k]
  {
    PutField(a, v, Array(Get(a, v).items[idx := w]))
  }

  /** The exclusive `get` addresses the same slot as the shared one:
      writing back what `get` reads leaves the object as it was. */
  lemma PutFieldOfGet(a: SerdeAttribute, v: Value)
    requires HasField(a, v)
    ensures PutField(a, v, Get(a, v)) == v
  {
    assert v.fields[a.name := v.fields[a.name]] == v.fields;
  }

  /** The exclusive `at` addresses the same slot as the shared one:
      writing back what `at` reads leaves the object as it was. */
  lemma PutAtOfAt(a: SerdeAttribute, v: Value, idx: nat)
    requires HasIndex(a, v, idx)
    ensures PutAt(a, v, idx, At(a, v, idx)) == v
  {
    var items := Get(a, v).items;
    assert items[idx := items[idx]] == items;
    PutFieldOfGet(a, v);
  }

  /** `{"x": 1, "y": [1, 2, 3]}`. */
  function Sample(): Value
  {
    Object(map["x" := U64(1), "y" := Array([U64(1), U64(2), U64(3)])])
  }

  /** On the sample, `x` yields `1` and `y.at(1)` yields `2`. Beyond those
      two reads, writing `4` through the exclusive `at(1)` (as the `Vec`
      case of the nested tests does) is read back by `at`, and `x` is
      untouched. */
  lemma SampleAccess()
    ensures HasField(New("x"), Sample()) && Get(New("x"), Sample()) == U64(1)
    ensures HasIndex(New("y"), Sample(), 1) && At(New("y"), Sample(), 1) == U64(2)
    ensures var w := PutAt(New("y"), Sample(), 1, U64(4));
      At(New("y"), w, 1) == U64(4) && Get(New("x"), w) == U64(1)
  {
  }
}
