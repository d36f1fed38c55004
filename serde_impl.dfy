/** The serde adapter of src/serde_impl.rs: a named attribute over a JSON
    value implementing `Attr<Value>` (`get`, an object-key lookup) and
    `AttrMut<Value>` (`get_mut`, the slot under the same key). Where the
    source panics the model has a precondition; as an `AttrMut` lens the
    same condition is its input type. */
module SerdeImpl {
  import opened Json
  import Paths
  import MutablePaths

  datatype SerdeAttribute = SerdeAttribute(name: string)
  {
    /** `name()`: the key this attribute was created with. */
    function Name(): string
    {
      name
    }
  }

  /** `SerdeAttribute::new`. */
  function New(name: string): (a: SerdeAttribute)
    ensures a.Name() == name
  {
    SerdeAttribute(name)
  }

  /** Neither `get` nor `get_mut` panics: an object holding the key. */
  predicate HasField(a: SerdeAttribute, v: Value)
  {
    v.Object? && a.name in v.fields
  }

  /** `Attr<Value>::get`: the value under the attribute's key, which is
      one of the object's own entries. */
  function Get(a: SerdeAttribute, v: Value): (r: Value)
    requires HasField(a, v)
    ensures r in v.fields.Values
  {
    v.fields[a.name]
  }

  /** `AttrMut<Value>::get_mut` as a lens: its slot is the one under the
      key, a write replaces that entry, and its input type is the objects
      holding the key. Outside that type `get` and `put` are never used. */
  function AsAttrMut(a: SerdeAttribute): (l: MutablePaths.AttrMut<Value>)
    ensures l.attr.name == a.Name()
    ensures forall v :: l.dom(v) <==> HasField(a, v)
    ensures forall v, w :: l.dom(v) ==> l.dom(l.put(v, w)) && l.attr.get(l.put(v, w)) == w
  {
    MutablePaths.AttrMut(
      Paths.Attr(a.name, v => if HasField(a, v) then Get(a, v) else v),
      v => HasField(a, v),
      (v, w) => if HasField(a, v) then Object(v.fields[a.name := w]) else v)
  }

  /** `get` and `get_mut` address the same key: the slot of `get_mut` holds
      what `get` returns, a value written there is what `get` then returns,
      and every other entry of the object is unchanged. */
  lemma GetMutSharesSlot(a: SerdeAttribute, v: Value, w: Value)
    requires HasField(a, v)
    ensures AsAttrMut(a).dom(v) && AsAttrMut(a).attr.get(v) == Get(a, v)
    ensures var r := AsAttrMut(a).put(v, w);
      && HasField(a, r) && Get(a, r) == w
      && r.fields.Keys == v.fields.Keys
      && forall k :: k in v.fields && k != a.name ==> r.fields[k] == v.fields[k]
  {
  }

  /** The `get_mut` lens obeys the laws a mutable path relies on. */
  lemma {:induction false} AsAttrMutLawful(a: SerdeAttribute)
    ensures MutablePaths.Lawful(AsAttrMut(a))
  {
    var l := AsAttrMut(a);
    forall s | l.dom(s)
      ensures l.put(s, l.attr.get(s)) == s
    {
      assert s.fields[a.name := s.fields[a.name]] == s.fields;
    }
    forall s, w1, w2 | l.dom(s)
      ensures l.put(l.put(s, w1), w2) == l.put(s, w2)
    {
      assert s.fields[a.name := w1][a.name := w2] == s.fields[a.name := w2];
    }
  }

  /** `{"x": 1}`: `get("x")` returns `U64(1)`. */
  lemma GetSample()
    ensures var v := Object(map["x" := U64(1)]);
      HasField(New("x"), v) && Get(New("x"), v) == U64(1)
  {
  }

  /** `{"x": 1, "y": {"z": 1}}`. */
  function Nested(): Value
  {
    Object(map["x" := U64(1), "y" := Object(map["z" := U64(1)])])
  }

  /** The mutable path `z` under `y`, and writes through it: `4` written
      there is what the immutable path over the same attributes reads. */
  lemma NestedWriteVisible()
    ensures var p := MutablePaths.RetrieveMut(AsAttrMut(New("z"))).From(AsAttrMut(New("y")));
      && Paths.Traverse(MutablePaths.Immutable(p), Nested()) == Paths.Val(U64(1))
      && Paths.Traverse(MutablePaths.Immutable(p), MutablePaths.WriteThrough(p, Nested(), U64(4))) == Paths.Val(U64(4))
  {
    var p := MutablePaths.RetrieveMut(AsAttrMut(New("z"))).From(AsAttrMut(New("y")));
    AsAttrMutLawful(New("z"));
    AsAttrMutLawful(New("y"));
    assert MutablePaths.Reachable(p, Nested());
    MutablePaths.ImmutableAgrees(p, Nested());
    MutablePaths.MutationVisible(p, Nested(), U64(4));
  }
}
