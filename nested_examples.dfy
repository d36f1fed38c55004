/** The structures and attributes of tests/nested.rs, as concrete witnesses
    of the path laws: a `Foo` with a string `bar`, a `Bla` under `batz`
    (with a string `name`) and a vector of 32-bit `numbers`. */
module NestedExamples {
  import Paths
  import MutablePaths

  newtype i32 = x: int | -0x8000_0000 <= x < 0x8000_0000

  /** The entities of the test. A field holds an entity, so that a write
      through a field's slot can store whatever the caller puts there. */
  datatype Entity =
    | Foo(bar: Entity, batz: Entity, numbers: Entity)
    | Bla(name: Entity)
    | Str(s: string)
    | Ints(xs: seq<i32>)

  /** `foo::Batz`: a `Foo`'s `batz`. */
  function Batz(): Paths.Attr<Entity>
  {
    Paths.Attr("batz", (e: Entity) => if e.Foo? then e.batz else e)
  }

  /** `bla::Name`: a `Bla`'s `name`. */
  function Name(): Paths.Attr<Entity>
  {
    Paths.Attr("name", (e: Entity) => if e.Bla? then e.name else e)
  }

  /** `Batz` on `&mut Foo`: the slot of `batz`. */
  function BatzMut(): MutablePaths.AttrMut<Entity>
  {
    MutablePaths.AttrMut(Batz(), (e: Entity) => e.Foo?, (e: Entity, w: Entity) => if e.Foo? then e.(batz := w) else e)
  }

  /** `Name` on `&mut Bla`: the slot of `name`. */
  function NameMut(): MutablePaths.AttrMut<Entity>
  {
    MutablePaths.AttrMut(Name(), (e: Entity) => e.Bla?, (e: Entity, w: Entity) => if e.Bla? then e.(name := w) else e)
  }

  /** `Foo { bar: "foobar", batz: Bla { name }, numbers }`. */
  function Sample(name: string, numbers: seq<i32>): Entity
  {
    Foo(Str("foobar"), Bla(Str(name)), Ints(numbers))
  }

  /** `retrieve(name).from(batz)` reads `f.batz.name`. */
  lemma NestedAccess()
    ensures Paths.Traverse(Paths.Retrieve(Name()).From(Batz()), Sample("foo", [])) == Paths.Val(Str("foo"))
  {
  }

  /** One path value, two containers, independent results: the path is
      reused unchanged and each traversal sees only its own container. */
  lemma PathReuse()
    ensures var p := Paths.Retrieve(Name()).From(Batz());
      && Paths.Traverse(p, Sample("foo", [1, 2, 3])) == Paths.Val(Str("foo"))
      && Paths.Traverse(p, Sample("bar", [1, 2, 3])) == Paths.Val(Str("bar"))
  {
  }

  /** Writing "bar" through the mutable `name`-under-`batz` path and then
      reading through an immutable path built the same way observes "bar";
      `bar` and `numbers` are untouched. */
  lemma NestedMutable()
    ensures var p := MutablePaths.RetrieveMut(NameMut()).From(BatzMut());
      var f := MutablePaths.WriteThrough(p, Sample("foo", []), Str("bar"));
      && Paths.Traverse(Paths.Retrieve(Name()).From(Batz()), f) == Paths.Val(Str("bar"))
      && f == Sample("bar", [])
  {
    var p := MutablePaths.RetrieveMut(NameMut()).From(BatzMut());
    assert MutablePaths.Immutable(p) == Paths.Retrieve(Name()).From(Batz());
    assert MutablePaths.Lawful(NameMut());
    assert MutablePaths.Lawful(BatzMut());
    assert MutablePaths.Reachable(p, Sample("foo", []));
    MutablePaths.MutationVisible(p, Sample("foo", []), Str("bar"));
  }

  /** `Numbers.at` does not panic (and `get_unchecked_mut` is defined):
      a `Foo` whose numbers reach index `idx`. */
  predicate HasNumber(f: Entity, idx: nat)
  {
    f.Foo? && f.numbers.Ints? && idx < |f.numbers.xs|
  }

  /** `IndexableAttr<&Foo, usize>::at` for `Numbers`: `numbers[idx]`, one
      of the container's own numbers. */
  function NumbersAt(f: Entity, idx: nat): (r: i32)
    requires HasNumber(f, idx)
    ensures r in f.numbers.xs
  {
    f.numbers.xs[idx]
  }

  /** `IndexableAttr<&mut Foo, usize>::at` for `Numbers` returns the slot of
      `numbers[idx]`; this is the `Foo` after `x` is written there. */
  function NumbersPutAt(f: Entity, idx: nat, x: i32): (r: Entity)
    requires HasNumber(f, idx)
    ensures HasNumber(r, idx) && NumbersAt(r, idx) == x
    ensures |r.numbers.xs| == |f.numbers.xs|
    ensures forall j :: 0 <= j < |f.numbers.xs| && j != idx ==> r.numbers.xs[j] == f.numbers.xs[j]
    ensures r.bar == f.bar && r.batz == f.batz
  {
    f.(numbers := Ints(f.numbers.xs[idx := x]))
  }

  /** `numbers: [1, 2, 3]`: `at(1)` is `2`; after `4` is written through the
      mutable `at(1)`, `at(1)` is `4`. */
  lemma NestedVec()
    ensures HasNumber(Sample("foo", [1, 2, 3]), 1) && NumbersAt(Sample("foo", [1, 2, 3]), 1) == 2
    ensures NumbersAt(NumbersPutAt(Sample("foo", [1, 2, 3]), 1, 4), 1) == 4
  {
  }
}
