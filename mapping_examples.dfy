/** The structures and attributes of tests/mapping.rs, as concrete
    witnesses of `mapped`: a `Top` holding a `Foo`, whose `vector` holds
    `Bla`s with string names. */
module MappingExamples {
  import opened Paths

  datatype Entity =
    | Top(foo: Entity)
    | Foo(bar: Entity, vector: Entity)
    | Bla(name: Entity)
    | Str(s: string)
    | List(elements: seq<Entity>)

  /** `foo::Vector`: a `Foo`'s `vector`, iterated element by element. */
  function Vector(): IterableAttr<Entity>
  {
    IterableAttr(
      Attr("vector", (e: Entity) => if e.Foo? then e.vector else e),
      (e: Entity) => if e.Foo? && e.vector.List? then e.vector.elements else [])
  }

  /** `bla::Name`: a `Bla`'s `name`. */
  function Name(): Attr<Entity>
  {
    Attr("name", (e: Entity) => if e.Bla? then e.name else e)
  }

  /** `top::FooField`: a `Top`'s `foo`. */
  function FooField(): Attr<Entity>
  {
    Attr("foo", (e: Entity) => if e.Top? then e.foo else e)
  }

  /** `Foo { bar: "bar", vector: [Bla "foo", Bla "bla"] }`. */
  function SampleFoo(): Entity
  {
    Foo(Str("bar"), List([Bla(Str("foo")), Bla(Str("bla"))]))
  }

  /** `retrieve(Name).mapped(Vector)` yields the names, in order. */
  lemma TestMapped()
    ensures Traverse(Retrieve(Name()).Mapped(Vector()), SampleFoo()) == Many([Val(Str("foo")), Val(Str("bla"))])
  {
    var o := Traverse(Retrieve(Name()).Mapped(Vector()), SampleFoo());
    assert o.items == [Val(Str("foo")), Val(Str("bla"))];
  }

  /** `retrieve(Name).mapped(Vector).from(FooField)` over a `Top` yields the
      names of `top.foo.vector`, in order. */
  lemma TestComplexMapped()
    ensures Traverse(Retrieve(Name()).Mapped(Vector()).From(FooField()), Top(SampleFoo()))
         == Many([Val(Str("foo")), Val(Str("bla"))])
  {
    TestMapped();
  }
}
