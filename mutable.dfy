/** Mutable paths (src/mutable.rs).

    `get_mut` hands out an exclusive view of a part of the container, and
    `traverse_mut` chains such views. A view is modelled as a lens: reading
    it is the attribute's `get`, and writing `w` into it turns the container
    `s` into `put(s, w)`. A write through a whole path is the composed `put`. */
module MutablePaths {
  import Paths

  /** `AttrMut`: an `Attr` (its supertrait) that also yields an exclusive
      view of its part. `dom` holds the containers of the attribute's input
      type, the only ones Rust lets the attribute see. */
  datatype AttrMut<!V> = AttrMut(attr: Paths.Attr<V>, dom: V -> bool, put: (V, V) -> V)

  /** The view `get_mut` returns is the very slot `get` reads: what is
      written there is read back, writing back what was read changes
      nothing, a second write overwrites the first, and a written container
      is still of the input type. */
  ghost predicate Lawful<V(!new)>(a: AttrMut<V>) {
    && (forall s, w :: a.dom(s) ==> a.dom(a.put(s, w)) && a.attr.get(a.put(s, w)) == w)
    && (forall s :: a.dom(s) ==> a.put(s, a.attr.get(s)) == s)
    && (forall s, w1, w2 :: a.dom(s) ==> a.put(a.put(s, w1), w2) == a.put(s, w2))
  }

  /** `MutablePath` nodes, closed by `Identity`. */
  datatype MutablePath<!V(!new)> = Identity | Link(attr: AttrMut<V>, next: MutablePath<V>)
  {
    /** `MutablePath::from`: prepend an attribute that runs first. */
    function From(a: AttrMut<V>): (r: MutablePath<V>)
      requires Link?
      ensures forall x :: TraverseMut(r, x) == TraverseMut(this, a.attr.get(x))
      ensures forall x, w :: WriteThrough(r, x, w) == a.put(x, WriteThrough(this, a.attr.get(x), w))
      ensures forall x :: Reachable(r, x) <==> a.dom(x) && Reachable(this, a.attr.get(x))
    {
      Link(a, this)
    }
  }

  /** `retrieve_mut`: a one-node mutable path over `Identity`. */
  function RetrieveMut<V(!new)>(a: AttrMut<V>): (p: MutablePath<V>)
    ensures forall x :: TraverseMut(p, x) == a.attr.get(x)
    ensures forall x, w :: WriteThrough(p, x, w) == a.put(x, w)
    ensures forall x :: Reachable(p, x) <==> a.dom(x)
  {
    Link(a, Identity)
  }

  /** The value the view returned by `traverse_mut` shows: what the
      immutable path over the same attributes retrieves. */
  function TraverseMut<V(!new)>(p: MutablePath<V>, x: V): (v: V)
    ensures Paths.Traverse(Immutable(p), x) == Paths.Val(v)
  {
    match p
    case Identity => x
    case Link(a, rest) => TraverseMut(rest, a.attr.get(x))
  }

  /** The container after `w` is written through the view `traverse_mut`
      returned: each step puts the rewritten part back into its container.
      Through lawful attributes the view then shows `w`, and the container
      is still one the path can be applied to. */
  function WriteThrough<V(!new)>(p: MutablePath<V>, x: V, w: V): (r: V)
    ensures AllLawful(p) && Reachable(p, x) ==> Reachable(p, r) && TraverseMut(p, r) == w
  {
    match p
    case Identity => w
    case Link(a, rest) => a.put(x, WriteThrough(rest, a.attr.get(x), w))
  }

  /** Every step of `p` meets a container of its input type: the alignment
      of `Output` and `Input` types that Rust checks when the path is built. */
  ghost predicate Reachable<V(!new)>(p: MutablePath<V>, x: V) {
    match p
    case Identity => true
    case Link(a, rest) => a.dom(x) && Reachable(rest, a.attr.get(x))
  }

  ghost predicate AllLawful<V(!new)>(p: MutablePath<V>) {
    match p
    case Identity => true
    case Link(a, rest) => Lawful(a) && AllLawful(rest)
  }

  /** The immutable path built from the same attributes. */
  function Immutable<V(!new)>(p: MutablePath<V>): Paths.Path<V>
  {
    match p
    case Identity => Paths.Identity
    case Link(a, rest) => Paths.Link(a.attr, Immutable(rest))
  }

  /** `Identity` returns the very view it was given. */
  lemma IdentityMutIsInput<V(!new)>(x: V, w: V)
    ensures TraverseMut(Identity, x) == x
    ensures WriteThrough(Identity, x, w) == w
  {
  }

  /** A `MutablePath` node takes its attribute's view and hands it to the rest. */
  lemma LinkMutDelegates<V(!new)>(a: AttrMut<V>, rest: MutablePath<V>, x: V, w: V)
    ensures TraverseMut(Link(a, rest), x) == TraverseMut(rest, a.attr.get(x))
    ensures WriteThrough(Link(a, rest), x, w) == a.put(x, WriteThrough(rest, a.attr.get(x), w))
  {
  }

  /** `retrieve_mut(a)` is `a.get_mut` itself. */
  lemma RetrieveMutIsGetMut<V(!new)>(a: AttrMut<V>, x: V, w: V)
    ensures TraverseMut(RetrieveMut(a), x) == a.attr.get(x)
    ensures WriteThrough(RetrieveMut(a), x, w) == a.put(x, w)
    ensures Reachable(RetrieveMut(a), x) <==> a.dom(x)
  {
  }

  /** `from` prepends: the new attribute's output must be what the existing
      path accepts, and the new attribute runs first. */
  lemma FromMutRunsFirst<V(!new)>(p: MutablePath<V>, a: AttrMut<V>, x: V, w: V)
    requires p.Link?
    ensures TraverseMut(p.From(a), x) == TraverseMut(p, a.attr.get(x))
    ensures WriteThrough(p.From(a), x, w) == a.put(x, WriteThrough(p, a.attr.get(x), w))
    ensures Reachable(p.From(a), x) <==> a.dom(x) && Reachable(p, a.attr.get(x))
  {
  }

  /** Write-then-read: what is written through a mutable path is what the
      same path then shows, and the container keeps its shape. */
  lemma {:induction false} WriteThenRead<V(!new)>(p: MutablePath<V>, x: V, w: V)
    requires AllLawful(p) && Reachable(p, x)
    ensures TraverseMut(p, WriteThrough(p, x, w)) == w
    ensures Reachable(p, WriteThrough(p, x, w))
  {
    match p
    case Identity =>
    case Link(a, rest) =>
      var part := WriteThrough(rest, a.attr.get(x), w);
      WriteThenRead(rest, a.attr.get(x), w);
      assert a.attr.get(a.put(x, part)) == part;
  }

  /** Read-then-write: writing back what the view shows changes nothing. */
  lemma {:induction false} ReadThenWrite<V(!new)>(p: MutablePath<V>, x: V)
    requires AllLawful(p) && Reachable(p, x)
    ensures WriteThrough(p, x, TraverseMut(p, x)) == x
  {
    match p
    case Identity =>
    case Link(a, rest) =>
      ReadThenWrite(rest, a.attr.get(x));
      assert a.put(x, a.attr.get(x)) == x;
  }

  /** Write-twice: a second write through the same path overwrites the first. */
  lemma {:induction false} WriteTwice<V(!new)>(p: MutablePath<V>, x: V, w1: V, w2: V)
    requires AllLawful(p) && Reachable(p, x)
    ensures WriteThrough(p, WriteThrough(p, x, w1), w2) == WriteThrough(p, x, w2)
  {
    match p
    case Identity =>
    case Link(a, rest) =>
      var part1 := WriteThrough(rest, a.attr.get(x), w1);
      assert a.attr.get(a.put(x, part1)) == part1;
      WriteTwice(rest, a.attr.get(x), w1, w2);
      var part2 := WriteThrough(rest, a.attr.get(x), w2);
      assert a.put(a.put(x, part1), part2) == a.put(x, part2);
  }

  /** Reading through a mutable path shows what the immutable path built
      from the same attributes retrieves. */
  lemma {:induction false} ImmutableAgrees<V(!new)>(p: MutablePath<V>, x: V)
    ensures Paths.Traverse(Immutable(p), x) == Paths.Val(TraverseMut(p, x))
  {
    match p
    case Identity =>
    case Link(a, rest) => ImmutableAgrees(rest, a.attr.get(x));
  }

  /** Mutation visibility: a value written through a mutable path is what
      an independently built immutable path over the same attributes reads. */
  lemma MutationVisible<V(!new)>(p: MutablePath<V>, x: V, w: V)
    requires AllLawful(p) && Reachable(p, x)
    ensures Paths.Traverse(Immutable(p), WriteThrough(p, x, w)) == Paths.Val(w)
  {
    WriteThenRead(p, x, w);
    ImmutableAgrees(p, WriteThrough(p, x, w));
  }
}
