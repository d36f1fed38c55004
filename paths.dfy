/** Statically typed access paths (src/lib.rs), over one value universe `V`.

    An attribute is a named accessor from a container to one of its parts.
    A path is a right-nested chain of nodes ending in `Identity`; `Traverse`
    threads a value through it, outermost node first. Rust's per-node
    `Input`/`Output` type parameters collapse into the single universe `V`. */
module Paths {

  /** `Result<X> = std::result::Result<X, String>`. */
  datatype Result<+T> = Ok(value: T) | Err(error: string)

  /** The one message an `InsecurePath` reports, whatever its attribute said. */
  const FAILURE_MESSAGE: string := "Something went wrong"

  /** `Attr`: a named accessor that always succeeds. */
  datatype Attr<!V> = Attr(name: string, get: V -> V)

  /** `InsecureAttr`: a named accessor whose retrieval may fail. */
  datatype InsecureAttr<!V> = InsecureAttr(name: string, get: V -> Result<V>)

  /** `IterableAttr`: an attribute that also fans its container out into a
      finite sequence of elements, in the collection's own order. */
  datatype IterableAttr<!V> = IterableAttr(attr: Attr<V>, iter: V -> seq<V>)

  /** The four path node kinds. */
  datatype Path<!V(!new)> =
    | Identity                                                // `Identity`
    | Link(attr: Attr<V>, next: Path<V>)                      // `Path`
    | InsecureLink(insecure: InsecureAttr<V>, next: Path<V>)  // `InsecurePath`
    | MapLink(iterable: IterableAttr<V>, next: Path<V>)       // `MapPath`
  {
    /** `Path::from`, `InsecurePath::from`, `MapPath::from`: prepend an
        attribute that runs before the existing path. */
    function From(a: Attr<V>): (r: Path<V>)
      requires !Identity?
      ensures forall x :: Traverse(r, x) == Traverse(this, a.get(x))
    {
      Link(a, this)
    }

    /** `Path::try`, `InsecurePath::try`: prepend a fallible attribute. */
    function Try(a: InsecureAttr<V>): (r: Path<V>)
      requires Link? || InsecureLink?
      ensures forall x :: a.get(x).Ok? ==> Traverse(r, x) == Res(Ok(Traverse(this, a.get(x).value)))
      ensures forall x :: a.get(x).Err? ==> Traverse(r, x) == Res(Err(FAILURE_MESSAGE))
    {
      InsecureLink(a, this)
    }

    /** `Path::mapped`, `InsecurePath::mapped`: run the existing path on
        every element the iterable attribute yields. */
    function Mapped(a: IterableAttr<V>): (r: Path<V>)
      requires Link? || InsecureLink?
      ensures forall x :: Traverse(r, x).Many? && EachTraversed(Traverse(r, x).items, this, a.iter(x))
    {
      MapLink(a, this)
    }
  }

  /** The outcome of a traversal: a plain value (`Path`, `Identity`), one
      outcome per element (`MapPath`), or a result (`InsecurePath`). */
  datatype Out<V> = Val(v: V) | Many(items: seq<Out<V>>) | Res(result: Result<Out<V>>)

  /** `retrieve`: a one-node path whose rest is `Identity`. */
  function Retrieve<V(!new)>(a: Attr<V>): (p: Path<V>)
    ensures forall x :: Traverse(p, x) == Val(a.get(x))
  {
    Link(a, Identity)
  }

  /** `retrieve_insecure`: a one-node fallible path whose rest is `Identity`. */
  function RetrieveInsecure<V(!new)>(a: InsecureAttr<V>): (p: Path<V>)
    ensures forall x :: a.get(x).Ok? ==> Traverse(p, x) == Res(Ok(Val(a.get(x).value)))
    ensures forall x :: a.get(x).Err? ==> Traverse(p, x) == Res(Err(FAILURE_MESSAGE))
  {
    InsecureLink(a, Identity)
  }

  /** The nesting a path's node kinds give its outcome: a plain node adds
      nothing, a fallible node one result (whose only error is the fixed
      message), a branching node one sequence, and `Identity` ends in a
      plain value. */
  predicate Fits<V(!new)>(o: Out<V>, p: Path<V>)
    decreases p
  {
    match p
    case Identity => o.Val?
    case Link(_, rest) => Fits(o, rest)
    case InsecureLink(_, rest) =>
      && o.Res?
      && (o.result.Ok? ==> Fits(o.result.value, rest))
      && (o.result.Err? ==> o.result.error == FAILURE_MESSAGE)
    case MapLink(_, rest) =>
      o.Many? && forall i :: 0 <= i < |o.items| ==> Fits(o.items[i], rest)
  }

  /** The `Traverse` impls of `Identity`, `Path`, `InsecurePath` and
      `MapPath`. The outcome is nested as the node kinds dictate; a
      fallible first node fails exactly when its attribute fails, and a
      branching first node gives one outcome per element. */
  function Traverse<V(!new)>(p: Path<V>, x: V): (o: Out<V>)
    ensures Fits(o, p)
    ensures p.InsecureLink? ==> (o.result.Err? <==> p.insecure.get(x).Err?)
    ensures p.MapLink? ==> |o.items| == |p.iterable.iter(x)|
    decreases p
  {
    match p
    case Identity => Val(x)
    case Link(a, rest) => Traverse(rest, a.get(x))
    case InsecureLink(a, rest) =>
      (match a.get(x)
       case Ok(v) => Res(Ok(Traverse(rest, v)))
       case Err(_) => Res(Err(FAILURE_MESSAGE)))
    case MapLink(a, rest) =>
      var xs := a.iter(x);
      Many(seq(|xs|, i requires 0 <= i < |xs| => Traverse(rest, xs[i])))
  }

  /** `items` holds, in order, one outcome per element of `xs`: the
      traversal of `rest` from that element. */
  ghost predicate EachTraversed<V(!new)>(items: seq<Out<V>>, rest: Path<V>, xs: seq<V>) {
    |items| == |xs| && forall i :: 0 <= i < |xs| ==> items[i] == Traverse(rest, xs[i])
  }

  /** `Identity` hands its input back unchanged. */
  lemma IdentityReturnsInput<V(!new)>(x: V)
    ensures Traverse(Identity, x) == Val(x)
  {
  }

  /** A `Path` node applies its attribute and delegates to the rest. */
  lemma LinkDelegates<V(!new)>(a: Attr<V>, rest: Path<V>, x: V)
    ensures Traverse(Link(a, rest), x) == Traverse(rest, a.get(x))
  {
  }

  /** `retrieve(a)` traverses to exactly `a.get`. */
  lemma RetrieveIsGet<V(!new)>(a: Attr<V>, x: V)
    ensures Traverse(Retrieve(a), x) == Val(a.get(x))
  {
  }

  /** `retrieve_insecure(a)` succeeds with `a`'s value exactly when `a`
      succeeds, and otherwise reports the fixed message. */
  lemma RetrieveInsecureIsGet<V(!new)>(a: InsecureAttr<V>, x: V)
    ensures a.get(x).Ok? ==> Traverse(RetrieveInsecure(a), x) == Res(Ok(Val(a.get(x).value)))
    ensures a.get(x).Err? ==> Traverse(RetrieveInsecure(a), x) == Res(Err(FAILURE_MESSAGE))
  {
  }

  /** `from` prepends: the attribute added last runs first, on the
      original value, and the existing path runs on what it retrieved. */
  lemma FromRunsFirst<V(!new)>(p: Path<V>, a: Attr<V>, x: V)
    requires !p.Identity?
    ensures Traverse(p.From(a), x) == Traverse(p, a.get(x))
  {
  }

  /** `try` prepends a fallible step: on success the existing path runs on
      the retrieved value, on failure it is skipped. */
  lemma TryRunsFirst<V(!new)>(p: Path<V>, a: InsecureAttr<V>, x: V)
    requires p.Link? || p.InsecureLink?
    ensures a.get(x).Ok? ==> Traverse(p.Try(a), x) == Res(Ok(Traverse(p, a.get(x).value)))
    ensures a.get(x).Err? ==> Traverse(p.Try(a), x) == Res(Err(FAILURE_MESSAGE))
  {
  }

  /** `mapped` runs the existing path once per element, in order. */
  lemma MappedRunsPerElement<V(!new)>(p: Path<V>, a: IterableAttr<V>, x: V)
    requires p.Link? || p.InsecureLink?
    ensures Traverse(p.Mapped(a), x).Many?
    ensures EachTraversed(Traverse(p.Mapped(a), x).items, p, a.iter(x))
  {
  }

  /** An `InsecurePath` node whose attribute fails reports the fixed message:
      the attribute's own message is discarded, and the rest of the path
      cannot influence the outcome (it is never run). */
  lemma InsecureShortCircuits<V(!new)>(a: InsecureAttr<V>, rest1: Path<V>, rest2: Path<V>, x: V)
    requires a.get(x).Err?
    ensures Traverse(InsecureLink(a, rest1), x) == Res(Err(FAILURE_MESSAGE))
    ensures Traverse(InsecureLink(a, rest1), x) == Traverse(InsecureLink(a, rest2), x)
  {
  }

  /** A `MapPath` yields exactly one outcome per element, in order. */
  lemma MapPerElement<V(!new)>(a: IterableAttr<V>, rest: Path<V>, x: V)
    ensures Traverse(MapLink(a, rest), x).Many?
    ensures EachTraversed(Traverse(MapLink(a, rest), x).items, rest, a.iter(x))
  {
  }

  /** A `MapPath` over an `InsecurePath` confines each failure to its own
      slot: slot `i` fails exactly when the attribute fails on element `i`,
      and it depends on element `i` only, not on its siblings. */
  lemma MapIsolatesFailures<V(!new)>(a: IterableAttr<V>, b: InsecureAttr<V>, rest: Path<V>, x: V, y: V, i: nat)
    requires i < |a.iter(x)| && i < |a.iter(y)|
    requires a.iter(x)[i] == a.iter(y)[i]
    ensures var p := MapLink(a, InsecureLink(b, rest));
      && Traverse(p, x).items[i] == Traverse(p, y).items[i]
      && (Traverse(p, x).items[i] == Res(Err(FAILURE_MESSAGE)) <==> b.get(a.iter(x)[i]).Err?)
  {
  }

  /** `InsecurePath::from`: prepending a plain attribute to a fallible path
      fails exactly when the fallible attribute fails on what the new
      attribute retrieved. */
  lemma FromInsecureFailsIffInnerFails<V(!new)>(a: Attr<V>, b: InsecureAttr<V>, rest: Path<V>, x: V)
    ensures Traverse(InsecureLink(b, rest).From(a), x).Res?
    ensures Traverse(InsecureLink(b, rest).From(a), x).result.Err? <==> b.get(a.get(x)).Err?
  {
  }

  /** `InsecurePath::try`: two fallible steps nest their results; the outer
      result fails exactly when the newly added (first-run) attribute fails,
      and the inner one exactly when the earlier-added attribute fails. */
  lemma TryNestsResults<V(!new)>(a: InsecureAttr<V>, b: InsecureAttr<V>, rest: Path<V>, x: V)
    ensures var o := Traverse(InsecureLink(b, rest).Try(a), x);
      && o.Res?
      && (o.result.Err? <==> a.get(x).Err?)
      && (a.get(x).Ok? ==> o.result.value.Res? && (o.result.value.result.Err? <==> b.get(a.get(x).value).Err?))
  {
  }

  /** `InsecurePath::mapped`: a fallible path under a map gives one result
      per element, failing exactly at the elements whose attribute fails. */
  lemma MappedInsecurePerElement<V(!new)>(a: IterableAttr<V>, b: InsecureAttr<V>, rest: Path<V>, x: V)
    ensures var o := Traverse(InsecureLink(b, rest).Mapped(a), x);
      && o.Many? && |o.items| == |a.iter(x)|
      && forall i :: 0 <= i < |o.items| ==> o.items[i].Res? && (o.items[i].result.Err? <==> b.get(a.iter(x)[i]).Err?)
  {
  }

  /** `MapPath::from`: a mapped path reached through a plain attribute fans
      out over the elements of what that attribute retrieved. */
  lemma MappedThenFrom<V(!new)>(p: Path<V>, a: IterableAttr<V>, b: Attr<V>, x: V)
    requires p.Link? || p.InsecureLink?
    ensures Traverse(p.Mapped(a).From(b), x).Many?
    ensures EachTraversed(Traverse(p.Mapped(a).From(b), x).items, p, a.iter(b.get(x)))
  {
  }
}
