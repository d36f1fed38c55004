/** Algebraic laws of path building (src/lib.rs): every builder prepends
    one node, so a chain of builder calls is a composition of one-node
    paths, and traversing a composition is traversing the first part and
    continuing every plain value it reaches along the second part. */
module PathLaws {
  import opened Paths

  /** `p` followed by `q`: the `Identity` that ends `p` is replaced by `q`. */
  function Append<V(!new)>(p: Path<V>, q: Path<V>): Path<V>
    decreases p
  {
    match p
    case Identity => q
    case Link(a, rest) => Link(a, Append(rest, q))
    case InsecureLink(a, rest) => InsecureLink(a, Append(rest, q))
    case MapLink(a, rest) => MapLink(a, Append(rest, q))
  }

  /** Continues every plain value inside an outcome along `q`, keeping the
      sequences and results that surround it (a failure stays a failure). */
  function Continue<V(!new)>(o: Out<V>, q: Path<V>): Out<V>
    decreases o
  {
    match o
    case Val(v) => Traverse(q, v)
    case Many(items) => Many(seq(|items|, i requires 0 <= i < |items| => Continue(items[i], q)))
    case Res(Ok(inner)) => Res(Ok(Continue(inner, q)))
    case Res(Err(_)) => o
  }

  /** Composition law: traversing `p` then `q` as one path is traversing
      `p` and continuing its outcome along `q`. */
  lemma {:induction false} TraverseAppend<V(!new)>(p: Path<V>, q: Path<V>, x: V)
    ensures Traverse(Append(p, q), x) == Continue(Traverse(p, x), q)
    decreases p
  {
    match p
    case Identity =>
    case Link(a, rest) =>
      TraverseAppend(rest, q, a.get(x));
    case InsecureLink(a, rest) =>
      if a.get(x).Ok? {
        TraverseAppend(rest, q, a.get(x).value);
      }
    case MapLink(a, rest) =>
      var xs := a.iter(x);
      var lhs := Traverse(Append(p, q), x).items;
      var rhs := Continue(Traverse(p, x), q).items;
      forall i | 0 <= i < |xs|
        ensures lhs[i] == rhs[i]
      {
        TraverseAppend(rest, q, xs[i]);
      }
      assert lhs == rhs;
  }

  /** `Identity` is a right unit of composition. */
  lemma {:induction false} AppendIdentity<V(!new)>(p: Path<V>)
    ensures Append(p, Identity) == p
    decreases p
  {
    match p
    case Identity =>
    case Link(_, rest) => AppendIdentity(rest);
    case InsecureLink(_, rest) => AppendIdentity(rest);
    case MapLink(_, rest) => AppendIdentity(rest);
  }

  /** Continuing along `Identity` changes no outcome. */
  lemma {:induction false} ContinueIdentity<V(!new)>(o: Out<V>)
    ensures Continue(o, Identity) == o
    decreases o
  {
    match o
    case Val(_) =>
    case Many(items) =>
      var r := Continue(o, Identity).items;
      forall i | 0 <= i < |items|
        ensures r[i] == items[i]
      {
        ContinueIdentity(items[i]);
      }
      assert r == items;
    case Res(Ok(inner)) => ContinueIdentity(inner);
    case Res(Err(_)) =>
  }

  /** Composition is associative: how a chain is grouped does not matter. */
  lemma {:induction false} AppendAssociative<V(!new)>(p: Path<V>, q: Path<V>, s: Path<V>)
    ensures Append(Append(p, q), s) == Append(p, Append(q, s))
    decreases p
  {
    match p
    case Identity =>
    case Link(_, rest) => AppendAssociative(rest, q, s);
    case InsecureLink(_, rest) => AppendAssociative(rest, q, s);
    case MapLink(_, rest) => AppendAssociative(rest, q, s);
  }

  /** Continuing along `q` and then along `s` is continuing along their
      composition. */
  lemma {:induction false} ContinueAppend<V(!new)>(o: Out<V>, q: Path<V>, s: Path<V>)
    ensures Continue(Continue(o, q), s) == Continue(o, Append(q, s))
    decreases o
  {
    match o
    case Val(v) => TraverseAppend(q, s, v);
    case Many(items) =>
      var lhs := Continue(Continue(o, q), s).items;
      var rhs := Continue(o, Append(q, s)).items;
      forall i | 0 <= i < |items|
        ensures lhs[i] == rhs[i]
      {
        ContinueAppend(items[i], q, s);
      }
      assert lhs == rhs;
    case Res(Ok(inner)) => ContinueAppend(inner, q, s);
    case Res(Err(_)) =>
  }

  /** Each builder is composition with a one-node path in front. */
  lemma BuildersPrepend<V(!new)>(p: Path<V>, a: Attr<V>, b: InsecureAttr<V>, c: IterableAttr<V>)
    requires p.Link? || p.InsecureLink?
    ensures p.From(a) == Append(Retrieve(a), p)
    ensures p.Try(b) == Append(RetrieveInsecure(b), p)
    ensures p.Mapped(c) == Append(MapLink(c, Identity), p)
  {
  }

  /** A chain of plain attributes, `attrs[0]` applied first. */
  function Chain<V(!new)>(attrs: seq<Attr<V>>): Path<V>
  {
    if attrs == [] then Identity else Link(attrs[0], Chain(attrs[1..]))
  }

  /** Reference semantics of a chain: apply the attributes' `get` in order. */
  function GetAll<V(!new)>(attrs: seq<Attr<V>>, x: V): V
  {
    if attrs == [] then x else GetAll(attrs[1..], attrs[0].get(x))
  }

  /** A chain of plain attributes delivers exactly their gets, in order. */
  lemma {:induction false} ChainTraverse<V(!new)>(attrs: seq<Attr<V>>, x: V)
    ensures Traverse(Chain(attrs), x) == Val(GetAll(attrs, x))
    decreases |attrs|
  {
    if attrs != [] {
      ChainTraverse(attrs[1..], attrs[0].get(x));
    }
  }

  /** `retrieve(innermost).from(added[0]).from(added[1])...`: the path the
      builders produce from the attributes in the order they were added. */
  function Built<V(!new)>(innermost: Attr<V>, added: seq<Attr<V>>): (p: Path<V>)
    ensures p.Link?
    decreases |added|
  {
    if added == [] then Retrieve(innermost)
    else Built(innermost, added[..|added| - 1]).From(added[|added| - 1])
  }

  function Reversed<T>(s: seq<T>): seq<T>
  {
    if s == [] then [] else Reversed(s[1..]) + [s[0]]
  }

  lemma {:induction false} ReversedLast<T>(s: seq<T>)
    requires s != []
    ensures Reversed(s) == [s[|s| - 1]] + Reversed(s[..|s| - 1])
    decreases |s|
  {
    if |s| > 1 {
      ReversedLast(s[1..]);
      assert s[1..][..|s[1..]| - 1] == s[..|s| - 1][1..];
    }
  }

  /** Outermost-added runs first: a path built by `retrieve` and successive
      `from` calls is the chain of the added attributes in reverse order of
      addition, ending with the innermost one. */
  lemma {:induction false} BuiltIsReversedChain<V(!new)>(innermost: Attr<V>, added: seq<Attr<V>>, x: V)
    ensures Traverse(Built(innermost, added), x) == Traverse(Chain(Reversed(added) + [innermost]), x)
    decreases |added|
  {
    if added != [] {
      var last := added[|added| - 1];
      var init := added[..|added| - 1];
      calc {
        Traverse(Built(innermost, added), x);
        Traverse(Built(innermost, init), last.get(x));
        { BuiltIsReversedChain(innermost, init, last.get(x)); }
        Traverse(Chain(Reversed(init) + [innermost]), last.get(x));
        { assert ([last] + (Reversed(init) + [innermost]))[1..] == Reversed(init) + [innermost]; }
        Traverse(Chain([last] + (Reversed(init) + [innermost])), x);
        { ReversedLast(added);
          assert [last] + (Reversed(init) + [innermost]) == Reversed(added) + [innermost]; }
        Traverse(Chain(Reversed(added) + [innermost]), x);
      }
    }
  }

  /** `retrieve(c).from(b).from(a)` applied to `x` is `c.get(b.get(a.get(x)))`. */
  lemma ThreeStepComposition<V(!new)>(a: Attr<V>, b: Attr<V>, c: Attr<V>, x: V)
    ensures Traverse(Retrieve(c).From(b).From(a), x) == Val(c.get(b.get(a.get(x))))
  {
    assert [b, a][..1] == [b] && [b][..0] == [];
    assert Built(c, [b]) == Retrieve(c).From(b);
    assert Built(c, [b, a]) == Built(c, [b]).From(a);
    BuiltIsReversedChain(c, [b, a], x);
    assert [b, a][1..] == [a] && [a][1..] == [];
    assert Reversed([a]) == [a];
    assert Reversed([b, a]) == [a, b];
    assert Reversed([b, a]) + [c] == [a, b, c];
    ChainTraverse([a, b, c], x);
    assert [a, b, c][1..] == [b, c] && [b, c][1..] == [c] && [c][1..] == [];
    assert GetAll([c], b.get(a.get(x))) == c.get(b.get(a.get(x)));
    assert GetAll([a, b, c], x) == GetAll([c], b.get(a.get(x)));
  }
}
