# attr — statically typed access paths, modelled in Dafny

`attr` is a small Rust library of access paths. An *attribute* is a named
accessor from a container to one of its parts. A *path* chains attributes
inside-out: `retrieve(a)` starts a path, and `from`, `try` and `mapped`
each put a new node in front, so the attribute added last runs first.
`traverse` applies a path to a value. A plain node (`Path`) applies its
attribute's `get` and hands the result on. A fallible node (`InsecurePath`)
stops with the fixed message `"Something went wrong"` when its attribute
fails. A branching node (`MapPath`) runs the rest of the path on every
element its attribute iterates, in order. The chain ends in `Identity`,
which returns its input. Mutable paths (`MutablePath`, `traverse_mut`)
chain exclusive views in the same way. Two serde adapters make a JSON
value's object keys and array elements into attributes. An example
validator checks that the string a path reaches starts with a pattern.

The model, file by file:

- `paths.dfy` (module `Paths`, src/lib.rs): attributes are datatypes whose
  fields hold total functions over one value universe `V`. The path datatype
  has the four node kinds. `Traverse` is the recursive evaluator. The
  builders are `Retrieve`, `RetrieveInsecure` and the `From`, `Try` and
  `Mapped` members. Lemmas state each node's equation and each builder's
  meaning.
- `path_laws.dfy` (module `PathLaws`, src/lib.rs): the composition law.
  `Append(p, q)` puts `q` where `p` ends. Traversing `Append(p, q)` is
  traversing `p` and continuing every plain value it reaches along `q`.
  Composition is associative with `Identity` as unit. Every builder is
  composition with a one-node path in front. A path built by `retrieve`
  and repeated `from` applies the attributes in reverse order of addition.
- `mutable.dfy` (module `MutablePaths`, src/mutable.rs): `AttrMut` is a
  lens. Reading the view is the attribute's `get`, and writing `w` into it
  is `put(s, w)`. `TraverseMut` is the value the view shows, and
  `WriteThrough` is the container after a write through it. Lemmas state
  write-then-read, read-then-write, write-twice, and agreement with the
  immutable path built from the same attributes.
- `json.dfy`, `serde.dfy`, `serde_impl.dfy` (modules `Json`, `Serde`,
  `SerdeImpl`; src/serde.rs and src/serde_impl.rs): a JSON value datatype
  with `get`, `at` and their exclusive variants. Each `unwrap()` or
  `panic!` is a precondition. The `get_mut` of serde_impl.rs is an
  `AttrMut` lens that obeys the lens laws, so it can be used in mutable
  paths.
- `validation.dfy` (module `Validation`, examples/validation.rs): the user
  / data / e-mail attributes, `PrefixValidator::validate` and `validate`.
- `nested_examples.dfy`, `mapping_examples.dfy`: the fixtures of
  tests/nested.rs and tests/mapping.rs, used as concrete witnesses.

Behaviours of the code that the model keeps as written:

- The serde adapters panic on a non-object, a missing key, a non-array or
  an index out of range. They do not report a failure. The model states
  these cases as preconditions.
- A fallible path inside a fallible path nests its results. The outer
  result fails only when the outer (first-run) attribute fails. A later
  failure appears as `Ok(Err(..))`, not as one failure for the whole chain
  (`Paths.TryNestsResults`).
- A `MapPath` inside a `MapPath` yields a sequence of sequences. Nothing
  flattens them.
- tests/serde_tests.rs uses the serde adapter as a fallible attribute
  that returns a `Result`. src/serde.rs implements the infallible `Attr`,
  which panics instead. The model follows src/serde.rs.

## Model

| member | source | states |
|---|---|---|
| `Paths.Traverse` | src/lib.rs:163-195 | the outcome is nested as the path's node kinds dictate (a result per fallible node, whose only error is `"Something went wrong"`, a sequence per branching node, a plain value at `Identity`); a fallible first node fails iff its attribute fails; a branching first node gives one outcome per element |
| `Paths.Retrieve` | src/lib.rs:138-147 | `retrieve(a)` traverses every input `x` to `a.get(x)` |
| `Paths.RetrieveInsecure` | src/lib.rs:152-161 | `retrieve_insecure(a)` gives `Ok(a's value)` on every input where `a` succeeds and the fixed error wherever it fails |
| `Paths.Path.From` | src/lib.rs:197-293 | on every input, `p.from(a)` traverses as `p` traverses `a.get(x)` (for `Path`, `InsecurePath` and `MapPath`) |
| `Paths.Path.Try` | src/lib.rs:215-264 | on every input, `p.try(a)` gives `Ok` of `p`'s traversal of `a`'s value when `a` succeeds, and the fixed error when it fails |
| `Paths.Path.Mapped` | src/lib.rs:229-276 | on every input, `p.mapped(a)` gives one outcome per element of `a.iter(x)`, in order, each `p`'s traversal of that element |
| `Paths.IdentityReturnsInput` | src/lib.rs:163-166 | `Identity` returns its input unchanged |
| `Paths.LinkDelegates` | src/lib.rs:168-174 | a `Path` node's traversal is the rest's traversal of `attr.get(x)` |
| `Paths.InsecureShortCircuits` | src/lib.rs:176-185 | a failing fallible attribute gives `Err("Something went wrong")`; the attribute's own message is discarded, and the result does not depend on the rest of the path |
| `Paths.MapPerElement` | src/lib.rs:187-195 | a `MapPath` yields exactly one outcome per element of `iter(x)`, in order, each being the rest's traversal of that element |
| `Paths.MapIsolatesFailures` | src/lib.rs:176-195 | under a `MapPath`, slot `i` of a fallible rest fails iff the attribute fails on element `i`, and it is the same for any two containers that agree on element `i`: siblings do not affect it |
| `Paths.RetrieveIsGet` | src/lib.rs:138-147 | `retrieve(a)` traverses to exactly `a.get(x)` |
| `Paths.RetrieveInsecureIsGet` | src/lib.rs:152-161 | `retrieve_insecure(a)` gives `Ok` of `a`'s value when `a` succeeds and the fixed error otherwise |
| `Paths.FromRunsFirst` | src/lib.rs:201-210 | `p.from(a)` traverses `x` as `p` traverses `a.get(x)`: the attribute added last runs first |
| `Paths.TryRunsFirst` | src/lib.rs:215-224 | `p.try(a)` runs `a` first; on success it wraps `p`'s traversal of the value in `Ok`, and on failure it gives the fixed error |
| `Paths.MappedRunsPerElement` | src/lib.rs:229-238 | `p.mapped(a)` runs `p` once per element of `a.iter(x)`, in order |
| `Paths.FromInsecureFailsIffInnerFails` | src/lib.rs:243-252 | a fallible path extended by `from` fails iff its fallible attribute fails on what the new attribute retrieved |
| `Paths.TryNestsResults` | src/lib.rs:255-264 | two chained fallible steps nest their results: the outer fails iff the added attribute fails, and the inner fails iff the earlier one fails |
| `Paths.MappedInsecurePerElement` | src/lib.rs:267-276 | a mapped fallible path gives one result per element, failing exactly at the elements whose attribute fails |
| `Paths.MappedThenFrom` | src/lib.rs:281-293 | `p.mapped(a).from(b)` fans out over `a.iter(b.get(x))`, running `p` on each element in order |
| `PathLaws.TraverseAppend` | src/lib.rs:168-195 | traversing a composed path is traversing its first part and continuing every plain value reached along the second part; results and sequences keep their structure |
| `PathLaws.AppendIdentity` | src/lib.rs:163-166 | `Identity` is a right unit of composition |
| `PathLaws.ContinueIdentity` | src/lib.rs:163-166 | continuing any outcome along `Identity` leaves it unchanged |
| `PathLaws.AppendAssociative` | src/lib.rs:197-210 | composition of paths is associative |
| `PathLaws.ContinueAppend` | src/lib.rs:168-195 | continuing along `q` and then `s` equals continuing along `q` composed with `s` |
| `PathLaws.BuildersPrepend` | src/lib.rs:197-277 | `from`, `try` and `mapped` each compose a one-node path in front of the existing one |
| `PathLaws.ChainTraverse` | src/lib.rs:168-174 | a chain of plain attributes yields the fold of their `get`s, first attribute first |
| `PathLaws.BuiltIsReversedChain` | src/lib.rs:138-147 | `retrieve(c)` followed by `from` calls traverses like the chain of the added attributes in reverse order of addition, then `c` |
| `PathLaws.ThreeStepComposition` | src/lib.rs:201-210 | `retrieve(c).from(b).from(a)` applied to `x` is `c.get(b.get(a.get(x)))` |
| `MutablePaths.RetrieveMut` | src/mutable.rs:16-26 | `retrieve_mut(a)` shows `a`'s view, writes through `a`'s `put`, and accepts exactly `a`'s input type, on every input |
| `MutablePaths.MutablePath.From` | src/mutable.rs:36-48 | on every input, `p.from(a)` shows `p`'s view of `a`'s view, a write puts `p`'s rewritten part back through `a`, and it accepts `x` iff `a` does and `p` accepts `a`'s view |
| `MutablePaths.TraverseMut` | src/mutable.rs:54-64 | the view `traverse_mut` returns shows what the immutable path over the same attributes retrieves (proved by induction on the path) |
| `MutablePaths.WriteThrough` | src/mutable.rs:54-64 | with lawful attributes and an input the path can be applied to, after `w` is written through the view the path shows `w` and can still be applied |
| `MutablePaths.IdentityMutIsInput` | src/mutable.rs:54-57 | `Identity` returns the view it was given: it shows `x`, and writing `w` through it gives `w` |
| `MutablePaths.LinkMutDelegates` | src/mutable.rs:59-64 | a `MutablePath` node reads through `attr.get_mut` and the rest; a write puts the rest's rewritten part back into the container |
| `MutablePaths.RetrieveMutIsGetMut` | src/mutable.rs:16-26 | `retrieve_mut(a)` is `a.get_mut` itself (same view, same write, same input type) |
| `MutablePaths.FromMutRunsFirst` | src/mutable.rs:36-48 | `from` prepends: the new attribute runs first, and the path accepts `x` iff the new attribute accepts `x` and the old path accepts its output |
| `MutablePaths.WriteThenRead` | src/mutable.rs:59-64 | with lawful attributes, a value written through a mutable path is what the path then shows, and the container keeps its shape |
| `MutablePaths.ReadThenWrite` | src/mutable.rs:59-64 | writing back what the view shows leaves the container unchanged |
| `MutablePaths.WriteTwice` | src/mutable.rs:50-64 | a second write through the same path overwrites the first |
| `MutablePaths.ImmutableAgrees` | src/mutable.rs:4-6 | a mutable path's view shows what the immutable path over the same attributes retrieves |
| `MutablePaths.MutationVisible` | src/mutable.rs:59-64 | a value written through a mutable path is read back by the immutable path over the same attributes |
| `Serde.New` | src/serde.rs:9-20 | `SerdeAttribute::new(n).name()` is `n` |
| `Serde.Get` | src/serde.rs:22-27 | `get` returns one of the object's own entries; with `PutField` and `PutFieldOfGet` it is the read side of the slot under the key |
| `Serde.At` | src/serde.rs:45-55 | `at` returns one of the elements of the array under the key; with `PutAt` and `PutAtOfAt` it is the read side of that element's slot |
| `Serde.PutField` | src/serde.rs:37-42 | a write into the slot of the exclusive `get` is read back by `get`; the object keeps its keys and all other entries |
| `Serde.PutFieldOfGet` | src/serde.rs:22-42 | the exclusive and shared `get` address the same slot: writing back what `get` read leaves the object unchanged |
| `Serde.PutAt` | src/serde.rs:60-66 | a write into the slot of the exclusive `at` is read back by `at`; the array keeps its length and its other elements, and the object its other entries |
| `Serde.PutAtOfAt` | src/serde.rs:48-66 | the exclusive and shared `at` address the same slot: writing back what `at` read leaves the object unchanged |
| `Serde.SampleAccess` | tests/serde_tests.rs:18-27 | on `{"x":1,"y":[1,2,3]}`, `x` yields `1` and `y.at(1)` yields `2`, the two reads of the test; it also writes `4` through the exclusive `at(1)`, a write taken from the `Vec` case of tests/nested.rs:248-257 rather than from this test, and `at` then reads `4` while `x` is still `1` |
| `SerdeImpl.New` | src/serde_impl.rs:9-20 | `SerdeAttribute::new(n).name()` is `n` |
| `SerdeImpl.Get` | src/serde_impl.rs:22-27 | `get` returns one of the object's own entries (the one under the key, by `GetMutSharesSlot`) |
| `SerdeImpl.AsAttrMut` | src/serde_impl.rs:30-37 | `get_mut` as a lens: it keeps the attribute's name, accepts exactly the objects holding the key, and a value written into its slot is read back (all three lens laws: `AsAttrMutLawful`) |
| `SerdeImpl.GetMutSharesSlot` | src/serde_impl.rs:22-37 | `get_mut`'s slot holds what `get` returns; a value written there is what `get` then returns, and every other entry is unchanged |
| `SerdeImpl.AsAttrMutLawful` | src/serde_impl.rs:30-37 | the `get_mut` lens obeys write-then-read, read-then-write and write-twice |
| `SerdeImpl.GetSample` | tests/serde.rs:10-18 | on `{"x":1}`, `get("x")` is `U64(1)` |
| `SerdeImpl.NestedWriteVisible` | src/serde_impl.rs:30-37 | the mutable path `z` under `y` reads `1` from `{"x":1,"y":{"z":1}}`, and after `4` is written through it the immutable path reads `4` |
| `Validation.DataAttribute` | examples/validation.rs:9-16 | the attribute named `"data"` gives back, from a user built on the record `d`, that record `d` |
| `Validation.EmailAttribute` | examples/validation.rs:22-29 | the attribute named `"email"` gives back, from a record built on the address `e`, that address `e` |
| `Validation.PrefixValidator.Validate` | examples/validation.rs:36-42 | `validate(t)` holds iff the path takes `t` to a string that is the pattern followed by something |
| `Validation.StartsWithIffConcat` | examples/validation.rs:40 | `starts_with(s, p)` holds iff `s` is `p` followed by something |
| `Validation.ValidateIsPrefix` | examples/validation.rs:37-41 | a validator whose path reaches the string `s` accepts iff `s` is its pattern followed by something |
| `Validation.EmailPathReachesEmail` | examples/validation.rs:11-29 | `retrieve(EmailAttribute).from(DataAttribute)` takes a user `u` to `u.data.email` |
| `Validation.ValidateUser` | examples/validation.rs:49-54 | `validate(u)` holds iff the user's e-mail starts with `"flo"` |
| `Validation.MainUserValid` | examples/validation.rs:44-47 | the user `flo@andersground.net` passes validation |
| `NestedExamples.NestedAccess` | tests/nested.rs:205-213 | `retrieve(name).from(batz)` reads `f.batz.name == "foo"` |
| `NestedExamples.PathReuse` | tests/nested.rs:263-276 | one path value traverses two containers with independent results (`"foo"` and `"bar"`) |
| `NestedExamples.NestedMutable` | tests/nested.rs:223-238 | after `"bar"` is written through the mutable `name`-under-`batz` path, the immutable path built the same way reads `"bar"`, and nothing else in `f` changed |
| `NestedExamples.NumbersAt` | tests/nested.rs:124-130 | `Numbers.at(f, idx)` returns one of `f`'s own numbers; `NumbersPutAt` and `NestedVec` give its slot |
| `NestedExamples.NumbersPutAt` | tests/nested.rs:132-138 | a write into the slot of the mutable `Numbers.at(idx)` is read back by `at(idx)`; the other numbers and fields are unchanged |
| `NestedExamples.NestedVec` | tests/nested.rs:240-257 | on `[1,2,3]`, `at(1)` is `2`, and after `4` is written through the mutable `at(1)`, `at(1)` is `4` |
| `MappingExamples.TestMapped` | tests/mapping.rs:158-168 | `retrieve(Name).mapped(Vector)` over `[Bla "foo", Bla "bla"]` yields `["foo", "bla"]` |
| `MappingExamples.TestComplexMapped` | tests/mapping.rs:171-183 | `retrieve(Name).mapped(Vector).from(FooField)` over a `Top` yields the names of `top.foo.vector` in order |

## Left out

- Rust's compile-time alignment of `Output` and `Input` types across
  builders. The model has one value universe per use. An immutable
  attribute is total on it, and the fixtures return ill-typed inputs
  unchanged; a well-typed Rust path never meets such inputs. For mutable
  paths the alignment is the predicate `MutablePaths.Reachable`.
- Lifetimes, `PhantomData`, zero-sized path values and the exclusivity of
  `&mut` views. A view is a lens (`get`, `put`), so aliasing and borrow
  scopes are not modelled. A path holds only its attributes, as a value.
- Laziness of `Box<Iterator>`. An iterator is a finite sequence, and a
  `MapPath` gives all its outcomes at once.
- The traits `IndexableAttr`, `InsecureIndexableAttr` and
  `InsecureIterableAttr` of src/lib.rs: no path node uses them. The serde
  adapter's `at` is modelled as a function on the JSON value.
- `IndexableAttrMut` and `IterableAttrMut` of src/mutable.rs: they refer to
  trait signatures of another generation that src/lib.rs does not have.
- `MutablePaths.AttrMut`: the view `get_mut` returns is read with the
  attribute's own `get`, by construction. In Rust `get` and `get_mut` are
  separate methods and nothing forces them to address the same part, so
  `MutablePaths.ImmutableAgrees` and `MutablePaths.TraverseMut` hold for
  every attribute here but not for every Rust implementation. For the
  serde adapter the two are shown to agree (`SerdeImpl.GetMutSharesSlot`).
- `name()` is kept as a field of every attribute. It is used only for
  diagnostics, and no traversal reads it.
- serde_json itself: parsing, floating-point numbers (`F64`) and the order
  of its map. An object is a finite map, and integers are `u64` and `i64`.
- The panics of the serde adapters and the undefined behaviour of
  `get_unchecked_mut` out of range are preconditions, not modelled failures.
- Rust strings are UTF-8 bytes, and `starts_with` compares bytes. The model
  compares characters. For valid strings a character prefix is a byte prefix.
- `Validation.PrefixValidator.Validate` returns false when the path does
  not end in a string. Rust's types rule out such a path.
- benches/access_bench.rs: timing only, written against another trait
  generation.
