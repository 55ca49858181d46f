# Lenses: a Dafny model

This project models the lens library of microstates.js. A lens is a composable
accessor. It reads a value nested inside a structure, or rebuilds the structure
with that value changed, and it never mutates the original. The library's own code
(`src/lens`) was not available, so the model follows its test suite,
`tests/lens.test.js`. Where the tests leave a behaviour open, the model makes a
choice; the choices are listed below under "Modelling choices". The model also
proves the standard lens laws set-then-view and set-twice, and view-then-set
exactly when every key on the lens's way is present.

The model has five modules:

- `Const` and `Id` (`functors.dfy`): the two functor boxes. `Const.Map` ignores the
  function it is given. `Id.Map` applies it.
- `Values` (`values.dfy`): the subjects. A subject is `Undefined`, a number, a
  string, or an object. An object carries a `Tag` (its class, or `Plain`) and a
  `map<string, Value>` of fields. This module also holds the key getter `ReadKey`
  and the write-side rule for one key, `WriteKey`. When the subject is absent, the
  write punches out a fresh plain object that holds only that key. When the subject
  is an object, the write makes a shallow copy that keeps the tag and overrides
  that one key.
- `Lenses` (`lens.dfy`): the lens syntax `Transparent | Key(k) | Compose(outer,
  inner)`. As a design choice, a lens is run as a functor-polymorphic lens
  `lens(toBox)(s)` specialised to each box: `ApplyConst` and `ApplyId`. The tests
  show only that `Const` and `Id` are exported next to `view`, `over` and `set`.
  `View` runs a lens with `Const.Of`. `Over` runs it with `v => Id.Of(f(v))`.
  `Set` is `Over` with a constant function. A direct getter and setter (`Getter`,
  `Setter`) describe each lens independently. The contracts of `ApplyConst` and
  `ApplyId` state that the two meanings agree, and lemmas prove the lens laws.
- `Paths` (`paths.dfy`): `LensPath` folds `Compose` over key lenses from left to
  right. Its contract ties it to `GetIn` and `SetIn`, the nested read and the
  level-by-level rebuild. This module also proves the punchout and
  tag-preservation properties at every level of a path.
- `Scenarios` (`scenarios.dfy`): the concrete situations the test suite describes.

Modelling choices. The tests do not fix these behaviours:

- Writing a key into a subject that is present but primitive (a number or a
  string) treats the subject as absent, so the write produces a fresh plain
  object.
- Reading a key of anything that is not an object gives `Undefined`.
- `LensPath([])` is the transparent lens. The fold starts from `Transparent`.

## Model

| member | source | states |
|---|---|---|
| Const.Of | tests/lens.test.js:19-21 | unboxing `of(v)` gives back `v` |
| Const.Map | tests/lens.test.js:23-25 | mapping any function over a constant box leaves the boxed value unchanged |
| Const.OfUnbox | tests/lens.test.js:16-21 | boxing the unboxed value gives back the same constant box (the reverse of the round trip at 19-21, which the tests do not check) |
| Id.Of | tests/lens.test.js:32-34 | unboxing `of(v)` gives back `v` |
| Id.Map | tests/lens.test.js:36-38 | mapping `f` over an identity box yields a box holding `f` of the old contents |
| Id.OfUnbox | tests/lens.test.js:29-34 | boxing the unboxed value gives back the same identity box (the reverse of the round trip at 32-34, which the tests do not check) |
| Values.ReadAfterWrite | tests/lens.test.js:49-59 | after writing key `j`, reading `j` gives the written value and reading any other key gives what it gave before, for every subject (including `undefined` and primitives) |
| Values.WriteKey | tests/lens.test.js:49-55 | writing key `k` yields an object holding `k` with the new value; an object keeps its tag, its other keys and their values; an absent subject becomes a fresh plain object holding `k` alone |
| Lenses.Setter | tests/lens.test.js:53-59 | reading the focus back after a set gives the value that was set, for every lens |
| Lenses.ApplyConst | tests/lens.test.js:44-69 | running a lens through the constant box returns what the box constructor made of the focus, whatever the rebuilding steps would have done; this is what `view` relies on |
| Lenses.ApplyId | tests/lens.test.js:46-55 | running a lens through the identity box rebuilds the subject around what the box constructor made of the focus; this is what `over` and `set` rely on |
| Lenses.View | tests/lens.test.js:57-59 | `view` returns the lens's focus in the subject |
| Lenses.Over | tests/lens.test.js:49-51 | `over` returns the subject rebuilt with its focus replaced by `f` of the old focus |
| Lenses.Set | tests/lens.test.js:53-55 | `set` rebuilds the subject with the new focus, and viewing the result gives the value set |
| Lenses.TransparentIsWhole | tests/lens.test.js:44-47 | `view(transparent, s)` is `s`, and `over(transparent, f, s)` is `f(s)` |
| Lenses.KeyReadsAndOverrides | tests/lens.test.js:49-59 | a key lens reads the field (or `Undefined`); `over` through it changes only that field, keeps the tag and every other field, and stores `f` of the old field |
| Lenses.SetSet | tests/lens.test.js:53-55 | setting twice through a lens equals setting once with the later value |
| Lenses.ViewSetIff | tests/lens.test.js:53-59 | setting the viewed value back leaves the subject unchanged if and only if every key on the lens's way is present |
| Lenses.ComposeView | tests/lens.test.js:62-69 | a composite views the outer focus, then the inner focus within it |
| Lenses.ComposeSet | tests/lens.test.js:62-65 | a composite sets the inner focus within the outer focus, then sets that back through the outer lens |
| Lenses.ComposeAssociative | tests/lens.test.js:62-65 | `compose(compose(a,b),c)` and `compose(a,compose(b,c))` view and set alike |
| Lenses.TransparentUnit | tests/lens.test.js:42-47 | composing with the transparent lens on either side changes neither view nor set |
| Paths.LensPath | tests/lens.test.js:72-81 | the lens built from `ks` reads the nested value along `ks` and sets by rebuilding every level along `ks`, for every subject and value |
| Paths.ViewPath | tests/lens.test.js:72-77 | viewing through `lensPath(ks)` is the nested read along `ks` |
| Paths.SetPath | tests/lens.test.js:78-81 | setting through `lensPath(ks)` is the level-by-level nested write along `ks` |
| Paths.PathAppend | tests/lens.test.js:62-81 | the path of `ks + ms` views and sets like the composition of the two paths |
| Paths.PathCons | tests/lens.test.js:62-77 | `lensPath([k] + ks)` views and sets like `compose(lensKey(k), lensPath(ks))` |
| Paths.ComposeKeysIsPath | tests/lens.test.js:62-77 | `compose(lensKey(a), lensKey(b))` and `lensPath([a,b])` both read `s.a.b` and set to the same result |
| Paths.SetPathEveryLayer | tests/lens.test.js:78-123 | at every level of the path, the result either copies the subject's object with the same tag and other fields, or punches out a fresh plain object holding only the next key; the leaf holds the new value |
| Paths.Punchout | tests/lens.test.js:83-97 | setting through a path into `undefined` gives a chain of fresh plain objects, each holding exactly the next key, with the value at the leaf |
| Paths.TagsPreserved | tests/lens.test.js:99-123 | setting through a path keeps the tag of every object on the path and puts the value at the leaf |
| Scenarios.ConstBox | tests/lens.test.js:15-26 | `of(5)` unboxes to 5, and so does the box after mapping `x * 10` over it |
| Scenarios.IdBox | tests/lens.test.js:28-39 | `of(5)` unboxes to 5, and the box after mapping `x * 10` over it unboxes to 50 |
| Scenarios.TransparentOnFive | tests/lens.test.js:44-47 | `view(transparent, 5)` is 5 and `over(transparent, x => x*2, 5)` is 10 |
| Scenarios.KeyOnHello | tests/lens.test.js:49-59 | over/set/view through `lensKey('hello')` on `{hello: 'World'}` give the objects and string the tests expect |
| Scenarios.MessageHello | tests/lens.test.js:62-81 | the composite and the path read `'world'` out of `{message: {hello: 'world'}}`, and the path sets it to `'planet'` |
| Scenarios.PunchoutXyzw | tests/lens.test.js:83-97 | `set(lensPath(['x','y','z','w']), 5, undefined)` has `x`, `x.y`, `x.y.z`, `x.y.z.w`, and the last is 5 |
| Scenarios.MaintainsTypes | tests/lens.test.js:99-123 | setting `y.z.w` to 10 in `new X()` keeps the classes `X`, `Y` and `Z` at each layer and puts 10 at the leaf |

## Left out

- The implementation file `src/lens` is not part of this model. Behaviours the
  test suite does not fix are the modelling choices listed above.
- The external `funcadelic` `map` and its duck-typed dispatch on mappable values
  are left out. Each box has its own `Map` instead.
- The lens is not modelled as a function polymorphic over the functor, because
  Dafny has no higher-kinded types. It is a syntax tree with two interpreters, one
  per functor.
- JavaScript prototypes, constructors, `instanceof` and reflection are reduced to
  the `Tag` an object carries.
- Symbol keys, array and index keys, JavaScript's deep equality and arbitrary
  closures are left out. Keys are strings and equality is structural.
- The model does not treat a property holding `undefined` as equal to a missing
  property, as `toEqual` does. So a write of `Undefined` to a missing key counts as
  a change (see `Lenses.ViewSetIff`).
- JavaScript numbers are IEEE doubles. The model uses unbounded integers
  (`Num(int)`) instead. The lens operations never inspect a value they move, so
  this only affects the scenarios' arithmetic.
- `NaN` and string coercion by `*` and template literals are left out. The
  scenarios' `Double` and `Exclaim` are applied only to the number and the string
  that the tests use.
- Immutability of the input needs no statement. Every value in the model is
  immutable, so no operation can mutate its subject.
- The Jest harness and its assertion helpers are left out.
