/** Lenses as a small syntax: the identity optic, a key accessor, and the
    composition of two lenses. Each lens is given two meanings. The
    operational one is the functor-polymorphic lens `lens(toBox)(s)`
    specialised to each box (`ApplyConst`, `ApplyId`); this mirrors the
    `Const` and `Id` boxes exported beside `view`, `over` and `set`, and is a
    modelling choice. The reference one is a direct getter and setter
    (`Getter`, `Setter`). The contracts of `ApplyConst` and `ApplyId` state
    that the two agree. */
module Lenses {
  import Const
  import Id
  import opened Values

  datatype Lens =
    | Transparent
    | Key(k: string)
    | Compose(outer: Lens, inner: Lens)

  // ---------------------------------------------------------------------
  // Reference semantics: what a lens reads and how it rebuilds.

  /** The focus of `l` inside `s`; `Undefined` when a key on the way is
      missing. */
  function Getter(l: Lens, s: Value): Value
  {
    match l
    case Transparent => s
    case Key(k) => ReadKey(s, k)
    case Compose(o, i) => Getter(i, Getter(o, s))
  }

  /** `s` rebuilt with its focus replaced by `v`. Reading the focus back
      gives `v` (the set-then-view law). */
  function Setter(l: Lens, v: Value, s: Value): (r: Value)
    ensures Getter(l, r) == v
  {
    match l
    case Transparent => v
    case Key(k) => WriteKey(s, k, v)
    case Compose(o, i) => Setter(o, Setter(i, v, Getter(o, s)), s)
  }

  /** Every key `l` traverses is present in `s`. */
  predicate Reaches(l: Lens, s: Value)
  {
    match l
    case Transparent => true
    case Key(k) => HasKey(s, k)
    case Compose(o, i) => Reaches(o, s) && Reaches(i, Getter(o, s))
  }

  // ---------------------------------------------------------------------
  // Operational semantics: a lens maps a box constructor `toBox` over the
  // focus and then maps the rebuilding step over the resulting box.

  /** Through the constant functor a lens returns whatever `toBox` made of
      the focus: no rebuilding step changes it. */
  function ApplyConst(l: Lens, toBox: Value -> Const.Box<Value>, s: Value): (r: Const.Box<Value>)
    ensures Const.Unbox(r) == Const.Unbox(toBox(Getter(l, s)))
    decreases l, 0
  {
    match l
    case Transparent => toBox(s)
    case Key(k) => Const.Map(v => WriteKey(s, k, v), toBox(ReadKey(s, k)))
    case Compose(o, i) => ApplyConst(o, ConstThen(i, toBox), s)
  }

  /** The box constructor handed to the outer lens of a composition: run
      the inner lens. */
  function ConstThen(i: Lens, toBox: Value -> Const.Box<Value>): Value -> Const.Box<Value>
    decreases i, 1
  {
    x => ApplyConst(i, toBox, x)
  }

  /** Through the identity functor a lens rebuilds the subject around
      whatever `toBox` made of the focus. */
  function ApplyId(l: Lens, toBox: Value -> Id.Box<Value>, s: Value): (r: Id.Box<Value>)
    ensures Id.Unbox(r) == Setter(l, Id.Unbox(toBox(Getter(l, s))), s)
    decreases l, 0
  {
    match l
    case Transparent => toBox(s)
    case Key(k) => Id.Map(v => WriteKey(s, k, v), toBox(ReadKey(s, k)))
    case Compose(o, i) => ApplyId(o, IdThen(i, toBox), s)
  }

  function IdThen(i: Lens, toBox: Value -> Id.Box<Value>): Value -> Id.Box<Value>
    decreases i, 1
  {
    x => ApplyId(i, toBox, x)
  }

  // ---------------------------------------------------------------------
  // The three operations.

  /** `view`: run the lens with `Const.of` and unbox. */
  function View(l: Lens, s: Value): (r: Value)
    ensures r == Getter(l, s)
  {
    Const.Unbox(ApplyConst(l, x => Const.Of(x), s))
  }

  /** `over`: run the lens with `v => Id.of(f(v))` and unbox. */
  function Over(l: Lens, f: Value -> Value, s: Value): (r: Value)
    ensures r == Setter(l, f(Getter(l, s)), s)
  {
    Id.Unbox(ApplyId(l, x => Id.Of(f(x)), s))
  }

  /** `set`: `over` with the constant function. */
  function Set(l: Lens, v: Value, s: Value): (r: Value)
    ensures r == Setter(l, v, s)
    ensures View(l, r) == v
  {
    Over(l, _ => v, s)
  }

  // ---------------------------------------------------------------------
  // Laws.

  /** The transparent lens focuses on the whole subject. */
  lemma TransparentIsWhole(f: Value -> Value, s: Value)
    ensures View(Transparent, s) == s
    ensures Over(Transparent, f, s) == f(s)
  {
  }

  /** A key lens reads the field, and `over` through it rewrites that field
      alone, keeping the object's tag and every other field. */
  lemma KeyReadsAndOverrides(k: string, f: Value -> Value, s: Value)
    ensures View(Key(k), s) == (if HasKey(s, k) then s.fields[k] else Undefined)
    ensures OverridesKey(s, Over(Key(k), f, s), k)
    ensures ReadKey(Over(Key(k), f, s), k) == f(ReadKey(s, k))
  {
  }

  /** Setting twice is setting once with the later value. */
  lemma {:induction false} SetterSetter(l: Lens, v1: Value, v2: Value, s: Value)
    ensures Setter(l, v2, Setter(l, v1, s)) == Setter(l, v2, s)
  {
    match l
    case Transparent =>
    case Key(k) =>
      WriteWrite(s, k, v1, v2);
    case Compose(o, i) =>
      var x := Getter(o, s);
      var w1 := Setter(i, v1, x);
      SetterSetter(i, v1, v2, x);
      SetterSetter(o, w1, Setter(i, v2, x), s);
  }

  lemma SetSet(l: Lens, v1: Value, v2: Value, s: Value)
    ensures Set(l, v2, Set(l, v1, s)) == Set(l, v2, s)
  {
    SetterSetter(l, v1, v2, s);
  }

  /** Writing back what was read leaves the subject unchanged exactly when
      every key on the way is present; otherwise the write creates the
      missing keys (holding `Undefined`) and the result differs. */
  lemma {:induction false} SetterGetterIff(l: Lens, s: Value)
    ensures Setter(l, Getter(l, s), s) == s <==> Reaches(l, s)
  {
    match l
    case Transparent =>
    case Key(k) =>
      WriteReadIff(s, k);
    case Compose(o, i) =>
      var x := Getter(o, s);
      SetterGetterIff(i, x);
      SetterGetterIff(o, s);
      var y := Setter(i, Getter(i, x), x);
      if Setter(o, y, s) == s {
        assert y == x by {
          assert Getter(o, Setter(o, y, s)) == y;
        }
      }
  }

  lemma ViewSetIff(l: Lens, s: Value)
    ensures Set(l, View(l, s), s) == s <==> Reaches(l, s)
  {
    SetterGetterIff(l, s);
  }

  /** Composition is associative, for reading and for writing. */
  lemma ComposeAssociative(a: Lens, b: Lens, c: Lens, v: Value, s: Value)
    ensures View(Compose(Compose(a, b), c), s) == View(Compose(a, Compose(b, c)), s)
    ensures Set(Compose(Compose(a, b), c), v, s) == Set(Compose(a, Compose(b, c)), v, s)
  {
    var x := Getter(a, s);
    assert Getter(Compose(a, b), s) == Getter(b, x);
    assert Getter(Compose(b, c), x) == Getter(c, Getter(b, x));
    assert Setter(Compose(Compose(a, b), c), v, s)
        == Setter(Compose(a, b), Setter(c, v, Getter(b, x)), s)
        == Setter(a, Setter(b, Setter(c, v, Getter(b, x)), x), s)
        == Setter(a, Setter(Compose(b, c), v, x), s);
  }

  /** The transparent lens is a unit of composition on either side. */
  lemma TransparentUnit(l: Lens, v: Value, s: Value)
    ensures View(Compose(Transparent, l), s) == View(l, s) == View(Compose(l, Transparent), s)
    ensures Set(Compose(Transparent, l), v, s) == Set(l, v, s) == Set(Compose(l, Transparent), v, s)
  {
    assert Getter(Compose(Transparent, l), s) == Getter(l, s);
    assert Getter(Compose(l, Transparent), s) == Getter(l, s);
  }

  /** A composite reads the outer focus, then the inner focus within it. */
  lemma ComposeView(o: Lens, i: Lens, s: Value)
    ensures View(Compose(o, i), s) == View(i, View(o, s))
  {
  }

  /** A composite writes the inner focus within the outer focus, then
      writes the result back through the outer lens. */
  lemma ComposeSet(o: Lens, i: Lens, v: Value, s: Value)
    ensures Set(Compose(o, i), v, s) == Set(o, Set(i, v, View(o, s)), s)
  {
  }
}
