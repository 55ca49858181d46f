/** The concrete situations the library's test suite describes, stated
    over the model. */
module Scenarios {
  import Const
  import Id
  import opened Values
  import opened Lenses
  import opened Paths

  lemma ConstBox()
    ensures Const.Unbox(Const.Of(5)) == 5
    ensures Const.Unbox(Const.Map((x: int) => x * 10, Const.Of(5))) == 5
  {
  }

  lemma IdBox()
    ensures Id.Unbox(Id.Of(5)) == 5
    ensures Id.Unbox(Id.Map((x: int) => x * 10, Id.Of(5))) == 50
  {
  }

  /** Doubling a number; the tests apply it to numbers only. */
  function Double(v: Value): Value
  {
    if v.Num? then Num(v.n * 2) else Undefined
  }

  /** Appending "!" to a string; the tests apply it to strings only. */
  function Exclaim(v: Value): Value
  {
    if v.Str? then Str(v.s + "!") else Undefined
  }

  function Record(k: string, v: Value): Value
  {
    Obj(Plain, map[k := v])
  }

  lemma TransparentOnFive()
    ensures View(Transparent, Num(5)) == Num(5)
    ensures Over(Transparent, Double, Num(5)) == Num(10)
  {
  }

  lemma KeyOnHello()
    ensures Over(Key("hello"), Exclaim, Record("hello", Str("World"))) == Record("hello", Str("World!"))
    ensures Set(Key("hello"), Str("Planet!"), Record("hello", Str("World"))) == Record("hello", Str("Planet!"))
    ensures View(Key("hello"), Record("hello", Str("World!"))) == Str("World!")
  {
    var s := Record("hello", Str("World"));
    assert ReadKey(s, "hello") == Str("World");
    assert Exclaim(Str("World")) == Str("World!");
    assert s.fields["hello" := Str("World!")] == map["hello" := Str("World!")];
    assert s.fields["hello" := Str("Planet!")] == map["hello" := Str("Planet!")];
  }

  lemma MessageHello()
    ensures View(Compose(Key("message"), Key("hello")), Record("message", Record("hello", Str("world")))) == Str("world")
    ensures View(LensPath(["message", "hello"]), Record("message", Record("hello", Str("world")))) == Str("world")
    ensures Set(LensPath(["message", "hello"]), Str("planet"), Record("message", Record("hello", Str("world"))))
         == Record("message", Record("hello", Str("planet")))
  {
    var ks := ["message", "hello"];
    var inner := Record("hello", Str("world"));
    var s := Record("message", inner);
    ViewPath(ks, s);
    assert ks[1..] == ["hello"] && ks[1..][1..] == [];
    SetPath(ks, Str("planet"), s);
    assert inner.fields["hello" := Str("planet")] == map["hello" := Str("planet")];
    assert s.fields["message" := Record("hello", Str("planet"))] == map["message" := Record("hello", Str("planet"))];
  }

  /** `set(lensPath(['x','y','z','w']), 5, undefined)` builds `x.y.z.w == 5`
      out of nothing. */
  lemma PunchoutXyzw()
    ensures var r := Set(LensPath(["x", "y", "z", "w"]), Num(5), Undefined);
      && HasKey(r, "x")
      && HasKey(ReadKey(r, "x"), "y")
      && HasKey(ReadKey(ReadKey(r, "x"), "y"), "z")
      && HasKey(ReadKey(ReadKey(ReadKey(r, "x"), "y"), "z"), "w")
      && ReadKey(ReadKey(ReadKey(ReadKey(r, "x"), "y"), "z"), "w") == Num(5)
  {
  }

  /** The classes `X`, `Y`, `Z` of the test: `new X()` is `X{y: Y{z: Z{w: 5}}}`. */
  function NewX(): Value
  {
    Obj(Class("X"), map["y" := Obj(Class("Y"), map["z" := Obj(Class("Z"), map["w" := Num(5)])])])
  }

  lemma MaintainsTypes()
    ensures var x := Set(LensPath(["y", "z", "w"]), Num(10), NewX());
      && x.Obj? && x.tag == Class("X")
      && ReadKey(x, "y").Obj? && ReadKey(x, "y").tag == Class("Y")
      && ReadKey(ReadKey(x, "y"), "z").Obj? && ReadKey(ReadKey(x, "y"), "z").tag == Class("Z")
      && ReadKey(ReadKey(ReadKey(x, "y"), "z"), "w") == Num(10)
  {
  }
}
