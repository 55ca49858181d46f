/** `lensPath`: a sequence of keys turned into one lens by folding
    `compose` over key lenses from left to right, starting from the
    transparent lens. `GetIn` and `SetIn` are the nested read `s.k1.k2…` and
    the level-by-level rebuild it must agree with. */
module Paths {
  import opened Values
  import opened Lenses

  /** `ks.reduce((lens, k) => compose(lens, lensKey(k)), acc)`. */
  function FoldKeys(acc: Lens, ks: seq<string>): Lens
    decreases |ks|
  {
    if |ks| == 0 then acc else FoldKeys(Compose(acc, Key(ks[0])), ks[1..])
  }

  /** `lensPath(ks)` reads the nested value along `ks` and writes by
      rebuilding every level along `ks`. */
  function LensPath(ks: seq<string>): (r: Lens)
    ensures forall s :: Getter(r, s) == GetIn(s, ks)
    ensures forall v, s :: Setter(r, v, s) == SetIn(s, ks, v)
  {
    FoldFromTransparent(ks);
    FoldKeys(Transparent, ks)
  }

  lemma FoldFromTransparent(ks: seq<string>)
    ensures forall s :: Getter(FoldKeys(Transparent, ks), s) == GetIn(s, ks)
    ensures forall v, s :: Setter(FoldKeys(Transparent, ks), v, s) == SetIn(s, ks, v)
  {
    forall s ensures Getter(FoldKeys(Transparent, ks), s) == GetIn(s, ks) {
      FoldKeysGetter(Transparent, ks, s);
    }
    forall v, s ensures Setter(FoldKeys(Transparent, ks), v, s) == SetIn(s, ks, v) {
      FoldKeysSetter(Transparent, ks, v, s);
    }
  }

  /** The nested read `s[k1][k2]…`, `Undefined` from the first missing key on. */
  function GetIn(s: Value, ks: seq<string>): Value
    decreases |ks|
  {
    if |ks| == 0 then s else GetIn(ReadKey(s, ks[0]), ks[1..])
  }

  /** The nested write: rebuild every level along `ks` with the write-side
      rule, putting `v` at the end. */
  function SetIn(s: Value, ks: seq<string>, v: Value): Value
    decreases |ks|
  {
    if |ks| == 0 then v else WriteKey(s, ks[0], SetIn(ReadKey(s, ks[0]), ks[1..], v))
  }

  // ---------------------------------------------------------------------
  // lensPath agrees with the nested read and write.

  lemma {:induction false} FoldKeysGetter(acc: Lens, ks: seq<string>, s: Value)
    ensures Getter(FoldKeys(acc, ks), s) == GetIn(Getter(acc, s), ks)
    decreases |ks|
  {
    if |ks| > 0 {
      FoldKeysGetter(Compose(acc, Key(ks[0])), ks[1..], s);
    }
  }

  lemma {:induction false} FoldKeysSetter(acc: Lens, ks: seq<string>, v: Value, s: Value)
    ensures Setter(FoldKeys(acc, ks), v, s) == Setter(acc, SetIn(Getter(acc, s), ks, v), s)
    decreases |ks|
  {
    if |ks| > 0 {
      var next := Compose(acc, Key(ks[0]));
      FoldKeysSetter(next, ks[1..], v, s);
    }
  }

  /** Viewing through `lensPath(ks)` is the nested read. */
  lemma ViewPath(ks: seq<string>, s: Value)
    ensures View(LensPath(ks), s) == GetIn(s, ks)
  {
  }

  /** Setting through `lensPath(ks)` is the nested write. */
  lemma SetPath(ks: seq<string>, v: Value, s: Value)
    ensures Set(LensPath(ks), v, s) == SetIn(s, ks, v)
  {
  }

  lemma {:induction false} GetInAppend(s: Value, ks: seq<string>, ms: seq<string>)
    ensures GetIn(s, ks + ms) == GetIn(GetIn(s, ks), ms)
    decreases |ks|
  {
    if |ks| > 0 {
      assert (ks + ms)[1..] == ks[1..] + ms;
      GetInAppend(ReadKey(s, ks[0]), ks[1..], ms);
    } else {
      assert ks + ms == ms;
    }
  }

  lemma {:induction false} SetInAppend(s: Value, ks: seq<string>, ms: seq<string>, v: Value)
    ensures SetIn(s, ks + ms, v) == SetIn(s, ks, SetIn(GetIn(s, ks), ms, v))
    decreases |ks|
  {
    if |ks| > 0 {
      assert (ks + ms)[1..] == ks[1..] + ms;
      SetInAppend(ReadKey(s, ks[0]), ks[1..], ms, v);
    } else {
      assert ks + ms == ms;
    }
  }

  /** The path of a concatenation is the composition of the two paths. */
  lemma PathAppend(ks: seq<string>, ms: seq<string>, v: Value, s: Value)
    ensures View(LensPath(ks + ms), s) == View(Compose(LensPath(ks), LensPath(ms)), s)
    ensures Set(LensPath(ks + ms), v, s) == Set(Compose(LensPath(ks), LensPath(ms)), v, s)
  {
    ViewPath(ks + ms, s);
    ViewPath(ks, s);
    ViewPath(ms, GetIn(s, ks));
    GetInAppend(s, ks, ms);
    SetPath(ks + ms, v, s);
    SetPath(ms, v, GetIn(s, ks));
    SetPath(ks, SetIn(GetIn(s, ks), ms, v), s);
    SetInAppend(s, ks, ms, v);
  }

  /** A path is its first key composed with the rest of the path. */
  lemma PathCons(k: string, ks: seq<string>, v: Value, s: Value)
    ensures View(LensPath([k] + ks), s) == View(Compose(Key(k), LensPath(ks)), s)
    ensures Set(LensPath([k] + ks), v, s) == Set(Compose(Key(k), LensPath(ks)), v, s)
  {
    var ps := [k] + ks;
    assert ps[0] == k && ps[1..] == ks;
    var x := ReadKey(s, k);
    ViewPath(ps, s);
    ViewPath(ks, x);
    assert GetIn(s, ps) == GetIn(x, ks);
    assert Getter(Compose(Key(k), LensPath(ks)), s) == Getter(LensPath(ks), x);
    SetPath(ps, v, s);
    SetPath(ks, v, x);
    assert SetIn(s, ps, v) == WriteKey(s, k, SetIn(x, ks, v));
    assert Setter(Compose(Key(k), LensPath(ks)), v, s) == WriteKey(s, k, Setter(LensPath(ks), v, x));
  }

  /** `compose(lensKey(a), lensKey(b))` and `lensPath([a, b])` both read
      `s.a.b` and write the same result. */
  lemma ComposeKeysIsPath(a: string, b: string, v: Value, s: Value)
    ensures View(Compose(Key(a), Key(b)), s) == View(LensPath([a, b]), s) == ReadKey(ReadKey(s, a), b)
    ensures Set(Compose(Key(a), Key(b)), v, s) == Set(LensPath([a, b]), v, s)
  {
    assert [a, b] == [a] + [b];
    PathCons(a, [b], v, s);
    assert FoldKeys(Transparent, [b]) == FoldKeys(Compose(Transparent, Key(b)), []);
    TransparentUnit(Key(b), v, ReadKey(s, a));
    assert Getter(Compose(Key(a), Key(b)), s) == ReadKey(ReadKey(s, a), b);
  }

  // ---------------------------------------------------------------------
  // What a nested write does at every level of the path.

  /** The level of the result at depth `j` is the nested write of the
      matching level of the subject along the rest of the path. */
  lemma {:induction false} SetInPrefix(s: Value, ks: seq<string>, v: Value, j: nat)
    requires j <= |ks|
    ensures GetIn(SetIn(s, ks, v), ks[..j]) == SetIn(GetIn(s, ks[..j]), ks[j..], v)
    decreases j
  {
    if j == 0 {
      assert ks[..0] == [] && ks[0..] == ks;
    } else {
      var k := ks[0];
      assert ks[..j][0] == k && ks[..j][1..] == ks[1..][..j - 1];
      assert ks[j..] == ks[1..][j - 1..];
      SetInPrefix(ReadKey(s, k), ks[1..], v, j - 1);
    }
  }

  lemma {:induction false} GetInUndefined(ks: seq<string>)
    ensures GetIn(Undefined, ks) == Undefined
    decreases |ks|
  {
    if |ks| > 0 {
      GetInUndefined(ks[1..]);
    }
  }

  /** The level of the path at depth `j` in `s`. */
  function Layer(s: Value, ks: seq<string>, j: nat): Value
    requires j <= |ks|
  {
    View(LensPath(ks[..j]), s)
  }

  /** Setting through a path applies the write-side rule independently at
      every level: each level of the result is an object holding the next
      key; where the subject had an object it is a copy with the same tag
      and the same other fields, elsewhere a fresh plain object holding only
      the next key. The end of the path holds `v`. */
  lemma SetPathEveryLayer(ks: seq<string>, v: Value, s: Value)
    ensures forall j :: 0 <= j < |ks| ==>
      OverridesKey(Layer(s, ks, j), Layer(Set(LensPath(ks), v, s), ks, j), ks[j])
    ensures View(LensPath(ks), Set(LensPath(ks), v, s)) == v
  {
    var r := Set(LensPath(ks), v, s);
    SetPath(ks, v, s);
    forall j | 0 <= j < |ks|
      ensures OverridesKey(Layer(s, ks, j), Layer(r, ks, j), ks[j])
    {
      ViewPath(ks[..j], s);
      ViewPath(ks[..j], r);
      SetInPrefix(s, ks, v, j);
      assert ks[j..][0] == ks[j];
    }
  }

  /** Punchout: setting through a path into `undefined` builds a chain of
      fresh plain objects, each holding exactly the next key, with `v` at
      the end. */
  lemma Punchout(ks: seq<string>, v: Value)
    ensures forall j :: 0 <= j < |ks| ==>
      var level := Layer(Set(LensPath(ks), v, Undefined), ks, j);
      level.Obj? && level.tag == Plain && level.fields.Keys == {ks[j]}
    ensures View(LensPath(ks), Set(LensPath(ks), v, Undefined)) == v
  {
    SetPathEveryLayer(ks, v, Undefined);
    forall j | 0 <= j < |ks|
      ensures Layer(Undefined, ks, j) == Undefined
    {
      ViewPath(ks[..j], Undefined);
      GetInUndefined(ks[..j]);
    }
  }

  /** Setting through a path into a chain of tagged objects keeps the tag
      of every object on the path. */
  lemma TagsPreserved(ks: seq<string>, v: Value, s: Value)
    ensures forall j :: 0 <= j < |ks| && Layer(s, ks, j).Obj? ==>
      var level := Layer(Set(LensPath(ks), v, s), ks, j);
      level.Obj? && level.tag == Layer(s, ks, j).tag
    ensures View(LensPath(ks), Set(LensPath(ks), v, s)) == v
  {
    SetPathEveryLayer(ks, v, s);
  }
}
