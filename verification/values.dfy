/** The subjects lenses are applied to: JavaScript's `undefined`, numbers,
    strings and objects. An object carries a tag standing for its class
    (prototype); an object literal or a freshly punched-out object is
    `Plain`. */
module Values {

  datatype Tag = Plain | Class(name: string)

  datatype Value =
    | Undefined
    | Num(n: int)
    | Str(s: string)
    | Obj(tag: Tag, fields: map<string, Value>)

  /** Property read `s[k]`: the field when `s` is an object that has it,
      `Undefined` otherwise (never a failure, even on `undefined`). */
  function ReadKey(s: Value, k: string): Value
  {
    if HasKey(s, k) then s.fields[k] else Undefined
  }

  /** True when `s` is an object holding key `k`. */
  predicate HasKey(s: Value, k: string)
  {
    s.Obj? && k in s.fields
  }

  /** `after` is what the write-side rule may produce from `before` when
      key `k` is written: an object holding `k`; if `before` was an object,
      a copy with the same tag, the same keys plus `k`, and every other
      field unchanged; otherwise a fresh plain object holding `k` alone. */
  ghost predicate OverridesKey(before: Value, after: Value, k: string)
  {
    && after.Obj?
    && k in after.fields
    && (if before.Obj? then
          && after.tag == before.tag
          && after.fields.Keys == before.fields.Keys + {k}
          && (forall key :: key in before.fields && key != k ==>
                key in after.fields && after.fields[key] == before.fields[key])
        else
          && after.tag == Plain
          && after.fields.Keys == {k})
  }

  /** The write-side rule of a key lens: punch out a fresh plain object when
      the subject is absent (or not an object), otherwise make a shallow
      copy that keeps the tag and overrides `k`. */
  function WriteKey(s: Value, k: string, v: Value): (r: Value)
    ensures OverridesKey(s, r, k)
    ensures ReadKey(r, k) == v
  {
    match s
    case Obj(tag, fields) => Obj(tag, fields[k := v])
    case _ => Obj(Plain, map[k := v])
  }

  /** Writing the value just read leaves the subject unchanged exactly when
      the key was already there. */
  lemma WriteReadIff(s: Value, k: string)
    ensures WriteKey(s, k, ReadKey(s, k)) == s <==> HasKey(s, k)
  {
  }

  /** Read-after-write: the written key reads back the new value, and every
      other key reads as it did before the write. */
  lemma ReadAfterWrite(s: Value, j: string, k: string, v: Value)
    ensures ReadKey(WriteKey(s, j, v), k) == if k == j then v else ReadKey(s, k)
  {
  }

  /** A second write to the same key overrides the first. */
  lemma WriteWrite(s: Value, k: string, v1: Value, v2: Value)
    ensures WriteKey(WriteKey(s, k, v1), k, v2) == WriteKey(s, k, v2)
  {
  }
}
