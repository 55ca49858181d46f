/** The constant functor. A box built with `Of(v)` keeps `v` whatever
    function is mapped over it; `View` threads a lens through it so that
    the focus is carried out and the rebuilding steps are discarded. */
module Const {

  datatype Box<T> = Box(value: T)

  function Of<T>(v: T): (b: Box<T>)
    ensures Unbox(b) == v
  {
    Box(v)
  }

  function Unbox<T>(b: Box<T>): T
  {
    b.value
  }

  /** Mapping over a constant box ignores `f`. */
  function Map<A, B, T>(f: A -> B, b: Box<T>): (r: Box<T>)
    ensures Unbox(r) == Unbox(b)
  {
    b
  }

  lemma OfUnbox<T>(b: Box<T>)
    ensures Of(Unbox(b)) == b
  {
  }
}

/** The identity functor. Mapping `f` over a box holding `v` gives a box
    holding `f(v)`; `Over` and `Set` thread a lens through it so that every
    rebuilding step runs. */
module Id {

  datatype Box<T> = Box(value: T)

  function Of<T>(v: T): (b: Box<T>)
    ensures Unbox(b) == v
  {
    Box(v)
  }

  function Unbox<T>(b: Box<T>): T
  {
    b.value
  }

  /** Mapping applies `f` to the boxed value. */
  function Map<A, B>(f: A -> B, b: Box<A>): (r: Box<B>)
    ensures Unbox(r) == f(Unbox(b))
  {
    Box(f(b.value))
  }

  lemma OfUnbox<T>(b: Box<T>)
    ensures Of(Unbox(b)) == b
  {
  }
}
