/**
 * The capability every importer options or state type has: it can be put in
 * an erased box and downcast back. The runtime type identity that `downcast`
 * consults is modelled by a tag; a downcast succeeds exactly when the tags
 * are equal.
 */
module SerdeObj {
  import opened Prelude

  /** The UUID a type declares through `TypeUuid`. */
  datatype TypeUuid = TypeUuid(bytes: seq<byte>)

  /**
   * `Box<dyn SerdeObj>`: a tag naming the concrete type and the value,
   * stored in a universe `U` shared by all erased types.
   */
  datatype Boxed<U> = Boxed(tag: TypeUuid, payload: U)

  /** How a concrete type `T` enters and leaves the universe `U`. */
  datatype TypeDesc<!T(!new), !U> = TypeDesc(tag: TypeUuid, inject: T -> U, project: U -> T)
  {
    /** Leaving the universe gives back what went in. */
    ghost predicate Valid()
    {
      forall x: T :: project(inject(x)) == x
    }
  }

  /** `Box::new(x)` seen through `dyn SerdeObj`. */
  function Box<T(!new), U>(d: TypeDesc<T, U>, x: T): (b: Boxed<U>)
    requires d.Valid()
    ensures b.tag == d.tag
    ensures Downcast(d, b) == Some(x)
  {
    Boxed(d.tag, d.inject(x))
  }

  /** `downcast::<T>()`: succeeds iff the box holds a `T`. */
  function Downcast<T(!new), U>(d: TypeDesc<T, U>, b: Boxed<U>): (r: Option<T>)
    ensures r.Some? <==> b.tag == d.tag
  {
    if b.tag == d.tag then Some(d.project(b.payload)) else None
  }

  /** A box of one type never downcasts to a type with another UUID. */
  lemma DowncastOtherType<T(!new), T'(!new), U>(d: TypeDesc<T, U>, d': TypeDesc<T', U>, x: T)
    requires d.Valid()
    requires d'.tag != d.tag
    ensures Downcast(d', Box(d, x)) == None
  {
  }
}
