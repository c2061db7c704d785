/**
 * The typed importer contract the type-erasure adapter is generic over: an
 * importer `T` with `T::Options = O` and `T::State = S`, producing values of
 * type `V`. Every part of it is foreign to the core and is given as a value.
 */
module Importers {
  import opened Prelude
  import opened SerdeObj

  datatype Importer<!O(!new), !S(!new), !U, V> = Importer(
    /** `Importer::version` */
    version: u32,
    /** The `TypeUuid`/`SerdeObj` capability of `O` and of `S`. */
    optionsType: TypeDesc<O, U>,
    stateType: TypeDesc<S, U>,
    /** `O::default()` and `S::default()` */
    defaultOptions: O,
    defaultState: S,
    /**
     * `Importer::import(source, options, &mut state)`: on success the
     * produced value together with the state the importer left behind.
     */
    importAssets: (seq<byte>, O, S) -> Result<(V, S)>)
  {
    /** Both associated types round-trip through their erased boxes. */
    ghost predicate Valid()
    {
      optionsType.Valid() && stateType.Valid()
    }
  }
}
