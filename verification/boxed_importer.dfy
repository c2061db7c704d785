/**
 * The blanket `impl<S, O, T> BoxedImporter for T`: every typed importer is
 * usable through erased options and state. Each operation downcasts or
 * decodes with the concrete types at its own boundary and erases again
 * before returning.
 */
module BoxedImporter {
  import opened Prelude
  import opened SerdeObj
  import opened Importers
  import opened Metadata

  /**
   * The serde decoders the adapter calls for the concrete types: RON for
   * the whole `.meta` record, bincode for options and for state alone.
   */
  datatype Decoders<O(!new), S(!new)> = Decoders(
    metadata: seq<byte> -> Result<SourceMetadata<O, S>>,
    options: seq<byte> -> Result<O>,
    state: seq<byte> -> Result<S>)

  /** What `import_boxed` hands back: the importer's value and erased options and state. */
  datatype BoxedImporterValue<U, V> = BoxedImporterValue(value: V, options: Boxed<U>, state: Boxed<U>)

  /** The two panics of `import_boxed`. */
  datatype Panic = StateDowncastFailed | OptionsDowncastFailed

  /**
   * The panic `import_boxed` raises before reaching the importer, if any.
   * The state is downcast first, so a wrong state wins over wrong options.
   */
  function ImportBoxedPanic<O(!new), S(!new), U, V>(imp: Importer<O, S, U, V>, options: Boxed<U>, state: Boxed<U>): (p: Option<Panic>)
    ensures p == None <==> state.tag == imp.stateType.tag && options.tag == imp.optionsType.tag
    ensures p == Some(StateDowncastFailed) <==> state.tag != imp.stateType.tag
  {
    if Downcast(imp.stateType, state).None? then Some(StateDowncastFailed)
    else if Downcast(imp.optionsType, options).None? then Some(OptionsDowncastFailed)
    else None
  }

  /**
   * `import_boxed`: the importer runs on a copy of the downcast options and
   * on the downcast state; the options go back unchanged, the state as the
   * importer left it, and an importer error goes up as it is.
   */
  function ImportBoxed<O(!new), S(!new), U, V>(imp: Importer<O, S, U, V>, source: seq<byte>, options: Boxed<U>, state: Boxed<U>)
    : (r: Result<BoxedImporterValue<U, V>>)
    requires imp.Valid()
    requires ImportBoxedPanic(imp, options, state) == None
    ensures var typed := imp.importAssets(source, Downcast(imp.optionsType, options).value,
                                          Downcast(imp.stateType, state).value);
            && (r.Err? <==> typed.Err?)
            && (r.Err? ==> r.error == typed.error)
            && (r.Ok? ==> && r.value.value == typed.value.0
                          && Downcast(imp.optionsType, r.value.options) == Downcast(imp.optionsType, options)
                          && Downcast(imp.stateType, r.value.state) == Some(typed.value.1))
  {
    var s := Downcast(imp.stateType, state).value;
    var o := Downcast(imp.optionsType, options).value;
    match imp.importAssets(source, o, s)
    case Err(e) => Err(e)
    case Ok((value, s')) => Ok(BoxedImporterValue(value, Box(imp.optionsType, o), Box(imp.stateType, s')))
  }

  /**
   * Erasing and then calling `import_boxed` is calling `import` directly:
   * the boxes of any typed options and state pass the downcasts, and the
   * outcome is the typed outcome, erased.
   */
  lemma ImportBoxedAgreesWithImport<O(!new), S(!new), U, V>(imp: Importer<O, S, U, V>, source: seq<byte>, o: O, s: S)
    requires imp.Valid()
    ensures ImportBoxedPanic(imp, Box(imp.optionsType, o), Box(imp.stateType, s)) == None
    ensures var r := ImportBoxed(imp, source, Box(imp.optionsType, o), Box(imp.stateType, s));
            match imp.importAssets(source, o, s)
            case Err(e) => r == Err(e)
            case Ok((v, s')) =>
              && r.Ok?
              && r.value.value == v
              && Downcast(imp.optionsType, r.value.options) == Some(o)
              && Downcast(imp.stateType, r.value.state) == Some(s')
  {
  }

  /**
   * What `import_boxed` returns can be fed to it again: the returned
   * options and state still carry the importer's own types.
   */
  lemma ImportBoxedResultReimportable<O(!new), S(!new), U, V>(imp: Importer<O, S, U, V>, source: seq<byte>, options: Boxed<U>, state: Boxed<U>)
    requires imp.Valid()
    requires ImportBoxedPanic(imp, options, state) == None
    ensures var r := ImportBoxed(imp, source, options, state);
            r.Ok? ==> ImportBoxedPanic(imp, r.value.options, r.value.state) == None
  {
  }

  /** `default_options`: a box holding `O::default()`. */
  function DefaultOptions<O(!new), S(!new), U, V>(imp: Importer<O, S, U, V>): (b: Boxed<U>)
    requires imp.Valid()
    ensures Downcast(imp.optionsType, b) == Some(imp.defaultOptions)
  {
    Box(imp.optionsType, imp.defaultOptions)
  }

  /** `default_state`: a box holding `S::default()`. */
  function DefaultState<O(!new), S(!new), U, V>(imp: Importer<O, S, U, V>): (b: Boxed<U>)
    requires imp.Valid()
    ensures Downcast(imp.stateType, b) == Some(imp.defaultState)
  {
    Box(imp.stateType, imp.defaultState)
  }

  /** With no prior metadata, the defaults can be imported with and never panic. */
  lemma DefaultsImportable<O(!new), S(!new), U, V>(imp: Importer<O, S, U, V>)
    requires imp.Valid()
    ensures ImportBoxedPanic(imp, DefaultOptions(imp), DefaultState(imp)) == None
  {
  }

  /**
   * `deserialize_metadata`: parse with the concrete types, then erase the
   * options and state field by field. A parse error goes up unchanged; the
   * record's version is copied and never compared with
   * `SOURCEMETADATA_VERSION`.
   */
  function DeserializeMetadata<O(!new), S(!new), U, V>(
    imp: Importer<O, S, U, V>, parse: seq<byte> -> Result<SourceMetadata<O, S>>, bytes: seq<byte>)
    : (r: Result<SourceMetadata<Boxed<U>, Boxed<U>>>)
    requires imp.Valid()
    ensures r.Err? <==> parse(bytes).Err?
    ensures r.Err? ==> r.error == parse(bytes).error
    ensures r.Ok? ==> && r.value.Header() == parse(bytes).value.Header()
                      && Downcast(imp.optionsType, r.value.importerOptions) == Some(parse(bytes).value.importerOptions)
                      && Downcast(imp.stateType, r.value.importerState) == Some(parse(bytes).value.importerState)
  {
    match parse(bytes)
    case Err(e) => Err(e)
    case Ok(m) =>
      Ok(SourceMetadata(
           m.version,
           m.importHash,
           m.importerVersion,
           m.importerType,
           Box(imp.optionsType, m.importerOptions),
           Box(imp.stateType, m.importerState),
           m.assets))
  }

  /**
   * A record of any version that parses is accepted: the result does not
   * depend on `SOURCEMETADATA_VERSION`.
   */
  lemma DeserializeMetadataAnyVersion<O(!new), S(!new), U, V>(
    imp: Importer<O, S, U, V>, parse: seq<byte> -> Result<SourceMetadata<O, S>>, bytes: seq<byte>)
    requires imp.Valid()
    requires parse(bytes).Ok? && parse(bytes).value.version != SOURCEMETADATA_VERSION
    ensures DeserializeMetadata(imp, parse, bytes).Ok?
    ensures DeserializeMetadata(imp, parse, bytes).value.version == parse(bytes).value.version
  {
  }

  /** `deserialize_options`: bincode-decode an `O` and box it. */
  function DeserializeOptions<O(!new), S(!new), U, V>(imp: Importer<O, S, U, V>, decode: seq<byte> -> Result<O>, bytes: seq<byte>)
    : (r: Result<Boxed<U>>)
    requires imp.Valid()
    ensures r.Err? <==> decode(bytes).Err?
    ensures r.Err? ==> r.error == decode(bytes).error
    ensures r.Ok? ==> Downcast(imp.optionsType, r.value) == Some(decode(bytes).value)
  {
    match decode(bytes)
    case Err(e) => Err(e)
    case Ok(o) => Ok(Box(imp.optionsType, o))
  }

  /** `deserialize_state`: bincode-decode an `S` and box it. */
  function DeserializeState<O(!new), S(!new), U, V>(imp: Importer<O, S, U, V>, decode: seq<byte> -> Result<S>, bytes: seq<byte>)
    : (r: Result<Boxed<U>>)
    requires imp.Valid()
    ensures r.Err? <==> decode(bytes).Err?
    ensures r.Err? ==> r.error == decode(bytes).error
    ensures r.Ok? ==> Downcast(imp.stateType, r.value) == Some(decode(bytes).value)
  {
    match decode(bytes)
    case Err(e) => Err(e)
    case Ok(s) => Ok(Box(imp.stateType, s))
  }

  /**
   * The cached options and state of one importer, decoded again, pass the
   * downcasts of `import_boxed`.
   */
  lemma DeserializedImportable<O(!new), S(!new), U, V>(imp: Importer<O, S, U, V>, dec: Decoders<O, S>, optionBytes: seq<byte>, stateBytes: seq<byte>)
    requires imp.Valid()
    requires DeserializeOptions(imp, dec.options, optionBytes).Ok?
    requires DeserializeState(imp, dec.state, stateBytes).Ok?
    ensures ImportBoxedPanic(imp, DeserializeOptions(imp, dec.options, optionBytes).value,
                             DeserializeState(imp, dec.state, stateBytes).value) == None
  {
  }

  /**
   * `dyn BoxedImporter`: the interface a caller holds, in which the
   * importer's own options and state types no longer appear.
   */
  datatype ErasedImporter<!U, V> = ErasedImporter(
    importBoxed: (seq<byte>, Boxed<U>, Boxed<U>) --> Result<BoxedImporterValue<U, V>>,
    defaultOptions: Boxed<U>,
    defaultState: Boxed<U>,
    version: u32,
    deserializeMetadata: seq<byte> -> Result<SourceMetadata<Boxed<U>, Boxed<U>>>,
    deserializeOptions: seq<byte> -> Result<Boxed<U>>,
    deserializeState: seq<byte> -> Result<Boxed<U>>)

  /**
   * Coercing a typed importer to `Box<dyn BoxedImporter>`. Every entry
   * forwards to the adapter above; `version` is the typed importer's.
   */
  function Erase<O(!new), S(!new), U(!new), V>(imp: Importer<O, S, U, V>, dec: Decoders<O, S>): (b: ErasedImporter<U, V>)
    requires imp.Valid()
    ensures b.version == imp.version
    ensures Downcast(imp.optionsType, b.defaultOptions) == Some(imp.defaultOptions)
    ensures Downcast(imp.stateType, b.defaultState) == Some(imp.defaultState)
    ensures forall source, o, s | ImportBoxedPanic(imp, o, s) == None ::
              b.importBoxed.requires(source, o, s) && b.importBoxed(source, o, s) == ImportBoxed(imp, source, o, s)
    ensures forall bytes :: b.deserializeMetadata(bytes) == DeserializeMetadata(imp, dec.metadata, bytes)
    ensures forall bytes :: b.deserializeOptions(bytes) == DeserializeOptions(imp, dec.options, bytes)
    ensures forall bytes :: b.deserializeState(bytes) == DeserializeState(imp, dec.state, bytes)
  {
    ErasedImporter(
      (source, o, s) requires ImportBoxedPanic(imp, o, s) == None => ImportBoxed(imp, source, o, s),
      DefaultOptions(imp),
      DefaultState(imp),
      imp.version,
      bytes => DeserializeMetadata(imp, dec.metadata, bytes),
      bytes => DeserializeOptions(imp, dec.options, bytes),
      bytes => DeserializeState(imp, dec.state, bytes))
  }
}
