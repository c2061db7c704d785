/**
 * The earlier form of the adapter, built on the amethyst `Importer` trait.
 * The adapter has the same shape as the newer one, but the deserialize
 * operations `unwrap` their decoder's result, so malformed bytes panic
 * instead of returning an error. Its metadata layout is older, and a closed
 * table maps extensions to built-in importers.
 */
module AssetImport {
  import opened Prelude
  import opened SerdeObj
  import opened Importers
  import BoxedImporter

  /** amethyst's asset identifiers, opaque here. */
  datatype AssetUUID = AssetUUID(bytes: seq<byte>)
  datatype AssetID = AssetID(token: nat)

  datatype AssetMetadata = AssetMetadata(
    id: AssetUUID,
    searchTags: seq<(string, Option<string>)>,
    buildDeps: seq<AssetID>,
    loadDeps: seq<AssetID>,
    instantiateDeps: seq<AssetID>)

  const SOURCEMETADATA_VERSION: u32 := 1

  datatype SourceMetadata<Options, State> = SourceMetadata(
    version: u32,
    sourceHash: u64,
    importerVersion: u32,
    importerOptions: Options,
    importerState: State,
    assets: seq<AssetMetadata>)
  {
    /** Every field except the importer options and state. */
    function Header(): MetadataHeader
    {
      MetadataHeader(version, sourceHash, importerVersion, assets)
    }
  }

  datatype MetadataHeader = MetadataHeader(
    version: u32,
    sourceHash: u64,
    importerVersion: u32,
    assets: seq<AssetMetadata>)

  /**
   * `import_boxed`: `unwrap` on the state downcast and then on the options
   * downcast, so both boxes must hold the importer's types. The options go
   * back unchanged, the state as the importer left it, and an importer error
   * goes up as it is.
   */
  function ImportBoxed<O(!new), S(!new), U, V>(imp: Importer<O, S, U, V>, source: seq<byte>, options: Boxed<U>, state: Boxed<U>)
    : (r: Result<BoxedImporter.BoxedImporterValue<U, V>>)
    requires imp.Valid()
    requires state.tag == imp.stateType.tag && options.tag == imp.optionsType.tag
    ensures var typed := imp.importAssets(source, Downcast(imp.optionsType, options).value,
                                          Downcast(imp.stateType, state).value);
            && (r.Err? <==> typed.Err?)
            && (r.Err? ==> r.error == typed.error)
            && (r.Ok? ==> && r.value.value == typed.value.0
                          && Downcast(imp.optionsType, r.value.options) == Downcast(imp.optionsType, options)
                          && Downcast(imp.stateType, r.value.state) == Some(typed.value.1))
  {
    var s := Downcast(imp.stateType, state).value;
    var o := Downcast(imp.optionsType, options).value;
    match imp.importAssets(source, o, s)
    case Err(e) => Err(e)
    case Ok((value, s')) =>
      Ok(BoxedImporter.BoxedImporterValue(value, Box(imp.optionsType, o), Box(imp.stateType, s')))
  }

  /**
   * Replacing `unwrap` by an explicit `panic!` changed nothing: where the
   * earlier `import_boxed` does not panic, the newer one does not either
   * and returns the same result.
   */
  lemma ImportBoxedUnchangedByRewrite<O(!new), S(!new), U, V>(
    imp: Importer<O, S, U, V>, source: seq<byte>, options: Boxed<U>, state: Boxed<U>)
    requires imp.Valid()
    requires state.tag == imp.stateType.tag && options.tag == imp.optionsType.tag
    ensures BoxedImporter.ImportBoxedPanic(imp, options, state) == None
    ensures ImportBoxed(imp, source, options, state) == BoxedImporter.ImportBoxed(imp, source, options, state)
  {
  }

  /**
   * `deserialize_metadata`: the RON parse is unwrapped, so the bytes must
   * parse. The header fields are copied as they are, with no version check,
   * and the options and state are erased.
   */
  function DeserializeMetadata<O(!new), S(!new), U, V>(
    imp: Importer<O, S, U, V>, parse: seq<byte> -> Result<SourceMetadata<O, S>>, bytes: seq<byte>)
    : (r: SourceMetadata<Boxed<U>, Boxed<U>>)
    requires imp.Valid()
    requires parse(bytes).Ok?
    ensures r.Header() == parse(bytes).value.Header()
    ensures Downcast(imp.optionsType, r.importerOptions) == Some(parse(bytes).value.importerOptions)
    ensures Downcast(imp.stateType, r.importerState) == Some(parse(bytes).value.importerState)
  {
    var m := parse(bytes).value;
    SourceMetadata(
      m.version,
      m.sourceHash,
      m.importerVersion,
      Box(imp.optionsType, m.importerOptions),
      Box(imp.stateType, m.importerState),
      m.assets)
  }

  /**
   * A record of any version that parses is accepted and keeps its version:
   * nothing compares it with `SOURCEMETADATA_VERSION`.
   */
  lemma DeserializeMetadataAnyVersion<O(!new), S(!new), U, V>(
    imp: Importer<O, S, U, V>, parse: seq<byte> -> Result<SourceMetadata<O, S>>, bytes: seq<byte>)
    requires imp.Valid()
    requires parse(bytes).Ok? && parse(bytes).value.version != SOURCEMETADATA_VERSION
    ensures DeserializeMetadata(imp, parse, bytes).version == parse(bytes).value.version
  {
  }

  /** `deserialize_options`: the bincode decode is unwrapped. */
  function DeserializeOptions<O(!new), S(!new), U, V>(imp: Importer<O, S, U, V>, decode: seq<byte> -> Result<O>, bytes: seq<byte>)
    : (r: Boxed<U>)
    requires imp.Valid()
    requires decode(bytes).Ok?
    ensures Downcast(imp.optionsType, r) == Some(decode(bytes).value)
  {
    Box(imp.optionsType, decode(bytes).value)
  }

  /** `deserialize_state`: the bincode decode is unwrapped. */
  function DeserializeState<O(!new), S(!new), U, V>(imp: Importer<O, S, U, V>, decode: seq<byte> -> Result<S>, bytes: seq<byte>)
    : (r: Boxed<U>)
    requires imp.Valid()
    requires decode(bytes).Ok?
    ensures Downcast(imp.stateType, r) == Some(decode(bytes).value)
  {
    Box(imp.stateType, decode(bytes).value)
  }

  /**
   * The newer file turned these panics into errors: on bytes the earlier
   * decoders accept, the newer ones succeed with the same box; on any other
   * bytes they return the decoder's error.
   */
  lemma DeserializeOptionsStateErrorsNowReturned<O(!new), S(!new), U, V>(
    imp: Importer<O, S, U, V>, decodeOptions: seq<byte> -> Result<O>, decodeState: seq<byte> -> Result<S>, bytes: seq<byte>)
    requires imp.Valid()
    ensures decodeOptions(bytes).Ok? ==>
              BoxedImporter.DeserializeOptions(imp, decodeOptions, bytes) == Ok(DeserializeOptions(imp, decodeOptions, bytes))
    ensures decodeOptions(bytes).Err? ==>
              BoxedImporter.DeserializeOptions(imp, decodeOptions, bytes) == Err(decodeOptions(bytes).error)
    ensures decodeState(bytes).Ok? ==>
              BoxedImporter.DeserializeState(imp, decodeState, bytes) == Ok(DeserializeState(imp, decodeState, bytes))
    ensures decodeState(bytes).Err? ==>
              BoxedImporter.DeserializeState(imp, decodeState, bytes) == Err(decodeState(bytes).error)
  {
  }

  /** Which amethyst crate a built-in format comes from. */
  datatype Origin = Renderer | Audio

  /** The importers `format_from_ext` can hand out: `SimpleImporter` over each format. */
  datatype Format = JpgFormat | PngFormat | TgaFormat | BmpFormat | ObjFormat
                  | WavFormat | OggFormat | FlacFormat | Mp3Format
  {
    function Origin(): Origin
    {
      match this
      case JpgFormat | PngFormat | TgaFormat | BmpFormat | ObjFormat => Renderer
      case WavFormat | OggFormat | FlacFormat | Mp3Format => Audio
    }
  }

  /** The extension each format is registered under: the inverse table. */
  function ExtensionOf(f: Format): string
  {
    match f
    case JpgFormat => "jpg"
    case PngFormat => "png"
    case TgaFormat => "tga"
    case BmpFormat => "bmp"
    case ObjFormat => "obj"
    case WavFormat => "wav"
    case OggFormat => "ogg"
    case FlacFormat => "flac"
    case Mp3Format => "mp3"
  }

  /**
   * `format_from_ext`: an exact, case-sensitive match against nine
   * extensions; anything else, a leading dot included, finds nothing.
   */
  function FormatFromExt(ext: string): (r: Option<Format>)
    ensures r.Some? <==> ext in {"jpg", "png", "tga", "bmp", "obj", "wav", "ogg", "flac", "mp3"}
    ensures r.Some? ==> ExtensionOf(r.value) == ext
  {
    match ext
    case "jpg" => Some(JpgFormat)
    case "png" => Some(PngFormat)
    case "tga" => Some(TgaFormat)
    case "bmp" => Some(BmpFormat)
    case "obj" => Some(ObjFormat)
    case "wav" => Some(WavFormat)
    case "ogg" => Some(OggFormat)
    case "flac" => Some(FlacFormat)
    case "mp3" => Some(Mp3Format)
    case _ => None
  }

  /** Every format is found under its own extension. */
  lemma FormatFromExtFindsEveryFormat(f: Format)
    ensures FormatFromExt(ExtensionOf(f)) == Some(f)
  {
  }

  /** Distinct extensions give distinct formats. */
  lemma FormatFromExtInjective(e1: string, e2: string)
    requires FormatFromExt(e1).Some? && FormatFromExt(e1) == FormatFromExt(e2)
    ensures e1 == e2
  {
  }

  /** The image and mesh formats come from the renderer, the rest from audio. */
  lemma FormatOrigins(ext: string)
    requires FormatFromExt(ext).Some?
    ensures FormatFromExt(ext).value.Origin() == Renderer <==> ext in {"jpg", "png", "tga", "bmp", "obj"}
    ensures FormatFromExt(ext).value.Origin() == Audio <==> ext in {"wav", "ogg", "flac", "mp3"}
  {
  }

  /** No dot stripping and no case folding. */
  lemma FormatFromExtIsExact()
    ensures FormatFromExt(".png") == None
    ensures FormatFromExt("PNG") == None
    ensures FormatFromExt("") == None
    ensures forall ext: string :: |ext| > 0 && ext[0] == '.' ==> FormatFromExt(ext) == None
  {
  }
}
