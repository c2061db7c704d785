# Type-erasure core of the asset importer

This project models the layer of the asset-import pipeline that lets a build
tool run any format-specific importer through one interface without knowing
the importer's options and state types, plus the lookup logic around it:

- **Erased values** (`SerdeObj`). A `Box<dyn SerdeObj>` is a type tag plus a
  payload in a universe `U`. A concrete type is described by its tag and by a
  way into and out of `U`. `Downcast` succeeds exactly when the tags are equal.
- **Typed importer** (`Importers`). It is a record of `Importer::version`, the
  two type descriptors, `O::default()`, `S::default()` and the import function.
  The import function takes source bytes, options and state, and returns the
  produced value together with the state it leaves behind.
- **Metadata records** (`Metadata`). These are `AssetMetadata`,
  `ArtifactMetadata` and `SourceMetadata<Options, State>`. A header view holds
  every field except options and state.
- **The blanket `impl BoxedImporter for T`** (`BoxedImporter`). It has
  `import_boxed`, the two defaults, and the three deserializers.
  `Erase` builds the `dyn BoxedImporter` that callers hold.
- **The registry** (`Registry`). `get_source_importers` is modelled over a
  given sequence of registrations, with `str::trim_start_matches`.
- **The older adapter in `src/asset_import.rs`** (`AssetImport`). It covers the
  older metadata layout and the adapter whose deserializers `unwrap`. It also
  covers the closed `format_from_ext` table.

A panic in the source is a precondition in the model. In the newer adapter,
decoder errors and importer errors are `Err` values passed up unchanged; in
the older one, decoder failures panic and only importer errors are returned.

Two behaviours of the source worth noting:

- Registration strips *every* leading `.` from an extension, not just one:
  `"..png"` is listed as `"png"`.
- Neither `deserialize_metadata` compares the record's `version` with
  `SOURCEMETADATA_VERSION`. Any version that parses is accepted.

## Model

| member | source | states |
|---|---|---|
| SerdeObj.Downcast | importer/src/boxed_importer.rs:114-124 | a downcast succeeds exactly when the box's type tag is the requested type's |
| SerdeObj.Box | importer/src/boxed_importer.rs:129-130 | a freshly boxed value carries its type's tag and downcasts back to the same value |
| SerdeObj.DowncastOtherType | importer/src/boxed_importer.rs:114-124 | a box never downcasts to a type with a different UUID |
| BoxedImporter.ImportBoxedPanic | importer/src/boxed_importer.rs:114-125 | `import_boxed` panics unless state and options both carry the importer's types; a wrong state panics first, whatever the options |
| BoxedImporter.ImportBoxed | importer/src/boxed_importer.rs:108-132 | with correctly typed boxes: fails exactly when the typed import fails and with its error; on success the value is the importer's, the options downcast to the same value passed in, and the state downcasts to the state the importer left |
| BoxedImporter.ImportBoxedAgreesWithImport | importer/src/boxed_importer.rs:126-131 | boxing typed options and state and calling `import_boxed` never panics and gives the typed import's outcome, erased |
| BoxedImporter.ImportBoxedResultReimportable | importer/src/boxed_importer.rs:127-131 | the options and state returned on success still carry the importer's types, so they can be passed to `import_boxed` again |
| BoxedImporter.DefaultOptions | importer/src/boxed_importer.rs:133-135 | the erased default options downcast to `O::default()` |
| BoxedImporter.DefaultState | importer/src/boxed_importer.rs:136-138 | the erased default state downcasts to `S::default()` |
| BoxedImporter.DefaultsImportable | importer/src/boxed_importer.rs:133-138 | the two defaults together pass both downcasts of `import_boxed` |
| BoxedImporter.DeserializeMetadata | importer/src/boxed_importer.rs:142-156 | fails exactly when the RON parse fails and with its error; on success version, import hash, importer version, importer type and assets are the parsed ones and the erased options/state downcast to the parsed values |
| BoxedImporter.DeserializeMetadataAnyVersion | importer/src/boxed_importer.rs:146-148 | a record whose version is not `SOURCEMETADATA_VERSION` is still accepted, and the result's version equals the parsed one |
| BoxedImporter.DeserializeOptions | importer/src/boxed_importer.rs:157-159 | fails exactly when bincode decoding fails and with its error; otherwise the box downcasts to the decoded options |
| BoxedImporter.DeserializeState | importer/src/boxed_importer.rs:160-162 | fails exactly when bincode decoding fails and with its error; otherwise the box downcasts to the decoded state |
| BoxedImporter.DeserializedImportable | importer/src/boxed_importer.rs:157-162 | decoded options and state pass both downcasts of `import_boxed` |
| BoxedImporter.Erase | importer/src/boxed_importer.rs:102-163 | the erased importer's `version` is the typed importer's; its defaults downcast to `O::default()`/`S::default()`; every entry behaves as the adapter operation above |
| Registry.TrimStartMatches | importer/src/boxed_importer.rs:178 | the result is no longer than the input and does not start with the (non-empty) pattern |
| Registry.TrimStartMatchesIsSuffix | importer/src/boxed_importer.rs:178 | the result is a suffix of the input |
| Registry.TrimStartMatchesStripsRepeats | importer/src/boxed_importer.rs:178 | the input is some number of copies of the pattern followed by the result |
| Registry.TrimStartMatchesOfRepeats | importer/src/boxed_importer.rs:178 | any number of copies of the pattern in front of a rest that does not start with it are all removed |
| Registry.TrimStartMatchesIdempotent | importer/src/boxed_importer.rs:178 | trimming again changes nothing |
| Registry.TrimStartMatchesNoMatch | importer/src/boxed_importer.rs:178 | a string that does not start with the pattern is returned unchanged |
| Registry.TrimAllLeadingDots | importer/src/boxed_importer.rs:178 | `"..png"` and `".png"` both become `"png"`, and `"..."` becomes empty |
| Registry.GetSourceImporters | importer/src/boxed_importer.rs:174-179 | exactly one pair per registration, in order; each pair holds the trimmed extension and the importer from that registration's own instantiator |
| Registry.NormalisedExtensions | importer/src/boxed_importer.rs:174-179 | each listed extension has no leading dot, is a suffix of the registered one, equals it when that had no leading dot, and is unchanged by normalising again |
| Registry.DotPngListedAsPng | importer/src/boxed_importer.rs:176-178 | a registration of `".png"` is listed as `"png"` with its own importer |
| AssetImport.ImportBoxed | src/asset_import.rs:59-73 | with correctly typed boxes (the `unwrap`s cannot fail): fails exactly when the typed import fails and with its error; otherwise the importer's value, the same options, and the importer's updated state |
| AssetImport.ImportBoxedUnchangedByRewrite | src/asset_import.rs:59-73 | wherever the older `import_boxed` does not panic, the newer one does not panic either and returns the same result |
| AssetImport.DeserializeMetadata | src/asset_import.rs:83-96 | for bytes that parse (otherwise `unwrap` panics): version, source hash, importer version and assets are copied, and the erased options/state downcast to the parsed values |
| AssetImport.DeserializeMetadataAnyVersion | src/asset_import.rs:87-90 | a record whose version is not `SOURCEMETADATA_VERSION` is still accepted, and the result's version equals the parsed one |
| AssetImport.DeserializeOptions | src/asset_import.rs:97-99 | for bytes that decode: the box downcasts to the decoded options |
| AssetImport.DeserializeState | src/asset_import.rs:100-102 | for bytes that decode: the box downcasts to the decoded state |
| AssetImport.DeserializeOptionsStateErrorsNowReturned | src/asset_import.rs:97-102 | where the older decoders succeed, the newer ones return the same box; where the older ones panic, the newer ones return the decoder's error |
| AssetImport.FormatFromExt | src/asset_import.rs:105-136 | `Some` exactly for the nine extensions jpg, png, tga, bmp, obj, wav, ogg, flac, mp3, and then the format registered under that very extension |
| AssetImport.FormatFromExtFindsEveryFormat | src/asset_import.rs:107-133 | every format is found under its own extension |
| AssetImport.FormatFromExtInjective | src/asset_import.rs:107-133 | different extensions never give the same format |
| AssetImport.FormatOrigins | src/asset_import.rs:107-133 | jpg, png, tga, bmp and obj come from the renderer; wav, ogg, flac and mp3 come from audio |
| AssetImport.FormatFromExtIsExact | src/asset_import.rs:105-136 | matching is exact: `".png"`, `"PNG"`, the empty string and anything with a leading dot give `None` |

## Left out

- Reading the source through `std::io::Read`: the source is the complete byte sequence.
- The RON and bincode wire formats are foreign libraries. Each decoder is a function parameter that either gives a typed value or an error. No grammar is modelled, and neither is serde filling in a missing `importer_type` with its default.
- Each decoder parameter stands for "decode, then convert the library's error into the crate's `Error` through `From`", which is what `?` does at importer/src/boxed_importer.rs:146, :158 and :161. The conversion itself is not modelled, so "the decoder's error" means the converted error. In the older file the same decoder failures panic at `unwrap` (src/asset_import.rs:87, :98, :101) and are preconditions.
- `get_source_importers` returns a lazy iterator, so each `instantiator` runs only when the consumer advances it. The model builds the whole sequence at once. Instantiators are pure in the model, so the order and timing of their calls are not captured.
- `inventory` link-time registration: the registry is a given sequence of registrations. Their order across compilation units is unspecified. The model lists them in the order given and sets no rule for two registrations of one extension.
- The `TypeUuid`/`TypeUuidDynamic` runtime machinery is modelled as tag equality. Erased values live in a universe `U`. `TypeDesc.Valid` assumes that leaving `U` gives back what went in.
- `import_boxed` updates the state in place through `&mut`. The model passes the state instead: the importer returns the state it leaves behind. The returned state is the same heap box in the source, and the model does not capture that aliasing. State changes made before an importer error are dropped in both.
- Each `instantiator` call makes a fresh importer. Calls in the model are pure, so the model does not distinguish a fresh instance from an equal one.
- Concrete importers (`SimpleImporter` over `JpgFormat`, `WavFormat`, …) are opaque `Format` tokens. The identifier types (`AssetUuid`, `AssetTypeId`, `AssetRef`, `CompressionType`, `AssetUUID`, `AssetID`) are opaque tokens.
- `u32`/`u64` fields are range-restricted integers. No arithmetic is done on them.
- The `Debug` impl, the derived `Hash`/`Clone`/`Default`, and the `Send + Sync` bounds are left out. They are formatting and concurrency markers.
- The older `version` at src/asset_import.rs:80-82 is left out. `self.version()` there may call itself. Version forwarding is taken from the newer file only (`BoxedImporter.Erase`).
- The older `default_options`/`default_state` (src/asset_import.rs:74-79) are the same expressions as the newer ones. `BoxedImporter.DefaultOptions` and `BoxedImporter.DefaultState` model both.
- BoxedImporter.Erase: says the erased `import_boxed` can be called whenever no downcast panics. It does not say the call is impossible otherwise, because Dafny only exposes that direction of a closure's precondition. `BoxedImporter.ImportBoxed` states the exact precondition.
- BoxedImporter.ImportBoxed: the options come back as a new box. The model proves they hold the same options value, not that they are the same box.
