/**
 * The records persisted in a `.meta` file for a (source file, importer) pair.
 * Identifier types come from another crate and are opaque tokens here.
 */
module Metadata {
  import opened Prelude

  datatype AssetUuid = AssetUuid(bytes: seq<byte>)
  datatype AssetTypeId = AssetTypeId(bytes: seq<byte>)
  datatype AssetRef = AssetRef(token: nat)
  datatype CompressionType = CompressionType(token: nat)

  /** One logical asset produced from a source file. */
  datatype AssetMetadata = AssetMetadata(
    id: AssetUuid,
    searchTags: seq<(string, Option<string>)>,
    buildPipeline: Option<AssetUuid>,
    artifact: Option<ArtifactMetadata>)

  /** One build artifact of an asset. */
  datatype ArtifactMetadata = ArtifactMetadata(
    hash: u64,
    id: AssetUuid,
    buildDeps: seq<AssetRef>,
    loadDeps: seq<AssetRef>,
    compression: CompressionType,
    compressedSize: Option<u64>,
    uncompressedSize: Option<u64>,
    typeId: AssetTypeId)

  /** Version of the `SourceMetadata` layout. */
  const SOURCEMETADATA_VERSION: u32 := 1

  /** The whole `.meta` record, generic in the options and state it holds. */
  datatype SourceMetadata<Options, State> = SourceMetadata(
    version: u32,
    importHash: Option<u64>,
    importerVersion: u32,
    importerType: AssetTypeId,
    importerOptions: Options,
    importerState: State,
    assets: seq<AssetMetadata>)
  {
    /** Every field except the importer options and state. */
    function Header(): MetadataHeader
    {
      MetadataHeader(version, importHash, importerVersion, importerType, assets)
    }
  }

  /** The part of a `SourceMetadata` whose type does not depend on the importer. */
  datatype MetadataHeader = MetadataHeader(
    version: u32,
    importHash: Option<u64>,
    importerVersion: u32,
    importerType: AssetTypeId,
    assets: seq<AssetMetadata>)
}
