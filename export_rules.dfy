/** The checks and settings the export session computes before its tile
    loop. The export exception is an application exception; what the
    database, the reference systems and the file system answer comes in as
    parameters. */
module ExportRules {
  import opened Wrappers
  import opened Beans
  import opened ApplicationExceptions
  import opened JavaInts

  /** An export exception built from a message and, when there is one, the
      throwable that caused it. */
  function ExportError(message: string, cause: Option<Cause>): (e: ApplicationException)
    ensures e.errorCode == Unknown && e.message == Some(message) && e.cause == cause
  {
    WithMessageAndCause(Some(message), cause)
  }

  // The messages of the exceptions the export throws.
  const DimensionalityMismatch := "Dimensionality of reference system for geometry transformation does not match."
  const SpatialIndexesInactive := "Spatial indexes are not activated."
  const IndexStatusError := "Database error while querying index status."
  const QueryBuildError := "Failed to build the export query expression."
  const WriterFactoryError := "Failed to build the feature writer factory."
  const GlobalAppearancesError := "Database error while querying the number of global appearances."
  const TilingExtentError := "Failed to transform tiling extent."

  function InvalidOutputFile(path: string): string
  {
    "The output file '" + path + "' is invalid."
  }

  function MetadataProviderError(name: string): string
  {
    "Failed to load metadata provider '" + name + "'."
  }

  function TextureFolderError(folder: string): string
  {
    "Failed to create texture files folder '" + folder + "'."
  }

  /** The output file as given: its text and its last name element (None
      for a root path, which has none). */
  datatype OutputPath = OutputPath(text: string, fileName: Option<string>)

  /** `doExport` refuses a missing output file and one without a file name. */
  function CheckOutputFile(outputFile: Option<OutputPath>): (r: Outcome<ApplicationException>)
    ensures r.Pass? <==> outputFile.Some? && outputFile.value.fileName.Some?
    ensures r.Fail? ==> r.error.errorCode == Unknown && r.error.cause.None?
    ensures r.Fail? && outputFile.None? ==> r.error.message == Some(InvalidOutputFile("null"))
  {
    if outputFile.None? then Fail(ExportError(InvalidOutputFile("null"), None))
    else if outputFile.value.fileName.None? then
      Fail(ExportError(InvalidOutputFile(outputFile.value.text), None))
    else Pass
  }

  datatype OutputFormat = CityGml | CityJson

  /** Whether features and geometries are exported as XLinks: CityJSON
      forces feature copies and geometry references; CityGML follows the
      configured XLink modes. */
  function XlinkSettings(format: OutputFormat, featureModeXlink: bool, geometryModeXlink: bool): (r: (bool, bool))
    ensures format == CityJson ==> r == (false, true)
    ensures format == CityGml ==> r == (featureModeXlink, geometryModeXlink)
  {
    if format == CityJson then (false, true) else (featureModeXlink, geometryModeXlink)
  }

  /** Coordinates are transformed when the target system is supported and
      differs from the database's. */
  predicate TransformCoordinates(targetSupported: bool, targetSrid: int, databaseSrid: int)
  {
    targetSupported && targetSrid != databaseSrid
  }

  /** A transformation between a 2D and a 3D reference system is refused;
      between two 2D systems it only warns that heights are not
      transformed. */
  function CheckDimensionality(transform: bool, target3D: bool, database3D: bool): (r: Outcome<ApplicationException>)
    ensures r.Fail? <==> transform && target3D != database3D
    ensures r.Fail? ==> r.error == ExportError(DimensionalityMismatch, None)
  {
    if transform && !target3D && !database3D then Pass
    else if transform && target3D != database3D then
      Fail(WithMessage(Some(DimensionalityMismatch)))
    else Pass
  }

  /** The spatial-index check: tiling or a spatial selection needs the
      envelope index. The index is asked for only when it is needed; the
      status report of all indexes that follows can also fail. */
  function CheckSpatialIndex(tiling: bool, spatialSelection: bool, envelopeIndexEnabled: Result<bool, Cause>,
                             indexStatus: Outcome<Cause>): (r: Outcome<ApplicationException>)
    ensures (tiling || spatialSelection) && envelopeIndexEnabled == Success(false) ==>
              r == Fail(WithCodeAndMessage(SpatialIndexesNotActivated, Some(SpatialIndexesInactive)))
    ensures r.Fail? && r.error.errorCode == SpatialIndexesNotActivated ==>
              (tiling || spatialSelection) && envelopeIndexEnabled == Success(false)
    ensures !(tiling || spatialSelection) ==>
              r == (if indexStatus.Pass? then Pass
                    else Fail(ExportError(IndexStatusError, Some(indexStatus.error))))
  {
    if tiling || spatialSelection then
      match envelopeIndexEnabled
      case Failure(cause) => Fail(ExportError(IndexStatusError, Some(cause)))
      case Success(false) =>
        Fail(WithCodeAndMessage(SpatialIndexesNotActivated, Some(SpatialIndexesInactive)))
      case Success(true) =>
        if indexStatus.Pass? then Pass
        else Fail(ExportError(IndexStatusError, Some(indexStatus.error)))
    else if indexStatus.Pass? then Pass
    else Fail(ExportError(IndexStatusError, Some(indexStatus.error)))
  }

  /** `s.replace(from, to)` for single characters. */
  function ReplaceChar(s: string, from: char, to: char): (r: string)
    ensures |r| == |s|
    ensures forall i :: 0 <= i < |s| ==> r[i] == (if s[i] == from then to else s[i])
  {
    if s == [] then [] else (if s[0] == from then [to] else [s[0]]) + ReplaceChar(s[1..], from, to)
  }

  /** After the replacement no `from` is left, and applying it again
      changes nothing. */
  lemma ReplaceCharRemoves(s: string, from: char, to: char)
    requires from != to
    ensures from !in ReplaceChar(s, from, to)
    ensures ReplaceChar(ReplaceChar(s, from, to), from, to) == ReplaceChar(s, from, to)
  {
    var r := ReplaceChar(s, from, to);
    assert forall i :: 0 <= i < |r| ==> r[i] != from;
  }

  /** The texture folder of an export with appearances: "appearance" when
      none is configured; a relative folder with forward slashes only; an
      absolute folder as the file system normalises it. */
  function TextureFolder(configured: Option<string>, isAbsolute: string -> bool, normalize: string -> string): (r: (string, bool))
    ensures var base := if configured.None? || configured.value == "" then "appearance" else configured.value;
            && r.1 == isAbsolute(base)
            && (r.1 ==> r.0 == normalize(base))
            && (!r.1 ==> r.0 == ReplaceChar(base, '\\', '/') && '\\' !in r.0)
  {
    var folder := if configured.None? || configured.value == "" then "appearance" else configured.value;
    var absolute := isAbsolute(folder);
    ReplaceCharRemoves(folder, '\\', '/');
    if absolute then (normalize(folder), true) else (ReplaceChar(folder, '\\', '/'), false)
  }

  /** The xlink pool's maximum size: half the configured maximum thread
      count, at least one. */
  function XlinkPoolMaxSize(maxThreads: int): (size: int)
    ensures size >= 1
    ensures maxThreads >= 2 ==> 2 * size <= maxThreads <= 2 * size + 1
    ensures maxThreads < 4 ==> size == 1
  {
    var half := TruncDiv(maxThreads, 2);
    if half > 1 then half else 1
  }

  /** What the steps before the tile loop answer: building the query and
      the writer factory, finding the configured metadata provider (None
      when none is configured), the reference systems, the index status,
      the global-appearance lookup, the tiling-extent transformation and the
      creation of an absolute texture folder. */
  datatype Preparation = Preparation(
    queryBuild: Outcome<Cause>,
    writerFactory: Outcome<Cause>,
    metadataProvider: Option<string>,
    metadataProviderFound: bool,
    transform: bool,
    target3D: bool,
    database3D: bool,
    tiling: bool,
    spatialSelection: bool,
    envelopeIndexEnabled: Result<bool, Cause>,
    indexStatus: Outcome<Cause>,
    exportAppearance: bool,
    globalAppearances: Outcome<Cause>,
    tilingTransform: Outcome<Cause>,
    textureFolder: string,
    textureFolderAbsolute: bool,
    createTextureFolder: Outcome<Cause>)

  /** The exception the preparation throws, if any: the first step that
      fails. The global appearances are looked up only when appearances are
      exported, the extent is transformed only when tiling, and only an
      absolute texture folder is created here. */
  function PreparationFailure(p: Preparation): (r: Option<ApplicationException>)
    ensures r.None? <==>
              && p.queryBuild.Pass? && p.writerFactory.Pass?
              && (p.metadataProvider.Some? ==> p.metadataProviderFound)
              && CheckDimensionality(p.transform, p.target3D, p.database3D).Pass?
              && CheckSpatialIndex(p.tiling, p.spatialSelection, p.envelopeIndexEnabled, p.indexStatus).Pass?
              && (p.exportAppearance ==> p.globalAppearances.Pass?)
              && (p.tiling ==> p.tilingTransform.Pass?)
              && (p.exportAppearance && p.textureFolderAbsolute ==> p.createTextureFolder.Pass?)
    ensures r.Some? && r.value.errorCode == SpatialIndexesNotActivated ==>
              (p.tiling || p.spatialSelection) && p.envelopeIndexEnabled == Success(false)
    ensures p.queryBuild.Fail? ==> r == Some(ExportError(QueryBuildError, Some(p.queryBuild.error)))
  {
    if p.queryBuild.Fail? then
      Some(ExportError(QueryBuildError, Some(p.queryBuild.error)))
    else if p.writerFactory.Fail? then
      Some(ExportError(WriterFactoryError, Some(p.writerFactory.error)))
    else if p.metadataProvider.Some? && !p.metadataProviderFound then
      Some(ExportError(MetadataProviderError(p.metadataProvider.value), None))
    else if CheckDimensionality(p.transform, p.target3D, p.database3D).Fail? then
      Some(CheckDimensionality(p.transform, p.target3D, p.database3D).error)
    else if CheckSpatialIndex(p.tiling, p.spatialSelection, p.envelopeIndexEnabled, p.indexStatus).Fail? then
      Some(CheckSpatialIndex(p.tiling, p.spatialSelection, p.envelopeIndexEnabled, p.indexStatus).error)
    else if p.exportAppearance && p.globalAppearances.Fail? then
      Some(ExportError(GlobalAppearancesError, Some(p.globalAppearances.error)))
    else if p.tiling && p.tilingTransform.Fail? then
      Some(ExportError(TilingExtentError, Some(p.tilingTransform.error)))
    else if p.exportAppearance && p.textureFolderAbsolute && p.createTextureFolder.Fail? then
      Some(ExportError(TextureFolderError(p.textureFolder), Some(p.createTextureFolder.error)))
    else None
  }
}
