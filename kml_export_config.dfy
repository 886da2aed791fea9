/** The settings of the KML/COLLADA/glTF export. The five setters for the
    query, the output path, the resources, the id prefixes and the COLLADA
    options ignore null; every other setter stores its argument as given and,
    as its `modifies` clause shows, touches no other field. Plain getters are
    reads of the fields and are not repeated here. */
module KmlExport {
  import opened Wrappers
  import opened Beans
  import opened SimpleKmlQueries

  type Path = BeanRef
  type Resources = BeanRef
  type IdPrefixes = BeanRef
  type ColladaOptions = BeanRef
  type Balloon = BeanRef
  type PointAndCurve = BeanRef
  type ADEPreferences = BeanRef

  /** Enumerations of which only the default constant matters here. */
  datatype Lod0FootprintMode = Footprint | OtherFootprintMode(name: string)
  datatype AltitudeMode = Absolute | OtherAltitudeMode(name: string)
  datatype AltitudeOffsetMode = NoOffset | OtherAltitudeOffsetMode(name: string)

  /** A display form; only its active flag is consulted by this class. */
  datatype DisplayForm = DisplayForm(active: bool, settings: BeanRef)

  const ThemeNone: string := "none"
  const ThemeNull: string := "<unknown>"
  const DefaultLodToExportFrom: int := 2

  /** Number of active forms in a list, counted front to back. */
  function CountActive(forms: seq<DisplayForm>): (n: nat)
    ensures n <= |forms|
  {
    if forms == [] then 0
    else CountActive(forms[..|forms| - 1]) + (if forms[|forms| - 1].active then 1 else 0)
  }

  /** Every form is counted exactly when every form is active. */
  lemma {:induction false} CountActiveAll(forms: seq<DisplayForm>)
    ensures CountActive(forms) == |forms| <==> forall i :: 0 <= i < |forms| ==> forms[i].active
  {
    if forms != [] {
      var init := forms[..|forms| - 1];
      CountActiveAll(init);
      assert forall i :: 0 <= i < |init| ==> init[i] == forms[i];
    }
  }

  /** No form is counted exactly when no form is active. */
  lemma {:induction false} CountActiveNone(forms: seq<DisplayForm>)
    ensures CountActive(forms) == 0 <==> forall i :: 0 <= i < |forms| ==> !forms[i].active
  {
    if forms != [] {
      var init := forms[..|forms| - 1];
      CountActiveNone(init);
      assert forall i :: 0 <= i < |init| ==> init[i] == forms[i];
    }
  }

  class KmlExportConfig {
    var query: SimpleKmlQuery
    var path: Path
    var resources: Resources
    var idPrefixes: IdPrefixes
    var colladaOptions: ColladaOptions
    var buildingDisplayForms: Option<seq<DisplayForm>>
    var waterBodyDisplayForms: Option<seq<DisplayForm>>
    var landUseDisplayForms: Option<seq<DisplayForm>>
    var vegetationDisplayForms: Option<seq<DisplayForm>>
    var transportationDisplayForms: Option<seq<DisplayForm>>
    var reliefDisplayForms: Option<seq<DisplayForm>>
    var cityFurnitureDisplayForms: Option<seq<DisplayForm>>
    var genericCityObjectDisplayForms: Option<seq<DisplayForm>>
    var cityObjectGroupDisplayForms: Option<seq<DisplayForm>>
    var bridgeDisplayForms: Option<seq<DisplayForm>>
    var tunnelDisplayForms: Option<seq<DisplayForm>>
    var buildingBalloon: Option<Balloon>
    var waterBodyBalloon: Option<Balloon>
    var landUseBalloon: Option<Balloon>
    var vegetationBalloon: Option<Balloon>
    var transportationBalloon: Option<Balloon>
    var reliefBalloon: Option<Balloon>
    var cityFurnitureBalloon: Option<Balloon>
    var genericCityObject3DBalloon: Option<Balloon>
    var cityObjectGroupBalloon: Option<Balloon>
    var bridgeBalloon: Option<Balloon>
    var tunnelBalloon: Option<Balloon>
    var exportAsKmz: bool
    var createGltfModel: bool
    var notCreateColladaFiles: bool
    var embedTexturesInGltfFiles: bool
    var exportGltfBinary: bool
    var exportGltfV1: bool
    var enableGltfDracoCompression: bool
    var showBoundingBox: bool
    var showTileBorders: bool
    var exportEmptyTiles: bool
    var callGElevationService: bool
    var writeJSONFile: bool
    var oneFilePerObject: bool
    var useOriginalZCoords: bool
    var pathOfGltfConverter: Option<string>
    var appearanceTheme: Option<string>
    var viewRefreshMode: Option<string>
    var singleObjectRegionSize: real
    var viewRefreshTime: real
    var altitudeOffsetValue: real
    var lodToExportFrom: int
    var genericCityObjectPointAndCurve: Option<PointAndCurve>
    var lod0FootprintMode: Option<Lod0FootprintMode>
    var altitudeMode: Option<AltitudeMode>
    var altitudeOffsetMode: Option<AltitudeOffsetMode>
    var adePreferences: Option<map<string, ADEPreferences>>
    var gltfConverterOptions: Option<seq<string>>
    /** The defaults of a new configuration. The glTF converter path depends
        on the operating system and is passed in. `exportGltfV1` is assigned
        twice by the constructor; the later assignment, false, is the one
        that holds. */
    constructor (gltfConverterPath: string)
      ensures fresh(query)
      ensures !query.useTypeNames && !query.useGmlIdFilter && !query.useBboxFilter
      ensures query.featureTypeFilter == Some(Default) && query.gmlIdFilter == Some(Default)
      ensures query.bboxFilter == Some(Default)
      ensures path == Default && resources == Default && idPrefixes == Default && colladaOptions == Default
      ensures lodToExportFrom == DefaultLodToExportFrom
      ensures AllDisplayFormLists() == [Some([]), Some([]), Some([]), Some([]), Some([]), Some([]),
                                        Some([]), Some([]), Some([]), Some([]), Some([])]
      ensures buildingBalloon == waterBodyBalloon == landUseBalloon == vegetationBalloon == Some(Default)
      ensures transportationBalloon == reliefBalloon == cityFurnitureBalloon == Some(Default)
      ensures genericCityObject3DBalloon == cityObjectGroupBalloon == bridgeBalloon == tunnelBalloon == Some(Default)
      ensures genericCityObjectPointAndCurve == Some(Default)
      ensures lod0FootprintMode == Some(Footprint)
      ensures !exportAsKmz && !exportGltfV1 && IsExportGltfV2()
      ensures !showBoundingBox && !showTileBorders && exportEmptyTiles && !oneFilePerObject
      ensures singleObjectRegionSize == 50.0 && viewRefreshMode == Some("onRegion") && viewRefreshTime == 1.0
      ensures !writeJSONFile && !createGltfModel && !notCreateColladaFiles
      ensures embedTexturesInGltfFiles && !exportGltfBinary && enableGltfDracoCompression
      ensures pathOfGltfConverter == Some(gltfConverterPath)
      ensures appearanceTheme == Some(ThemeNone)
      ensures altitudeMode == Some(Absolute) && altitudeOffsetMode == Some(NoOffset)
      ensures altitudeOffsetValue == 0.0 && !callGElevationService && useOriginalZCoords
      ensures adePreferences == Some(map[])
      ensures gltfConverterOptions.None? && !IsSetGltfConverterOptions()
    {
      query := new SimpleKmlQuery();
      path := Default;
      lodToExportFrom := DefaultLodToExportFrom;
      buildingDisplayForms, buildingBalloon := Some([]), Some(Default);
      waterBodyDisplayForms, waterBodyBalloon := Some([]), Some(Default);
      landUseDisplayForms, landUseBalloon := Some([]), Some(Default);
      vegetationDisplayForms, vegetationBalloon := Some([]), Some(Default);
      transportationDisplayForms, transportationBalloon := Some([]), Some(Default);
      reliefDisplayForms, reliefBalloon := Some([]), Some(Default);
      cityFurnitureDisplayForms, cityFurnitureBalloon := Some([]), Some(Default);
      genericCityObjectDisplayForms, genericCityObject3DBalloon := Some([]), Some(Default);
      genericCityObjectPointAndCurve := Some(Default);
      cityObjectGroupDisplayForms, cityObjectGroupBalloon := Some([]), Some(Default);
      bridgeDisplayForms, bridgeBalloon := Some([]), Some(Default);
      tunnelDisplayForms, tunnelBalloon := Some([]), Some(Default);
      colladaOptions := Default;
      lod0FootprintMode := Some(Footprint);
      exportAsKmz := false;
      exportGltfV1 := true;
      showBoundingBox := false;
      showTileBorders := false;
      exportEmptyTiles := true;
      oneFilePerObject := false;
      singleObjectRegionSize := 50.0;
      viewRefreshMode := Some("onRegion");
      viewRefreshTime := 1.0;
      writeJSONFile := false;
      createGltfModel := false;
      notCreateColladaFiles := false;
      embedTexturesInGltfFiles := true;
      exportGltfBinary := false;
      exportGltfV1 := false;
      enableGltfDracoCompression := true;
      pathOfGltfConverter := Some(gltfConverterPath);
      appearanceTheme := Some(ThemeNone);
      altitudeMode := Some(Absolute);
      altitudeOffsetMode := Some(NoOffset);
      altitudeOffsetValue := 0.0;
      callGElevationService := false;
      useOriginalZCoords := true;
      idPrefixes := Default;
      adePreferences := Some(map[]);
      resources := Default;
      gltfConverterOptions := None;
    }

    /** The eleven display-form lists, in declaration order. */
    function AllDisplayFormLists(): seq<Option<seq<DisplayForm>>>
      reads this
    {
      [buildingDisplayForms, waterBodyDisplayForms, landUseDisplayForms, vegetationDisplayForms,
       transportationDisplayForms, reliefDisplayForms, cityFurnitureDisplayForms,
       genericCityObjectDisplayForms, cityObjectGroupDisplayForms, bridgeDisplayForms, tunnelDisplayForms]
    }

    method SetQuery(value: SimpleKmlQuery?)
      modifies this`query
      ensures value != null ==> query == value
      ensures value == null ==> query == old(query)
    {
      if value != null {
        query := value;
      }
    }

    method SetPath(value: Option<Path>)
      modifies this`path
      ensures path == value.GetOr(old(path))
    {
      if value.Some? {
        path := value.value;
      }
    }

    method SetResources(value: Option<Resources>)
      modifies this`resources
      ensures resources == value.GetOr(old(resources))
    {
      if value.Some? {
        resources := value.value;
      }
    }

    method SetIdPrefixes(value: Option<IdPrefixes>)
      modifies this`idPrefixes
      ensures idPrefixes == value.GetOr(old(idPrefixes))
    {
      if value.Some? {
        idPrefixes := value.value;
      }
    }

    method SetColladaOptions(value: Option<ColladaOptions>)
      modifies this`colladaOptions
      ensures colladaOptions == value.GetOr(old(colladaOptions))
    {
      if value.Some? {
        colladaOptions := value.value;
      }
    }

    /** glTF version 2 is exported exactly when version 1 is not. */
    function IsExportGltfV2(): (r: bool)
      reads this
      ensures r != exportGltfV1
    {
      !exportGltfV1
    }

    method SetExportGltfV2(value: bool)
      modifies this`exportGltfV1
      ensures IsExportGltfV2() == value
      ensures exportGltfV1 == !value
    {
      exportGltfV1 := !value;
    }

    function IsSetGltfConverterOptions(): (r: bool)
      reads this
      ensures r <==> gltfConverterOptions != None
    {
      gltfConverterOptions.Some?
    }

    /** Counts the active forms of a list in one pass. */
    method GetActiveDisplayFormsAmount(forms: seq<DisplayForm>) returns (amount: int)
      ensures amount == CountActive(forms)
      ensures 0 <= amount <= |forms|
    {
      amount := 0;
      var i := 0;
      while i < |forms|
        invariant 0 <= i <= |forms|
        invariant amount == CountActive(forms[..i])
      {
        assert forms[..i + 1][..i] == forms[..i];
        if forms[i].active {
          amount := amount + 1;
        }
        i := i + 1;
      }
      assert forms[..i] == forms;
    }

    method SetBuildingDisplayForms(value: Option<seq<DisplayForm>>)
      modifies this`buildingDisplayForms
      ensures buildingDisplayForms == value
    {
      buildingDisplayForms := value;
    }

    method SetWaterBodyDisplayForms(value: Option<seq<DisplayForm>>)
      modifies this`waterBodyDisplayForms
      ensures waterBodyDisplayForms == value
    {
      waterBodyDisplayForms := value;
    }

    method SetLandUseDisplayForms(value: Option<seq<DisplayForm>>)
      modifies this`landUseDisplayForms
      ensures landUseDisplayForms == value
    {
      landUseDisplayForms := value;
    }

    method SetVegetationDisplayForms(value: Option<seq<DisplayForm>>)
      modifies this`vegetationDisplayForms
      ensures vegetationDisplayForms == value
    {
      vegetationDisplayForms := value;
    }

    method SetTransportationDisplayForms(value: Option<seq<DisplayForm>>)
      modifies this`transportationDisplayForms
      ensures transportationDisplayForms == value
    {
      transportationDisplayForms := value;
    }

    method SetReliefDisplayForms(value: Option<seq<DisplayForm>>)
      modifies this`reliefDisplayForms
      ensures reliefDisplayForms == value
    {
      reliefDisplayForms := value;
    }

    method SetCityFurnitureDisplayForms(value: Option<seq<DisplayForm>>)
      modifies this`cityFurnitureDisplayForms
      ensures cityFurnitureDisplayForms == value
    {
      cityFurnitureDisplayForms := value;
    }

    method SetGenericCityObjectDisplayForms(value: Option<seq<DisplayForm>>)
      modifies this`genericCityObjectDisplayForms
      ensures genericCityObjectDisplayForms == value
    {
      genericCityObjectDisplayForms := value;
    }

    method SetCityObjectGroupDisplayForms(value: Option<seq<DisplayForm>>)
      modifies this`cityObjectGroupDisplayForms
      ensures cityObjectGroupDisplayForms == value
    {
      cityObjectGroupDisplayForms := value;
    }

    method SetBridgeDisplayForms(value: Option<seq<DisplayForm>>)
      modifies this`bridgeDisplayForms
      ensures bridgeDisplayForms == value
    {
      bridgeDisplayForms := value;
    }

    method SetTunnelDisplayForms(value: Option<seq<DisplayForm>>)
      modifies this`tunnelDisplayForms
      ensures tunnelDisplayForms == value
    {
      tunnelDisplayForms := value;
    }

    method SetBuildingBalloon(value: Option<Balloon>)
      modifies this`buildingBalloon
      ensures buildingBalloon == value
    {
      buildingBalloon := value;
    }

    method SetWaterBodyBalloon(value: Option<Balloon>)
      modifies this`waterBodyBalloon
      ensures waterBodyBalloon == value
    {
      waterBodyBalloon := value;
    }

    method SetLandUseBalloon(value: Option<Balloon>)
      modifies this`landUseBalloon
      ensures landUseBalloon == value
    {
      landUseBalloon := value;
    }

    method SetVegetationBalloon(value: Option<Balloon>)
      modifies this`vegetationBalloon
      ensures vegetationBalloon == value
    {
      vegetationBalloon := value;
    }

    method SetTransportationBalloon(value: Option<Balloon>)
      modifies this`transportationBalloon
      ensures transportationBalloon == value
    {
      transportationBalloon := value;
    }

    method SetReliefBalloon(value: Option<Balloon>)
      modifies this`reliefBalloon
      ensures reliefBalloon == value
    {
      reliefBalloon := value;
    }

    method SetCityFurnitureBalloon(value: Option<Balloon>)
      modifies this`cityFurnitureBalloon
      ensures cityFurnitureBalloon == value
    {
      cityFurnitureBalloon := value;
    }

    method SetGenericCityObject3DBalloon(value: Option<Balloon>)
      modifies this`genericCityObject3DBalloon
      ensures genericCityObject3DBalloon == value
    {
      genericCityObject3DBalloon := value;
    }

    method SetCityObjectGroupBalloon(value: Option<Balloon>)
      modifies this`cityObjectGroupBalloon
      ensures cityObjectGroupBalloon == value
    {
      cityObjectGroupBalloon := value;
    }

    method SetBridgeBalloon(value: Option<Balloon>)
      modifies this`bridgeBalloon
      ensures bridgeBalloon == value
    {
      bridgeBalloon := value;
    }

    method SetTunnelBalloon(value: Option<Balloon>)
      modifies this`tunnelBalloon
      ensures tunnelBalloon == value
    {
      tunnelBalloon := value;
    }

    method SetExportAsKmz(value: bool)
      modifies this`exportAsKmz
      ensures exportAsKmz == value
    {
      exportAsKmz := value;
    }

    method SetCreateGltfModel(value: bool)
      modifies this`createGltfModel
      ensures createGltfModel == value
    {
      createGltfModel := value;
    }

    method SetNotCreateColladaFiles(value: bool)
      modifies this`notCreateColladaFiles
      ensures notCreateColladaFiles == value
    {
      notCreateColladaFiles := value;
    }

    method SetEmbedTexturesInGltfFiles(value: bool)
      modifies this`embedTexturesInGltfFiles
      ensures embedTexturesInGltfFiles == value
    {
      embedTexturesInGltfFiles := value;
    }

    method SetExportGltfBinary(value: bool)
      modifies this`exportGltfBinary
      ensures exportGltfBinary == value
    {
      exportGltfBinary := value;
    }

    method SetExportGltfV1(value: bool)
      modifies this`exportGltfV1
      ensures exportGltfV1 == value
    {
      exportGltfV1 := value;
    }

    method SetEnableGltfDracoCompression(value: bool)
      modifies this`enableGltfDracoCompression
      ensures enableGltfDracoCompression == value
    {
      enableGltfDracoCompression := value;
    }

    method SetShowBoundingBox(value: bool)
      modifies this`showBoundingBox
      ensures showBoundingBox == value
    {
      showBoundingBox := value;
    }

    method SetShowTileBorders(value: bool)
      modifies this`showTileBorders
      ensures showTileBorders == value
    {
      showTileBorders := value;
    }

    method SetExportEmptyTiles(value: bool)
      modifies this`exportEmptyTiles
      ensures exportEmptyTiles == value
    {
      exportEmptyTiles := value;
    }

    method SetCallGElevationService(value: bool)
      modifies this`callGElevationService
      ensures callGElevationService == value
    {
      callGElevationService := value;
    }

    method SetWriteJSONFile(value: bool)
      modifies this`writeJSONFile
      ensures writeJSONFile == value
    {
      writeJSONFile := value;
    }

    method SetOneFilePerObject(value: bool)
      modifies this`oneFilePerObject
      ensures oneFilePerObject == value
    {
      oneFilePerObject := value;
    }

    method SetUseOriginalZCoords(value: bool)
      modifies this`useOriginalZCoords
      ensures useOriginalZCoords == value
    {
      useOriginalZCoords := value;
    }

    method SetPathOfGltfConverter(value: Option<string>)
      modifies this`pathOfGltfConverter
      ensures pathOfGltfConverter == value
    {
      pathOfGltfConverter := value;
    }

    method SetAppearanceTheme(value: Option<string>)
      modifies this`appearanceTheme
      ensures appearanceTheme == value
    {
      appearanceTheme := value;
    }

    method SetViewRefreshMode(value: Option<string>)
      modifies this`viewRefreshMode
      ensures viewRefreshMode == value
    {
      viewRefreshMode := value;
    }

    method SetSingleObjectRegionSize(value: real)
      modifies this`singleObjectRegionSize
      ensures singleObjectRegionSize == value
    {
      singleObjectRegionSize := value;
    }

    method SetViewRefreshTime(value: real)
      modifies this`viewRefreshTime
      ensures viewRefreshTime == value
    {
      viewRefreshTime := value;
    }

    method SetAltitudeOffsetValue(value: real)
      modifies this`altitudeOffsetValue
      ensures altitudeOffsetValue == value
    {
      altitudeOffsetValue := value;
    }

    method SetLodToExportFrom(value: int)
      modifies this`lodToExportFrom
      ensures lodToExportFrom == value
    {
      lodToExportFrom := value;
    }

    method SetGenericCityObjectPointAndCurve(value: Option<PointAndCurve>)
      modifies this`genericCityObjectPointAndCurve
      ensures genericCityObjectPointAndCurve == value
    {
      genericCityObjectPointAndCurve := value;
    }

    method SetLod0FootprintMode(value: Option<Lod0FootprintMode>)
      modifies this`lod0FootprintMode
      ensures lod0FootprintMode == value
    {
      lod0FootprintMode := value;
    }

    method SetAltitudeMode(value: Option<AltitudeMode>)
      modifies this`altitudeMode
      ensures altitudeMode == value
    {
      altitudeMode := value;
    }

    method SetAltitudeOffsetMode(value: Option<AltitudeOffsetMode>)
      modifies this`altitudeOffsetMode
      ensures altitudeOffsetMode == value
    {
      altitudeOffsetMode := value;
    }

    method SetAdePreferences(value: Option<map<string, ADEPreferences>>)
      modifies this`adePreferences
      ensures adePreferences == value
    {
      adePreferences := value;
    }

    method SetGltfConverterOptions(value: Option<seq<string>>)
      modifies this`gltfConverterOptions
      ensures gltfConverterOptions == value
    {
      gltfConverterOptions := value;
    }
  }
}
