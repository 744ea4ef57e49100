/**
 * The editor's simple store (src/store-simple.ts): one object whose actions
 * overwrite its fields. Window records and surface properties are keyed maps
 * that an update merges one entry into; building and zone are records whose
 * setters replace one field. `State` is a snapshot of every field, and each
 * action is specified by the snapshot it leaves, stated as a function of the
 * snapshot before it.
 */
module SimpleStore {
  import opened Wrappers
  import opened ModelTypes
  import Text
  import Idf
  import BasicIdf

  const InitialBuilding: BuildingInfo := BuildingInfo("Novo Edifício", None)
  const InitialZone: ZoneInfo := ZoneInfo("Zona Padrão", true)

  /** The record every window starts with: 1.5 m wide, 1.1 m high, sill at 1 m, no `enabled` field. */
  const StandardWindow: WindowDims := WindowDims(Some(1.5), Some(1.1), Some(1.0), None)

  const InitialWindowDimensions: map<string, WindowDims> :=
    map["window-1" := StandardWindow, "window-2" := StandardWindow,
        "window-3" := StandardWindow, "window-4" := StandardWindow]

  const ExposedWall: SurfaceProps := SurfaceProps(false, WindExposed, SunExposed)

  const InitialSurfaceProperties: map<string, SurfaceProps> :=
    map["floor" := SurfaceProps(false, NoWind, NoSun),
        "ceiling" := SurfaceProps(false, NoWind, SunExposed),
        "wall-1" := ExposedWall, "wall-2" := ExposedWall, "wall-3" := ExposedWall, "wall-4" := ExposedWall]

  /** Every field of the store. */
  datatype State = State(selectedElement: Option<Element>, dimensions: Dimensions,
                         windowDimensions: map<string, WindowDims>, surfaceProperties: map<string, SurfaceProps>,
                         northAngle: real, materials: Materials, building: BuildingInfo, zone: ZoneInfo)

  const InitialState: State :=
    State(None, InitialDimensions, InitialWindowDimensions, InitialSurfaceProperties, 0.0, InitialMaterials,
          InitialBuilding, InitialZone)

  /**
   * What `importFromJson` reads from its argument: each field may be missing.
   * Any present `dimensions` counts as true, being an object.
   */
  datatype ImportData = ImportData(dimensions: Option<Dimensions>, northAngle: Option<real>, materials: Option<Materials>)

  /**
   * The state `importFromJson` leaves. A missing argument (`null` or
   * `undefined`) makes the read throw, and the handler only reports it.
   */
  function Imported(s: State, data: Option<ImportData>): (r: State)
    ensures data.None? || data.value.dimensions.None? ==> r == s
    ensures data.Some? && data.value.dimensions.Some? ==>
              && r.dimensions == data.value.dimensions.value
              && r.northAngle == OrElse(data.value.northAngle, 0.0)
              && r.materials == data.value.materials.GetOr(InitialMaterials)
              && r.selectedElement.None?
              && r.windowDimensions == s.windowDimensions && r.surfaceProperties == s.surfaceProperties
              && r.building == s.building && r.zone == s.zone
  {
    match data
    case None => s
    case Some(ImportData(dims, angle, mats)) =>
      if dims.None? then s
      else s.(dimensions := dims.value, northAngle := OrElse(angle, 0.0),
              materials := mats.GetOr(InitialMaterials), selectedElement := None)
  }

  /** The object `exportToJson` serialises: dimensions, north angle and materials. */
  function Exported(s: State): ImportData {
    ImportData(Some(s.dimensions), Some(s.northAngle), Some(s.materials))
  }

  /** Importing what was exported gives back the dimensions, north angle and materials, and clears the selection. */
  lemma ImportExportRoundTrip(s: State)
    ensures Imported(s, Some(Exported(s))) == s.(selectedElement := None)
  {
  }

  /** `resetModel`: dimensions, north angle and materials back to their initial values. */
  function Reset(s: State): (r: State)
    ensures r.dimensions == InitialDimensions && r.northAngle == 0.0 && r.materials == InitialMaterials
    ensures r.selectedElement == s.selectedElement && r.windowDimensions == s.windowDimensions
    ensures r.surfaceProperties == s.surfaceProperties && r.building == s.building && r.zone == s.zone
  {
    s.(dimensions := InitialDimensions, northAngle := 0.0, materials := InitialMaterials)
  }

  /** Resetting twice is resetting once, and the initial state is already reset. */
  lemma ResetIdempotent(s: State)
    ensures Reset(Reset(s)) == Reset(s)
    ensures Reset(InitialState) == InitialState
  {
  }

  /** After a reset, any import of dimensions leaves the window records, surfaces, building and zone of before. */
  lemma ResetThenImportKeepsRecords(s: State, data: Option<ImportData>)
    ensures var r := Imported(Reset(s), data);
            r.windowDimensions == s.windowDimensions && r.surfaceProperties == s.surfaceProperties
            && r.building == s.building && r.zone == s.zone
  {
  }

  class Store {
    var selectedElement: Option<Element>
    var dimensions: Dimensions
    var windowDimensions: map<string, WindowDims>
    var surfaceProperties: map<string, SurfaceProps>
    var northAngle: real
    var materials: Materials
    var building: BuildingInfo
    var zone: ZoneInfo

    function Snapshot(): State
      reads this
    {
      State(selectedElement, dimensions, windowDimensions, surfaceProperties, northAngle, materials, building, zone)
    }

    constructor()
      ensures Snapshot() == InitialState
    {
      selectedElement := None;
      dimensions := InitialDimensions;
      windowDimensions := InitialWindowDimensions;
      surfaceProperties := InitialSurfaceProperties;
      northAngle := 0.0;
      materials := InitialMaterials;
      building := InitialBuilding;
      zone := InitialZone;
    }

    method SetSelectedElement(element: Option<Element>)
      modifies this
      ensures Snapshot() == old(Snapshot()).(selectedElement := element)
    {
      selectedElement := element;
    }

    method SetDimensions(d: Dimensions)
      modifies this
      ensures Snapshot() == old(Snapshot()).(dimensions := d)
    {
      dimensions := d;
    }

    /** Merges one entry into the window records: the entry for `windowId` becomes `dims`, every other entry stays. */
    method SetWindowDimensions(windowId: string, dims: WindowDims)
      modifies this
      ensures windowDimensions == old(windowDimensions)[windowId := dims]
      ensures windowDimensions.Keys == old(windowDimensions.Keys) + {windowId}
      ensures forall id :: id in old(windowDimensions) && id != windowId ==> windowDimensions[id] == old(windowDimensions)[id]
      ensures Snapshot() == old(Snapshot()).(windowDimensions := windowDimensions)
    {
      windowDimensions := windowDimensions[windowId := dims];
    }

    /** Merges one entry into the surface properties. */
    method SetSurfaceProperties(surfaceId: string, props: SurfaceProps)
      modifies this
      ensures surfaceProperties == old(surfaceProperties)[surfaceId := props]
      ensures surfaceProperties.Keys == old(surfaceProperties.Keys) + {surfaceId}
      ensures forall id :: id in old(surfaceProperties) && id != surfaceId ==> surfaceProperties[id] == old(surfaceProperties)[id]
      ensures Snapshot() == old(Snapshot()).(surfaceProperties := surfaceProperties)
    {
      surfaceProperties := surfaceProperties[surfaceId := props];
    }

    method SetNorthAngle(angle: real)
      modifies this
      ensures Snapshot() == old(Snapshot()).(northAngle := angle)
    {
      northAngle := angle;
    }

    method SetMaterials(m: Materials)
      modifies this
      ensures Snapshot() == old(Snapshot()).(materials := m)
    {
      materials := m;
    }

    /** Renames the building and keeps its weather file. */
    method SetBuildingName(name: string)
      modifies this
      ensures building == BuildingInfo(name, old(building.epwFile))
      ensures Snapshot() == old(Snapshot()).(building := building)
    {
      building := building.(name := name);
    }

    /** Replaces the weather file and keeps the building's name. */
    method SetBuildingEpwFile(file: Option<string>)
      modifies this
      ensures building == BuildingInfo(old(building.name), file)
      ensures Snapshot() == old(Snapshot()).(building := building)
    {
      building := building.(epwFile := file);
    }

    method SetZoneName(name: string)
      modifies this
      ensures zone == ZoneInfo(name, old(zone.conditioned))
      ensures Snapshot() == old(Snapshot()).(zone := zone)
    {
      zone := zone.(name := name);
    }

    method SetZoneConditioned(conditioned: bool)
      modifies this
      ensures zone == ZoneInfo(old(zone.name), conditioned)
      ensures Snapshot() == old(Snapshot()).(zone := zone)
    {
      zone := zone.(conditioned := conditioned);
    }

    method ResetModel()
      modifies this
      ensures Snapshot() == Reset(old(Snapshot()))
    {
      dimensions := InitialDimensions;
      northAngle := 0.0;
      materials := InitialMaterials;
    }

    method ImportFromJson(data: Option<ImportData>)
      modifies this
      ensures Snapshot() == Imported(old(Snapshot()), data)
    {
      if data.Some? && data.value.dimensions.Some? {
        dimensions := data.value.dimensions.value;
        northAngle := OrElse(data.value.northAngle, 0.0);
        materials := data.value.materials.GetOr(InitialMaterials);
        selectedElement := None;
      }
    }

    /** The model `exportToJson` serialises. */
    method ExportModel() returns (data: ImportData)
      ensures data == Exported(Snapshot())
      ensures Imported(Snapshot(), Some(data)).dimensions == dimensions
      ensures Imported(Snapshot(), Some(data)).northAngle == northAngle
      ensures Imported(Snapshot(), Some(data)).materials == materials
    {
      data := ImportData(Some(dimensions), Some(northAngle), Some(materials));
    }

    /**
     * `exportToIdf`: the text of the basic document built from the store's
     * fields; it holds every object of that document, and that document's
     * surfaces refer to a declared zone exactly when the zone is named "Zone Default".
     */
    method ExportToIdf(formatNum: real -> string, stringify: Materials -> string) returns (text: string)
      ensures text == BasicIdf.GenerateBasicIdfText(dimensions, northAngle, materials, building, zone,
                                                    windowDimensions, formatNum, stringify)
      ensures forall o :: o in BasicIdf.GenerateBasicIdf(dimensions, northAngle, materials, building, zone, windowDimensions)
                ==> Text.Contains(text, Idf.RenderObject(o, formatNum))
      ensures Idf.ZonesResolved(BasicIdf.GenerateBasicIdf(dimensions, northAngle, materials, building, zone, windowDimensions))
              <==> zone.name == BasicIdf.WrittenSurfaceZone
    {
      text := BasicIdf.GenerateBasicIdfText(dimensions, northAngle, materials, building, zone,
                                            windowDimensions, formatNum, stringify);
      forall o | o in BasicIdf.GenerateBasicIdf(dimensions, northAngle, materials, building, zone, windowDimensions)
        ensures Text.Contains(text, Idf.RenderObject(o, formatNum))
      {
        BasicIdf.GenerateBasicIdfTextHoldsEveryObject(dimensions, northAngle, materials, building, zone,
                                                     windowDimensions, formatNum, stringify, o);
      }
      BasicIdf.GenerateBasicIdfZonesResolvedIff(dimensions, northAngle, materials, building, zone, windowDimensions);
    }
  }
}
