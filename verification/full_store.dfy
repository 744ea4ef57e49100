/**
 * The editor's full store (src/store.ts): selection, dimensions, north angle
 * and materials, with a JSON model that describes the room as one zone holding
 * its floor and ceiling, and an IDF export through `generateIdf`.
 */
module AppStore {
  import opened Wrappers
  import opened ModelTypes
  import opened Idf
  import opened IdfBlocks
  import Text
  import IdfGenerator

  datatype SurfaceType = FloorType | CeilingType | RoofType

  /** A horizontal surface of the JSON model; each vertex is an `[x, y, z]` triple. */
  datatype SurfaceJson = SurfaceJson(id: string, name: string, surfaceType: SurfaceType,
                                     vertices: seq<Vertex>, material: string)

  datatype WindowJson = WindowJson(id: string, name: string, vertices: seq<Vertex>, material: string)

  datatype WallJson = WallJson(id: string, name: string, vertices: seq<Vertex>, material: string,
                               windows: seq<WindowJson>)

  /** A zone of the JSON model; `dimensions` may be missing from a file being read. */
  datatype ZoneJson = ZoneJson(id: string, name: string, dimensions: Option<Dimensions>,
                               surfaces: seq<SurfaceJson>, walls: seq<WallJson>)

  /**
   * The JSON model. A file being read may lack `zones`, hold `null` where a
   * zone is expected, or lack `northAngle`.
   */
  datatype ModelJson = ModelJson(zones: Option<seq<Option<ZoneJson>>>, northAngle: Option<real>)

  /** Every field of the store. */
  datatype State = State(selectedElement: Option<Element>, dimensions: Dimensions, northAngle: real,
                         materials: Materials)

  const InitialState: State := State(None, InitialDimensions, 0.0, InitialMaterials)

  // ---------------------------------------------------------------------------
  // Export

  /** The floor's corners, in the order the export lists them. */
  function ExportedFloorVertices(d: Dimensions): seq<Vertex> {
    [ Vertex(-d.width / 2.0, 0.0, -d.length / 2.0), Vertex(d.width / 2.0, 0.0, -d.length / 2.0),
      Vertex(d.width / 2.0, 0.0, d.length / 2.0), Vertex(-d.width / 2.0, 0.0, d.length / 2.0) ]
  }

  /** The ceiling's corners: the floor's, raised to the zone's height. */
  function ExportedCeilingVertices(d: Dimensions): seq<Vertex> {
    [ Vertex(-d.width / 2.0, d.height, -d.length / 2.0), Vertex(d.width / 2.0, d.height, -d.length / 2.0),
      Vertex(d.width / 2.0, d.height, d.length / 2.0), Vertex(-d.width / 2.0, d.height, d.length / 2.0) ]
  }

  /** The single zone `exportToJson` writes: floor and ceiling in the surface material, no walls. */
  function ExportedZone(d: Dimensions, m: Materials): ZoneJson {
    ZoneJson("default-zone", "Zona Padrão", Some(d),
             [ SurfaceJson("floor", "Piso", FloorType, ExportedFloorVertices(d), m.surface),
               SurfaceJson("ceiling", "Teto", CeilingType, ExportedCeilingVertices(d), m.surface) ],
             [])
  }

  function ExportedModel(s: State): ModelJson {
    ModelJson(Some([Some(ExportedZone(s.dimensions, s.materials))]), Some(s.northAngle))
  }

  /** The export holds one zone, named after the default zone, with the floor and then the ceiling, both in the surface material. */
  lemma ExportedZoneShape(s: State)
    ensures var zones := ExportedModel(s).zones.value;
            && |zones| == 1 && zones[0].Some?
            && var z := zones[0].value;
            && z.dimensions == Some(s.dimensions) && z.walls == [] && |z.surfaces| == 2
            && z.surfaces[0].surfaceType == FloorType && z.surfaces[0].vertices == ExportedFloorVertices(s.dimensions)
            && z.surfaces[1].surfaceType == CeilingType && z.surfaces[1].vertices == ExportedCeilingVertices(s.dimensions)
            && z.surfaces[0].material == s.materials.surface && z.surfaces[1].material == s.materials.surface
  {
  }

  /**
   * The exported floor lies at height 0 and spans `(±width/2, ±length/2)`, and
   * has the same corners as the floor of the IDF documents.
   */
  lemma ExportedFloorGeometry(d: Dimensions)
    requires d.width > 0.0 && d.length > 0.0
    ensures OnPlane(ExportedFloorVertices(d), Y, 0.0)
    ensures FourCorners(ExportedFloorVertices(d), X, Z, d.width / 2.0, d.length / 2.0)
    ensures forall v :: v in ExportedFloorVertices(d) <==> v in FloorVertices(d)
  {
  }

  /** The exported ceiling is the same rectangle at the zone's height, with the corners of the IDF ceiling. */
  lemma ExportedCeilingGeometry(d: Dimensions)
    requires d.width > 0.0 && d.length > 0.0
    ensures OnPlane(ExportedCeilingVertices(d), Y, d.height)
    ensures FourCorners(ExportedCeilingVertices(d), X, Z, d.width / 2.0, d.length / 2.0)
    ensures forall v :: v in ExportedCeilingVertices(d) <==> v in CeilingVertices(d)
  {
  }

  // ---------------------------------------------------------------------------
  // Import

  /** The dimensions of the first zone, when the model has a first zone with dimensions. */
  function FirstZoneDimensions(data: ModelJson): (r: Option<Dimensions>)
    ensures r.Some? <==> data.zones.Some? && |data.zones.value| > 0 && data.zones.value[0].Some?
                         && data.zones.value[0].value.dimensions.Some?
    ensures r.Some? ==> r.value == data.zones.value[0].value.dimensions.value
  {
    match data.zones
    case None => None
    case Some(zones) => if zones == [] || zones[0].None? then None else zones[0].value.dimensions
  }

  /**
   * The state `importFromJson` leaves. A model without a first zone with
   * dimensions, or no model at all, is reported and changes nothing; otherwise
   * the dimensions come from the first zone, the north angle defaults to 0,
   * the materials return to their initial values and the selection is cleared.
   */
  function Imported(s: State, data: Option<ModelJson>): (r: State)
    ensures data.None? || FirstZoneDimensions(data.value).None? ==> r == s
    ensures data.Some? && FirstZoneDimensions(data.value).Some? ==>
              r == State(None, FirstZoneDimensions(data.value).value, OrElse(data.value.northAngle, 0.0),
                         InitialMaterials)
  {
    if data.None? then s
    else
      match FirstZoneDimensions(data.value)
      case None => s
      case Some(d) => State(None, d, OrElse(data.value.northAngle, 0.0), InitialMaterials)
  }

  /**
   * Importing what was exported restores the dimensions and the north angle,
   * clears the selection, and sets the materials back to their initial values,
   * whatever they were: the surface material the export writes is not read.
   */
  lemma ImportExportRoundTrip(s: State)
    ensures Imported(s, Some(ExportedModel(s))) == State(None, s.dimensions, s.northAngle, InitialMaterials)
    ensures Imported(s, Some(ExportedModel(s))).materials == s.materials <==> s.materials == InitialMaterials
  {
  }

  /** Only the first zone is read: any zones after it are ignored. */
  lemma ImportReadsFirstZoneOnly(s: State, z: ZoneJson, rest1: seq<Option<ZoneJson>>, rest2: seq<Option<ZoneJson>>,
                                 angle: Option<real>)
    ensures Imported(s, Some(ModelJson(Some([Some(z)] + rest1), angle)))
         == Imported(s, Some(ModelJson(Some([Some(z)] + rest2), angle)))
  {
  }

  /** `resetModel`: dimensions, north angle and materials back to their initial values; the selection stays. */
  function Reset(s: State): (r: State)
    ensures r == InitialState.(selectedElement := s.selectedElement)
  {
    s.(dimensions := InitialDimensions, northAngle := 0.0, materials := InitialMaterials)
  }

  /** After a reset, the exported model re-imports to the initial state. */
  lemma ResetExportImport(s: State)
    ensures Imported(Reset(s), Some(ExportedModel(Reset(s)))) == InitialState
  {
  }

  class Store {
    var selectedElement: Option<Element>
    var dimensions: Dimensions
    var northAngle: real
    var materials: Materials

    function Snapshot(): State
      reads this
    {
      State(selectedElement, dimensions, northAngle, materials)
    }

    constructor()
      ensures Snapshot() == InitialState
    {
      selectedElement := None;
      dimensions := InitialDimensions;
      northAngle := 0.0;
      materials := InitialMaterials;
    }

    method SetSelectedElement(element: Option<Element>)
      modifies this
      ensures Snapshot() == old(Snapshot()).(selectedElement := element)
    {
      selectedElement := element;
    }

    method SetDimensions(d: Dimensions)
      modifies this
      ensures Snapshot() == old(Snapshot()).(dimensions := d)
    {
      dimensions := d;
    }

    method SetNorthAngle(angle: real)
      modifies this
      ensures Snapshot() == old(Snapshot()).(northAngle := angle)
    {
      northAngle := angle;
    }

    method SetMaterials(m: Materials)
      modifies this
      ensures Snapshot() == old(Snapshot()).(materials := m)
    {
      materials := m;
    }

    method ResetModel()
      modifies this
      ensures Snapshot() == Reset(old(Snapshot()))
    {
      dimensions := InitialDimensions;
      northAngle := 0.0;
      materials := InitialMaterials;
    }

    method ImportFromJson(data: Option<ModelJson>)
      modifies this
      ensures Snapshot() == Imported(old(Snapshot()), data)
    {
      if data.Some? {
        var d := FirstZoneDimensions(data.value);
        if d.Some? {
          dimensions := d.value;
          northAngle := OrElse(data.value.northAngle, 0.0);
          materials := InitialMaterials;
          selectedElement := None;
        }
      }
    }

    /** The model `exportToJson` serialises; importing it restores dimensions and north angle. */
    method ExportModel() returns (data: ModelJson)
      ensures data == ExportedModel(Snapshot())
      ensures FirstZoneDimensions(data) == Some(dimensions)
      ensures Imported(Snapshot(), Some(data)).northAngle == northAngle
    {
      data := ModelJson(Some([Some(ExportedZone(dimensions, materials))]), Some(northAngle));
    }

    /**
     * `exportToIdf`: the text `generateIdf` prints for the store's dimensions,
     * north angle and materials (the window records it also passes are not
     * parameters of `generateIdf`); it holds every object of that document.
     */
    method ExportToIdf(formatNum: real -> string) returns (text: string)
      ensures text == IdfGenerator.GenerateIdfText(dimensions, northAngle, materials, formatNum)
      ensures forall o :: o in IdfGenerator.GenerateIdf(dimensions, northAngle, materials)
                ==> Text.Contains(text, RenderObject(o, formatNum))
    {
      text := IdfGenerator.GenerateIdfText(dimensions, northAngle, materials, formatNum);
      forall o | o in IdfGenerator.GenerateIdf(dimensions, northAngle, materials)
        ensures Text.Contains(text, RenderObject(o, formatNum))
      {
        IdfGenerator.GenerateIdfTextHoldsEveryObject(dimensions, northAngle, materials, formatNum, o);
      }
    }
  }
}
