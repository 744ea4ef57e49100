/**
 * The EnergyPlus input-data-file (IDF) objects the generators write, as
 * values. An object is kept by what varies in it (a surface's name,
 * construction, zone and vertices; a construction's layers; ...); `Fields`
 * lays it out as the IDF class's field values, `Notes` gives the `!-` comment
 * printed beside each field, and `Render` prints a document.
 *
 * A `Num` value is a number the generators print through their
 * `formatNum` helper (`toFixed(3)`); rendering takes that formatter as a
 * parameter and never looks inside it. A `Txt` value is printed as it stands.
 */
module Idf {
  import opened Wrappers
  import Text

  /** A point in the editor's frame: `y` is the vertical axis. */
  datatype Vertex = Vertex(x: real, y: real, z: real)

  /** Objects whose every field is a literal of the generators. */
  datatype FixedObject =
    | SaoPauloLocation | SummerDesignDay | WinterDesignDay | FractionLimits
    | AnnualRunPeriod | HtmlTableStyle | AllSummaryReports

  datatype IdfObject =
    | Version
    | Building(name: string, northAxis: Value)
    | GlobalGeometryRules
    | Zone(name: string, ceilingHeight: real, volume: real)
    | Surface(name: string, surfaceType: string, construction: string, zone: string,
              boundary: string, sun: string, wind: string, vertices: seq<Vertex>)
    | Fenestration(name: string, construction: string, baseSurface: string, vertices: seq<Vertex>)
    | Construction(name: string, layers: seq<string>)
    | Material(name: string, roughness: string, thickness: string, conductivity: string,
               density: string, specificHeat: string)
    | Glazing(name: string, thickness: string, solarT: string, frontSolarR: string, backSolarR: string,
              visibleT: string, frontVisibleR: string, backVisibleR: string, frontEmissivity: string)
    | Gas(name: string, gasType: string, thickness: string)
    | EquipmentConnections(zone: string)
    | EquipmentList(zone: string)
    | IdealLoads(zone: string)
    | Ventilation(zone: string, flowRate: real)
    | Schedule(name: string, value: string)
    | OutputVariable(variable: string)
    | Fixed(kind: FixedObject)

  datatype Value = Txt(text: string) | Num(x: real)

  datatype ObjectClass =
    | VersionClass | BuildingClass | GlobalGeometryRulesClass | SiteLocationClass | DesignDayClass
    | ZoneClass | EquipmentConnectionsClass | EquipmentListClass | IdealLoadsClass | VentilationClass
    | SurfaceClass | FenestrationClass | ConstructionClass | MaterialClass | GlazingClass | GasClass
    | ScheduleTypeLimitsClass | ScheduleCompactClass | RunPeriodClass | TableStyleClass
    | OutputVariableClass | SummaryReportsClass

  function ClassOf(o: IdfObject): ObjectClass {
    match o
    case Version => VersionClass
    case Building(_, _) => BuildingClass
    case GlobalGeometryRules => GlobalGeometryRulesClass
    case Zone(_, _, _) => ZoneClass
    case Surface(_, _, _, _, _, _, _, _) => SurfaceClass
    case Fenestration(_, _, _, _) => FenestrationClass
    case Construction(_, _) => ConstructionClass
    case Material(_, _, _, _, _, _) => MaterialClass
    case Glazing(_, _, _, _, _, _, _, _, _) => GlazingClass
    case Gas(_, _, _) => GasClass
    case EquipmentConnections(_) => EquipmentConnectionsClass
    case EquipmentList(_) => EquipmentListClass
    case IdealLoads(_) => IdealLoadsClass
    case Ventilation(_, _) => VentilationClass
    case Schedule(_, _) => ScheduleCompactClass
    case OutputVariable(_) => OutputVariableClass
    case Fixed(k) =>
      match k
      case SaoPauloLocation => SiteLocationClass
      case SummerDesignDay => DesignDayClass
      case WinterDesignDay => DesignDayClass
      case FractionLimits => ScheduleTypeLimitsClass
      case AnnualRunPeriod => RunPeriodClass
      case HtmlTableStyle => TableStyleClass
      case AllSummaryReports => SummaryReportsClass
  }

  function ClassName(c: ObjectClass): string {
    match c
    case VersionClass => "Version"
    case BuildingClass => "Building"
    case GlobalGeometryRulesClass => "GlobalGeometryRules"
    case SiteLocationClass => "Site:Location"
    case DesignDayClass => "SizingPeriod:DesignDay"
    case ZoneClass => "Zone"
    case EquipmentConnectionsClass => "ZoneHVAC:EquipmentConnections"
    case EquipmentListClass => "ZoneHVAC:EquipmentList"
    case IdealLoadsClass => "ZoneHVAC:IdealLoadsAirSystem"
    case VentilationClass => "ZoneVentilation:DesignFlowRate"
    case SurfaceClass => "BuildingSurface:Detailed"
    case FenestrationClass => "FenestrationSurface:Detailed"
    case ConstructionClass => "Construction"
    case MaterialClass => "Material"
    case GlazingClass => "WindowMaterial:Glazing"
    case GasClass => "WindowMaterial:Gas"
    case ScheduleTypeLimitsClass => "ScheduleTypeLimits"
    case ScheduleCompactClass => "Schedule:Compact"
    case RunPeriodClass => "RunPeriod"
    case TableStyleClass => "OutputControl:Table:Style"
    case OutputVariableClass => "Output:Variable"
    case SummaryReportsClass => "Output:Table:SummaryReports"
  }

  /** Names of the HVAC pieces derived from the zone's name. */
  function EquipmentListName(zone: string): string { zone + " Equipment" }
  function IdealLoadsName(zone: string): string { zone + " Ideal Loads" }
  function InletNodeName(zone: string): string { zone + " Inlet Node" }
  function VentilationName(zone: string): string { zone + " Ventilation" }

  /** The object's own name, for the classes whose first field is a name. */
  function NameOf(o: IdfObject): Option<string> {
    match o
    case Building(name, _) => Some(name)
    case Zone(name, _, _) => Some(name)
    case Surface(name, _, _, _, _, _, _, _) => Some(name)
    case Fenestration(name, _, _, _) => Some(name)
    case Construction(name, _) => Some(name)
    case Material(name, _, _, _, _, _) => Some(name)
    case Glazing(name, _, _, _, _, _, _, _, _) => Some(name)
    case Gas(name, _, _) => Some(name)
    case EquipmentList(zone) => Some(EquipmentListName(zone))
    case IdealLoads(zone) => Some(IdealLoadsName(zone))
    case Ventilation(zone, _) => Some(VentilationName(zone))
    case Schedule(name, _) => Some(name)
    case Fixed(k) =>
      (match k
       case SaoPauloLocation => Some("Sao Paulo")
       case SummerDesignDay => Some("Sao Paulo Summer Design Day")
       case WinterDesignDay => Some("Sao Paulo Winter Design Day")
       case FractionLimits => Some("Fraction")
       case AnnualRunPeriod => Some("Annual Run")
       case HtmlTableStyle => None
       case AllSummaryReports => None)
    case _ => None
  }

  predicate IsSurface(o: IdfObject) {
    o.Surface? || o.Fenestration?
  }

  /** The construction a surface or window names. */
  function ConstructionOf(o: IdfObject): Option<string> {
    if IsSurface(o) then Some(o.construction) else None
  }

  /** The zone an object refers to: a surface's zone, or the zone an HVAC or ventilation object serves. */
  function ZoneOf(o: IdfObject): Option<string> {
    match o
    case Surface(_, _, _, zone, _, _, _, _) => Some(zone)
    case EquipmentConnections(zone) => Some(zone)
    case Ventilation(zone, _) => Some(zone)
    case _ => None
  }

  // ---------------------------------------------------------------------------
  // Field layout

  /** The text of field `k`, when it is a text field. */
  function TextAt(fs: seq<Value>, k: nat): Option<string> {
    if k < |fs| && fs[k].Txt? then Some(fs[k].text) else None
  }

  /** The number in field `k`, when it is a number field. */
  function NumAt(fs: seq<Value>, k: nat): Option<real> {
    if k < |fs| && fs[k].Num? then Some(fs[k].x) else None
  }

  function VertexNote(k: nat): string {
    "X,Y,Z Vertex " + Text.NatToString(k) + " {m}"
  }

  /** Three numeric fields per vertex. */
  function VertexFields(vs: seq<Vertex>): (fs: seq<Value>)
    ensures |fs| == 3 * |vs|
  {
    if vs == [] then []
    else [Num(vs[0].x), Num(vs[0].y), Num(vs[0].z)] + VertexFields(vs[1..])
  }

  /** The comments of `n` vertices numbered from `first`: on the third field of each. */
  function VertexNotes(n: nat, first: nat): (ns: seq<string>)
    ensures |ns| == 3 * n
  {
    if n == 0 then [] else ["", "", VertexNote(first)] + VertexNotes(n - 1, first + 1)
  }

  /** Reads a vertex list back from numeric fields, three at a time. */
  function DecodeVertices(fs: seq<Value>): Option<seq<Vertex>>
    decreases |fs|
  {
    if fs == [] then Some([])
    else if |fs| < 3 || !fs[0].Num? || !fs[1].Num? || !fs[2].Num? then None
    else
      match DecodeVertices(fs[3..])
      case None => None
      case Some(rest) => Some([Vertex(fs[0].x, fs[1].x, fs[2].x)] + rest)
  }

  /** The listed vertices read back as the vertices that were listed. */
  lemma {:induction false} DecodeVertexFields(vs: seq<Vertex>)
    ensures DecodeVertices(VertexFields(vs)) == Some(vs)
  {
    if vs != [] {
      DecodeVertexFields(vs[1..]);
      var fs := VertexFields(vs);
      assert fs[3..] == VertexFields(vs[1..]);
      assert [vs[0]] + vs[1..] == vs;
    }
  }

  /** Fields before the vertex list of a `BuildingSurface:Detailed`. */
  const SurfaceHeaderLength: nat := 10

  /** Fields before the vertex list of a `FenestrationSurface:Detailed`. */
  const FenestrationHeaderLength: nat := 9

  function SurfaceFields(o: IdfObject): seq<Value>
    requires o.Surface?
  {
    [ Txt(o.name),
      Txt(o.surfaceType),
      Txt(o.construction),
      Txt(o.zone),
      Txt(o.boundary),
      Txt(""),
      Txt(o.sun),
      Txt(o.wind),
      Txt("0.0"),
      Txt(Text.NatToString(|o.vertices|)) ]
    + VertexFields(o.vertices)
  }

  function FenestrationFields(o: IdfObject): seq<Value>
    requires o.Fenestration?
  {
    [ Txt(o.name),
      Txt("Window"),
      Txt(o.construction),
      Txt(o.baseSurface),
      Txt(""),
      Txt("0.0"),
      Txt(""),
      Txt("1.0"),
      Txt(Text.NatToString(|o.vertices|)) ]
    + VertexFields(o.vertices)
  }

  /** A construction's layers, one field each, outside layer first. */
  function LayerFields(layers: seq<string>): (fs: seq<Value>)
    ensures |fs| == |layers|
    ensures forall k :: 0 <= k < |layers| ==> fs[k] == Txt(layers[k])
  {
    seq(|layers|, k requires 0 <= k < |layers| => Txt(layers[k]))
  }

  function BuildingFields(name: string, northAxis: Value): seq<Value> {
    [ Txt(name),
      northAxis,
      Txt("City"),
      Txt("0.04"),
      Txt("0.4"),
      Txt("FullInteriorAndExterior"),
      Txt("25"),
      Txt("6") ]
  }

  function ZoneFields(name: string, ceilingHeight: real, volume: real): seq<Value> {
    [ Txt(name),
      Txt("0"),
      Txt("0"),
      Txt("0"),
      Txt("0"),
      Txt("1"),
      Txt("1"),
      Num(ceilingHeight),
      Num(volume) ]
  }

  function MaterialFields(o: IdfObject): seq<Value>
    requires o.Material?
  {
    [ Txt(o.name),
      Txt(o.roughness),
      Txt(o.thickness),
      Txt(o.conductivity),
      Txt(o.density),
      Txt(o.specificHeat) ]
  }

  function GlazingFields(o: IdfObject): seq<Value>
    requires o.Glazing?
  {
    [ Txt(o.name),
      Txt("SpectralAverage"),
      Txt(""),
      Txt(o.thickness),
      Txt(o.solarT),
      Txt(o.frontSolarR),
      Txt(o.backSolarR),
      Txt(o.visibleT),
      Txt(o.frontVisibleR),
      Txt(o.backVisibleR),
      Txt("0"),
      Txt(o.frontEmissivity),
      Txt("0.84"),
      Txt("0.9") ]
  }

  function EquipmentConnectionsFields(zone: string): seq<Value> {
    [ Txt(zone),
      Txt(EquipmentListName(zone)),
      Txt(InletNodeName(zone)),
      Txt(""),
      Txt(zone + " Zone Air Node"),
      Txt(zone + " Return Outlet") ]
  }

  function EquipmentListFields(zone: string): seq<Value> {
    [ Txt(EquipmentListName(zone)),
      Txt("ZoneHVAC:IdealLoadsAirSystem"),
      Txt(IdealLoadsName(zone)),
      Txt("1"),
      Txt("1") ]
  }

  function IdealLoadsFields(zone: string): seq<Value> {
    [ Txt(IdealLoadsName(zone)),
      Txt(""),
      Txt(InletNodeName(zone)),
      Txt(""),
      Txt("50"),
      Txt("13"),
      Txt("0.015"),
      Txt("0.009"),
      Txt("NoLimit"),
      Txt("autosize"),
      Txt(""),
      Txt("NoLimit"),
      Txt("autosize"),
      Txt(""),
      Txt(""),
      Txt(""),
      Txt("ConstantSupplyHumidityRatio"),
      Txt(""),
      Txt("ConstantSupplyHumidityRatio"),
      Txt(""),
      Txt(""),
      Txt(""),
      Txt(""),
      Txt(""),
      Txt(""),
      Txt("") ]
  }

  function VentilationFields(zone: string, flowRate: real): seq<Value> {
    [ Txt(VentilationName(zone)),
      Txt(zone),
      Txt(""),
      Txt("DesignFlowRate"),
      Num(flowRate),
      Txt(""),
      Txt(""),
      Txt(""),
      Txt("Intake"),
      Txt(""),
      Txt(""),
      Txt(""),
      Txt(""),
      Txt(""),
      Txt(""),
      Txt("20"),
      Txt(""),
      Txt("30"),
      Txt(""),
      Txt("-100"),
      Txt(""),
      Txt("-100"),
      Txt(""),
      Txt("50"),
      Txt(""),
      Txt("40") ]
  }

  function DesignDayFields(name: string, month: string, dayType: string, maxDryBulb: string, wetBulb: string,
                           windSpeed: string, windDirection: string, daylightSaving: string,
                           skyClearness: string): seq<Value>
  {
    [ Txt(name),
      Txt(month),
      Txt("21"),
      Txt(dayType),
      Txt(maxDryBulb),
      Txt("8.0"),
      Txt("DefaultMultipliers"),
      Txt(""),
      Txt("Wetbulb"),
      Txt(wetBulb),
      Txt(""),
      Txt(""),
      Txt(""),
      Txt(""),
      Txt("101217."),
      Txt(windSpeed),
      Txt(windDirection),
      Txt("No"),
      Txt("No"),
      Txt(daylightSaving),
      Txt("ASHRAEClearSky"),
      Txt(""),
      Txt(""),
      Txt(""),
      Txt(""),
      Txt(skyClearness) ]
  }

  function FixedFields(k: FixedObject): seq<Value> {
    match k
    case SaoPauloLocation =>
      [ Txt("Sao Paulo"),
        Txt("-23.55"),
        Txt("-46.64"),
        Txt("-3.0"),
        Txt("720") ]
    case SummerDesignDay =>
      DesignDayFields("Sao Paulo Summer Design Day", "2", "SummerDesignDay", "32.0", "25.0", "3.0", "180", "Yes", "1.0")
    case WinterDesignDay =>
      DesignDayFields("Sao Paulo Winter Design Day", "7", "WinterDesignDay", "18.0", "16.0", "2.0", "0", "No", "0.0")
    case FractionLimits =>
      [ Txt("Fraction"),
        Txt("0.0"),
        Txt("1.0"),
        Txt("Continuous") ]
    case AnnualRunPeriod =>
      [ Txt("Annual Run"),
        Txt("1"),
        Txt("1"),
        Txt("12"),
        Txt("31"),
        Txt("UseWeatherFile"),
        Txt("Yes"),
        Txt("Yes"),
        Txt("No"),
        Txt("Yes"),
        Txt("Yes") ]
    case HtmlTableStyle => [Txt("HTML")]
    case AllSummaryReports => [Txt("AllSummary")]
  }

  /** The object's field list, in the order the IDF class defines. */
  function Fields(o: IdfObject): seq<Value> {
    match o
    case Version => [Txt("9.5")]
    case Building(name, northAxis) => BuildingFields(name, northAxis)
    case GlobalGeometryRules =>
      [ Txt("UpperLeftCorner"),
        Txt("CounterClockWise"),
        Txt("Relative"),
        Txt("Relative"),
        Txt("Relative") ]
    case Zone(name, ceilingHeight, volume) => ZoneFields(name, ceilingHeight, volume)
    case Surface(_, _, _, _, _, _, _, _) => SurfaceFields(o)
    case Fenestration(_, _, _, _) => FenestrationFields(o)
    case Construction(name, layers) => [Txt(name)] + LayerFields(layers)
    case Material(_, _, _, _, _, _) => MaterialFields(o)
    case Glazing(_, _, _, _, _, _, _, _, _) => GlazingFields(o)
    case Gas(name, gasType, thickness) => [Txt(name), Txt(gasType), Txt(thickness)]
    case EquipmentConnections(zone) => EquipmentConnectionsFields(zone)
    case EquipmentList(zone) => EquipmentListFields(zone)
    case IdealLoads(zone) => IdealLoadsFields(zone)
    case Ventilation(zone, flowRate) => VentilationFields(zone, flowRate)
    case Schedule(name, value) =>
      [ Txt(name),
        Txt("Fraction"),
        Txt("Through: 12/31"),
        Txt("For: AllDays"),
        Txt("Until: 24:00"),
        Txt(value) ]
    case OutputVariable(variable) =>
      [Txt("*"), Txt(variable), Txt("Hourly")]
    case Fixed(k) => FixedFields(k)
  }

  // ---------------------------------------------------------------------------
  // The `!-` comments printed beside the fields

  /** The first layer is noted as the outside layer, the others by number. */
  function LayerNotes(n: nat): (ns: seq<string>)
    ensures |ns| == n
  {
    seq(n, k requires 0 <= k < n => if k == 0 then "Outside Layer" else "Layer " + Text.NatToString(k + 1))
  }

  /** The comments of the fields every object of the class has, in field order. */
  function ClassNotes(c: ObjectClass): seq<string> {
    match c
    case VersionClass => ["Version Identifier"]
    case BuildingClass =>
      [ "Name", "North Axis {deg}", "Terrain", "Loads Convergence Tolerance Value {W}",
        "Temperature Convergence Tolerance Value {deltaC}", "Solar Distribution",
        "Maximum Number of Warmup Days", "Minimum Number of Warmup Days" ]
    case GlobalGeometryRulesClass =>
      [ "Starting Vertex Position", "Vertex Entry Direction", "Coordinate System",
        "Daylighting Reference Point Coordinate System", "Rectangular Surface Coordinate System" ]
    case SiteLocationClass => [ "Name", "Latitude {deg}", "Longitude {deg}", "Time Zone {hr}", "Elevation {m}" ]
    case DesignDayClass =>
      [ "Name", "Month", "Day of Month", "Day Type", "Maximum Dry-Bulb Temperature {C}",
        "Daily Dry-Bulb Temperature Range {deltaC}", "Dry-Bulb Temperature Range Modifier Type",
        "Dry-Bulb Temperature Range Modifier Day Schedule Name", "Humidity Condition Type",
        "Wetbulb or DewPoint at Maximum Dry-Bulb {C}", "Humidity Condition Day Schedule Name",
        "Humidity Ratio at Maximum Dry-Bulb {kgWater/kgDryAir}", "Enthalpy at Maximum Dry-Bulb {J/kg}",
        "Daily Wet-Bulb Temperature Range {deltaC}", "Barometric Pressure {Pa}", "Wind Speed {m/s}",
        "Wind Direction {deg}", "Rain Indicator", "Snow Indicator", "Daylight Saving Time Indicator",
        "Solar Model Indicator", "Beam Solar Day Schedule Name", "Diffuse Solar Day Schedule Name",
        "ASHRAE Clear Sky Optical Depth for Beam Irradiance (taub) {dimensionless}",
        "ASHRAE Clear Sky Optical Depth for Diffuse Irradiance (taud) {dimensionless}", "Sky Clearness" ]
    case ZoneClass =>
      [ "Name", "Direction of Relative North {deg}", "X Origin {m}", "Y Origin {m}", "Z Origin {m}", "Type",
        "Multiplier", "Ceiling Height {m}", "Volume {m3}" ]
    case EquipmentConnectionsClass =>
      [ "Zone Name", "Zone Conditioning Equipment List Name", "Zone Air Inlet Node or NodeList Name",
        "Zone Air Exhaust Node or NodeList Name", "Zone Air Node Name", "Zone Return Air Node Name" ]
    case EquipmentListClass =>
      [ "Name", "Zone Equipment 1 Object Type", "Zone Equipment 1 Name", "Zone Equipment 1 Cooling Sequence",
        "Zone Equipment 1 Heating Sequence" ]
    case IdealLoadsClass =>
      [ "Name", "Availability Schedule Name", "Zone Supply Air Node Name", "Zone Exhaust Air Node Name",
        "Maximum Heating Supply Air Temperature {C}", "Minimum Cooling Supply Air Temperature {C}",
        "Maximum Heating Supply Air Humidity Ratio {kgWater/kgDryAir}",
        "Minimum Cooling Supply Air Humidity Ratio {kgWater/kgDryAir}", "Heating Limit",
        "Maximum Heating Air Flow Rate {m3/s}", "Maximum Sensible Heating Capacity {W}", "Cooling Limit",
        "Maximum Cooling Air Flow Rate {m3/s}", "Maximum Total Cooling Capacity {W}",
        "Heating Availability Schedule Name", "Cooling Availability Schedule Name",
        "Dehumidification Control Type", "Cooling Sensible Heat Ratio {dimensionless}",
        "Humidification Control Type", "Design Specification Outdoor Air Object Name",
        "Outdoor Air Inlet Node Name", "Demand Controlled Ventilation Type", "Outdoor Air Economizer Type",
        "Heat Recovery Type", "Sensible Heat Recovery Effectiveness {dimensionless}",
        "Latent Heat Recovery Effectiveness {dimensionless}" ]
    case VentilationClass =>
      [ "Name", "Zone or ZoneList Name", "Schedule Name", "Design Flow Rate Calculation Method",
        "Design Flow Rate {m3/s}", "Flow Rate per Zone Floor Area {m3/s-m2}",
        "Flow Rate per Person {m3/s-person}", "Air Changes per Hour {1/hr}", "Ventilation Type",
        "Fan Pressure Rise {Pa}", "Fan Total Efficiency {dimensionless}", "Constant Term Coefficient",
        "Temperature Term Coefficient", "Velocity Term Coefficient", "Velocity Squared Term Coefficient",
        "Minimum Indoor Temperature {C}", "Minimum Indoor Temperature Schedule Name",
        "Maximum Indoor Temperature {C}", "Maximum Indoor Temperature Schedule Name",
        "Delta Temperature {deltaC}", "Delta Temperature Schedule Name", "Minimum Outdoor Temperature {C}",
        "Minimum Outdoor Temperature Schedule Name", "Maximum Outdoor Temperature {C}",
        "Maximum Outdoor Temperature Schedule Name", "Maximum Wind Speed {m/s}" ]
    case SurfaceClass =>
      [ "Name", "Surface Type", "Construction Name", "Zone Name", "Outside Boundary Condition",
        "Outside Boundary Condition Object", "Sun Exposure", "Wind Exposure", "View Factor to Ground",
        "Number of Vertices" ]
    case FenestrationClass =>
      [ "Name", "Surface Type", "Construction Name", "Building Surface Name",
        "Outside Boundary Condition Object", "View Factor to Ground", "Frame and Divider Name", "Multiplier",
        "Number of Vertices" ]
    case ConstructionClass => ["Name"]
    case MaterialClass =>
      [ "Name", "Roughness", "Thickness {m}", "Conductivity {W/m-K}", "Density {kg/m3}",
        "Specific Heat {J/kg-K}" ]
    case GlazingClass =>
      [ "Name", "Optical Data Type", "Window Glass Spectral Data Set Name", "Thickness {m}",
        "Solar Transmittance at Normal Incidence", "Front Side Solar Reflectance at Normal Incidence",
        "Back Side Solar Reflectance at Normal Incidence", "Visible Transmittance at Normal Incidence",
        "Front Side Visible Reflectance at Normal Incidence",
        "Back Side Visible Reflectance at Normal Incidence", "Infrared Transmittance at Normal Incidence",
        "Front Side Infrared Hemispherical Emissivity", "Back Side Infrared Hemispherical Emissivity",
        "Conductivity {W/m-K}" ]
    case GasClass => ["Name", "Gas Type", "Thickness {m}"]
    case ScheduleTypeLimitsClass => [ "Name", "Lower Limit Value", "Upper Limit Value", "Numeric Type" ]
    case ScheduleCompactClass =>
      [ "Name", "Schedule Type Limits Name", "Field 1", "Field 2", "Field 3", "Field 4" ]
    case RunPeriodClass =>
      [ "Name", "Begin Month", "Begin Day of Month", "End Month", "End Day of Month",
        "Day of Week for Start Day", "Use Weather File Holidays and Special Days",
        "Use Weather File Daylight Saving Period", "Apply Weekend Holiday Rule",
        "Use Weather File Rain Indicators", "Use Weather File Snow Indicators" ]
    case TableStyleClass => ["Column Separator"]
    case OutputVariableClass => ["Key Value", "Variable Name", "Reporting Frequency"]
    case SummaryReportsClass => ["Report 1 Name"]
  }

  /** The comment beside each field of the object, field by field. */
  function Notes(o: IdfObject): seq<string> {
    ClassNotes(ClassOf(o)) +
      match o
      case Surface(_, _, _, _, _, _, _, vertices) => VertexNotes(|vertices|, 1)
      case Fenestration(_, _, _, vertices) => VertexNotes(|vertices|, 1)
      case Construction(_, layers) => LayerNotes(|layers|)
      case _ => []
  }

  // ---------------------------------------------------------------------------
  // Reading the field layout back

  /** The Number of Vertices field of a surface or window, as printed. */
  function DeclaredVertexCount(o: IdfObject): Option<string> {
    if o.Surface? then TextAt(Fields(o), SurfaceHeaderLength - 1)
    else if o.Fenestration? then TextAt(Fields(o), FenestrationHeaderLength - 1)
    else None
  }

  /** The vertices a surface or window lists after its header fields, read back from those fields. */
  function ListedVertices(o: IdfObject): Option<seq<Vertex>> {
    var fs := Fields(o);
    if o.Surface? && SurfaceHeaderLength <= |fs| then DecodeVertices(fs[SurfaceHeaderLength..])
    else if o.Fenestration? && FenestrationHeaderLength <= |fs| then DecodeVertices(fs[FenestrationHeaderLength..])
    else None
  }

  /** A surface's fields name it, its construction and zone, declare its vertex count and list its vertices. */
  lemma SurfaceReadBack(o: IdfObject)
    requires o.Surface?
    ensures var fs := Fields(o);
            && TextAt(fs, 0) == Some(o.name) && TextAt(fs, 2) == Some(o.construction)
            && TextAt(fs, 3) == Some(o.zone)
            && DeclaredVertexCount(o) == Some(Text.NatToString(|o.vertices|))
            && |fs| == SurfaceHeaderLength + 3 * |o.vertices|
            && ListedVertices(o) == Some(o.vertices)
  {
    var fs := Fields(o);
    assert fs[SurfaceHeaderLength..] == VertexFields(o.vertices);
    DecodeVertexFields(o.vertices);
  }

  /** A window's fields name it, its construction and wall, declare its vertex count and list its vertices. */
  lemma FenestrationReadBack(o: IdfObject)
    requires o.Fenestration?
    ensures var fs := Fields(o);
            && TextAt(fs, 0) == Some(o.name) && TextAt(fs, 2) == Some(o.construction)
            && TextAt(fs, 3) == Some(o.baseSurface)
            && DeclaredVertexCount(o) == Some(Text.NatToString(|o.vertices|))
            && |fs| == FenestrationHeaderLength + 3 * |o.vertices|
            && ListedVertices(o) == Some(o.vertices)
  {
    var fs := Fields(o);
    assert fs[FenestrationHeaderLength..] == VertexFields(o.vertices);
    DecodeVertexFields(o.vertices);
  }

  /** A construction's fields are its name followed by its layers, one per field. */
  lemma ConstructionReadBack(o: IdfObject)
    requires o.Construction?
    ensures var fs := Fields(o);
            && TextAt(fs, 0) == Some(o.name) && |fs| == 1 + |o.layers|
            && forall k :: 0 <= k < |o.layers| ==> TextAt(fs, k + 1) == Some(o.layers[k])
  {
    var fs := [Txt(o.name)] + LayerFields(o.layers);
    assert Fields(o) == fs;
    forall k | 0 <= k < |o.layers| ensures TextAt(fs, k + 1) == Some(o.layers[k]) {
      assert fs[k + 1] == LayerFields(o.layers)[k];
    }
  }

  /** A material, glazing or gas layer prints its name in its first field. */
  lemma LayerNameReadBack(o: IdfObject)
    requires IsLayer(o)
    ensures TextAt(Fields(o), 0) == NameOf(o)
  {
    if o.Material? {
      assert Fields(o) == MaterialFields(o);
    } else if o.Glazing? {
      assert Fields(o) == GlazingFields(o);
    }
  }

  /** A zone's fields carry its name, ceiling height and volume. */
  lemma ZoneReadBack(o: IdfObject)
    requires o.Zone?
    ensures TextAt(Fields(o), 0) == Some(o.name)
    ensures NumAt(Fields(o), 7) == Some(o.ceilingHeight) && NumAt(Fields(o), 8) == Some(o.volume)
  {
  }

  /** The zone HVAC equipment is connected to is the object's first field. */
  lemma EquipmentConnectionsZoneField(o: IdfObject)
    requires o.EquipmentConnections?
    ensures TextAt(Fields(o), 0) == ZoneOf(o)
  {
    assert Fields(o) == EquipmentConnectionsFields(o.zone);
  }

  /** The zone a ventilation object serves is its second field, its flow rate the fifth. */
  lemma VentilationReadBack(o: IdfObject)
    requires o.Ventilation?
    ensures TextAt(Fields(o), 1) == ZoneOf(o) && NumAt(Fields(o), 4) == Some(o.flowRate)
  {
    assert Fields(o) == VentilationFields(o.zone, o.flowRate);
  }

  // ---------------------------------------------------------------------------
  // Cross references inside a document

  /** `doc` holds an object of class `cls` named `name`. */
  ghost predicate Defines(doc: seq<IdfObject>, cls: ObjectClass, name: string) {
    exists o :: o in doc && ClassOf(o) == cls && NameOf(o) == Some(name)
  }

  predicate IsLayer(o: IdfObject) {
    o.Material? || o.Glazing? || o.Gas?
  }

  /** `doc` holds a material, glazing or gas layer named `name`. */
  ghost predicate DefinesLayer(doc: seq<IdfObject>, name: string) {
    exists o :: o in doc && IsLayer(o) && NameOf(o) == Some(name)
  }

  /** Every construction a surface or window names is defined by a `Construction` object. */
  ghost predicate ConstructionsResolved(doc: seq<IdfObject>) {
    forall o :: o in doc && ConstructionOf(o).Some? ==> Defines(doc, ConstructionClass, ConstructionOf(o).value)
  }

  /** Every layer a `Construction` lists is defined as a material, glazing or gas. */
  ghost predicate LayersResolved(doc: seq<IdfObject>) {
    forall o, k :: o in doc && o.Construction? && 0 <= k < |o.layers| ==> DefinesLayer(doc, o.layers[k])
  }

  /** Every zone an object refers to is defined by a `Zone` object. */
  ghost predicate ZonesResolved(doc: seq<IdfObject>) {
    forall o :: o in doc && ZoneOf(o).Some? ==> Defines(doc, ZoneClass, ZoneOf(o).value)
  }

  /** Every window sits in a wall the document defines. */
  ghost predicate BaseSurfacesResolved(doc: seq<IdfObject>) {
    forall o :: o in doc && o.Fenestration? ==> Defines(doc, SurfaceClass, o.baseSurface)
  }

  /** A definition stays visible in any document that holds every object of the one it was found in. */
  /** An object of the document defines its own name in its class. */
  lemma DefinesMember(doc: seq<IdfObject>, x: IdfObject, cls: ObjectClass, name: string)
    requires x in doc && ClassOf(x) == cls && NameOf(x) == Some(name)
    ensures Defines(doc, cls, name)
  {
  }

  lemma DefinesWithin(a: seq<IdfObject>, b: seq<IdfObject>, cls: ObjectClass, name: string)
    requires Defines(a, cls, name)
    requires forall o :: o in a ==> o in b
    ensures Defines(b, cls, name)
  {
  }

  lemma DefinesLayerWithin(a: seq<IdfObject>, b: seq<IdfObject>, name: string)
    requires DefinesLayer(a, name)
    requires forall o :: o in a ==> o in b
    ensures DefinesLayer(b, name)
  {
  }

  // ---------------------------------------------------------------------------
  // Selecting and counting objects

  /** The surface and window objects of `doc`, in document order. */
  function SurfacesOf(doc: seq<IdfObject>): (r: seq<IdfObject>)
    ensures |r| <= |doc|
  {
    if doc == [] then []
    else if IsSurface(doc[0]) then [doc[0]] + SurfacesOf(doc[1..])
    else SurfacesOf(doc[1..])
  }

  /** `SurfacesOf` keeps exactly the surfaces and windows of the document. */
  lemma {:induction false} SurfacesOfMembers(doc: seq<IdfObject>, o: IdfObject)
    ensures o in SurfacesOf(doc) <==> o in doc && IsSurface(o)
  {
    if doc != [] {
      SurfacesOfMembers(doc[1..], o);
      assert doc == [doc[0]] + doc[1..];
    }
  }

  lemma {:induction false} SurfacesOfAppend(a: seq<IdfObject>, b: seq<IdfObject>)
    ensures SurfacesOf(a + b) == SurfacesOf(a) + SurfacesOf(b)
  {
    if a != [] {
      SurfacesOfAppend(a[1..], b);
      assert (a + b)[1..] == a[1..] + b;
    } else {
      assert a + b == b;
    }
  }

  /** A document whose every object is a surface or window is its own list of surfaces. */
  lemma {:induction false} SurfacesOfAllSurfaces(doc: seq<IdfObject>)
    requires forall k :: 0 <= k < |doc| ==> IsSurface(doc[k])
    ensures SurfacesOf(doc) == doc
  {
    if doc != [] {
      SurfacesOfAllSurfaces(doc[1..]);
      assert [doc[0]] + doc[1..] == doc;
    }
  }

  /** A document without surfaces or windows has none to list. */
  lemma {:induction false} SurfacesOfNone(doc: seq<IdfObject>)
    requires forall k :: 0 <= k < |doc| ==> !IsSurface(doc[k])
    ensures SurfacesOf(doc) == []
  {
    if doc != [] {
      SurfacesOfNone(doc[1..]);
    }
  }

  /** The number of objects of class `cls` in `doc`. */
  function CountClass(doc: seq<IdfObject>, cls: ObjectClass): (n: nat)
    ensures n <= |doc|
  {
    if doc == [] then 0
    else (if ClassOf(doc[0]) == cls then 1 else 0) + CountClass(doc[1..], cls)
  }

  /** None of a class is counted exactly when the document holds no object of that class. */
  lemma {:induction false} CountClassZero(doc: seq<IdfObject>, cls: ObjectClass)
    ensures CountClass(doc, cls) == 0 <==> forall o :: o in doc ==> ClassOf(o) != cls
  {
    if doc != [] {
      CountClassZero(doc[1..], cls);
      assert forall o :: o in doc <==> o == doc[0] || o in doc[1..];
    }
  }

  /** A part whose every object is of another class counts none of that class. */
  lemma NoneOfClass(a: seq<IdfObject>, cls: ObjectClass)
    requires forall k :: 0 <= k < |a| ==> ClassOf(a[k]) != cls
    ensures CountClass(a, cls) == 0
  {
    CountClassZero(a, cls);
  }

  /** A one-object document counts one of its object's class and none of any other. */
  lemma CountClassSingle(x: IdfObject, cls: ObjectClass)
    ensures CountClass([x], cls) == if ClassOf(x) == cls then 1 else 0
  {
    assert [x][1..] == [];
  }

  lemma {:induction false} CountClassAppend(a: seq<IdfObject>, b: seq<IdfObject>, cls: ObjectClass)
    ensures CountClass(a + b, cls) == CountClass(a, cls) + CountClass(b, cls)
  {
    if a != [] {
      CountClassAppend(a[1..], b, cls);
      assert (a + b)[1..] == a[1..] + b;
    } else {
      assert a + b == b;
    }
  }

  // ---------------------------------------------------------------------------
  // Rendering to text

  function RenderValue(v: Value, formatNum: real -> string): string {
    match v
    case Txt(s) => s
    case Num(x) => formatNum(x)
  }

  /**
   * One field per line, `,` after every field but the last and `;` after the
   * last, each followed by its comment when it has one.
   */
  function RenderFields(fs: seq<Value>, notes: seq<string>, formatNum: real -> string): string {
    if fs == [] then ""
    else
      var sep := if |fs| == 1 then ";" else ",";
      var note := if notes == [] || notes[0] == "" then "" else "  !- " + notes[0];
      "  " + RenderValue(fs[0], formatNum) + sep + note + "\n"
      + RenderFields(fs[1..], if notes == [] then [] else notes[1..], formatNum)
  }

  /** An object: its class name, its fields, and the blank line that separates objects. */
  function RenderObject(o: IdfObject, formatNum: real -> string): string {
    ClassName(ClassOf(o)) + ",\n" + RenderFields(Fields(o), Notes(o), formatNum) + "\n"
  }

  /** A document is rendered object by object, in order. */
  function Render(doc: seq<IdfObject>, formatNum: real -> string): string {
    Text.ConcatMap(doc, o => RenderObject(o, formatNum))
  }

  /** Rendering a document made of two parts renders the parts one after the other. */
  lemma RenderAppend(a: seq<IdfObject>, b: seq<IdfObject>, formatNum: real -> string)
    ensures Render(a + b, formatNum) == Render(a, formatNum) + Render(b, formatNum)
  {
    Text.ConcatMapAppend(a, b, o => RenderObject(o, formatNum));
  }

  /** Every object of a document appears, rendered, in the document's text. */
  lemma RenderContainsObject(doc: seq<IdfObject>, o: IdfObject, formatNum: real -> string)
    requires o in doc
    ensures Text.Contains(Render(doc, formatNum), RenderObject(o, formatNum))
  {
    Text.ConcatMapContains(doc, o, x => RenderObject(x, formatNum));
  }

  /** Each heading followed by the printed objects of its section. */
  function Layout(headings: seq<string>, sections: seq<seq<IdfObject>>, formatNum: real -> string): string
    requires |headings| == |sections|
  {
    if headings == [] then ""
    else headings[0] + Render(sections[0], formatNum) + Layout(headings[1..], sections[1..], formatNum)
  }

  /** Every object of every section is printed somewhere in the layout. */
  lemma {:induction false} LayoutHoldsSection(headings: seq<string>, sections: seq<seq<IdfObject>>,
                                              formatNum: real -> string, i: nat, o: IdfObject)
    requires |headings| == |sections| && i < |sections| && o in sections[i]
    ensures Text.Contains(Layout(headings, sections, formatNum), RenderObject(o, formatNum))
  {
    var rest := Layout(headings[1..], sections[1..], formatNum);
    var r0 := Render(sections[0], formatNum);
    var x := RenderObject(o, formatNum);
    if i == 0 {
      RenderContainsObject(sections[0], o, formatNum);
      Text.ContainsAppendLeft(headings[0], r0, x);
      Text.ContainsAppendRight(headings[0] + r0, rest, x);
    } else {
      LayoutHoldsSection(headings[1..], sections[1..], formatNum, i - 1, o);
      Text.ContainsAppendLeft(headings[0] + r0, rest, x);
    }
  }

  /** Text written after a layout leaves every object of its sections printed. */
  lemma LayoutThenTrailerHoldsSection(headings: seq<string>, sections: seq<seq<IdfObject>>,
                                      formatNum: real -> string, trailer: string, i: nat, o: IdfObject)
    requires |headings| == |sections| && i < |sections| && o in sections[i]
    ensures Text.Contains(Layout(headings, sections, formatNum) + trailer, RenderObject(o, formatNum))
  {
    LayoutHoldsSection(headings, sections, formatNum, i, o);
    Text.ContainsAppendRight(Layout(headings, sections, formatNum), trailer, RenderObject(o, formatNum));
  }
}
